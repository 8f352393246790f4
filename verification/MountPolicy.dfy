/** The operator's policy on host mounts and networks. */
module MountPolicy {
  import opened Entries
  import opened Mounts
  import opened Paths

  /** An empty root admits every source. */
  datatype Policy = Policy(allowHostMounts: bool, root: string, network: string, allowed: seq<string>)

  datatype Ruling = Permits | DeniesMount(at: nat) | DeniesNetwork

  function AllowedNetworks(p: Policy): seq<string> {
    [p.network] + p.allowed
  }

  method NetworkAllowed(p: Policy, name: string) returns (ok: bool)
    ensures ok <==> name == p.network || name in p.allowed
    ensures ok <==> name in AllowedNetworks(p)
  {
    var all := AllowedNetworks(p);
    for i := 0 to |all|
      invariant name !in all[..i]
    {
      if all[i] == name { return true; }
      assert all[..i + 1] == all[..i] + [all[i]];
    }
    assert all[..|all|] == all;
    return false;
  }

  /** The source, with all links followed, is the root or lies below it; `resolve` follows
      links and fails on what does not exist. */
  predicate WithinRoot(p: Policy, source: string, resolve: string -> Option<string>) {
    && resolve(p.root).Some? && resolve(source).Some?
    && PathWithin(resolve(p.root).value, resolve(source).value)
  }

  predicate MountPermitted(p: Policy, m: Mount, resolve: string -> Option<string>) {
    m.kind == "volume" ==> p.allowHostMounts && (p.root != "" ==> WithinRoot(p, m.source, resolve))
  }

  /** Reports the first mount that the policy denies. */
  method CheckPolicy(p: Policy, c: DriverConfig, resolve: string -> Option<string>) returns (r: Ruling)
    ensures r.Permits? <==>
      (forall i :: 0 <= i < |c.mounts| ==> MountPermitted(p, c.mounts[i], resolve))
      && (c.network == "" || c.network == p.network || c.network in p.allowed)
    ensures r.DeniesMount? ==> r.at < |c.mounts| && !MountPermitted(p, c.mounts[r.at], resolve)
                               && forall j :: 0 <= j < r.at ==> MountPermitted(p, c.mounts[j], resolve)
  {
    for i := 0 to |c.mounts|
      invariant forall j :: 0 <= j < i ==> MountPermitted(p, c.mounts[j], resolve)
    {
      var m := c.mounts[i];
      if m.kind == "volume" {
        if !p.allowHostMounts { return DeniesMount(i); }
        if p.root != "" && !WithinRoot(p, m.source, resolve) { return DeniesMount(i); }
      }
    }
    if c.network != "" {
      var ok := NetworkAllowed(p, c.network);
      if !ok { return DeniesNetwork; }
    }
    return Permits;
  }

  /** With a root configured, every host directory that a valid and permitted configuration
      mounts lies, links followed, at or below the root, segment by segment. */
  lemma SourcesStayBelowRoot(p: Policy, c: DriverConfig, reserved: seq<seq<string>>, resolve: string -> Option<string>, i: nat)
    requires Valid(c, reserved) && i < |c.mounts| && c.mounts[i].kind == "volume" && p.root != ""
    requires MountPermitted(p, c.mounts[i], resolve)
    requires forall s :: Rooted(s) && resolve(s).Some? ==> Rooted(resolve(s).value)
    ensures p.allowHostMounts && resolve(p.root).Some? && resolve(c.mounts[i].source).Some?
    ensures var root, source := resolve(p.root).value, resolve(c.mounts[i].source).value;
            Rooted(root) && Segments(root) <= Segments(source)
  {
    ValidTarget(c, reserved, i);
    assert Rooted(c.mounts[i].source);
    PathWithinIff(resolve(p.root).value, resolve(c.mounts[i].source).value);
  }
}
