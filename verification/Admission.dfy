/** What a create request has to pass before anything is recorded, and what is left to refuse
    its boot after that. */
module Admission {
  import opened Entries
  import R = Records
  import Q = Quantity
  import M = Mounts
  import P = MountPolicy
  import B = BootSpec
  import Paths
  import Env = SandboxEnv
  import opened RunArgs

  /** The checked parts of a request; a driver config that cannot be decoded is None. */
  datatype Ask = Ask(id: R.Id, gpu: bool, config: Option<M.DriverConfig>, image: string, command: seq<string>,
                     cpuRequest: string, cpuLimit: string, memoryRequest: string, memoryLimit: string)

  /** What the checks are made against. */
  datatype Site = Site(policy: P.Policy, resolve: string -> Option<string>, number: string -> Q.Number)

  /** Refused at the check with this number. */
  datatype Verdict = Accepted | Refused(at: nat) | NoSandbox | NoEndpoint

  const CHECKS := 10

  predicate ConfigOk(a: Ask) {
    a.config.Some? && M.Valid(a.config.value, M.RESERVED)
  }

  predicate Permitted(a: Ask, s: Site) {
    a.config.Some? ==>
      && (forall i :: 0 <= i < |a.config.value.mounts| ==> P.MountPermitted(s.policy, a.config.value.mounts[i], s.resolve))
      && (a.config.value.network == "" || a.config.value.network == s.policy.network || a.config.value.network in s.policy.allowed)
  }

  /** The checks in their order. */
  predicate Passes(a: Ask, s: Site, k: nat) {
    match k
    case 0 => R.ValidId(a.id)
    case 1 => !a.gpu
    case 2 => ConfigOk(a)
    case 3 => Permitted(a, s)
    case 4 => !Dashed(a.image)
    case 5 => a.command == [] || a.command[0] != ""
    case 6 => Q.ParseCpu(s.number, a.cpuRequest).Size?
    case 7 => Q.ParseCpu(s.number, a.cpuLimit).Size?
    case 8 => Q.MemoryMB(s.number, Q.UNITS, a.memoryRequest).Size?
    case 9 => Q.MemoryMB(s.number, Q.UNITS, a.memoryLimit).Size?
    case _ => true
  }

  /** A loop over quantities: the first that does not parse. */
  method FirstBad(parse: string -> Q.Amount, texts: seq<string>) returns (k: nat)
    ensures k <= |texts|
    ensures forall j :: 0 <= j < k ==> parse(texts[j]).Size?
    ensures k < |texts| ==> parse(texts[k]).Invalid?
  {
    k := 0;
    while k < |texts|
      invariant k <= |texts|
      invariant forall j :: 0 <= j < k ==> parse(texts[j]).Size?
    {
      var v := parse(texts[k]);
      if v.Invalid? { return; }
      k := k + 1;
    }
  }

  method ValidateConfig(a: Ask, s: Site) returns (v: Verdict)
    ensures v.Accepted? || v.Refused?
    ensures v.Refused? ==> (v.at == 2 || v.at == 3) && !Passes(a, s, v.at) && (v.at == 3 ==> Passes(a, s, 2))
    ensures v.Accepted? ==> Passes(a, s, 2) && Passes(a, s, 3)
  {
    if a.config.None? { return Refused(2); }
    var structure := M.Validate(a.config.value, M.RESERVED);
    if !structure.Fine? { return Refused(2); }
    var ruling := P.CheckPolicy(s.policy, a.config.value, s.resolve);
    if !ruling.Permits? { return Refused(3); }
    return Accepted;
  }

  method ValidateCpus(a: Ask, s: Site) returns (v: Verdict)
    ensures v.Accepted? || v.Refused?
    ensures v.Refused? ==> (v.at == 6 || v.at == 7) && !Passes(a, s, v.at) && (v.at == 7 ==> Passes(a, s, 6))
    ensures v.Accepted? ==> Passes(a, s, 6) && Passes(a, s, 7)
  {
    var texts := [a.cpuRequest, a.cpuLimit];
    var i := FirstBad(text => Q.ParseCpu(s.number, text), texts);
    assert texts[0] == a.cpuRequest && texts[1] == a.cpuLimit;
    return if i < 2 then Refused(6 + i) else Accepted;
  }

  method ValidateMemory(a: Ask, s: Site) returns (v: Verdict)
    ensures v.Accepted? || v.Refused?
    ensures v.Refused? ==> (v.at == 8 || v.at == 9) && !Passes(a, s, v.at) && (v.at == 9 ==> Passes(a, s, 8))
    ensures v.Accepted? ==> Passes(a, s, 8) && Passes(a, s, 9)
  {
    var texts := [a.memoryRequest, a.memoryLimit];
    var i := FirstBad(text => Q.MemoryMB(s.number, Q.UNITS, text), texts);
    assert texts[0] == a.memoryRequest && texts[1] == a.memoryLimit;
    return if i < 2 then Refused(8 + i) else Accepted;
  }

  /** Accepts exactly what passes every check, and otherwise refuses at the first that fails. */
  method ValidateSandbox(a: Ask, s: Site) returns (v: Verdict)
    ensures v.Accepted? || v.Refused?
    ensures v.Accepted? ==> forall k :: 0 <= k < CHECKS ==> Passes(a, s, k)
    ensures v.Refused? ==> v.at < CHECKS && !Passes(a, s, v.at) && forall k :: 0 <= k < v.at ==> Passes(a, s, k)
  {
    if !R.ValidId(a.id) { return Refused(0); }
    if a.gpu { return Refused(1); }
    v := ValidateConfig(a, s);
    if v.Refused? { return; }
    if |a.image| > 0 && a.image[0] == '-' { return Refused(4); }
    if |a.command| > 0 && a.command[0] == "" { return Refused(5); }
    v := ValidateCpus(a, s);
    if v.Refused? { return; }
    v := ValidateMemory(a, s);
  }

  /** CreateSandbox up to its record: the checks, then a gateway endpoint that guests can reach. */
  method CheckCreate(ask: Option<Ask>, s: Site, endpoint: string) returns (v: Verdict)
    ensures v.Accepted? ==> ask.Some? && endpoint != "" && forall k :: 0 <= k < CHECKS ==> Passes(ask.value, s, k)
    ensures v.NoSandbox? <==> ask.None?
    ensures v.NoEndpoint? ==> ask.Some? && endpoint == "" && forall k :: 0 <= k < CHECKS ==> Passes(ask.value, s, k)
    ensures v.Refused? ==> ask.Some? && v.at < CHECKS && !Passes(ask.value, s, v.at) && forall k :: 0 <= k < v.at ==> Passes(ask.value, s, k)
  {
    if ask.None? { return NoSandbox; }
    v := ValidateSandbox(ask.value, s);
    if v.Accepted? && endpoint == "" { v := NoEndpoint; }
  }

  /** The boot is that of the request. */
  ghost predicate BootOf(b: B.Boot, a: Ask, s: Site, cfg: R.Config, req: R.Request) {
    && a.config == Some(b.config) && b.number == s.number
    && b.cpus.limit == a.cpuLimit && b.cpus.request == a.cpuRequest
    && b.memory.limit == a.memoryLimit && b.memory.request == a.memoryRequest
    && req.image == a.image && R.Answers(b.rec.who, cfg, req)
  }

  /** What create lets through, a boot can refuse for two reasons only: an entry of the user
      environment, which create does not look at, or a kernel file that is not there. */
  lemma OnlyTwoRefusalsLeft(a: Ask, s: Site, b: B.Boot, cfg: R.Config, req: R.Request)
    requires forall k :: 0 <= k < CHECKS ==> Passes(a, s, k)
    requires BootOf(b, a, s, cfg, req)
    ensures B.Bootable(b) <==> Env.Acceptable(b.env.req) && (B.KernelOf(b) == "" || b.kernelUsable)
    ensures a.image != "" ==> !Dashed(b.rec.who.imageRef)
  {
    assert Passes(a, s, 2) && Passes(a, s, 4) && Passes(a, s, 6) && Passes(a, s, 7) && Passes(a, s, 8) && Passes(a, s, 9);
  }

  /** So the command line that boots an accepted request for an image of its own means exactly
      its spec if and only if the separators do not occur in the names they separate. */
  lemma AcceptedCommandMeansSpec(a: Ask, s: Site, b: B.Boot, cfg: R.Config, req: R.Request, l: B.LabelNames, env: map<string, string>)
    requires forall k :: 0 <= k < CHECKS ==> Passes(a, s, k)
    requires BootOf(b, a, s, cfg, req) && a.image != "" && B.Bootable(b)
    requires Env.IsEnv(env, b.env) && Env.PlainNames(b.env.d) && forall k <- B.NamesOf(l) :: '=' !in k
    ensures ReadCommand(Argv(B.SpecOf(b, l, env))) == Some(Normalized(B.SpecOf(b, l, env))) <==> B.Separable(b)
  {
    OnlyTwoRefusalsLeft(a, s, b, cfg, req);
    B.BootCommandMeansSpec(b, l, env);
  }

  /** No mount of an accepted request leaves the operator's root, links followed, and none is
      under a reserved path of the guest. */
  lemma AcceptedMountsAreConfined(a: Ask, s: Site, i: nat, k: nat)
    requires forall j :: 0 <= j < CHECKS ==> Passes(a, s, j)
    requires a.config.Some? && i < |a.config.value.mounts| && k < |M.RESERVED|
    requires forall t :: Paths.Rooted(t) && s.resolve(t).Some? ==> Paths.Rooted(s.resolve(t).value)
    ensures var m := a.config.value.mounts[i];
      && !(M.RESERVED[k] <= Paths.Segments(m.target))
      && (m.kind == "volume" ==> s.policy.allowHostMounts)
      && (m.kind == "volume" && s.policy.root != "" ==>
            s.resolve(s.policy.root).Some? && s.resolve(m.source).Some?
            && Paths.Segments(s.resolve(s.policy.root).value) <= Paths.Segments(s.resolve(m.source).value))
  {
    assert Passes(a, s, 2) && Passes(a, s, 3);
    var c := a.config.value;
    M.ReservedIsOk();
    M.NoneUnderReserved(c, M.RESERVED, i, k);
    if c.mounts[i].kind == "volume" && s.policy.root != "" { P.SourcesStayBelowRoot(s.policy, c, M.RESERVED, s.resolve, i); }
  }
}
