/** The per-sandbox mounts: what is accepted, and what is handed to the runtime. */
module Mounts {
  import opened Entries
  import opened Paths
  import opened RunArgs

  datatype Mount = Mount(kind: string, source: string, target: string, readOnly: Option<bool>)

  datatype DriverConfig = DriverConfig(mounts: seq<Mount>, network: string, kernel: string)

  const SEED: seq<string> := ["openshell-seed"]

  /** The guest paths user mounts may not take, by segments. */
  const RESERVED: seq<seq<string>> :=
    [["opt", "openshell"], ["etc", "openshell"], ["etc", "openshell-tls"], ["run", "netns"], ["sandbox"], SEED]

  datatype Fault =
    | TargetRequired | NotAbsolute | NotNormalized | IsRoot | Shadows(path: string)
    | Duplicate | SourceNotAbsolute | SourceGiven | UnknownKind

  datatype Verdict = Fine | Bad(at: nat, fault: Fault) | BadNetwork | BadKernel

  /** The first reserved path the target is at or under. */
  function Reserved(target: string, reserved: seq<seq<string>>): (r: Option<string>)
    ensures r.None? <==> forall i :: 0 <= i < |reserved| ==> !AtOrUnder(target, Text(reserved[i]))
  {
    if reserved == [] then None
    else if AtOrUnder(target, Text(reserved[0])) then Some(Text(reserved[0]))
    else
      var rest := Reserved(target, reserved[1..]);
      assert forall i :: 0 < i < |reserved| ==> reserved[i] == reserved[1..][i - 1];
      rest
  }

  function TargetFault(target: string, reserved: seq<seq<string>>): Option<Fault> {
    if target == "" then Some(TargetRequired)
    else if target[0] != '/' then Some(NotAbsolute)
    else if Clean(target) != target then Some(NotNormalized)
    else if target == "/" then Some(IsRoot)
    else
      match Reserved(target, reserved)
      case Some(path) => Some(Shadows(path))
      case None => None
  }

  function KindFault(m: Mount): Option<Fault> {
    if m.kind == "volume" then if Rooted(m.source) then None else Some(SourceNotAbsolute)
    else if m.kind == "tmpfs" then if m.source == "" then None else Some(SourceGiven)
    else Some(UnknownKind)
  }

  function Targets(ms: seq<Mount>): seq<string> {
    seq(|ms|, i requires 0 <= i < |ms| => ms[i].target)
  }

  function MountFault(ms: seq<Mount>, i: nat, reserved: seq<seq<string>>): Option<Fault>
    requires i < |ms|
  {
    var t := TargetFault(ms[i].target, reserved);
    if t.Some? then t
    else if exists j :: 0 <= j < i && ms[j].target == ms[i].target then Some(Duplicate)
    else KindFault(ms[i])
  }

  predicate NetworkOk(network: string) {
    ' ' !in network && '\t' !in network && '\n' !in network
  }

  predicate Valid(c: DriverConfig, reserved: seq<seq<string>>) {
    && (forall i :: 0 <= i < |c.mounts| ==> MountFault(c.mounts, i, reserved).None?)
    && NetworkOk(c.network)
    && (c.kernel != "" ==> Rooted(c.kernel))
  }

  /** Reports the first mount at fault, with its fault. */
  method Validate(c: DriverConfig, reserved: seq<seq<string>>) returns (v: Verdict)
    ensures v.Fine? <==> Valid(c, reserved)
    ensures v.Bad? ==> v.at < |c.mounts| && MountFault(c.mounts, v.at, reserved) == Some(v.fault)
    ensures v.Bad? ==> forall j :: 0 <= j < v.at ==> MountFault(c.mounts, j, reserved).None?
  {
    var seen: set<string> := {};
    for i := 0 to |c.mounts|
      invariant seen == set j | 0 <= j < i :: c.mounts[j].target
      invariant forall j :: 0 <= j < i ==> MountFault(c.mounts, j, reserved).None?
    {
      var m := c.mounts[i];
      var t := TargetFault(m.target, reserved);
      assert t.Some? ==> MountFault(c.mounts, i, reserved) == t;
      if t.Some? { return Bad(i, t.value); }
      assert m.target in seen ==> t.Some? || MountFault(c.mounts, i, reserved) == Some(Duplicate);
      if m.target in seen { return Bad(i, Duplicate); }
      seen := seen + {m.target};
      var k := KindFault(m);
      assert k.Some? ==> MountFault(c.mounts, i, reserved) == k;
      if k.Some? { return Bad(i, k.value); }
    }
    if !NetworkOk(c.network) { return BadNetwork; }
    if c.kernel != "" && !Rooted(c.kernel) { return BadKernel; }
    return Fine;
  }

  // ------------------------------------------------------------------- assembling

  /** Volume mounts are read-only unless they say otherwise. */
  function ReadOnly(m: Mount): bool {
    m.readOnly != Some(false)
  }

  function VolumesOf(ms: seq<Mount>): seq<Volume> {
    if ms == [] then []
    else
      var last := ms[|ms| - 1];
      VolumesOf(ms[..|ms| - 1]) + if last.kind == "volume" then [Volume(last.source, last.target, ReadOnly(last))] else []
  }

  function TmpfsOf(ms: seq<Mount>): seq<string> {
    if ms == [] then []
    else
      var last := ms[|ms| - 1];
      TmpfsOf(ms[..|ms| - 1]) + if last.kind == "tmpfs" then [last.target] else []
  }

  datatype Plan = Plan(volumes: seq<Volume>, tmpfs: seq<string>)

  function PlanOf(seedDir: string, ms: seq<Mount>): Plan {
    Plan([Volume(seedDir, Text(SEED), true)] + VolumesOf(ms), TmpfsOf(ms))
  }

  method Assemble(seedDir: string, ms: seq<Mount>) returns (p: Plan)
    ensures p == PlanOf(seedDir, ms)
  {
    var volumes := [Volume(seedDir, Text(SEED), true)];
    var tmpfs: seq<string> := [];
    for i := 0 to |ms|
      invariant volumes == [Volume(seedDir, Text(SEED), true)] + VolumesOf(ms[..i])
      invariant tmpfs == TmpfsOf(ms[..i])
    {
      assert ms[..i + 1][..i] == ms[..i];
      if ms[i].kind == "volume" {
        volumes := volumes + [Volume(ms[i].source, ms[i].target, if ms[i].readOnly == None then true else ms[i].readOnly.value)];
      } else if ms[i].kind == "tmpfs" {
        tmpfs := tmpfs + [ms[i].target];
      }
    }
    assert ms[..|ms|] == ms;
    p := Plan(volumes, tmpfs);
  }

  function Guests(vs: seq<Volume>): seq<string> {
    seq(|vs|, i requires 0 <= i < |vs| => vs[i].guest)
  }

  /** Every guest path of a plan. */
  function GuestTargets(p: Plan): seq<string> {
    Guests(p.volumes) + p.tmpfs
  }

  predicate Distinct(xs: seq<string>) {
    forall i, j :: 0 <= i < j < |xs| ==> xs[i] != xs[j]
  }

  lemma GuestsSnoc(vs: seq<Volume>, v: Volume)
    ensures multiset(Guests(vs + [v])) == multiset(Guests(vs)) + multiset{v.guest}
  {
    assert Guests(vs + [v]) == Guests(vs) + [v.guest];
  }

  /** Nothing is lost and nothing is added: the user's mounts go to exactly their targets. */
  lemma {:induction false} TargetsAreKept(ms: seq<Mount>)
    requires forall i :: 0 <= i < |ms| ==> KindFault(ms[i]).None?
    ensures multiset(Guests(VolumesOf(ms))) + multiset(TmpfsOf(ms)) == multiset(Targets(ms))
    decreases |ms|
  {
    if ms != [] {
      var init, last := ms[..|ms| - 1], ms[|ms| - 1];
      TargetsAreKept(init);
      assert Targets(ms) == Targets(init) + [last.target];
      KindsDiffer();
      assert KindFault(last).None?;
      if last.kind == "volume" {
        GuestsSnoc(VolumesOf(init), Volume(last.source, last.target, ReadOnly(last)));
        assert TmpfsOf(ms) == TmpfsOf(init);
      } else {
        assert VolumesOf(ms) == VolumesOf(init);
        assert TmpfsOf(ms) == TmpfsOf(init) + [last.target];
      }
    } else {
      assert Guests(VolumesOf(ms)) == [] && Targets(ms) == [];
    }
  }

  /** A volume of the plan comes from a volume mount: its own source at its own target, and
      writable only if the mount says so. */
  predicate From(v: Volume, m: Mount) {
    m.kind == "volume" && v.host == m.source && v.guest == m.target && (v.readOnly <==> m.readOnly.None? || m.readOnly.value)
  }

  lemma {:induction false} VolumesAreTheMounts(ms: seq<Mount>)
    ensures forall v <- VolumesOf(ms) :: exists m <- ms :: From(v, m)
    ensures forall m <- ms :: m.kind == "volume" ==> exists v <- VolumesOf(ms) :: From(v, m)
    decreases |ms|
  {
    if ms != [] {
      var init, last := ms[..|ms| - 1], ms[|ms| - 1];
      VolumesAreTheMounts(init);
      assert ms == init + [last];
      forall v | v in VolumesOf(ms) ensures exists m <- ms :: From(v, m) {
        if v in VolumesOf(init) {
          var m :| m in init && From(v, m);
          assert m in ms;
        } else {
          assert last in ms && From(v, last);
        }
      }
      forall m | m in ms && m.kind == "volume" ensures exists v <- VolumesOf(ms) :: From(v, m) {
        if m in init {
          var v :| v in VolumesOf(init) && From(v, m);
          assert v in VolumesOf(ms);
        } else {
          var v := Volume(last.source, last.target, ReadOnly(last));
          assert v in VolumesOf(ms) && From(v, m);
        }
      }
    }
  }

  lemma {:induction false} TmpfsAreTheMounts(ms: seq<Mount>)
    ensures forall t :: t in TmpfsOf(ms) <==> exists m <- ms :: m.kind == "tmpfs" && m.target == t
    decreases |ms|
  {
    if ms != [] {
      assert ms == ms[..|ms| - 1] + [ms[|ms| - 1]];
      TmpfsAreTheMounts(ms[..|ms| - 1]);
      TmpfsSnoc(ms[..|ms| - 1], ms[|ms| - 1]);
    }
  }

  lemma TmpfsSnoc(init: seq<Mount>, last: Mount)
    requires forall t :: t in TmpfsOf(init) <==> exists m <- init :: m.kind == "tmpfs" && m.target == t
    ensures forall t :: t in TmpfsOf(init + [last]) <==> exists m <- init + [last] :: m.kind == "tmpfs" && m.target == t
  {
    var ms := init + [last];
    assert ms[..|ms| - 1] == init;
    forall t ensures t in TmpfsOf(ms) <==> exists m <- ms :: m.kind == "tmpfs" && m.target == t {
      if m :| m in init && m.kind == "tmpfs" && m.target == t { assert m in ms; }
      if last.kind == "tmpfs" && last.target == t { assert last in ms; }
    }
  }

  /** In order: mounts one after the other are planned one after the other. */
  lemma {:induction false} PlannedInOrder(a: seq<Mount>, b: seq<Mount>)
    ensures VolumesOf(a + b) == VolumesOf(a) + VolumesOf(b) && TmpfsOf(a + b) == TmpfsOf(a) + TmpfsOf(b)
    decreases |b|
  {
    if b == [] {
      assert a + b == a;
    } else {
      assert (a + b)[..|a + b| - 1] == a + b[..|b| - 1];
      PlannedInOrder(a, b[..|b| - 1]);
    }
  }

  lemma KindsDiffer()
    ensures "volume" != "tmpfs"
  {
    assert |"volume"| != |"tmpfs"|;
  }

  lemma DistinctAsMultiset(xs: seq<string>)
    ensures Distinct(xs) <==> forall x :: multiset(xs)[x] <= 1
  {
    if Distinct(xs) {
      forall x ensures multiset(xs)[x] <= 1 { DistinctCount(xs, x); }
    }
    if !Distinct(xs) {
      var i, j :| 0 <= i < j < |xs| && xs[i] == xs[j];
      assert xs == xs[..i] + [xs[i]] + xs[i + 1..j] + [xs[j]] + xs[j + 1..];
      assert multiset(xs)[xs[i]] >= 2;
    }
  }

  lemma {:induction false} DistinctCount(xs: seq<string>, x: string)
    requires Distinct(xs)
    ensures multiset(xs)[x] <= 1
    decreases |xs|
  {
    if xs != [] {
      var init := xs[..|xs| - 1];
      assert xs == init + [xs[|xs| - 1]];
      DistinctCount(init, x);
      forall i | 0 <= i < |init| ensures init[i] != xs[|xs| - 1] { assert init[i] == xs[i]; }
    }
  }

  ghost predicate ReservedOk(reserved: seq<seq<string>>) {
    && SEED in reserved
    && forall i :: 0 <= i < |reserved| ==> AllGood(reserved[i]) && reserved[i] != []
  }

  lemma ValidTarget(c: DriverConfig, reserved: seq<seq<string>>, i: nat)
    requires Valid(c, reserved) && i < |c.mounts|
    ensures TargetFault(c.mounts[i].target, reserved).None? && KindFault(c.mounts[i]).None?
    ensures forall j :: 0 <= j < i ==> c.mounts[j].target != c.mounts[i].target
  {
    assert MountFault(c.mounts, i, reserved).None?;
  }

  lemma UserTargets(c: DriverConfig, reserved: seq<seq<string>>)
    requires Valid(c, reserved) && ReservedOk(reserved)
    ensures Distinct(Targets(c.mounts)) && Text(SEED) !in Targets(c.mounts)
    ensures forall i :: 0 <= i < |c.mounts| ==> KindFault(c.mounts[i]).None?
  {
    var k :| 0 <= k < |reserved| && reserved[k] == SEED;
    forall i | 0 <= i < |c.mounts| ensures KindFault(c.mounts[i]).None? && c.mounts[i].target != Text(SEED)
                                   && forall j :: 0 <= j < i ==> c.mounts[j].target != c.mounts[i].target {
      ValidTarget(c, reserved, i);
      assert !AtOrUnder(c.mounts[i].target, Text(reserved[k]));
    }
  }

  lemma DistinctWithOne(all: seq<string>, one: string, others: seq<string>)
    requires multiset(all) == multiset{one} + multiset(others) && Distinct(others) && one !in others
    ensures Distinct(all)
  {
    DistinctAsMultiset(others);
    forall x ensures multiset(all)[x] <= 1 {
      assert x == one ==> multiset(others)[x] == 0;
    }
    DistinctAsMultiset(all);
  }

  lemma GuestsOfPlan(first: Volume, vs: seq<Volume>, ts: seq<string>)
    ensures multiset(GuestTargets(Plan([first] + vs, ts))) == multiset{first.guest} + (multiset(Guests(vs)) + multiset(ts))
  {
    assert Guests([first] + vs) == [first.guest] + Guests(vs);
  }

  /** In what is handed to the runtime, the seed and the user's mounts have pairwise
      different guest paths. */
  lemma GuestTargetsAreDistinct(c: DriverConfig, reserved: seq<seq<string>>, seedDir: string)
    requires Valid(c, reserved) && ReservedOk(reserved)
    ensures Distinct(GuestTargets(PlanOf(seedDir, c.mounts)))
  {
    UserTargets(c, reserved);
    TargetsAreKept(c.mounts);
    GuestsOfPlan(Volume(seedDir, Text(SEED), true), VolumesOf(c.mounts), TmpfsOf(c.mounts));
    DistinctWithOne(GuestTargets(PlanOf(seedDir, c.mounts)), Text(SEED), Targets(c.mounts));
  }

  /** No accepted target is a reserved path or inside one, segment by segment. */
  lemma NoneUnderReserved(c: DriverConfig, reserved: seq<seq<string>>, i: nat, k: nat)
    requires Valid(c, reserved) && ReservedOk(reserved) && i < |c.mounts| && k < |reserved|
    ensures !(reserved[k] <= Segments(c.mounts[i].target))
  {
    ValidTarget(c, reserved, i);
    var t, r := c.mounts[i].target, Text(reserved[k]);
    SegmentsOfRender(reserved[k]);
    assert Render(reserved[k]) == r;
    RenderIsLong(reserved[k]);
    AtOrUnderIsSegmentPrefix(t, r);
    assert !AtOrUnder(t, Text(reserved[k]));
  }

  /** An absolute, clean path other than the root, neither a reserved path nor inside one. */
  ghost predicate FreeTarget(target: string, reserved: seq<seq<string>>) {
    exists segs :: AllGood(segs) && segs != [] && target == Text(segs)
                && forall k :: 0 <= k < |reserved| ==> !(reserved[k] <= segs)
  }

  /** What the check lets through, exactly: an absolute clean path other than the root that
      is neither a reserved path nor inside one. A path above a reserved one passes. */
  lemma AcceptedTargets(target: string, reserved: seq<seq<string>>)
    requires ReservedOk(reserved)
    ensures TargetFault(target, reserved).None? <==> FreeTarget(target, reserved)
  {
    if TargetFault(target, reserved).None? { AcceptedIsFree(target, reserved); }
    if FreeTarget(target, reserved) {
      var segs :| AllGood(segs) && segs != [] && target == Text(segs) && forall k :: 0 <= k < |reserved| ==> !(reserved[k] <= segs);
      SegmentsOfRender(segs);
      RenderIsLong(segs);
      assert target[0] == '/';
      forall k | 0 <= k < |reserved| ensures !AtOrUnder(target, Text(reserved[k])) { UnderIff(segs, reserved[k]); }
    }
  }

  lemma AcceptedIsFree(target: string, reserved: seq<seq<string>>)
    requires ReservedOk(reserved) && TargetFault(target, reserved).None?
    ensures FreeTarget(target, reserved)
  {
    var segs := Segments(target);
    assert target == Render(segs) == Text(segs);
    forall k | 0 <= k < |reserved| ensures !(reserved[k] <= segs) { UnderIff(segs, reserved[k]); }
  }

  lemma UnderIff(segs: seq<string>, r: seq<string>)
    requires AllGood(segs) && segs != [] && AllGood(r) && r != []
    ensures AtOrUnder(Text(segs), Text(r)) <==> r <= segs
  {
    SegmentsOfRender(segs);
    SegmentsOfRender(r);
    RenderIsLong(r);
    AtOrUnderIsSegmentPrefix(Text(segs), Text(r));
  }

  /** A volume of an absolute host path, or a tmpfs without a source. */
  predicate KindOk(m: Mount) {
    (m.kind == "volume" && m.source != "" && m.source[0] == '/') || (m.kind == "tmpfs" && m.source == "")
  }

  /** What is accepted, in one place: mounts of the two kinds, each at a free target of its own,
      a network name without blanks, an absolute kernel path or none. */
  lemma ValidIff(c: DriverConfig, reserved: seq<seq<string>>)
    requires ReservedOk(reserved)
    ensures Valid(c, reserved) <==>
      && (forall i :: 0 <= i < |c.mounts| ==> FreeTarget(c.mounts[i].target, reserved) && KindOk(c.mounts[i]))
      && (forall i, j :: 0 <= i < j < |c.mounts| ==> c.mounts[i].target != c.mounts[j].target)
      && (forall x <- c.network :: x != ' ' && x != '\t' && x != '\n')
      && (c.kernel == "" || c.kernel[0] == '/')
  {
    KindsDiffer();
    forall i | 0 <= i < |c.mounts|
      ensures MountFault(c.mounts, i, reserved).None? <==>
        FreeTarget(c.mounts[i].target, reserved) && KindOk(c.mounts[i]) && forall j :: 0 <= j < i ==> c.mounts[j].target != c.mounts[i].target
    {
      AcceptedTargets(c.mounts[i].target, reserved);
    }
  }

  /** Each fault means what it says. */
  lemma FaultsTell(ms: seq<Mount>, i: nat, reserved: seq<seq<string>>)
    requires i < |ms| && MountFault(ms, i, reserved).Some?
    ensures var m := ms[i];
      match MountFault(ms, i, reserved).value
      case TargetRequired => m.target == ""
      case NotAbsolute => m.target != "" && m.target[0] != '/'
      case NotNormalized => Clean(m.target) != m.target
      case IsRoot => m.target == "/"
      case Shadows(path) => (exists k :: 0 <= k < |reserved| && path == Text(reserved[k])) && AtOrUnder(m.target, path)
      case Duplicate => exists j :: 0 <= j < i && ms[j].target == m.target
      case SourceNotAbsolute => m.kind == "volume" && (m.source == "" || m.source[0] != '/')
      case SourceGiven => m.kind == "tmpfs" && m.source != ""
      case UnknownKind => m.kind != "volume" && m.kind != "tmpfs"
  {
    ReservedTells(ms[i].target, reserved);
  }

  lemma {:induction false} ReservedTells(target: string, reserved: seq<seq<string>>)
    ensures var r := Reserved(target, reserved);
            r.Some? ==> (exists k :: 0 <= k < |reserved| && r.value == Text(reserved[k])) && AtOrUnder(target, r.value)
    decreases |reserved|
  {
    if reserved != [] && !AtOrUnder(target, Text(reserved[0])) {
      ReservedTells(target, reserved[1..]);
      var r := Reserved(target, reserved[1..]);
      if r.Some? {
        var k :| 0 <= k < |reserved| - 1 && r.value == Text(reserved[1..][k]);
        assert reserved[k + 1] == reserved[1..][k];
      }
    }
  }

  lemma ReservedIsOk()
    ensures ReservedOk(RESERVED)
  {
    assert RESERVED[5] == SEED;
    forall i | 0 <= i < |RESERVED| ensures AllGood(RESERVED[i]) && RESERVED[i] != [] {
      ReservedSegments(i);
    }
  }

  lemma ReservedSegments(i: nat)
    requires i < |RESERVED|
    ensures AllGood(RESERVED[i]) && RESERVED[i] != []
  {
    PlainSegment("opt"); PlainSegment("openshell"); PlainSegment("etc"); PlainSegment("openshell-tls");
    PlainSegment("run"); PlainSegment("netns"); PlainSegment("sandbox"); PlainSegment("openshell-seed");
  }

  lemma PlainSegment(s: string)
    requires |s| > 2 && '/' !in s
    ensures Good(s)
  {
  }

  /** A mount over a parent of a reserved path is accepted, though it hides that path. */
  lemma ParentIsAccepted()
    ensures TargetFault("/etc", RESERVED).None? && ["etc"] <= RESERVED[1]
  {
    ReservedIsOk();
    PlainSegment("etc");
    assert Text(["etc"]) == "/etc";
    forall k | 0 <= k < |RESERVED| ensures !(RESERVED[k] <= ["etc"]) {
      if k == 4 { assert "sandbox" != "etc" by { assert |"sandbox"| != |"etc"|; } }
      if k == 5 { assert "openshell-seed" != "etc" by { assert |"openshell-seed"| != |"etc"|; } }
    }
    AcceptedTargets("/etc", RESERVED);
  }
}
