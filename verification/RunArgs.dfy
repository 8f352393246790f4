/** The `container run` command line of a boot spec, and how a flag parser reads it. */
module RunArgs {
  import opened Entries
  import opened Strings

  datatype Volume = Volume(host: string, guest: string, readOnly: bool)

  datatype RunSpec = RunSpec(name: string, image: string, network: string, volumes: seq<Volume>, tmpfs: seq<string>,
                             env: map<string, string>, labels: map<string, string>, cpus: int, memoryMB: int,
                             entrypoint: string, args: seq<string>, kernel: string,
                             uid: Option<int>, gid: Option<int>, capAdd: seq<string>)

  const UNSET := RunSpec("", "", "", [], [], map[], map[], 0, 0, "", [], "", None, None, [])

  datatype Flag = Name | Network | VolumeFlag | Tmpfs | Env | Label | Cpus | Memory | Uid | Gid | CapAdd | Kernel | Entrypoint

  function FlagText(f: Flag): string {
    match f
    case Name => "--name"
    case Network => "--network"
    case VolumeFlag => "--volume"
    case Tmpfs => "--tmpfs"
    case Env => "--env"
    case Label => "--label"
    case Cpus => "--cpus"
    case Memory => "--memory"
    case Uid => "--uid"
    case Gid => "--gid"
    case CapAdd => "--cap-add"
    case Kernel => "--kernel"
    case Entrypoint => "--entrypoint"
  }

  /** One flag with its value. */
  datatype Opt = Opt(flag: Flag, value: string)

  // ------------------------------------------------------------------ building

  function VolumeText(v: Volume): string {
    v.host + (":" + (v.guest + (if v.readOnly then ":ro" else "")))
  }

  function VolumeOpts(vs: seq<Volume>): seq<Opt> {
    seq(|vs|, i requires 0 <= i < |vs| => Opt(VolumeFlag, VolumeText(vs[i])))
  }

  function TextOpts(f: Flag, ts: seq<string>): seq<Opt> {
    seq(|ts|, i requires 0 <= i < |ts| => Opt(f, ts[i]))
  }

  function MapOpts(f: Flag, keys: seq<string>, m: map<string, string>): seq<Opt>
    requires forall k <- keys :: k in m
  {
    seq(|keys|, i requires 0 <= i < |keys| => Opt(f, keys[i] + ("=" + m[keys[i]])))
  }

  ghost function SortedOpts(f: Flag, m: map<string, string>): seq<Opt> {
    MapOpts(f, KeysOf(m.Keys), m)
  }

  function When(c: bool, o: Opt): seq<Opt> {
    if c then [o] else []
  }

  function IntOpt(f: Flag, o: Option<int>): seq<Opt> {
    match o case None => [] case Some(n) => [Opt(f, FormatInt(n))]
  }

  function Placement(spec: RunSpec): seq<Opt> {
    When(true, Opt(Name, spec.name)) + When(spec.network != "", Opt(Network, spec.network))
    + VolumeOpts(spec.volumes) + TextOpts(Tmpfs, spec.tmpfs)
  }

  ghost function Settings(spec: RunSpec): seq<Opt> {
    SortedOpts(Env, spec.env) + SortedOpts(Label, spec.labels)
  }

  function Sizing(spec: RunSpec): seq<Opt> {
    When(spec.cpus > 0, Opt(Cpus, FormatInt(spec.cpus)))
    + When(spec.memoryMB > 0, Opt(Memory, FormatInt(spec.memoryMB) + "M"))
    + IntOpt(Uid, spec.uid) + IntOpt(Gid, spec.gid)
  }

  function Guest(spec: RunSpec): seq<Opt> {
    TextOpts(CapAdd, spec.capAdd) + When(spec.kernel != "", Opt(Kernel, spec.kernel))
    + When(spec.entrypoint != "", Opt(Entrypoint, spec.entrypoint))
  }

  /** The options of a spec, in the order of the command line. */
  ghost function Opts(spec: RunSpec): seq<Opt> {
    Placement(spec) + Settings(spec) + Sizing(spec) + Guest(spec)
  }

  function Flatten(os: seq<Opt>): seq<string> {
    if os == [] then [] else [FlagText(os[0].flag), os[0].value] + Flatten(os[1..])
  }

  ghost function Argv(spec: RunSpec): seq<string> {
    ["run", "--detach"] + (Flatten(Opts(spec)) + ([spec.image] + spec.args))
  }

  // ------------------------------------------------------------------- emitting

  lemma {:induction false} FlattenConcat(a: seq<Opt>, b: seq<Opt>)
    ensures Flatten(a + b) == Flatten(a) + Flatten(b)
    decreases |a|
  {
    if a == [] {
      assert a + b == b;
    } else {
      assert (a + b)[1..] == a[1..] + b;
      FlattenConcat(a[1..], b);
    }
  }

  method SortedKeys(m: map<string, string>) returns (keys: seq<string>)
    ensures keys == KeysOf(m.Keys)
  {
    keys := [];
    var rest := m.Keys;
    while rest != {}
      invariant rest <= m.Keys && Increasing(keys)
      invariant forall x :: x in keys <==> x in m.Keys - rest
      decreases |rest|
    {
      var k :| k in rest;
      keys := Insert(k, keys);
      rest := rest - {k};
    }
    SortingIsUnique(keys, KeysOf(m.Keys));
  }

  lemma Snoc(os: seq<Opt>, i: nat)
    requires i < |os|
    ensures Flatten(os[..i + 1]) == Flatten(os[..i]) + [FlagText(os[i].flag), os[i].value]
  {
    FlattenConcat(os[..i], [os[i]]);
    assert os[..i + 1] == os[..i] + [os[i]];
  }

  method AppendVolumes(args: seq<string>, vs: seq<Volume>) returns (r: seq<string>)
    ensures r == args + Flatten(VolumeOpts(vs))
  {
    r := args;
    ghost var os := VolumeOpts(vs);
    for i := 0 to |vs|
      invariant r == args + Flatten(os[..i])
    {
      var val := vs[i].host + ":" + vs[i].guest;
      if vs[i].readOnly { val := val + ":ro"; }
      assert val == VolumeText(vs[i]);
      r := r + ["--volume", val];
      Snoc(os, i);
    }
    assert os[..|vs|] == os;
  }

  method AppendTexts(args: seq<string>, f: Flag, ts: seq<string>) returns (r: seq<string>)
    ensures r == args + Flatten(TextOpts(f, ts))
  {
    r := args;
    ghost var os := TextOpts(f, ts);
    for i := 0 to |ts|
      invariant r == args + Flatten(os[..i])
    {
      r := r + [FlagText(f), ts[i]];
      Snoc(os, i);
    }
    assert os[..|ts|] == os;
  }

  method AppendMap(args: seq<string>, f: Flag, m: map<string, string>) returns (r: seq<string>)
    ensures r == args + Flatten(MapOpts(f, KeysOf(m.Keys), m))
  {
    var keys := SortedKeys(m);
    r := args;
    ghost var os := MapOpts(f, keys, m);
    for i := 0 to |keys|
      invariant r == args + Flatten(os[..i])
    {
      assert keys[i] in m;
      r := r + [FlagText(f), keys[i] + ("=" + m[keys[i]])];
      Snoc(os, i);
    }
    assert os[..|keys|] == os;
  }

  lemma Emitted(args: seq<string>, a: seq<Opt>, b: seq<Opt>)
    ensures args + Flatten(a) + Flatten(b) == args + Flatten(a + b)
  {
    FlattenConcat(a, b);
  }

  lemma EmittedWhen(args: seq<string>, c: bool, o: Opt)
    ensures args + Flatten(When(c, o)) == if c then args + [FlagText(o.flag), o.value] else args
  {
  }

  method AppendPlacement(args: seq<string>, spec: RunSpec) returns (r: seq<string>)
    ensures r == args + Flatten(Placement(spec))
  {
    r := args + ["--name", spec.name];
    if spec.network != "" { r := r + ["--network", spec.network]; }
    r := AppendVolumes(r, spec.volumes);
    r := AppendTexts(r, Tmpfs, spec.tmpfs);
    ghost var name, network := Opt(Name, spec.name), Opt(Network, spec.network);
    ghost var a, b := When(true, name), When(spec.network != "", network);
    EmittedWhen(args, true, name);
    EmittedWhen(args + Flatten(a), spec.network != "", network);
    Emitted(args, a, b);
    Emitted(args, a + b, VolumeOpts(spec.volumes));
    Emitted(args, a + b + VolumeOpts(spec.volumes), TextOpts(Tmpfs, spec.tmpfs));
  }

  method AppendSettings(args: seq<string>, spec: RunSpec) returns (r: seq<string>)
    ensures r == args + Flatten(Settings(spec))
  {
    r := AppendMap(args, Env, spec.env);
    r := AppendMap(r, Label, spec.labels);
    Emitted(args, SortedOpts(Env, spec.env), SortedOpts(Label, spec.labels));
  }

  method AppendSizing(args: seq<string>, spec: RunSpec) returns (r: seq<string>)
    ensures r == args + Flatten(Sizing(spec))
  {
    r := args;
    if spec.cpus > 0 { r := r + ["--cpus", FormatInt(spec.cpus)]; }
    if spec.memoryMB > 0 { r := r + ["--memory", FormatInt(spec.memoryMB) + "M"]; }
    ghost var cpus, memory := Opt(Cpus, FormatInt(spec.cpus)), Opt(Memory, FormatInt(spec.memoryMB) + "M");
    ghost var a, b := When(spec.cpus > 0, cpus), When(spec.memoryMB > 0, memory);
    EmittedWhen(args, spec.cpus > 0, cpus);
    EmittedWhen(args + Flatten(a), spec.memoryMB > 0, memory);
    Emitted(args, a, b);
    r := AppendInt(r, Uid, spec.uid);
    r := AppendInt(r, Gid, spec.gid);
    Emitted(args, a + b, IntOpt(Uid, spec.uid));
    Emitted(args, a + b + IntOpt(Uid, spec.uid), IntOpt(Gid, spec.gid));
  }

  method AppendInt(args: seq<string>, f: Flag, o: Option<int>) returns (r: seq<string>)
    ensures r == args + Flatten(IntOpt(f, o))
  {
    r := args;
    if o.Some? { r := r + [FlagText(f), FormatInt(o.value)]; }
  }

  method AppendGuest(args: seq<string>, spec: RunSpec) returns (r: seq<string>)
    ensures r == args + Flatten(Guest(spec))
  {
    r := AppendTexts(args, CapAdd, spec.capAdd);
    if spec.kernel != "" { r := r + ["--kernel", spec.kernel]; }
    if spec.entrypoint != "" { r := r + ["--entrypoint", spec.entrypoint]; }
    ghost var kernel, entrypoint := Opt(Kernel, spec.kernel), Opt(Entrypoint, spec.entrypoint);
    ghost var a, b := TextOpts(CapAdd, spec.capAdd), When(spec.kernel != "", kernel);
    EmittedWhen(args + Flatten(a), spec.kernel != "", kernel);
    Emitted(args, a, b);
    EmittedWhen(args + Flatten(a + b), spec.entrypoint != "", entrypoint);
    Emitted(args, a + b, When(spec.entrypoint != "", entrypoint));
  }

  /** The command line does not depend on the order in which the maps are walked. */
  method RunArgs(spec: RunSpec) returns (args: seq<string>)
    ensures args == Argv(spec)
  {
    args := ["run", "--detach"];
    args := AppendPlacement(args, spec);
    args := AppendSettings(args, spec);
    args := AppendSizing(args, spec);
    args := AppendGuest(args, spec);
    args := args + [spec.image];
    args := args + spec.args;
    var start := ["run", "--detach"];
    Emitted(start, Placement(spec), Settings(spec));
    Emitted(start, Placement(spec) + Settings(spec), Sizing(spec));
    Emitted(start, Placement(spec) + Settings(spec) + Sizing(spec), Guest(spec));
    Assoc(start, Flatten(Opts(spec)), [spec.image], spec.args);
  }

  lemma Assoc(a: seq<string>, b: seq<string>, c: seq<string>, d: seq<string>)
    ensures a + b + c + d == a + (b + (c + d))
  {
  }

  // -------------------------------------------------------------------- reading

  predicate Dashed(s: string) {
    s != "" && s[0] == '-'
  }

  function ParseVolume(text: string): Option<Volume> {
    match SplitAt(text, ':')
    case None => None
    case Some(p) =>
      match SplitAt(p.right, ':')
      case None => Some(Volume(p.left, p.right, false))
      case Some(q) => if q.right == "ro" then Some(Volume(p.left, q.left, true)) else None
  }

  function ParseMemory(text: string): Option<int> {
    if text != "" && text[|text| - 1] == 'M' then ParseInt(text[..|text| - 1]) else None
  }

  /** The effect of one option on the spec read so far. */
  function Apply(spec: RunSpec, o: Opt): Option<RunSpec> {
    match o.flag
    case Name => Some(spec.(name := o.value))
    case Network => Some(spec.(network := o.value))
    case VolumeFlag => (match ParseVolume(o.value) case None => None case Some(v) => Some(spec.(volumes := spec.volumes + [v])))
    case Tmpfs => Some(spec.(tmpfs := spec.tmpfs + [o.value]))
    case Env => (match SplitAt(o.value, '=') case None => None case Some(p) => Some(spec.(env := spec.env[p.left := p.right])))
    case Label => (match SplitAt(o.value, '=') case None => None case Some(p) => Some(spec.(labels := spec.labels[p.left := p.right])))
    case Cpus => (match ParseInt(o.value) case None => None case Some(n) => Some(spec.(cpus := n)))
    case Memory => (match ParseMemory(o.value) case None => None case Some(n) => Some(spec.(memoryMB := n)))
    case Uid => (match ParseInt(o.value) case None => None case Some(n) => Some(spec.(uid := Some(n))))
    case Gid => (match ParseInt(o.value) case None => None case Some(n) => Some(spec.(gid := Some(n))))
    case CapAdd => Some(spec.(capAdd := spec.capAdd + [o.value]))
    case Kernel => Some(spec.(kernel := o.value))
    case Entrypoint => Some(spec.(entrypoint := o.value))
  }

  function ApplyAll(spec: RunSpec, os: seq<Opt>): Option<RunSpec>
    decreases |os|
  {
    if os == [] then Some(spec)
    else
      match Apply(spec, os[0])
      case None => None
      case Some(next) => ApplyAll(next, os[1..])
  }

  /** The container tool's own flags. */
  function FlagOf(text: string): Option<Flag> {
    if text == "--name" then Some(Name)
    else if text == "--network" then Some(Network)
    else if text == "--volume" then Some(VolumeFlag)
    else if text == "--tmpfs" then Some(Tmpfs)
    else if text == "--env" then Some(Env)
    else if text == "--label" then Some(Label)
    else if text == "--cpus" then Some(Cpus)
    else if text == "--memory" then Some(Memory)
    else if text == "--uid" then Some(Uid)
    else if text == "--gid" then Some(Gid)
    else if text == "--cap-add" then Some(CapAdd)
    else if text == "--kernel" then Some(Kernel)
    else if text == "--entrypoint" then Some(Entrypoint)
    else None
  }

  /** Reads the words after `run --detach`: options, each with the next word as its
      value, then the image, which is the first word without a leading dash, then the
      arguments of the container's own process. */
  ghost function Read(words: seq<string>, spec: RunSpec): Option<RunSpec>
    decreases |words|
  {
    if words == [] then None
    else if !Dashed(words[0]) then Some(spec.(image := words[0], args := words[1..]))
    else if |words| == 1 || FlagOf(words[0]).None? then None
    else
      match Apply(spec, Opt(FlagOf(words[0]).value, words[1]))
      case None => None
      case Some(next) => Read(words[2..], next)
  }

  ghost function ReadCommand(argv: seq<string>): Option<RunSpec> {
    if |argv| >= 2 && argv[0] == "run" && argv[1] == "--detach" then Read(argv[2..], UNSET) else None
  }

  /** The spec a command line can express: sizes that are not positive are absent. */
  function Normalized(spec: RunSpec): RunSpec {
    spec.(cpus := if spec.cpus > 0 then spec.cpus else 0, memoryMB := if spec.memoryMB > 0 then spec.memoryMB else 0)
  }

  predicate VolumeReadable(v: Volume) {
    ':' !in v.host && ':' !in v.guest
  }

  /** The condition under which the command line means the spec. */
  predicate Readable(spec: RunSpec) {
    && !Dashed(spec.image)
    && PartsReadable(spec)
  }

  predicate PartsReadable(spec: RunSpec) {
    && (forall k <- spec.env :: '=' !in k)
    && (forall k <- spec.labels :: '=' !in k)
    && (forall v <- spec.volumes :: VolumeReadable(v))
  }

  function Key(f: Flag): (int, char) {
    match f
    case Name => (6, 'n')
    case Network => (9, 'n')
    case VolumeFlag => (8, 'v')
    case Tmpfs => (7, 't')
    case Env => (5, 'e')
    case Label => (7, 'l')
    case Cpus => (6, 'c')
    case Memory => (8, 'm')
    case Uid => (5, 'u')
    case Gid => (5, 'g')
    case CapAdd => (9, 'c')
    case Kernel => (8, 'k')
    case Entrypoint => (12, 'e')
  }

  lemma FlagShape(f: Flag)
    ensures |FlagText(f)| == Key(f).0 && FlagText(f)[2] == Key(f).1 && Dashed(FlagText(f))
  {
  }

  lemma FlagsDiffer(f: Flag, g: Flag)
    requires f != g
    ensures FlagText(f) != FlagText(g)
  {
    FlagShape(f);
    FlagShape(g);
  }

  lemma FlagIsRead(f: Flag)
    ensures FlagOf(FlagText(f)) == Some(f)
  {
    forall g | g != f ensures FlagText(g) != FlagText(f) { FlagsDiffer(f, g); }
  }

  /** Reading emitted options is applying them. */
  lemma {:induction false} ReadOpts(os: seq<Opt>, rest: seq<string>, spec: RunSpec)
    ensures Read(Flatten(os) + rest, spec)
         == match ApplyAll(spec, os) case None => None case Some(next) => Read(rest, next)
    decreases |os|
  {
    if os == [] {
      assert Flatten(os) + rest == rest;
    } else {
      FlagIsRead(os[0].flag);
      FlagShape(os[0].flag);
      var words := Flatten(os) + rest;
      assert words[2..] == Flatten(os[1..]) + rest;
      if Apply(spec, os[0]).Some? { ReadOpts(os[1..], rest, Apply(spec, os[0]).value); }
    }
  }

  lemma {:induction false} ApplyConcat(spec: RunSpec, a: seq<Opt>, b: seq<Opt>)
    ensures ApplyAll(spec, a + b) == match ApplyAll(spec, a) case None => None case Some(next) => ApplyAll(next, b)
    decreases |a|
  {
    if a == [] {
      assert a + b == b;
    } else {
      assert (a + b)[1..] == a[1..] + b;
      if Apply(spec, a[0]).Some? { ApplyConcat(Apply(spec, a[0]).value, a[1..], b); }
    }
  }

  lemma VolumeRoundTrip(v: Volume)
    requires VolumeReadable(v)
    ensures ParseVolume(VolumeText(v)) == Some(v)
  {
    if v.readOnly {
      var mode := "ro";
      assert ":ro" == [':'] + mode;
      TwoSplits(v.host, v.guest, mode);
    } else {
      assert VolumeText(v) == v.host + ([':'] + v.guest);
      SplitIs(v.host, ':', v.guest);
    }
  }

  lemma TwoSplits(host: string, guest: string, mode: string)
    requires ':' !in host && ':' !in guest
    ensures var first := SplitAt(host + ([':'] + (guest + ([':'] + mode))), ':');
            first == Some(Pair(host, guest + ([':'] + mode))) && SplitAt(first.value.right, ':') == Some(Pair(guest, mode))
  {
    SplitIs(host, ':', guest + ([':'] + mode));
    SplitIs(guest, ':', mode);
  }

  lemma {:induction false} VolumesAreRead(spec: RunSpec, vs: seq<Volume>)
    requires forall v <- vs :: VolumeReadable(v)
    ensures ApplyAll(spec, VolumeOpts(vs)) == Some(spec.(volumes := spec.volumes + vs))
    decreases |vs|
  {
    if vs != [] {
      assert VolumeOpts(vs)[1..] == VolumeOpts(vs[1..]);
      VolumeRoundTrip(vs[0]);
      VolumesAreRead(spec.(volumes := spec.volumes + [vs[0]]), vs[1..]);
      assert spec.volumes + [vs[0]] + vs[1..] == spec.volumes + vs;
    } else {
      assert spec.volumes + vs == spec.volumes;
    }
  }

  lemma {:induction false} TmpfsAreRead(spec: RunSpec, ts: seq<string>)
    ensures ApplyAll(spec, TextOpts(Tmpfs, ts)) == Some(spec.(tmpfs := spec.tmpfs + ts))
    decreases |ts|
  {
    if ts != [] {
      assert TextOpts(Tmpfs, ts)[1..] == TextOpts(Tmpfs, ts[1..]);
      TmpfsAreRead(spec.(tmpfs := spec.tmpfs + [ts[0]]), ts[1..]);
      assert spec.tmpfs + [ts[0]] + ts[1..] == spec.tmpfs + ts;
    } else {
      assert spec.tmpfs + ts == spec.tmpfs;
    }
  }

  lemma {:induction false} CapsAreRead(spec: RunSpec, ts: seq<string>)
    ensures ApplyAll(spec, TextOpts(CapAdd, ts)) == Some(spec.(capAdd := spec.capAdd + ts))
    decreases |ts|
  {
    if ts != [] {
      assert TextOpts(CapAdd, ts)[1..] == TextOpts(CapAdd, ts[1..]);
      CapsAreRead(spec.(capAdd := spec.capAdd + [ts[0]]), ts[1..]);
      assert spec.capAdd + [ts[0]] + ts[1..] == spec.capAdd + ts;
    } else {
      assert spec.capAdd + ts == spec.capAdd;
    }
  }

  /** The part of `m` that the keys name. */
  function Picked(keys: seq<string>, m: map<string, string>): map<string, string> {
    map k | k in m && k in keys :: m[k]
  }

  lemma {:induction false} EnvIsRead(spec: RunSpec, keys: seq<string>, m: map<string, string>)
    requires forall k <- keys :: k in m && '=' !in k
    ensures ApplyAll(spec, MapOpts(Env, keys, m)) == Some(spec.(env := spec.env + Picked(keys, m)))
    decreases |keys|
  {
    if keys == [] {
      assert spec.env + Picked(keys, m) == spec.env;
    } else {
      var k := keys[0];
      assert MapOpts(Env, keys, m)[1..] == MapOpts(Env, keys[1..], m);
      SplitIs(k, '=', m[k]);
      EnvIsRead(spec.(env := spec.env[k := m[k]]), keys[1..], m);
      PickedStep(spec.env, keys, m);
    }
  }

  lemma {:induction false} LabelsAreRead(spec: RunSpec, keys: seq<string>, m: map<string, string>)
    requires forall k <- keys :: k in m && '=' !in k
    ensures ApplyAll(spec, MapOpts(Label, keys, m)) == Some(spec.(labels := spec.labels + Picked(keys, m)))
    decreases |keys|
  {
    if keys == [] {
      assert spec.labels + Picked(keys, m) == spec.labels;
    } else {
      var k := keys[0];
      assert MapOpts(Label, keys, m)[1..] == MapOpts(Label, keys[1..], m);
      SplitIs(k, '=', m[k]);
      LabelsAreRead(spec.(labels := spec.labels[k := m[k]]), keys[1..], m);
      PickedStep(spec.labels, keys, m);
    }
  }

  lemma PickedStep(base: map<string, string>, keys: seq<string>, m: map<string, string>)
    requires keys != [] && forall k <- keys :: k in m
    ensures base[keys[0] := m[keys[0]]] + Picked(keys[1..], m) == base + Picked(keys, m)
  {
    assert keys == [keys[0]] + keys[1..];
  }

  lemma Stage(s: RunSpec, a: seq<Opt>, t: RunSpec, b: seq<Opt>, u: RunSpec)
    requires ApplyAll(s, a) == Some(t) && ApplyAll(t, b) == Some(u)
    ensures ApplyAll(s, a + b) == Some(u)
  {
    ApplyConcat(s, a, b);
  }

  lemma ApplyWhen(s: RunSpec, c: bool, o: Opt)
    ensures ApplyAll(s, When(c, o)) == if c then Apply(s, o) else Some(s)
  {
  }

  lemma PlacementIsRead(spec: RunSpec, s: RunSpec)
    requires s.network == "" && s.volumes == [] && s.tmpfs == []
    requires forall v <- spec.volumes :: VolumeReadable(v)
    ensures ApplyAll(s, Placement(spec))
         == Some(s.(name := spec.name, network := spec.network, volumes := spec.volumes, tmpfs := spec.tmpfs))
  {
    var a, b := When(true, Opt(Name, spec.name)), When(spec.network != "", Opt(Network, spec.network));
    var s1 := s.(name := spec.name);
    var s2 := s1.(network := spec.network);
    var s3 := s2.(volumes := spec.volumes);
    ApplyWhen(s, true, Opt(Name, spec.name));
    ApplyWhen(s1, spec.network != "", Opt(Network, spec.network));
    Stage(s, a, s1, b, s2);
    VolumesAreRead(s2, spec.volumes);
    assert s2.volumes + spec.volumes == spec.volumes;
    Stage(s, a + b, s2, VolumeOpts(spec.volumes), s3);
    TmpfsAreRead(s3, spec.tmpfs);
    assert s3.tmpfs + spec.tmpfs == spec.tmpfs;
    Stage(s, a + b + VolumeOpts(spec.volumes), s3, TextOpts(Tmpfs, spec.tmpfs), s3.(tmpfs := spec.tmpfs));
  }

  lemma PickedAll(m: map<string, string>)
    ensures map[] + Picked(KeysOf(m.Keys), m) == m
  {
  }

  lemma SettingsAreRead(spec: RunSpec, s: RunSpec)
    requires s.env == map[] && s.labels == map[]
    requires (forall k <- spec.env :: '=' !in k) && (forall k <- spec.labels :: '=' !in k)
    ensures ApplyAll(s, Settings(spec)) == Some(s.(env := spec.env, labels := spec.labels))
  {
    var t := s.(env := spec.env);
    EnvIsRead(s, KeysOf(spec.env.Keys), spec.env);
    PickedAll(spec.env);
    LabelsAreRead(t, KeysOf(spec.labels.Keys), spec.labels);
    PickedAll(spec.labels);
    Stage(s, SortedOpts(Env, spec.env), t, SortedOpts(Label, spec.labels), t.(labels := spec.labels));
  }

  lemma MemoryRoundTrip(n: int)
    ensures ParseMemory(FormatInt(n) + "M") == Some(n)
  {
    var s := FormatInt(n) + "M";
    assert s[..|s| - 1] == FormatInt(n);
    IntRoundTrip(n);
  }

  lemma SizingIsRead(spec: RunSpec, s: RunSpec)
    requires s.cpus == 0 && s.memoryMB == 0 && s.uid == None && s.gid == None
    ensures ApplyAll(s, Sizing(spec)) == Some(s.(cpus := Normalized(spec).cpus, memoryMB := Normalized(spec).memoryMB,
                                                 uid := spec.uid, gid := spec.gid))
  {
    var a := When(spec.cpus > 0, Opt(Cpus, FormatInt(spec.cpus)));
    var b := When(spec.memoryMB > 0, Opt(Memory, FormatInt(spec.memoryMB) + "M"));
    var n := Normalized(spec);
    var s1 := s.(cpus := n.cpus);
    var s2 := s1.(memoryMB := n.memoryMB);
    var s3 := s2.(uid := spec.uid);
    IntRoundTrip(spec.cpus);
    MemoryRoundTrip(spec.memoryMB);
    ApplyWhen(s, spec.cpus > 0, Opt(Cpus, FormatInt(spec.cpus)));
    ApplyWhen(s1, spec.memoryMB > 0, Opt(Memory, FormatInt(spec.memoryMB) + "M"));
    Stage(s, a, s1, b, s2);
    UserIsRead(s2, Uid, spec.uid);
    Stage(s, a + b, s2, IntOpt(Uid, spec.uid), s3);
    UserIsRead(s3, Gid, spec.gid);
    Stage(s, a + b + IntOpt(Uid, spec.uid), s3, IntOpt(Gid, spec.gid), s3.(gid := spec.gid));
  }

  lemma UserIsRead(s: RunSpec, f: Flag, o: Option<int>)
    requires (f == Uid && s.uid == None) || (f == Gid && s.gid == None)
    ensures ApplyAll(s, IntOpt(f, o)) == Some(if f == Uid then s.(uid := o) else s.(gid := o))
  {
    if o.Some? { IntRoundTrip(o.value); }
  }

  lemma GuestIsRead(spec: RunSpec, s: RunSpec)
    requires s.capAdd == [] && s.kernel == "" && s.entrypoint == ""
    ensures ApplyAll(s, Guest(spec)) == Some(s.(capAdd := spec.capAdd, kernel := spec.kernel, entrypoint := spec.entrypoint))
  {
    var a, b := TextOpts(CapAdd, spec.capAdd), When(spec.kernel != "", Opt(Kernel, spec.kernel));
    var s1 := s.(capAdd := spec.capAdd);
    var s2 := s1.(kernel := spec.kernel);
    CapsAreRead(s, spec.capAdd);
    assert s.capAdd + spec.capAdd == spec.capAdd;
    ApplyWhen(s1, spec.kernel != "", Opt(Kernel, spec.kernel));
    Stage(s, a, s1, b, s2);
    ApplyWhen(s2, spec.entrypoint != "", Opt(Entrypoint, spec.entrypoint));
    Stage(s, a + b, s2, When(spec.entrypoint != "", Opt(Entrypoint, spec.entrypoint)), s2.(entrypoint := spec.entrypoint));
  }

  lemma ReadsBack(spec: RunSpec)
    requires Readable(spec)
    ensures ReadCommand(Argv(spec)) == Some(Normalized(spec))
  {
    var rest := [spec.image] + spec.args;
    assert Argv(spec)[2..] == Flatten(Opts(spec)) + rest;
    ReadOpts(Opts(spec), rest, UNSET);
    var a, b, c := Placement(spec), Settings(spec), Sizing(spec);
    ApplyConcat(UNSET, a, b);
    ApplyConcat(UNSET, a + b, c);
    ApplyConcat(UNSET, a + b + c, Guest(spec));
    PlacementIsRead(spec, UNSET);
    var s1 := ApplyAll(UNSET, a).value;
    SettingsAreRead(spec, s1);
    var s2 := ApplyAll(s1, b).value;
    SizingIsRead(spec, s2);
    var s3 := ApplyAll(s2, c).value;
    GuestIsRead(spec, s3);
    assert rest[1..] == spec.args;
  }

  lemma ApplyKeepsReadable(spec: RunSpec, o: Opt)
    requires PartsReadable(spec) && Apply(spec, o).Some?
    ensures PartsReadable(Apply(spec, o).value)
  {
  }

  lemma {:induction false} ReadIsReadable(words: seq<string>, spec: RunSpec)
    requires PartsReadable(spec) && Read(words, spec).Some?
    ensures Readable(Read(words, spec).value)
    decreases |words|
  {
    if Dashed(words[0]) {
      var o := Opt(FlagOf(words[0]).value, words[1]);
      ApplyKeepsReadable(spec, o);
      ReadIsReadable(words[2..], Apply(spec, o).value);
    }
  }

  /** A flag parser recovers the spec from its command line exactly when the image has no
      leading dash, no environment or label name holds '=', and no volume path holds ':'. */
  lemma RoundTrip(spec: RunSpec)
    ensures ReadCommand(Argv(spec)) == Some(Normalized(spec)) <==> Readable(spec)
  {
    if Readable(spec) { ReadsBack(spec); }
    if ReadCommand(Argv(spec)) == Some(Normalized(spec)) {
      ReadIsReadable(Argv(spec)[2..], UNSET);
    }
  }
}
