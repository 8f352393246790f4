/** The boot spec of an accepted sandbox. */
module BootSpec {
  import opened Entries
  import Env = SandboxEnv
  import P = Paths
  import Q = Quantity
  import R = Records
  import opened Mounts
  import opened RunArgs
  import opened Strings

  // ------------------------------------------------------------------------ image

  /** Pins a reference to a digest, dropping its tag. */
  function RefWithDigest(ref: string, digest: string): string {
    if '@' in ref then ref
    else
      var i := LastIndex(ref, ':');
      (if i > LastIndex(ref, '/') then ref[..i] else ref) + ("@" + digest)
  }

  /** The image to boot: strictly by digest when one was observed. */
  function RunImage(ref: string, digest: string): string {
    if digest == "" then ref else RefWithDigest(ref, digest)
  }

  /** A tag makes no difference once the digest is known; a port in the registry's name is
      not taken for a tag. */
  lemma TagIsDropped(repo: string, tag: string, digest: string)
    requires '@' !in repo && '@' !in tag && ':' !in tag && '/' !in tag
    requires LastIndex(repo, ':') <= LastIndex(repo, '/')
    ensures RefWithDigest(repo + (":" + tag), digest) == RefWithDigest(repo, digest) == repo + ("@" + digest)
  {
    TagStarts(repo, tag);
    NoAt(repo, tag);
    Pins(repo + (":" + tag), |repo|, digest);
  }

  lemma NoAt(repo: string, tag: string)
    requires '@' !in repo && '@' !in tag
    ensures '@' !in repo + (":" + tag) && (repo + (":" + tag))[..|repo|] == repo
  {
  }

  lemma Pins(ref: string, i: nat, digest: string)
    requires '@' !in ref && LastIndex(ref, ':') == i > LastIndex(ref, '/')
    ensures RefWithDigest(ref, digest) == ref[..i] + ("@" + digest)
  {
  }

  lemma TagStarts(repo: string, tag: string)
    requires ':' !in tag && '/' !in tag
    ensures LastIndex(repo + (":" + tag), ':') == |repo|
    ensures LastIndex(repo + (":" + tag), '/') == LastIndex(repo, '/')
  {
    LastIndexIs(repo, ':', tag);
    TagHasNoSlash(repo, tag);
  }

  lemma TagHasNoSlash(repo: string, tag: string)
    requires '/' !in tag
    ensures LastIndex(repo + (":" + tag), '/') == LastIndex(repo, '/')
  {
    assert repo + (":" + tag) == repo + ":" + tag;
    LastIndexBefore(repo + ":", tag, '/');
    ColonIsNoSlash(repo);
  }

  lemma ColonIsNoSlash(repo: string)
    ensures LastIndex(repo + ":", '/') == LastIndex(repo, '/')
  {
    assert (repo + ":")[..|repo|] == repo;
  }

  /** The reference is the repository and a tag: what follows the last ':' and holds no '/'. */
  predicate Tagged(ref: string, repo: string) {
    && |repo| < |ref| && ref[..|repo|] == repo && ref[|repo|] == ':'
    && ':' !in ref[|repo| + 1..] && '/' !in ref[|repo| + 1..]
  }

  /** The reference without its tag, if it has one. */
  ghost predicate Repository(ref: string, repo: string) {
    Tagged(ref, repo) || (repo == ref && forall q :: !Tagged(ref, q))
  }

  /** The image is the repository at the digest observed; without one, and where the reference
      carries a digest of its own, it is the reference. */
  ghost predicate PinnedTo(image: string, ref: string, digest: string) {
    if digest == "" || '@' in ref then image == ref
    else exists repo :: Repository(ref, repo) && image == repo + ("@" + digest)
  }

  lemma TagIsLast(ref: string, repo: string)
    requires Tagged(ref, repo)
    ensures LastIndex(ref, ':') == |repo| && LastIndex(ref, '/') < |repo|
  {
    var tag := ref[|repo| + 1..];
    assert ref == repo + (":" + tag);
    TagStarts(repo, tag);
  }

  lemma RepositoryIsUnique(ref: string, a: string, b: string)
    requires Repository(ref, a) && Repository(ref, b)
    ensures a == b
  {
    if Tagged(ref, a) && Tagged(ref, b) {
      TagIsLast(ref, a);
      TagIsLast(ref, b);
    }
  }

  lemma RunImagePins(ref: string, digest: string)
    ensures PinnedTo(RunImage(ref, digest), ref, digest)
  {
    if digest != "" && '@' !in ref {
      var i := LastIndex(ref, ':');
      if i > LastIndex(ref, '/') {
        assert Tagged(ref, ref[..i]);
      } else {
        forall q ensures !Tagged(ref, q) {
          if Tagged(ref, q) { TagIsLast(ref, q); }
        }
        assert Repository(ref, ref);
      }
    }
  }

  lemma PinnedImageIsUndashed(ref: string, digest: string)
    requires !Dashed(ref)
    ensures !Dashed(RunImage(ref, digest))
  {
  }

  // ----------------------------------------------------------------------- labels

  datatype LabelNames = LabelNames(managedBy: string, id: string, name: string, namespace: string, workspace: string)

  const DOMAIN := "openshell.ai/"
  const LABELS := LabelNames(DOMAIN + "managed-by", DOMAIN + "sandbox-id", DOMAIN + "sandbox-name",
                             DOMAIN + ("sandbox-" + "namespace"), DOMAIN + ("sandbox-" + "workspace"))

  predicate DistinctNames(l: LabelNames) {
    && l.managedBy != l.id && l.managedBy != l.name && l.managedBy != l.namespace && l.managedBy != l.workspace
    && l.id != l.name && l.id != l.namespace && l.id != l.workspace
    && l.name != l.namespace && l.name != l.workspace && l.namespace != l.workspace
  }

  function NamesOf(l: LabelNames): set<string> {
    {l.managedBy, l.id, l.name, l.namespace, l.workspace}
  }

  method Labels(l: LabelNames, manager: string, template: map<string, string>, who: R.Identity) returns (labels: map<string, string>)
    requires DistinctNames(l)
    ensures labels == template + Identity(l, manager, who)
  {
    labels := template;
    labels := labels[l.managedBy := manager];
    labels := labels[l.id := who.id];
    labels := labels[l.name := who.name];
    labels := labels[l.namespace := who.ns];
    labels := labels[l.workspace := who.workspace];
  }

  /** The labels that say whose VM it is. */
  function Identity(l: LabelNames, manager: string, who: R.Identity): map<string, string> {
    map[l.managedBy := manager, l.id := who.id, l.name := who.name, l.namespace := who.ns, l.workspace := who.workspace]
  }

  /** A template cannot pass its VM off as another sandbox's: the five labels are always the
      driver's, and every other label is the template's. */
  lemma TemplateCannotForge(l: LabelNames, manager: string, template: map<string, string>, who: R.Identity)
    requires DistinctNames(l)
    ensures var labels := template + Identity(l, manager, who);
      && labels.Keys == template.Keys + NamesOf(l)
      && labels[l.managedBy] == manager && labels[l.id] == who.id && labels[l.name] == who.name
      && labels[l.namespace] == who.ns && labels[l.workspace] == who.workspace
      && forall k <- template :: k !in NamesOf(l) ==> labels[k] == template[k]
  {
  }

  lemma Differ(a: string, b: string, p: string)
    requires |a| != |b| || exists i :: 0 <= i < |a| && a[i] != b[i]
    ensures p + a != p + b
  {
    assert (p + a)[|p|..] == a && (p + b)[|p|..] == b;
  }

  lemma LabelsDiffer()
    ensures DistinctNames(LABELS)
  {
    assert "managed-by"[0] == 'm' && "sandbox-id"[0] == 's';
    var ns, ws := "sandbox-" + "namespace", "sandbox-" + "workspace";
    assert ns[8] == "namespace"[0] == 'n' && ws[8] == "workspace"[0] == 'w';
    Differ("managed-by", "sandbox-id", DOMAIN);
    Differ("managed-by", "sandbox-name", DOMAIN);
    Differ("sandbox-id", "sandbox-name", DOMAIN);
    Differ(ns, ws, DOMAIN);
  }

  lemma LabelNamesArePlain()
    ensures forall k <- NamesOf(LABELS) :: '=' !in k
  {
    assert '=' !in DOMAIN && '=' !in "managed-by" && '=' !in "sandbox-id" && '=' !in "sandbox-name";
    assert '=' !in "sandbox-" && '=' !in "namespace" && '=' !in "workspace";
  }

  // ------------------------------------------------------------------------- spec

  /** One resource: the request's limit and request, and the driver's default. */
  datatype Sizing = Sizing(limit: string, request: string, fallback: int)

  /** The vCPUs and the mebibytes to boot with; `number` reads a decimal number. */
  function CpusOf(b: Boot): Q.Amount {
    Q.Chosen(Q.ParseCpu(b.number, b.cpus.limit), Q.ParseCpu(b.number, b.cpus.request), b.cpus.fallback)
  }

  function MemoryOf(b: Boot): Q.Amount {
    Q.Chosen(Q.MemoryMB(b.number, Q.UNITS, b.memory.limit), Q.MemoryMB(b.number, Q.UNITS, b.memory.request), b.memory.fallback)
  }

  datatype Boot = Boot(rec: R.Record, manager: string, imageUser: string,
                       seedDir: string, network: string, kernel: string, config: DriverConfig,
                       templateLabels: map<string, string>, env: Env.Input, number: string -> Q.Number, cpus: Sizing, memory: Sizing,
                       kernelUsable: bool)

  const CAPS := ["CAP_SYS_ADMIN", "CAP_NET_ADMIN", "CAP_SYS_PTRACE", "CAP_SYSLOG"]

  function KernelOf(b: Boot): string {
    if b.config.kernel != "" then b.config.kernel else b.kernel
  }

  /** Everything that can refuse a boot before the runtime is called. */
  ghost predicate Bootable(b: Boot) {
    && Valid(b.config, RESERVED) && Env.Acceptable(b.env.req)
    && CpusOf(b).Size? && MemoryOf(b).Size?
    && (KernelOf(b) == "" || b.kernelUsable)
  }

  function AmountOf(a: Q.Amount): int {
    if a.Size? then a.n else 0
  }

  /** The spec handed to the runtime, around an environment. */
  function SpecOf(b: Boot, l: LabelNames, env: map<string, string>): RunSpec {
    Sized(b, l, env, AmountOf(CpusOf(b)), AmountOf(MemoryOf(b)))
  }

  function Sized(b: Boot, l: LabelNames, env: map<string, string>, cpus: int, memoryMB: int): RunSpec {
    var plan := PlanOf(b.seedDir, b.config.mounts);
    RunSpec(b.rec.who.containerName, RunImage(b.rec.who.imageRef, b.rec.imageDigest), if b.config.network != "" then b.config.network else b.network,
            plan.volumes, plan.tmpfs, env[b.env.d.name(Env.OciImageUser) := b.imageUser],
            b.templateLabels + Identity(l, b.manager, b.rec.who), cpus, memoryMB,
            P.Text(SEED) + "/boot.sh", [], KernelOf(b), Some(0), Some(0), CAPS)
  }

  /** The first of limit and request above zero, else the driver's default. */
  predicate Sizes(n: int, limit: Q.Amount, request: Q.Amount, fallback: int) {
    && (limit.Size? && limit.n > 0 ==> n == limit.n)
    && (limit == Q.Size(0) && request.Size? && request.n > 0 ==> n == request.n)
    && (limit == Q.Size(0) && request == Q.Size(0) ==> n == fallback)
  }

  /** The seed first, read-only; then the user's mounts. */
  ghost predicate Mounted(volumes: seq<Volume>, tmpfs: seq<string>, seedDir: string, ms: seq<Mount>) {
    && |volumes| > 0 && volumes[0] == Volume(seedDir, "/openshell-seed", true)
    && (forall v <- volumes[1..] :: exists m <- ms :: From(v, m))
    && (forall m <- ms :: m.kind == "volume" ==> exists v <- volumes[1..] :: From(v, m))
    && (forall t :: t in tmpfs <==> exists m <- ms :: m.kind == "tmpfs" && m.target == t)
  }

  /** Whose VM it is, over the template's labels. */
  predicate Labelled(labels: map<string, string>, b: Boot, l: LabelNames) {
    && labels.Keys == b.templateLabels.Keys + NamesOf(l)
    && labels[l.managedBy] == b.manager && labels[l.id] == b.rec.who.id && labels[l.name] == b.rec.who.name
    && labels[l.namespace] == b.rec.who.ns && labels[l.workspace] == b.rec.who.workspace
    && (forall k <- b.templateLabels :: k !in NamesOf(l) ==> labels[k] == b.templateLabels[k])
  }

  /** Guest root, with the boot shim. */
  predicate AsRoot(spec: RunSpec) {
    && spec.uid == Some(0) && spec.gid == Some(0) && spec.entrypoint == "/openshell-seed" + "/boot.sh" && spec.args == []
    && spec.capAdd == ["CAP_SYS_ADMIN", "CAP_NET_ADMIN", "CAP_SYS_PTRACE", "CAP_SYSLOG"]
  }

  predicate Measured(spec: RunSpec, b: Boot) {
    && Sizes(spec.cpus, Q.ParseCpu(b.number, b.cpus.limit), Q.ParseCpu(b.number, b.cpus.request), b.cpus.fallback)
    && Sizes(spec.memoryMB, Q.MemoryMB(b.number, Q.UNITS, b.memory.limit), Q.MemoryMB(b.number, Q.UNITS, b.memory.request), b.memory.fallback)
  }

  /** What a boot is to be, part by part; the sandbox's own network and kernel win over the
      driver's. */
  ghost predicate Follows(spec: RunSpec, b: Boot, l: LabelNames) {
    && spec.name == b.rec.who.containerName && PinnedTo(spec.image, b.rec.who.imageRef, b.rec.imageDigest)
    && (b.config.network != "" ==> spec.network == b.config.network) && (b.config.network == "" ==> spec.network == b.network)
    && (b.config.kernel != "" ==> spec.kernel == b.config.kernel) && (b.config.kernel == "" ==> spec.kernel == b.kernel)
    && Measured(spec, b) && Mounted(spec.volumes, spec.tmpfs, b.seedDir, b.config.mounts) && Labelled(spec.labels, b, l) && AsRoot(spec)
    && b.env.d.name(Env.OciImageUser) in spec.env && spec.env[b.env.d.name(Env.OciImageUser)] == b.imageUser
  }

  lemma SeedText()
    ensures P.Text(SEED) == "/openshell-seed"
  {
    assert P.Text(SEED) == "/" + ("openshell-seed" + "");
  }

  lemma SizedFollows(b: Boot, l: LabelNames, env: map<string, string>, cpus: int, memoryMB: int)
    requires DistinctNames(l)
    requires Sizes(cpus, Q.ParseCpu(b.number, b.cpus.limit), Q.ParseCpu(b.number, b.cpus.request), b.cpus.fallback)
    requires Sizes(memoryMB, Q.MemoryMB(b.number, Q.UNITS, b.memory.limit), Q.MemoryMB(b.number, Q.UNITS, b.memory.request), b.memory.fallback)
    ensures Follows(Sized(b, l, env, cpus, memoryMB), b, l)
  {
    var spec := Sized(b, l, env, cpus, memoryMB);
    RunImagePins(b.rec.who.imageRef, b.rec.imageDigest);
    SeedText();
    VolumesAreTheMounts(b.config.mounts);
    TmpfsAreTheMounts(b.config.mounts);
    assert spec.volumes[1..] == VolumesOf(b.config.mounts);
    TemplateCannotForge(l, b.manager, b.templateLabels, b.rec.who);
  }

  lemma SpecFollows(b: Boot, l: LabelNames, env: map<string, string>)
    requires DistinctNames(l) && CpusOf(b).Size? && MemoryOf(b).Size?
    ensures Follows(SpecOf(b, l, env), b, l)
  {
    SizedFollows(b, l, env, CpusOf(b).n, MemoryOf(b).n);
  }

  /** The tag makes no difference: references of one repository boot the same spec once the
      digest is known. */
  lemma TagDoesNotMatter(b: Boot, ref: string, repo: string, l: LabelNames, env: map<string, string>)
    requires b.rec.imageDigest != "" && '@' !in b.rec.who.imageRef && '@' !in ref
    requires Repository(b.rec.who.imageRef, repo) && Repository(ref, repo)
    ensures SpecOf(b.(rec := b.rec.(who := b.rec.who.(imageRef := ref))), l, env) == SpecOf(b, l, env)
  {
    var c := b.(rec := b.rec.(who := b.rec.who.(imageRef := ref)));
    RunImagePins(b.rec.who.imageRef, b.rec.imageDigest);
    RunImagePins(ref, b.rec.imageDigest);
    ImageIs(b.rec.who.imageRef, repo, b.rec.imageDigest);
    ImageIs(ref, repo, b.rec.imageDigest);
    assert CpusOf(c) == CpusOf(b) && MemoryOf(c) == MemoryOf(b);
    SameSized(b, c, l, env, AmountOf(CpusOf(b)), AmountOf(MemoryOf(b)));
  }

  lemma SameSized(b: Boot, c: Boot, l: LabelNames, env: map<string, string>, cpus: int, memoryMB: int)
    requires c == b.(rec := c.rec) && c.rec.who == b.rec.who.(imageRef := c.rec.who.imageRef)
    requires RunImage(c.rec.who.imageRef, c.rec.imageDigest) == RunImage(b.rec.who.imageRef, b.rec.imageDigest)
    ensures Sized(c, l, env, cpus, memoryMB) == Sized(b, l, env, cpus, memoryMB)
  {
  }

  lemma ImageIs(ref: string, repo: string, digest: string)
    requires digest != "" && '@' !in ref && Repository(ref, repo)
    ensures RunImage(ref, digest) == repo + ("@" + digest)
  {
    RunImagePins(ref, digest);
    var q :| Repository(ref, q) && RunImage(ref, digest) == q + ("@" + digest);
    RepositoryIsUnique(ref, repo, q);
  }

  /** From the request to the VM: what is booted carries the request's name and labels, and is
      the image it asked for, or the default when it asked for none, at the digest observed. */
  lemma SpecAnswersRequest(spec: RunSpec, b: Boot, l: LabelNames, cfg: R.Config, req: R.Request)
    requires Follows(spec, b, l) && R.Answers(b.rec.who, cfg, req)
    ensures spec.name == "oshl-" + req.id
    ensures PinnedTo(spec.image, if req.image != "" then req.image else cfg.defaultImage, b.rec.imageDigest)
    ensures l.id in spec.labels && spec.labels[l.id] == req.id && l.name in spec.labels && spec.labels[l.name] == req.name
    ensures l.workspace in spec.labels && spec.labels[l.workspace] == req.workspace
    ensures l.namespace in spec.labels && spec.labels[l.namespace] == cfg.ns
  {
  }

  /** A spec exactly when nothing refuses the boot, and then the one described, around the
      environment of the request. */
  method BuildSpec(b: Boot, l: LabelNames) returns (r: Option<RunSpec>)
    requires DistinctNames(l) && Env.Usable(b.env.d)
    ensures r.Some? <==> Bootable(b)
    ensures r.Some? ==> exists env :: Env.IsEnv(env, b.env) && r.value == SpecOf(b, l, env)
    ensures r.Some? ==> Follows(r.value, b, l)
  {
    var verdict := Validate(b.config, RESERVED);
    if !verdict.Fine? { return None; }
    var built := Env.SandboxEnv(b.env);
    if !built.Built? { return None; }
    var vars := built.env;
    vars := vars[b.env.d.name(Env.OciImageUser) := b.imageUser];
    var labels := Labels(l, b.manager, b.templateLabels, b.rec.who);
    Q.SizesAreNatural(b.number, Q.UNITS);
    var cpus := Q.ChooseSize(text => Q.ParseCpu(b.number, text), b.cpus.limit, b.cpus.request, b.cpus.fallback);
    if cpus.Invalid? { return None; }
    var memory := Q.ChooseSize(text => Q.MemoryMB(b.number, Q.UNITS, text), b.memory.limit, b.memory.request, b.memory.fallback);
    if memory.Invalid? { return None; }
    var network := b.network;
    if b.config.network != "" { network := b.config.network; }
    var kernel := b.kernel;
    if b.config.kernel != "" { kernel := b.config.kernel; }
    if kernel != "" && !b.kernelUsable { return None; }
    var plan := Assemble(b.seedDir, b.config.mounts);
    r := Some(RunSpec(b.rec.who.containerName, RunImage(b.rec.who.imageRef, b.rec.imageDigest), network, plan.volumes, plan.tmpfs, vars, labels,
                      cpus.n, memory.n, P.Text(SEED) + "/boot.sh", [], kernel, Some(0), Some(0), CAPS));
    assert Env.IsEnv(built.env, b.env) && r.value == SpecOf(b, l, built.env);
    SpecFollows(b, l, built.env);
  }

  lemma Updates(env: map<string, string>, name: string, value: string)
    ensures env[name := value] == env + map[name := value]
  {
  }

  /** The guest sees the image's user, and no user environment can supply it. */
  lemma ImageUserIsTheImages(b: Boot, l: LabelNames, env: map<string, string>)
    requires Env.IsEnv(env, b.env)
    ensures b.env.d.name(Env.OciImageUser) !in env
    ensures SpecOf(b, l, env).env == env + map[b.env.d.name(Env.OciImageUser) := b.imageUser]
  {
    Env.NeverSet(env, b.env, Env.OciImageUser);
    Updates(env, b.env.d.name(Env.OciImageUser), b.imageUser);
  }

  lemma {:induction false} VolumesReadable(ms: seq<Mount>)
    ensures (forall v <- VolumesOf(ms) :: VolumeReadable(v))
       <==> (forall m <- ms :: m.kind == "volume" ==> ':' !in m.source && ':' !in m.target)
    decreases |ms|
  {
    if ms != [] {
      var init, last := ms[..|ms| - 1], ms[|ms| - 1];
      VolumesReadable(init);
      assert ms == init + [last];
      var v := Volume(last.source, last.target, ReadOnly(last));
      assert last.kind == "volume" ==> VolumesOf(ms) == VolumesOf(init) + [v];
      assert VolumeReadable(v) <==> ':' !in last.source && ':' !in last.target;
    }
  }

  /** What acceptance does not check: a ':' in a volume's path or in the seed directory, and
      an '=' in a template's label name. */
  predicate Separable(b: Boot) {
    && ':' !in b.seedDir
    && (forall m <- b.config.mounts :: m.kind == "volume" ==> ':' !in m.source && ':' !in m.target)
    && (forall k <- b.templateLabels :: '=' !in k)
  }

  lemma SeedIsPlain()
    ensures ':' !in P.Text(SEED)
  {
    SeedText();
  }

  lemma LabelsReadable(l: LabelNames, b: Boot)
    requires forall k <- NamesOf(l) :: '=' !in k
    ensures (forall k <- b.templateLabels + Identity(l, b.manager, b.rec.who) :: '=' !in k) <==> (forall k <- b.templateLabels :: '=' !in k)
  {
    var all := b.templateLabels + Identity(l, b.manager, b.rec.who);
    assert forall k <- b.templateLabels :: k in all;
    assert forall k <- Identity(l, b.manager, b.rec.who) :: k in NamesOf(l);
  }

  lemma SizedCommandMeansSpec(b: Boot, l: LabelNames, env: map<string, string>, cpus: int, memoryMB: int)
    requires Env.IsEnv(env, b.env) && Env.Acceptable(b.env.req) && Env.PlainNames(b.env.d)
    requires !Dashed(b.rec.who.imageRef) && forall k <- NamesOf(l) :: '=' !in k
    ensures var spec := Sized(b, l, env, cpus, memoryMB); ReadCommand(Argv(spec)) == Some(Normalized(spec)) <==> Separable(b)
  {
    var spec := Sized(b, l, env, cpus, memoryMB);
    RoundTrip(spec);
    PinnedImageIsUndashed(b.rec.who.imageRef, b.rec.imageDigest);
    Env.NamesHaveNoEquals(env, b.env);
    assert forall k <- spec.env :: '=' !in k;
    LabelsReadable(l, b);
    VolumesReadable(b.config.mounts);
    SeedIsPlain();
    SeedReadable(Volume(b.seedDir, P.Text(SEED), true), VolumesOf(b.config.mounts));
  }

  /** For an accepted sandbox, the command line that boots it means exactly its spec if and
      only if the separators of the flags' values do not occur in the names they separate;
      acceptance itself rules out every other way to be misread. */
  lemma BootCommandMeansSpec(b: Boot, l: LabelNames, env: map<string, string>)
    requires Env.IsEnv(env, b.env) && Env.Acceptable(b.env.req) && Env.PlainNames(b.env.d)
    requires !Dashed(b.rec.who.imageRef) && forall k <- NamesOf(l) :: '=' !in k
    ensures ReadCommand(Argv(SpecOf(b, l, env))) == Some(Normalized(SpecOf(b, l, env))) <==> Separable(b)
  {
    SizedCommandMeansSpec(b, l, env, AmountOf(CpusOf(b)), AmountOf(MemoryOf(b)));
  }

  lemma SeedReadable(first: Volume, vs: seq<Volume>)
    ensures (forall v <- [first] + vs :: VolumeReadable(v)) <==> VolumeReadable(first) && forall v <- vs :: VolumeReadable(v)
  {
    var all := [first] + vs;
    assert first in all && forall v <- vs :: v in all;
  }

  /** A host directory with a colon in its name, mounted at an ordinary place. */
  const COLON_CONFIG := DriverConfig([Mount("volume", "/a:b", "/x", None)], "", "")

  lemma ColonIsAccepted()
    ensures Valid(COLON_CONFIG, RESERVED)
  {
    var m := COLON_CONFIG.mounts[0];
    ReservedIsOk();
    PlainTarget("x");
    assert P.Text(["x"]) == "/x";
    assert P.Rooted("/a:b");
    assert TargetFault(m.target, RESERVED).None? && KindFault(m).None?;
    assert MountFault(COLON_CONFIG.mounts, 0, RESERVED).None?;
  }

  lemma PlainTarget(seg: string)
    requires P.Good(seg) && forall k :: 0 <= k < |RESERVED| ==> RESERVED[k] != [seg]
    ensures TargetFault(P.Text([seg]), RESERVED).None?
  {
    ReservedIsOk();
    var segs := [seg];
    forall k | 0 <= k < |RESERVED| ensures !(RESERVED[k] <= segs) { assert RESERVED[k] != segs && RESERVED[k] != []; }
    assert P.AllGood(segs);
    AcceptedTargets(P.Text(segs), RESERVED);
  }

  /** What acceptance lets through: every sandbox with this mount, otherwise accepted, passes
      all checks, and its command line does not mean its spec. */
  lemma AcceptedButMisread(b: Boot, l: LabelNames, env: map<string, string>)
    requires b.config == COLON_CONFIG && Env.Acceptable(b.env.req) && CpusOf(b).Size? && MemoryOf(b).Size? && b.kernel == ""
    requires Env.IsEnv(env, b.env) && Env.PlainNames(b.env.d) && !Dashed(b.rec.who.imageRef) && forall k <- NamesOf(l) :: '=' !in k
    ensures Bootable(b) && ReadCommand(Argv(SpecOf(b, l, env))) != Some(Normalized(SpecOf(b, l, env)))
  {
    ColonIsAccepted();
    BootCommandMeansSpec(b, l, env);
    assert COLON_CONFIG.mounts[0] in b.config.mounts && ':' in "/a:b";
  }
}
