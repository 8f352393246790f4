/** What the driver reports has been so, and who can change the report of a failed sandbox. */
module Reports {
  import opened Conditions
  import opened Records
  import opened Entries
  import opened Lifecycle
  import opened LifecycleInvariant

  // --------------------------------------------------------- reports were once true

  predicate Runs(c: Cell) {
    c.vm.Some? && c.vm.value.running
  }

  predicate Rests(c: Cell) {
    c.vm.Some? && !c.vm.value.running
  }

  /** What has happened to a sandbox so far: its VM ran, its VM was there and did not run,
      and a stop of it was admitted. */
  datatype Seen = Seen(ran: bool, rested: bool, asked: bool)

  predicate Saw(k: Seen, running: bool) {
    if running then k.ran else k.rested
  }

  predicate CondBacked(cond: Condition, k: Seen) {
    && (cond.reason == BackendReady ==> k.ran)
    && (cond.reason == ContainerStopped ==> k.rested && k.asked)
    && (cond.reason == ContainerExited ==> k.rested)
    && (cond.tail ==> cond.reason == ContainerExited)
  }

  predicate RecBacked(rec: Record, k: Seen) {
    rec.stopped ==> k.asked
  }

  predicate ProvBacked(p: Prov, k: Seen) {
    && (p.pc == MarkReady ==> k.ran)
    && (p.pc.SavingDigest? ==> RecBacked(p.pc.rec, k))
  }

  predicate OpBacked(o: Op, k: Seen) {
    && (o.kind == Stop ==> k.asked)
    && (o.pc == SetMark || o.pc.SavingMark? || o.pc == SetPhase ==> Saw(k, o.kind == Start))
    && (o.pc.SavingMark? ==> RecBacked(o.pc.rec, k))
  }

  predicate CellBacked(c: Cell, k: Seen) {
    && (c.vm.Some? ==> Saw(k, c.vm.value.running))
    && (c.poll.listed.Some? ==> Saw(k, c.poll.listed.value.running))
    && (c.entry.Some? ==> CondBacked(c.entry.value.cond, k) && RecBacked(c.entry.value.rec, k))
    && (c.saved.Some? ==> RecBacked(c.saved.value, k))
    && (c.prov.Some? ==> ProvBacked(c.prov.value, k))
  }

  ghost predicate Backed(s: State, id: Id, k: Seen) {
    && CellBacked(At(s, id), k)
    && (s.poll.Saving? && s.poll.rec.who.id == id ==> RecBacked(s.poll.rec, k))
    && (forall t :: t in s.ops && s.ops[t].id == id ==> OpBacked(s.ops[t], k))
  }

  /** What is known after a step: `more` is what the step shows. */
  function And(k: Seen, more: Seen): Seen {
    Seen(k.ran || more.ran, k.rested || more.rested, k.asked || more.asked)
  }

  function Shown(st: Step, c: Cell, id: Id): Seen {
    Seen(Runs(c), Rests(c), st.BeginStep? && st.id == id && st.kind == Stop)
  }

  lemma CreatedBacked(c: Cell, cfg: Config, req: Request, now: int, saved: bool, k: Seen)
    requires CellBacked(c, k)
    ensures CellBacked(Created(c, Accept(cfg, req, now), saved), k)
  {
  }

  lemma ProvActBacked(id: Id, c: Cell, a: ProvAct, k: Seen)
    requires CellBacked(c, k) && CanProv(c, a)
    ensures var c' := ProvCell(id, c, a); CellBacked(c', And(k, Seen(Runs(c'), Rests(c'), false)))
  {
  }

  lemma OpActBacked(o: Op, c: Cell, a: OpAct, k: Seen)
    requires CellBacked(c, k) && CanOp(o, c, a) && OpBacked(o, k)
    ensures var c' := OpCell(o, c, a);
            var k' := And(k, Seen(Runs(c'), Rests(c'), false));
            CellBacked(c', k') && OpBacked(OpThread(o, c, a), k')
  {
  }

  lemma DelBacked(c: Cell, a: DelAct, k: Seen)
    requires CellBacked(c, k)
    ensures CellBacked(DelCell(c, a), k) && CellBacked(MarkDeleting(c), k)
  {
  }

  lemma BusyBacked(c: Cell, busy: bool, k: Seen)
    requires CellBacked(c, k) && c.entry.Some?
    ensures CellBacked(SetBusy(c, busy), k)
  {
  }

  lemma EnvBacked(p: Phase, c: Cell, a: EnvAct, k: Seen)
    requires CellBacked(c, k) && CanEnv(p, c, a)
    ensures var c' := EnvCell(p, c, a); CellBacked(c', And(k, Seen(Runs(c'), Rests(c'), false)))
  {
  }

  lemma PollCellsBacked(c: Cell, k: Seen, ok: bool)
    requires CellBacked(c, k)
    ensures CellBacked(ListCell(c), k) && CellBacked(ApplyCell(c), k) && CellBacked(SaveCell(c, ok), k)
    ensures c.entry.Some? ==> CellBacked(AttachCell(c), k)
  {
    ApplyBacked(c, k);
  }

  lemma ApplyBacked(c: Cell, k: Seen)
    requires CellBacked(c, k)
    ensures CellBacked(ApplyCell(c), k)
  {
  }

  lemma QuickBacked(c: Cell, k: Seen, ok: bool)
    requires CellBacked(c, k)
    ensures CellBacked(QuickCell(c, ok), k)
  {
    PollCellsBacked(c, k, ok);
    PollCellsBacked(ListCell(c), k, ok);
    PollCellsBacked(ApplyCell(ListCell(c)), k, ok);
  }

  lemma PollCellBacked(s: State, a: PollAct, id: Id, k: Seen)
    requires CanPoll(s, a) && CellBacked(At(s, id), k) && (s.poll.Saving? && s.poll.rec.who.id == id ==> RecBacked(s.poll.rec, k))
    ensures CellBacked(At(DoPoll(s, a), id), k)
  {
    var c := At(s, id);
    var ok := a.QuickPoll? && id !in a.lost;
    PollCellsBacked(c, k, ok);
    QuickBacked(c, k, ok);
  }

  lemma PollSavesBacked(s: State, a: PollAct, id: Id, k: Seen)
    requires Inv(s) && CanPoll(s, a) && Backed(s, id, k)
    ensures var s' := DoPoll(s, a); s'.poll.Saving? && s'.poll.rec.who.id == id ==> RecBacked(s'.poll.rec, k)
  {
    if a.PickSave? { assert CellOk(a.id, At(s, a.id)); }
  }

  lemma PollBacked(s: State, a: PollAct, id: Id, k: Seen)
    requires Inv(s) && CanPoll(s, a) && Backed(s, id, k)
    ensures Backed(DoPoll(s, a), id, k)
  {
    PollCellBacked(s, a, id, k);
    PollSavesBacked(s, a, id, k);
    assert DoPoll(s, a).ops == s.ops;
  }

  lemma LoadBacked(s: State, id: Id, c: Cell, tail: bool, unread: set<Id>, k: Seen)
    requires CellBacked(c, k)
    ensures CellBacked(LoadCell(s, id, c, tail, unread), k)
  {
  }

  lemma CrashBacked(s: State, id: Id, k: Seen)
    requires CellBacked(At(s, id), k)
    ensures Backed(Downed(s), id, k)
  {
    assert At(Downed(s), id) == DownCell(At(s, id));
  }

  lemma SweepBacked(s: State, a: RestartAct, id: Id, k: Seen)
    requires CanRestart(s, a) && (a.Sweep? || a.OpenForBusiness?) && Backed(s, id, k)
    ensures Backed(DoRestart(s, a), id, k)
  {
    assert DoRestart(s, a).ops == s.ops && DoRestart(s, a).poll == s.poll;
  }

  lemma RestartBacked(s: State, a: RestartAct, id: Id, k: Seen)
    requires CanRestart(s, a) && Backed(s, id, k)
    ensures Backed(DoRestart(s, a), id, k)
  {
    match a
    case Crash => CrashBacked(s, id, k);
    case CrashInCreate(cfg, req, now) =>
      var rec := Accept(cfg, req, now);
      CrashBacked(Put(s, req.id, At(s, req.id).(saved := Some(rec), past := At(s, req.id).past.(accepted := Some(rec.who)))), id, k);
    case Load(tails, unread) =>
      LoadBacked(s, id, At(s, id), id in tails, unread, k);
      assert DoRestart(s, a).ops == s.ops && DoRestart(s, a).poll == s.poll;
    case _ => SweepBacked(s, a, id, k);
  }

  lemma TargetBacked(s: State, st: Step, k: Seen)
    requires Enabled(s, st) && !st.PollStep? && !st.RestartStep? && Backed(s, Target(s, st), k)
    ensures var id := Target(s, st); CellBacked(At(Apply(s, st), id), And(k, Shown(st, At(Apply(s, st), id), id)))
  {
    var c := At(s, Target(s, st));
    TargetIs(s, st);
    match st
    case CreateStep(cfg, req, now, saved) => CreatedBacked(c, cfg, req, now, saved, k);
    case ProvStep(id, a) => ProvActBacked(id, c, a, k);
    case OpStep(t, a) => OpActBacked(s.ops[t], c, a, k);
    case EnvStep(_, a) => EnvBacked(s.phase, c, a, k);
    case BeginStep(_, _, _) => BusyBacked(c, true, k);
    case ReleaseStep(_) => BusyBacked(c, false, k);
    case DelStep(_, a) => DelBacked(c, a, k);
    case DeleteStep(_, _) => DelBacked(c, DropEntry, k);
  }

  lemma ThreadBacked(s: State, st: Step, id: Id, t: Tid, k: Seen)
    requires Enabled(s, st) && !st.RestartStep? && Backed(s, id, k) && t in Apply(s, st).ops && Apply(s, st).ops[t].id == id
    ensures OpBacked(Apply(s, st).ops[t], And(k, Shown(st, At(Apply(s, st), id), id)))
  {
    ThreadSource(s, st, t);
    if st.OpStep? && st.t == t {
      var o := s.ops[t];
      OpActBacked(o, At(s, id), st.oa, k);
      assert At(Apply(s, st), id) == OpCell(o, At(s, id), st.oa);
    }
  }

  lemma CellStepBacked(s: State, st: Step, id: Id, k: Seen)
    requires Enabled(s, st) && !st.PollStep? && !st.RestartStep? && Backed(s, id, k)
    ensures CellBacked(At(Apply(s, st), id), And(k, Shown(st, At(Apply(s, st), id), id)))
  {
    if id == Target(s, st) {
      TargetBacked(s, st, k);
    } else {
      OnlyTarget(s, st, id);
      MoreBacks(At(s, id), k, Shown(st, At(s, id), id));
    }
  }

  lemma MoreBacks(c: Cell, k: Seen, more: Seen)
    requires CellBacked(c, k)
    ensures CellBacked(c, And(k, more))
  {
  }

  lemma OwnStepBacked(s: State, st: Step, id: Id, k: Seen)
    requires Enabled(s, st) && !st.PollStep? && !st.RestartStep? && Backed(s, id, k)
    ensures Backed(Apply(s, st), id, And(k, Shown(st, At(Apply(s, st), id), id)))
  {
    var s' := Apply(s, st);
    CellStepBacked(s, st, id, k);
    OthersLeavePoller(s, st, id);
    forall t | t in s'.ops && s'.ops[t].id == id ensures OpBacked(s'.ops[t], And(k, Shown(st, At(s', id), id))) {
      ThreadBacked(s, st, id, t, k);
    }
  }

  lemma StepBacked(s: State, st: Step, id: Id, k: Seen)
    requires Inv(s) && Enabled(s, st) && Backed(s, id, k)
    ensures Backed(Apply(s, st), id, And(k, Shown(st, At(Apply(s, st), id), id)))
  {
    if st.RestartStep? {
      RestartBacked(s, st.ra, id, k);
      StaysBacked(Apply(s, st), id, k, Shown(st, At(Apply(s, st), id), id));
    } else if st.PollStep? {
      PollBacked(s, st.la, id, k);
      StaysBacked(Apply(s, st), id, k, Shown(st, At(Apply(s, st), id), id));
    } else {
      OwnStepBacked(s, st, id, k);
    }
  }

  lemma StaysBacked(s: State, id: Id, k: Seen, more: Seen)
    requires Backed(s, id, k)
    ensures Backed(s, id, And(k, more))
  {
    MoreBacks(At(s, id), k, more);
  }

  ghost predicate HasRun(r: Run, i: nat, id: Id) {
    exists j :: 0 <= j <= i && j < |r.states| && Runs(At(r.states[j], id))
  }

  ghost predicate HasRested(r: Run, i: nat, id: Id) {
    exists j :: 0 <= j <= i && j < |r.states| && Rests(At(r.states[j], id))
  }

  predicate StopBegins(st: Step, id: Id) {
    st.BeginStep? && st.id == id && st.kind == Stop
  }

  ghost predicate WasAsked(r: Run, i: nat, id: Id) {
    exists j :: 0 <= j < i && j < |r.steps| && StopBegins(r.steps[j], id)
  }

  ghost function SeenSoFar(r: Run, i: nat, id: Id): Seen {
    Seen(HasRun(r, i, id), HasRested(r, i, id), WasAsked(r, i, id))
  }

  lemma SeenGrows(r: Run, i: nat, id: Id)
    requires IsRun(r) && i < |r.steps|
    ensures SeenSoFar(r, i + 1, id) == And(SeenSoFar(r, i, id), Shown(r.steps[i], At(r.states[i + 1], id), id))
  {
    assert Shown(r.steps[i], At(r.states[i + 1], id), id).asked == StopBegins(r.steps[i], id);
  }

  lemma {:induction false} HistoriesAreBacked(r: Run, i: nat, id: Id)
    requires IsHistory(r) && i < |r.states|
    ensures Backed(r.states[i], id, SeenSoFar(r, i, id))
  {
    if i > 0 {
      HistoriesAreBacked(r, i - 1, id);
      HistoriesAreSafe(r, i - 1);
      var s, st := r.states[i - 1], r.steps[i - 1];
      assert Enabled(s, st) && r.states[i] == Apply(s, st);
      SeenGrows(r, i - 1, id);
      StepBacked(s, st, id, SeenSoFar(r, i - 1, id));
    }
  }

  /** No report is made up: in every history a sandbox is reported ready only if its VM has run,
      exited only if its VM has been there without running, stopped only if besides a stop of
      it was admitted, and a console tail is attached to nothing but an exit. */
  lemma ReportsWereTrue(r: Run, i: nat, id: Id)
    requires IsHistory(r) && i < |r.states| && At(r.states[i], id).entry.Some?
    ensures var cond := At(r.states[i], id).entry.value.cond;
      && (cond.reason == BackendReady ==> exists j :: 0 <= j <= i && Runs(At(r.states[j], id)))
      && (cond.reason == ContainerExited || cond.reason == ContainerStopped ==> exists j :: 0 <= j <= i && Rests(At(r.states[j], id)))
      && (cond.reason == ContainerStopped ==> exists j :: 0 <= j < i && StopBegins(r.steps[j], id))
      && (cond.tail ==> cond.reason == ContainerExited)
  {
    HistoriesAreBacked(r, i, id);
  }

  // ------------------------------------------------------------- a failed sandbox

  predicate Failed(c: Cell) {
    c.entry.Some? && !c.entry.value.deleting && c.entry.value.cond.reason == ProvisioningFailed
  }

  /** Nobody is left who would report something else: no stop or start holds the entry, and a
      goroutine has nothing to do but close its channel. */
  predicate FailedOk(c: Cell) {
    Failed(c) ==> !c.entry.value.busy && (c.prov.Some? ==> c.prov.value.pc == Close)
  }

  lemma ProvFailedOk(id: Id, c: Cell, a: ProvAct)
    requires CellOk(id, c) && FailedOk(c) && CanProv(c, a)
    ensures FailedOk(ProvCell(id, c, a))
    ensures Failed(c) ==> ProvCell(id, c, a).entry.value.cond == c.entry.value.cond
  {
  }

  lemma OpFailedOk(id: Id, o: Op, c: Cell, a: OpAct)
    requires CellOk(id, c) && OpOk(o, c) && FailedOk(c) && CanOp(o, c, a)
    ensures FailedOk(OpCell(o, c, a)) && (c.entry.value.deleting || !Failed(c))
  {
  }

  lemma PollFailedOk(id: Id, c: Cell, ok: bool)
    requires CellOk(id, c) && FailedOk(c)
    ensures FailedOk(ListCell(c)) && FailedOk(ApplyCell(c)) && FailedOk(SaveCell(c, ok)) && (c.entry.Some? ==> FailedOk(AttachCell(c)))
  {
  }

  lemma QuickFailedOk(id: Id, c: Cell, ok: bool)
    requires CellOk(id, c) && PhaseOk(Serving, c) && FailedOk(c)
    ensures FailedOk(QuickCell(c, ok))
  {
    PollFailedOk(id, c, ok);
    ListGood(id, c);
    PollFailedOk(id, ListCell(c), ok);
    ApplyGood(id, ListCell(c));
    PollFailedOk(id, ApplyCell(ListCell(c)), ok);
  }

  lemma PollStepFailedOk(s: State, a: PollAct, id: Id)
    requires Inv(s) && CanPoll(s, a) && FailedOk(At(s, id))
    ensures FailedOk(At(DoPoll(s, a), id))
  {
    assert CellOk(id, At(s, id)) && PhaseOk(s.phase, At(s, id));
    var ok := a.QuickPoll? && id !in a.lost;
    PollFailedOk(id, At(s, id), ok);
    if s.phase.Serving? { QuickFailedOk(id, At(s, id), ok); }
  }

  lemma RestartFailedOk(s: State, a: RestartAct, id: Id)
    requires Inv(s) && CanRestart(s, a) && FailedOk(At(s, id))
    ensures FailedOk(At(DoRestart(s, a), id))
  {
    assert PhaseOk(s.phase, At(s, id));
  }

  /** What a step of anybody else does to its own cell. */
  lemma TargetFailedOk(s: State, st: Step)
    requires Inv(s) && Enabled(s, st) && !st.PollStep? && !st.RestartStep? && FailedOk(At(s, Target(s, st)))
    ensures FailedOk(At(Apply(s, st), Target(s, st)))
    ensures Failed(At(s, Target(s, st))) && !st.DeleteStep? ==> KeepsReport(At(s, Target(s, st)), At(Apply(s, st), Target(s, st)))
  {
    var id := Target(s, st);
    assert CellOk(id, At(s, id)) && PhaseOk(s.phase, At(s, id));
    TargetIs(s, st);
    match st
    case ProvStep(_, a) => ProvFailedOk(id, At(s, id), a);
    case OpStep(t, a) => OpFailedOk(id, s.ops[t], At(s, id), a);
    case ReleaseStep(t) => assert OpOk(s.ops[t], At(s, id));
    case DelStep(_, a) => DelFailedOk(At(s, id), a);
    case DeleteStep(_, _) => DelFailedOk(At(s, id), DropEntry);
    case _ =>
  }

  lemma DelFailedOk(c: Cell, a: DelAct)
    requires FailedOk(c)
    ensures FailedOk(DelCell(c, a)) && FailedOk(MarkDeleting(c))
    ensures Failed(c) ==> KeepsReport(c, DelCell(c, a))
  {
  }

  predicate KeepsReport(c: Cell, c': Cell) {
    c.entry.Some? && c'.entry.Some? && c'.entry.value.cond == c.entry.value.cond
  }

  lemma StepFailedOk(s: State, st: Step, id: Id)
    requires Inv(s) && Enabled(s, st) && FailedOk(At(s, id))
    ensures FailedOk(At(Apply(s, st), id))
    ensures Failed(At(s, id)) && !st.PollStep? && !st.RestartStep? && !Deletes(st, id) ==> KeepsReport(At(s, id), At(Apply(s, st), id))
  {
    if st.PollStep? {
      PollStepFailedOk(s, st.la, id);
    } else if st.RestartStep? {
      RestartFailedOk(s, st.ra, id);
    } else if id == Target(s, st) {
      TargetFailedOk(s, st);
    } else {
      OnlyTarget(s, st, id);
    }
  }

  predicate Deletes(st: Step, id: Id) {
    st.DeleteStep? && st.id == id
  }

  lemma {:induction false} HistoriesFailOk(r: Run, i: nat, id: Id)
    requires IsHistory(r) && i < |r.states|
    ensures FailedOk(At(r.states[i], id))
  {
    if i > 0 {
      HistoriesFailOk(r, i - 1, id);
      HistoriesAreSafe(r, i - 1);
      var s, st := r.states[i - 1], r.steps[i - 1];
      assert Enabled(s, st) && r.states[i] == Apply(s, st);
      StepFailedOk(s, st, id);
    }
  }

  /** What a poll that finds no VM does to a failed sandbox: nothing. */
  lemma PollKeepsFailed(s: State, a: PollAct, id: Id)
    requires CanPoll(s, a) && Failed(At(s, id))
    requires a.ApplyList? ==> At(s, id).poll.listed.None?
    requires a.QuickPoll? ==> At(s, id).vm.None?
    ensures KeepsReport(At(s, id), At(DoPoll(s, a), id))
  {
  }

  /** A sandbox reported as failed to provision is never stopped or started: no stop or start of
      it is admitted or in flight, and its report changes only by a delete of it, by a restart,
      or by a poll whose list shows a VM of it. */
  lemma FailedIsLeftAlone(r: Run, i: nat, id: Id)
    requires IsHistory(r) && i < |r.steps| && Failed(At(r.states[i], id))
    ensures !(r.steps[i].BeginStep? && r.steps[i].id == id)
    ensures !(r.steps[i].OpStep? && r.states[i].ops[r.steps[i].t].id == id)
    ensures KeepsReport(At(r.states[i], id), At(r.states[i + 1], id))
            || r.steps[i].RestartStep? || Deletes(r.steps[i], id)
            || (r.steps[i] == PollStep(ApplyList) && At(r.states[i], id).poll.listed.Some?)
            || (r.steps[i].PollStep? && r.steps[i].la.QuickPoll? && At(r.states[i], id).vm.Some?)
  {
    HistoriesAreSafe(r, i);
    HistoriesFailOk(r, i, id);
    var s, st := r.states[i], r.steps[i];
    assert Enabled(s, st) && r.states[i + 1] == Apply(s, st);
    StepFailedOk(s, st, id);
    if st.OpStep? { assert OpOk(s.ops[st.t], At(s, s.ops[st.t].id)); }
    if st.PollStep? && !(st.la.ApplyList? && At(s, id).poll.listed.Some?) && !(st.la.QuickPoll? && At(s, id).vm.Some?) {
      PollKeepsFailed(s, st.la, id);
    }
  }

  // ---------------------------------------------------------------- console tails

  /** The poller attaches a console tail if and only if the sandbox is still reported as
      exited and is not being deleted by then. */
  lemma TailIffStillExited(s: State, id: Id)
    requires Enabled(s, PollStep(AttachTail(id)))
    ensures var e, e' := At(s, id).entry.value, At(Apply(s, PollStep(AttachTail(id))), id).entry;
      && e'.Some? && SamePhase(e'.value.cond, e.cond) && e'.value.rec == e.rec
      && (e'.value.cond.tail <==> e.cond.tail || (e.cond.reason == ContainerExited && !e.deleting))
  {
    assert At(Apply(s, PollStep(AttachTail(id))), id) == AttachCell(At(s, id));
  }
}
