/** The sandbox lifecycle as a transition system.  One step is one critical section
    of the registry lock, one runtime call, or one store call, so every interleaving
    of the RPC handlers, the provisioning goroutines and the poller is a run.

    The state is laid out by sandbox id: the cell of an id holds its registry entry,
    its stored record, the VM under its container name and its provisioning goroutine.
    Stop, start and delete calls are threads of their own, any number per id.

    A runtime call that reports an error may or may not have taken effect, except
    that no call succeeds under an expired or cancelled context.  A crash keeps the
    store and the VMs and nothing else. */
module Lifecycle {
  import opened Conditions
  import opened Records
  import opened Entries

  type Tid = nat

  datatype ProvPc =
    | Inspect | SavingDigest(rec: Record) | Prepare | Clear | CheckCancel | Boot
    | MarkReady | Failed | MarkFailed | Close
  datatype Prov = Prov(pc: ProvPc, cancelled: bool)

  datatype OpKind = Stop | Start
  datatype OpPc = Invoke | Check | SetMark | SavingMark(rec: Record) | SetPhase | Release(ok: bool)
  datatype Op = Op(id: Id, kind: OpKind, pc: OpPc, expired: bool)

  datatype DelPc = Cancel | Wait | RemoveVm | RemoveRecord | Unregister | Returned
  datatype Del = Del(id: Id, known: bool, pc: DelPc, expired: bool)

  datatype PollPc = Idle | Listed | Persist | Saving(rec: Record) | Tails

  /** The poller's working set, per sandbox: what its last list call showed, and
      whether the sandbox is still on its persist and exited lists. */
  datatype PollMark = PollMark(listed: Option<Vm>, toSave: bool, toTail: bool)

  /** History that no step of the driver reads: the accepted identity, whether the
      gateway may still use this id for a create, whether a delete removed the record,
      and whether the last restart found a record of the sandbox that it could not read. */
  datatype Past = Past(accepted: Option<Identity>, retired: bool, removed: bool, unread: bool)

  /** Restart bookkeeping: on the orphan list, or an orphan whose delete failed. */
  datatype SweepMark = Clean | Orphan | SweepFailed

  datatype Cell = Cell(
    entry: Option<Entry>,    // the entry object, registered or still referenced
    registered: bool,        // a key of the registry map
    saved: Option<Record>,
    vm: Option<Vm>,
    prov: Option<Prov>,
    poll: PollMark,
    sweep: SweepMark,
    past: Past)

  const NO_MARK := PollMark(None, false, false)
  const BLANK := Cell(None, false, None, None, None, NO_MARK, Clean, Past(None, false, false, false))

  datatype Phase = Down | Sweeping | Serving

  datatype State = State(cells: map<Id, Cell>, ops: map<Tid, Op>, dels: map<Tid, Del>, poll: PollPc, phase: Phase)

  const INITIAL := State(map[], map[], map[], Idle, Down)

  function At(s: State, id: Id): Cell {
    if id in s.cells then s.cells[id] else BLANK
  }

  function Put(s: State, id: Id, c: Cell): State {
    s.(cells := s.cells[id := c])
  }

  function WithEntry(c: Cell, e: Entry): Cell {
    c.(entry := Some(e))
  }

  predicate Fresh(c: Cell) {
    c.past.accepted.None? && !c.past.retired
  }

  // ---------------------------------------------------------------- create

  predicate CanCreate(s: State, req: Request) {
    s.phase.Serving? && ValidId(req.id) && Fresh(At(s, req.id))
  }

  /** The record is saved and the entry registered under one lock; the provisioning
      goroutine may run from here on. */
  function Created(c: Cell, rec: Record, saved: bool): Cell {
    if !saved then c.(past := c.past.(retired := true))
    else c.(
      saved := Some(rec),
      entry := Some(Entry(rec, STARTING_CONDITION, false, false, Running)),
      registered := true,
      prov := Some(Prov(Inspect, false)),
      past := c.past.(accepted := Some(rec.who)))
  }

  // ---------------------------------------------------------- provisioning

  datatype ProvAct =
    | PinDigest(digest: string) | SkipPin | SaveDigest(ok: bool)
    | Prepared | Cleared | ClearFails(gone: bool) | NotCancelled
    | Boots | BootFails(left: Option<bool>) | Fails
    | ReportReady | DecideFailure | ReportFailure | CloseDone

  predicate CanProv(c: Cell, a: ProvAct) {
    && c.prov.Some? && c.entry.Some?
    && var p := c.prov.value;
    match a
    case PinDigest(d) => p.pc == Inspect && d != ""
    case SkipPin => p.pc == Inspect
    case SaveDigest(_) => p.pc.SavingDigest?
    case Prepared => p.pc == Prepare
    case Cleared => p.pc == Clear && !p.cancelled
    case ClearFails(_) => p.pc == Clear
    case NotCancelled => p.pc == CheckCancel && !p.cancelled
    case Boots => p.pc == Boot && !p.cancelled
    case BootFails(_) => p.pc == Boot
    case Fails => p.pc == Inspect || p.pc == Prepare || (p.pc == CheckCancel && p.cancelled)
    case ReportReady => p.pc == MarkReady
    case DecideFailure => p.pc == Failed
    case ReportFailure => p.pc == MarkFailed
    case CloseDone => p.pc == Close
  }

  function ProvCell(id: Id, c: Cell, a: ProvAct): Cell
    requires CanProv(c, a)
  {
    var p := c.prov.value;
    var e := c.entry.value;
    match a
    case PinDigest(d) =>
      var rec := e.rec.(imageDigest := d);
      c.(entry := Some(e.(rec := rec)), prov := Some(p.(pc := SavingDigest(rec))))
    case SkipPin => c.(prov := Some(p.(pc := Prepare)))
    case SaveDigest(ok) =>
      if ok then c.(saved := Some(p.pc.rec), prov := Some(p.(pc := Prepare)))
      else c.(prov := Some(p.(pc := Failed)))
    case Prepared => c.(prov := Some(p.(pc := Clear)))
    case Cleared => c.(vm := None, prov := Some(p.(pc := CheckCancel)))
    case ClearFails(gone) => c.(vm := if gone then None else c.vm, prov := Some(p.(pc := Failed)))
    case NotCancelled => c.(prov := Some(p.(pc := Boot)))
    case Boots => c.(vm := Some(Vm(true, true, id)), prov := Some(p.(pc := MarkReady)))
    case BootFails(left) =>
      c.(vm := if left.Some? then Some(Vm(left.value, true, id)) else c.vm, prov := Some(p.(pc := Failed)))
    case Fails => c.(prov := Some(p.(pc := Failed)))
    case ReportReady => c.(entry := Some(e.(cond := READY_CONDITION)), prov := Some(p.(pc := Close)))
    case DecideFailure => c.(prov := Some(p.(pc := if p.cancelled then Close else MarkFailed)))
    case ReportFailure => c.(entry := Some(e.(cond := FAILED_CONDITION)), prov := Some(p.(pc := Close)))
    case CloseDone => c.(entry := Some(e.(task := Finished)), prov := None)
  }

  // ------------------------------------------------------------ stop / start

  datatype OpAct =
    | InvokeOk | InvokeMissing | InvokeErr(took: bool) | CheckGood | CheckBad
    | WriteMark | SaveMark(ok: bool) | WritePhase | OpExpires

  predicate CanBegin(s: State, t: Tid, id: Id) {
    && s.phase.Serving? && t !in s.ops
    && At(s, id).registered && At(s, id).entry.Some?
    && LifecycleRefusal(At(s, id).entry.value) == None
  }

  predicate CanOp(o: Op, c: Cell, a: OpAct) {
    && c.entry.Some?
    && match a
       case InvokeOk => o.pc == Invoke && !o.expired && c.vm.Some?
       case InvokeMissing => o.pc == Invoke && !o.expired && c.vm.None?
       case InvokeErr(_) => o.pc == Invoke
       case CheckGood => o.pc == Check && !o.expired && c.vm.Some? && c.vm.value.running == (o.kind == Start)
       case CheckBad => o.pc == Check
       case WriteMark => o.pc == SetMark
       case SaveMark(_) => o.pc.SavingMark?
       case WritePhase => o.pc == SetPhase
       case OpExpires => true
  }

  /** The VM after a stop or start that took effect; an absent VM stays absent. */
  function Switched(c: Cell, kind: OpKind): Cell {
    if c.vm.Some? then c.(vm := Some(c.vm.value.(running := kind == Start))) else c
  }

  function OpThread(o: Op, c: Cell, a: OpAct): Op
    requires CanOp(o, c, a)
  {
    match a
    case InvokeOk => o.(pc := SetMark)
    case InvokeMissing => o.(pc := Release(false))
    case InvokeErr(_) => o.(pc := Check)
    case CheckGood => o.(pc := SetMark)
    case CheckBad => o.(pc := Release(false))
    case WriteMark => o.(pc := SavingMark(c.entry.value.rec.(stopped := o.kind == Stop)))
    case SaveMark(ok) => o.(pc := if ok then SetPhase else Release(false))
    case WritePhase => o.(pc := Release(true))
    case OpExpires => o.(expired := true)
  }

  function OpCell(o: Op, c: Cell, a: OpAct): Cell
    requires CanOp(o, c, a)
  {
    var e := c.entry.value;
    match a
    case InvokeOk => Switched(c, o.kind)
    case InvokeErr(took) => if took then Switched(c, o.kind) else c
    case WriteMark => WithEntry(c, e.(rec := e.rec.(stopped := o.kind == Stop)))
    case SaveMark(ok) => if ok then c.(saved := Some(o.pc.rec)) else c
    case WritePhase => WithEntry(c, e.(cond := if o.kind == Stop then STOPPED_CONDITION else READY_CONDITION))
    case _ => c
  }

  function SetBusy(c: Cell, busy: bool): Cell
    requires c.entry.Some?
  {
    WithEntry(c, c.entry.value.(busy := busy))
  }

  // ----------------------------------------------------------------- delete

  datatype DelAct =
    | CancelTask | DoneOrTimeout | VmRemoved | VmError(gone: bool)
    | RecordRemoved | RecordError(gone: bool) | DropEntry | DelExpires

  predicate CanDel(d: Del, c: Cell, a: DelAct) {
    match a
    case CancelTask => d.pc == Cancel
    case DoneOrTimeout => d.pc == Wait && c.entry.Some? && (ProvisionDone(c.entry.value) || d.expired)
    case VmRemoved => d.pc == RemoveVm && !d.expired
    case VmError(_) => d.pc == RemoveVm
    case RecordRemoved => d.pc == RemoveRecord
    case RecordError(_) => d.pc == RemoveRecord
    case DropEntry => d.pc == Unregister
    case DelExpires => true
  }

  /** A delete of a registered sandbox marks it; an unknown id is only remembered. */
  function MarkDeleting(c: Cell): Cell {
    if c.registered && c.entry.Some? then
      WithEntry(c, c.entry.value.(deleting := true, cond := DELETING_CONDITION))
    else
      c.(past := c.past.(retired := true))
  }

  function NewDel(id: Id, known: bool): Del {
    if known then Del(id, true, Cancel, false) else Del(id, false, RemoveVm, false)
  }

  /** The thread after the act; None when the call returned an error. */
  function DelThread(d: Del, a: DelAct): Option<Del> {
    match a
    case CancelTask => Some(d.(pc := Wait))
    case DoneOrTimeout => Some(d.(pc := RemoveVm))
    case VmRemoved => Some(d.(pc := RemoveRecord))
    case VmError(_) => None
    case RecordRemoved => Some(d.(pc := if d.known then Unregister else Returned))
    case RecordError(_) => if d.known then None else Some(d.(pc := Returned))
    case DropEntry => Some(d.(pc := Returned))
    case DelExpires => Some(d.(expired := true))
  }

  function DelCell(c: Cell, a: DelAct): Cell {
    match a
    case CancelTask => if c.prov.Some? then c.(prov := Some(c.prov.value.(cancelled := true))) else c
    case VmRemoved => c.(vm := None)
    case VmError(gone) => if gone then c.(vm := None) else c
    case RecordRemoved => c.(saved := None, past := c.past.(removed := true))
    case RecordError(gone) => if gone then c.(saved := None, past := c.past.(removed := true)) else c
    case DropEntry => c.(registered := false)
    case _ => c
  }

  // ------------------------------------------------------------------- poll

  datatype PollAct =
    | TakeList | ApplyList | PickSave(id: Id) | SaveRec(ok: bool) | PersistDone
    | AttachTail(id: Id) | PollDone
    | QuickPoll(lost: set<Id>)  // list, apply and every save with nothing in between; saves of `lost` fail

  function ListCell(c: Cell): Cell {
    c.(poll := PollMark(c.vm, false, false))
  }

  function ApplyCell(c: Cell): Cell {
    if c.registered && c.entry.Some? then
      var p := PollEntry(c.entry.value, c.poll.listed);
      c.(entry := Some(p.entry), poll := PollMark(None, p.persist, p.exited))
    else c.(poll := NO_MARK)
  }

  function SaveCell(c: Cell, ok: bool): Cell {
    if c.poll.toSave && c.entry.Some? then
      c.(saved := if ok then Some(c.entry.value.rec) else c.saved, poll := c.poll.(toSave := false))
    else c
  }

  function QuickCell(c: Cell, ok: bool): Cell {
    SaveCell(ApplyCell(ListCell(c)), ok)
  }

  function AttachCell(c: Cell): Cell
    requires c.entry.Some?
  {
    var e := c.entry.value;
    var c' := c.(poll := c.poll.(toTail := false));
    if e.cond.reason == ContainerExited && !e.deleting then WithEntry(c', e.(cond := e.cond.(tail := true))) else c'
  }

  predicate CanPoll(s: State, a: PollAct) {
    match a
    case TakeList => s.phase.Serving? && s.poll.Idle?
    case ApplyList => s.poll.Listed?
    case PickSave(id) => s.poll.Persist? && At(s, id).poll.toSave && At(s, id).entry.Some?
    case SaveRec(_) => s.poll.Saving?
    case PersistDone => s.poll.Persist? && forall id :: id in s.cells ==> !s.cells[id].poll.toSave
    case AttachTail(id) => s.poll.Tails? && At(s, id).poll.toTail && At(s, id).entry.Some?
    case PollDone => s.poll.Tails?
    case QuickPoll(_) => s.phase.Serving? && s.poll.Idle?
  }

  function DoPoll(s: State, a: PollAct): State
    requires CanPoll(s, a)
  {
    match a
    case TakeList => s.(cells := map id | id in s.cells :: ListCell(s.cells[id]), poll := Listed)
    case ApplyList => s.(cells := map id | id in s.cells :: ApplyCell(s.cells[id]), poll := Persist)
    case PickSave(id) =>
      var c := At(s, id);
      Put(s, id, c.(poll := c.poll.(toSave := false))).(poll := Saving(c.entry.value.rec))
    case SaveRec(ok) =>
      var id := s.poll.rec.who.id;
      (if ok then Put(s, id, At(s, id).(saved := Some(s.poll.rec))) else s).(poll := Persist)
    case PersistDone => s.(poll := Tails)
    case AttachTail(id) => Put(s, id, AttachCell(At(s, id)))
    case PollDone => s.(poll := Idle)
    case QuickPoll(lost) => s.(cells := map id | id in s.cells :: QuickCell(s.cells[id], id !in lost), poll := Tails)
  }

  // -------------------------------------------------------- the outside world

  datatype EnvAct =
    | VmTurns(running: bool) | VmVanishes
    | VmAppears(vm: Vm)  // a container in the namespace that was not booted for a sandbox
    | ShutdownCancels

  predicate CanEnv(phase: Phase, c: Cell, a: EnvAct) {
    match a
    case VmTurns(_) => c.vm.Some?
    case VmVanishes => c.vm.Some?
    case VmAppears(vm) =>
      c.vm.None? && c.past.accepted.None? && (vm.managed ==> phase.Serving? && vm.sandbox == "")
    case ShutdownCancels => c.prov.Some?
  }

  function EnvCell(phase: Phase, c: Cell, a: EnvAct): Cell
    requires CanEnv(phase, c, a)
  {
    match a
    case VmTurns(running) => c.(vm := Some(c.vm.value.(running := running)))
    case VmVanishes => c.(vm := None)
    case VmAppears(vm) => c.(vm := Some(vm), past := c.past.(retired := true))
    case ShutdownCancels => c.(prov := Some(c.prov.value.(cancelled := true)))
  }

  // ---------------------------------------------------------- crash, restart

  datatype RestartAct =
    | Crash
    | CrashInCreate(cfg: Config, req: Request, now: int)  // record saved, nothing registered yet
    | Load(tails: set<Id>, unread: set<Id>)  // `unread`: the records that cannot be read or decoded now
    | Sweep(id: Id, ok: bool)
    | OpenForBusiness

  predicate CanRestart(s: State, a: RestartAct) {
    match a
    case Crash => true
    case CrashInCreate(_, req, _) => CanCreate(s, req)
    case Load(_, _) => s.phase.Down?
    case Sweep(id, _) => s.phase.Sweeping? && At(s, id).sweep.Orphan?
    case OpenForBusiness => s.phase.Sweeping? && forall id :: id in s.cells ==> !s.cells[id].sweep.Orphan?
  }

  function DownCell(c: Cell): Cell {
    Cell(None, false, c.saved, c.vm, None, NO_MARK, Clean, c.past.(unread := false))
  }

  function Downed(s: State): State {
    State(map id | id in s.cells :: DownCell(s.cells[id]), map[], map[], Idle, Down)
  }

  /** The records a restart gets to see: one that cannot be read is skipped. */
  predicate Readable(id: Id, c: Cell, unread: set<Id>) {
    c.saved.Some? && id !in unread
  }

  /** A managed container whose sandbox label names no record the restart got to see. */
  predicate IsOrphan(s: State, c: Cell, unread: set<Id>) {
    c.vm.Some? && c.vm.value.managed && !Readable(c.vm.value.sandbox, At(s, c.vm.value.sandbox), unread)
  }

  function LoadCell(s: State, id: Id, c: Cell, tail: bool, unread: set<Id>): Cell {
    var c' := c.(sweep := if IsOrphan(s, c, unread) then Orphan else Clean,
                 past := c.past.(unread := c.saved.Some? && id in unread));
    if Readable(id, c, unread) then c'.(entry := Some(BootEntry(c.saved.value, c.vm, tail)), registered := true) else c'
  }

  function DoRestart(s: State, a: RestartAct): State
    requires CanRestart(s, a)
  {
    match a
    case Crash => Downed(s)
    case CrashInCreate(cfg, req, now) =>
      var rec := Accept(cfg, req, now);
      var c := At(s, req.id);
      Downed(Put(s, req.id, c.(saved := Some(rec), past := c.past.(accepted := Some(rec.who)))))
    case Load(tails, unread) =>
      s.(cells := map id | id in s.cells :: LoadCell(s, id, s.cells[id], id in tails, unread), phase := Sweeping)
    case Sweep(id, ok) =>
      var c := At(s, id);
      Put(s, id, if ok then c.(vm := None, sweep := Clean) else c.(sweep := SweepFailed))
    case OpenForBusiness => s.(phase := Serving)
  }

  // ------------------------------------------------------------------- runs

  datatype Step =
    | CreateStep(cfg: Config, req: Request, now: int, saved: bool)
    | ProvStep(id: Id, pa: ProvAct)
    | BeginStep(t: Tid, id: Id, kind: OpKind)
    | OpStep(t: Tid, oa: OpAct)
    | ReleaseStep(t: Tid)
    | DeleteStep(u: Tid, id: Id)
    | DelStep(u: Tid, da: DelAct)
    | PollStep(la: PollAct)
    | EnvStep(id: Id, ea: EnvAct)
    | RestartStep(ra: RestartAct)

  predicate Enabled(s: State, st: Step) {
    match st
    case CreateStep(_, req, _, _) => CanCreate(s, req)
    case ProvStep(id, a) => CanProv(At(s, id), a)
    case BeginStep(t, id, _) => CanBegin(s, t, id)
    case OpStep(t, a) => t in s.ops && CanOp(s.ops[t], At(s, s.ops[t].id), a)
    case ReleaseStep(t) => t in s.ops && s.ops[t].pc.Release? && At(s, s.ops[t].id).entry.Some?
    case DeleteStep(u, id) => s.phase.Serving? && u !in s.dels && (At(s, id).registered || ValidId(id))
    case DelStep(u, a) => u in s.dels && CanDel(s.dels[u], At(s, s.dels[u].id), a)
    case PollStep(a) => CanPoll(s, a)
    case EnvStep(id, a) => CanEnv(s.phase, At(s, id), a)
    case RestartStep(a) => CanRestart(s, a)
  }

  /** The state after a step; a step that is not enabled is not taken. */
  function Apply(s: State, st: Step): State {
    if Enabled(s, st) then Effect(s, st) else s
  }

  function Effect(s: State, st: Step): State
    requires Enabled(s, st)
  {
    match st
    case CreateStep(cfg, req, now, saved) => Put(s, req.id, Created(At(s, req.id), Accept(cfg, req, now), saved))
    case ProvStep(id, a) => Put(s, id, ProvCell(id, At(s, id), a))
    case BeginStep(t, id, kind) =>
      Put(s, id, SetBusy(At(s, id), true)).(ops := s.ops[t := Op(id, kind, Invoke, false)])
    case OpStep(t, a) =>
      var o := s.ops[t];
      var c := At(s, o.id);
      Put(s, o.id, OpCell(o, c, a)).(ops := s.ops[t := OpThread(o, c, a)])
    case ReleaseStep(t) =>
      Put(s, s.ops[t].id, SetBusy(At(s, s.ops[t].id), false)).(ops := s.ops - {t})
    case DeleteStep(u, id) =>
      var c := At(s, id);
      Put(s, id, MarkDeleting(c)).(dels := s.dels[u := NewDel(id, c.registered)])
    case DelStep(u, a) =>
      var d := s.dels[u];
      var d' := DelThread(d, a);
      Put(s, d.id, DelCell(At(s, d.id), a)).(dels := if d'.Some? then s.dels[u := d'.value] else s.dels - {u})
    case PollStep(a) => DoPoll(s, a)
    case EnvStep(id, a) => Put(s, id, EnvCell(s.phase, At(s, id), a))
    case RestartStep(a) => DoRestart(s, a)
  }

  /** A run: states joined by enabled steps. */
  datatype Run = Run(states: seq<State>, steps: seq<Step>)

  ghost predicate IsRun(r: Run) {
    && |r.states| == |r.steps| + 1
    && forall i :: 0 <= i < |r.steps| ==> Enabled(r.states[i], r.steps[i]) && r.states[i + 1] == Apply(r.states[i], r.steps[i])
  }

  function Prepend(s: State, st: Step, r: Run): Run {
    Run([s] + r.states, [st] + r.steps)
  }

  /** A step before a run is a run, to the same end. */
  lemma PrependIsRun(s: State, st: Step, r: Run)
    requires IsRun(r) && Enabled(s, st) && r.states[0] == Apply(s, st)
    ensures IsRun(Prepend(s, st, r)) && Prepend(s, st, r).states[|r.steps| + 1] == r.states[|r.steps|]
  {
    var q := Prepend(s, st, r);
    forall i | 0 <= i < |q.steps|
      ensures Enabled(q.states[i], q.steps[i]) && q.states[i + 1] == Apply(q.states[i], q.steps[i])
    {
      if i > 0 {
        assert q.states[i] == r.states[i - 1] && q.steps[i] == r.steps[i - 1] && q.states[i + 1] == r.states[i];
      }
    }
  }

  /** A run from the first start of the driver. */
  ghost predicate IsHistory(r: Run) {
    IsRun(r) && r.states[0] == INITIAL
  }
}
