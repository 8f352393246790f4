/** What can be known when a delete marks its entry: exactly which deletes can be undone. */
module DeleteMark {
  import opened Conditions
  import opened Records
  import opened Entries
  import opened Lifecycle
  import opened LifecycleInvariant
  import opened DeleteFinality

  /** A stop or start that can still come to save a record: it has passed its runtime call,
      or it can still pass it. */
  predicate MaySave(o: Op, c: Cell) {
    WillSave(o) || ((o.pc == Invoke || o.pc == Check) && !o.expired && c.vm.Some?)
  }

  /** Somebody else can still come to save a record of the sandbox. */
  ghost predicate Held(s: State, id: Id) {
    || (exists t :: t in s.ops && s.ops[t].id == id && MaySave(s.ops[t], At(s, id)))
    || At(s, id).poll.toSave
    || (s.poll.Saving? && s.poll.rec.who.id == id)
  }

  /** From here the delete call `u` can go on to succeed, and the sandbox come back after. */
  ghost predicate Undoable(s: State, u: Tid, id: Id) {
    exists r: Run, i: nat :: IsRun(r) && r.states[0] == s && Succeeds(r, i, u) && !Gone(At(r.states[|r.steps|], id))
  }

  /** The call `u` is there all along, and succeeds with step `i`. */
  ghost predicate Succeeds(r: Run, i: nat, u: Tid)
    requires |r.states| == |r.steps| + 1
  {
    && i < |r.steps| && r.steps[i] == DelStep(u, DropEntry)
    && (forall j :: 0 <= j <= i ==> u in r.states[j].dels)
  }

  // -------------------------------------------------------- held: it can be undone

  lemma StepThenUndoable(s: State, st: Step, u: Tid, id: Id)
    requires Enabled(s, st) && u in s.dels && Undoable(Apply(s, st), u, id)
    ensures Undoable(s, u, id)
  {
    var r: Run, i: nat :| IsRun(r) && r.states[0] == Apply(s, st) && Succeeds(r, i, u) && !Gone(At(r.states[|r.steps|], id));
    PrependIsRun(s, st, r);
    PrefixSucceeds(r, i, s, st, u);
    var q := Prepend(s, st, r);
    assert q.states[|q.steps|] == r.states[|r.steps|];
    assert IsRun(q) && q.states[0] == s && Succeeds(q, i + 1, u);
  }

  lemma PrefixSucceeds(r: Run, i: nat, s: State, st: Step, u: Tid)
    requires |r.states| == |r.steps| + 1 && Succeeds(r, i, u) && u in s.dels
    ensures Succeeds(Prepend(s, st, r), i + 1, u)
  {
    var q := Prepend(s, st, r);
    forall j | 0 <= j <= i + 1 ensures u in q.states[j].dels {
      if j > 0 { assert q.states[j] == r.states[j - 1]; }
    }
    assert q.steps[i + 1] == r.steps[i];
  }

  lemma DropThenUndoable(s: State, u: Tid, id: Id)
    requires Enabled(s, DelStep(u, DropEntry)) && !GoneForever(Apply(s, DelStep(u, DropEntry)), id)
    ensures Undoable(s, u, id)
  {
    var st := DelStep(u, DropEntry);
    var r :| IsRun(r) && r.states[0] == Apply(s, st) && !Gone(At(r.states[|r.steps|], id));
    PrependIsRun(s, st, r);
    var q := Prepend(s, st, r);
    assert q.steps[0] == st && q.states[0] == s && Succeeds(q, 0, u);
    assert q.states[|q.steps|] == r.states[|r.steps|];
  }

  /** A writer that is past its runtime call brings the record back. */
  lemma WriterResurrects(s: State, id: Id)
    requires Inv(s) && !NoWriter(s, id)
    ensures !GoneForever(s, id)
  {
    if t :| t in s.ops && s.ops[t].id == id && WillSave(s.ops[t]) {
      OpResurrects(s, id, t);
    } else if At(s, id).poll.toSave {
      PollListResurrects(s, id);
    } else {
      PollSaveResurrects(s, id);
    }
  }

  /** The steps of a delete leave every writer where it is. */
  lemma DelKeepsWriters(s: State, u: Tid, a: DelAct, id: Id)
    requires Enabled(s, DelStep(u, a)) && !NoWriter(s, id)
    ensures !NoWriter(Apply(s, DelStep(u, a)), id)
  {
    var s' := Apply(s, DelStep(u, a));
    assert s'.ops == s.ops && s'.poll == s.poll;
    assert At(s', id).poll == At(s, id).poll;
  }

  /** The call as it stands before its next step. */
  predicate Calls(s: State, u: Tid, id: Id, pc: DelPc) {
    u in s.dels && s.dels[u].id == id && s.dels[u].known && s.dels[u].pc == pc && !s.dels[u].expired
  }

  function NextPc(pc: DelPc): DelPc {
    match pc
    case Cancel => Wait
    case Wait => RemoveVm
    case RemoveVm => RemoveRecord
    case RemoveRecord => Unregister
    case _ => Returned
  }

  function NextAct(pc: DelPc): DelAct {
    match pc
    case Cancel => CancelTask
    case Wait => DoneOrTimeout
    case RemoveVm => VmRemoved
    case RemoveRecord => RecordRemoved
    case _ => DropEntry
  }

  lemma CallMoves(s: State, u: Tid, id: Id, pc: DelPc)
    requires Inv(s) && Calls(s, u, id, pc) && pc != Returned && At(s, id).prov.None?
    ensures Enabled(s, DelStep(u, NextAct(pc)))
    ensures pc != Unregister ==> Calls(Apply(s, DelStep(u, NextAct(pc))), u, id, NextPc(pc))
    ensures At(Apply(s, DelStep(u, NextAct(pc))), id).prov.None?
  {
    assert DelOk(s.dels[u], At(s, id)) && CellOk(id, At(s, id));
  }

  lemma {:induction false} WriterUndoes(s: State, u: Tid, id: Id, pc: DelPc)
    requires Inv(s) && Calls(s, u, id, pc) && pc != Returned && At(s, id).prov.None? && !NoWriter(s, id)
    ensures Undoable(s, u, id)
    decreases match pc case Cancel => 5 case Wait => 4 case RemoveVm => 3 case RemoveRecord => 2 case _ => 1
  {
    var st := DelStep(u, NextAct(pc));
    CallMoves(s, u, id, pc);
    StepKeepsInv(s, st);
    DelKeepsWriters(s, u, NextAct(pc), id);
    if pc == Unregister {
      WriterResurrects(Apply(s, st), id);
      DropThenUndoable(s, u, id);
    } else {
      WriterUndoes(Apply(s, st), u, id, NextPc(pc));
      StepThenUndoable(s, st, u, id);
    }
  }

  /** A stop or start that has not been through its runtime call can still get through it. */
  lemma InvokerUndoes(s: State, u: Tid, id: Id, t: Tid)
    requires Inv(s) && Calls(s, u, id, Cancel) && t in s.ops && s.ops[t].id == id
    requires !s.ops[t].expired && At(s, id).vm.Some? && s.ops[t].pc == Invoke
    ensures Undoable(s, u, id)
  {
    var st := OpStep(t, InvokeOk);
    assert OpOk(s.ops[t], At(s, id));
    StepKeepsInv(s, st);
    var s' := Apply(s, st);
    assert t in s'.ops && s'.ops[t] == s.ops[t].(pc := SetMark) && s'.dels == s.dels;
    assert OpOk(s'.ops[t], At(s', id));
    WriterUndoes(s', u, id, Cancel);
    StepThenUndoable(s, st, u, id);
  }

  lemma CheckerUndoes(s: State, u: Tid, id: Id, t: Tid)
    requires Inv(s) && Calls(s, u, id, Cancel) && t in s.ops && s.ops[t].id == id
    requires !s.ops[t].expired && At(s, id).vm.Some? && s.ops[t].pc == Check
    requires At(s, id).vm.value.running == (s.ops[t].kind == Start)
    ensures Undoable(s, u, id)
  {
    var st := OpStep(t, CheckGood);
    assert OpOk(s.ops[t], At(s, id));
    StepKeepsInv(s, st);
    var s' := Apply(s, st);
    assert t in s'.ops && s'.ops[t] == s.ops[t].(pc := SetMark) && s'.dels == s.dels;
    assert OpOk(s'.ops[t], At(s', id));
    WriterUndoes(s', u, id, Cancel);
    StepThenUndoable(s, st, u, id);
  }

  lemma TurnedUndoes(s: State, u: Tid, id: Id, t: Tid)
    requires Inv(s) && Calls(s, u, id, Cancel) && t in s.ops && s.ops[t].id == id
    requires !s.ops[t].expired && At(s, id).vm.Some? && s.ops[t].pc == Check
    ensures Undoable(s, u, id)
  {
    var st := EnvStep(id, VmTurns(s.ops[t].kind == Start));
    StepKeepsInv(s, st);
    var s' := Apply(s, st);
    assert s'.ops == s.ops && s'.dels == s.dels;
    assert At(s', id) == EnvCell(s.phase, At(s, id), st.ea);
    CheckerUndoes(s', u, id, t);
    StepThenUndoable(s, st, u, id);
  }

  lemma HeldUndoes(s: State, u: Tid, id: Id)
    requires Inv(s) && Calls(s, u, id, Cancel) && Held(s, id)
    ensures Undoable(s, u, id)
  {
    assert CellOk(id, At(s, id));
    if t :| t in s.ops && s.ops[t].id == id && MaySave(s.ops[t], At(s, id)) {
      assert OpOk(s.ops[t], At(s, id));
      if WillSave(s.ops[t]) { WriterUndoes(s, u, id, Cancel); }
      else if s.ops[t].pc == Invoke { InvokerUndoes(s, u, id, t); }
      else { TurnedUndoes(s, u, id, t); }
    } else {
      WriterUndoes(s, u, id, Cancel);
    }
  }

  // ------------------------------------------------------ not held: it is final

  /** The entry is marked and nobody can come to save it; once the record is removed, nothing
      else is left either. */
  ghost predicate Safe(s: State, u: Tid, id: Id) {
    && u in s.dels && s.dels[u].id == id && s.dels[u].known
    && At(s, id).entry.Some? && At(s, id).entry.value.deleting && !Held(s, id)
    && (s.dels[u].pc == Unregister || s.dels[u].pc == Returned ==> Emptied(At(s, id)))
  }

  lemma NotHeldIsNoWriter(s: State, id: Id)
    requires !Held(s, id)
    ensures NoWriter(s, id)
  {
    forall t | t in s.ops && s.ops[t].id == id ensures !WillSave(s.ops[t]) {
      assert !MaySave(s.ops[t], At(s, id));
    }
  }

  lemma OpStaysPowerless(id: Id, o: Op, c: Cell, a: OpAct)
    requires OpOk(o, c) && CanOp(o, c, a) && !MaySave(o, c)
    ensures !MaySave(OpThread(o, c, a), OpCell(o, c, a))
  {
  }

  /** No step hands a stop or start of a marked entry the means to save. */
  lemma OpsStayPowerless(s: State, st: Step, id: Id, t: Tid)
    requires Inv(s) && Enabled(s, st) && !st.RestartStep? && !Held(s, id)
    requires At(s, id).entry.Some? && At(s, id).entry.value.deleting
    requires t in Apply(s, st).ops && Apply(s, st).ops[t].id == id
    ensures !MaySave(Apply(s, st).ops[t], At(Apply(s, st), id))
  {
    var s' := Apply(s, st);
    ThreadSource(s, st, t);
    if st.BeginStep? && st.t == t {
      assert false;
    } else {
      var o := s.ops[t];
      assert OpOk(o, At(s, id)) && CellOk(id, At(s, id)) && !MaySave(o, At(s, id));
      if st.OpStep? && st.t == t {
        assert At(s', id) == OpCell(o, At(s, id), st.oa);
        OpStaysPowerless(id, o, At(s, id), st.oa);
      } else {
        StepKeepsInv(s, st);
        assert Good(id, s'.phase, At(s, id), At(s', id));
      }
    }
  }

  /** The poller never takes up a marked entry. */
  lemma PollerStaysAway(s: State, a: PollAct, id: Id)
    requires Inv(s) && CanPoll(s, a) && At(s, id).entry.Some? && At(s, id).entry.value.deleting
    requires !At(s, id).poll.toSave && !(s.poll.Saving? && s.poll.rec.who.id == id)
    ensures var s' := DoPoll(s, a); !At(s', id).poll.toSave && !(s'.poll.Saving? && s'.poll.rec.who.id == id)
  {
    if a.PickSave? { assert CellOk(a.id, At(s, a.id)); }
  }

  lemma NotHeldStep(s: State, st: Step, id: Id)
    requires Inv(s) && Enabled(s, st) && !st.RestartStep? && !Held(s, id)
    requires At(s, id).entry.Some? && At(s, id).entry.value.deleting
    ensures !Held(Apply(s, st), id)
  {
    var s' := Apply(s, st);
    forall t | t in s'.ops && s'.ops[t].id == id ensures !MaySave(s'.ops[t], At(s', id)) {
      OpsStayPowerless(s, st, id, t);
    }
    if st.PollStep? { PollerStaysAway(s, st.la, id); } else { OthersLeavePoller(s, st, id); }
  }

  lemma EmptiedStep(s: State, st: Step, id: Id)
    requires Inv(s) && Enabled(s, st) && !st.RestartStep? && Emptied(At(s, id)) && NoWriter(s, id)
    ensures Emptied(At(Apply(s, st), id))
  {
    StepKeepsInv(s, st);
    var s' := Apply(s, st);
    assert Good(id, s'.phase, At(s, id), At(s', id));
    SavedStaysGone(s, st, id);
  }

  /** The call's own steps: what it has done by the time it unregisters. */
  lemma CallStep(s: State, st: Step, u: Tid, id: Id)
    requires Inv(s) && Enabled(s, st) && !st.RestartStep? && Safe(s, u, id) && u in Apply(s, st).dels
    ensures var s' := Apply(s, st);
            && s'.dels[u].id == id && s'.dels[u].known
            && (s'.dels[u].pc == Unregister || s'.dels[u].pc == Returned ==> Emptied(At(s', id)))
  {
    NotHeldIsNoWriter(s, id);
    assert DelOk(s.dels[u], At(s, id)) && CellOk(id, At(s, id));
    if st.DelStep? && st.u == u {
      OwnCallStep(s, u, st.da);
    } else {
      OtherCallStep(s, st, u);
      if Emptied(At(s, id)) { EmptiedStep(s, st, id); }
    }
  }

  lemma OwnCallStep(s: State, u: Tid, a: DelAct)
    requires Inv(s) && Enabled(s, DelStep(u, a)) && Safe(s, u, s.dels[u].id) && u in Apply(s, DelStep(u, a)).dels
    ensures var s', d := Apply(s, DelStep(u, a)), s.dels[u];
            && s'.dels[u].id == d.id && s'.dels[u].known
            && (s'.dels[u].pc == Unregister || s'.dels[u].pc == Returned ==> Emptied(At(s', d.id)))
  {
    var d := s.dels[u];
    assert DelOk(d, At(s, d.id)) && CellOk(d.id, At(s, d.id));
    TargetIs(s, DelStep(u, a));
  }

  lemma OtherCallStep(s: State, st: Step, u: Tid)
    requires Enabled(s, st) && !st.RestartStep? && !(st.DelStep? && st.u == u) && u in s.dels && u in Apply(s, st).dels
    ensures Apply(s, st).dels[u] == s.dels[u]
  {
  }

  lemma RestartEndsCalls(s: State, a: RestartAct, u: Tid)
    requires Inv(s) && CanRestart(s, a) && u in s.dels
    ensures u !in DoRestart(s, a).dels
  {
  }

  lemma SafeStep(s: State, st: Step, u: Tid, id: Id)
    requires Inv(s) && Enabled(s, st) && Safe(s, u, id) && u in Apply(s, st).dels
    ensures Safe(Apply(s, st), u, id)
  {
    if st.RestartStep? { RestartEndsCalls(s, st.ra, u); }
    StepKeepsInv(s, st);
    assert Good(id, Apply(s, st).phase, At(s, id), At(Apply(s, st), id));
    NotHeldStep(s, st, id);
    CallStep(s, st, u, id);
  }

  lemma {:induction false} SafeAlong(r: Run, u: Tid, id: Id, k: nat)
    requires IsRun(r) && k < |r.states| && Inv(r.states[0]) && Safe(r.states[0], u, id)
    requires forall j :: 0 <= j <= k ==> u in r.states[j].dels
    ensures Inv(r.states[k]) && Safe(r.states[k], u, id)
  {
    if k > 0 {
      SafeAlong(r, u, id, k - 1);
      var s, st := r.states[k - 1], r.steps[k - 1];
      assert Enabled(s, st) && r.states[k] == Apply(s, st) && u in r.states[k].dels;
      SafeStep(s, st, u, id);
      StepKeepsInv(s, st);
    }
  }

  lemma SafeIsFinal(s: State, u: Tid, id: Id)
    requires Inv(s) && Safe(s, u, id)
    ensures !Undoable(s, u, id)
  {
    forall r: Run, i: nat | IsRun(r) && r.states[0] == s && Succeeds(r, i, u)
      ensures Gone(At(r.states[|r.steps|], id))
    {
      SafeAlong(r, u, id, i);
      SafeDrop(r, i, u, id);
      GoneFrom(r, i + 1, |r.steps|, id);
    }
  }

  lemma SafeDrop(r: Run, i: nat, u: Tid, id: Id)
    requires IsRun(r) && i < |r.steps| && r.steps[i] == DelStep(u, DropEntry)
    requires Inv(r.states[i]) && Safe(r.states[i], u, id)
    ensures Inv(r.states[i + 1]) && Gone(At(r.states[i + 1], id)) && NoWriter(r.states[i + 1], id)
  {
    var s := r.states[i];
    assert Enabled(s, r.steps[i]) && r.states[i + 1] == Apply(s, r.steps[i]);
    StepKeepsInv(s, r.steps[i]);
    NotHeldIsNoWriter(s, id);
    DelStaysGone(s, r.steps[i], id);
    assert At(r.states[i + 1], id) == DelCell(At(s, id), DropEntry);
  }

  // ------------------------------------------------------------------ the theorem

  lemma MarkKeepsHeld(s: State, u: Tid, id: Id)
    requires Enabled(s, DeleteStep(u, id)) && At(s, id).registered
    ensures Held(Apply(s, DeleteStep(u, id)), id) <==> Held(s, id)
  {
    var s' := Apply(s, DeleteStep(u, id));
    assert s'.ops == s.ops && s'.poll == s.poll;
    assert At(s', id).poll == At(s, id).poll && At(s', id).vm == At(s, id).vm;
  }

  /** What a delete of a registered sandbox is worth is settled when it marks the entry: it
      can go on to succeed and yet be undone if and only if at that moment a stop or start of
      the sandbox can still get to its save, or a poll's save of it is outstanding. */
  lemma UndoableIff(s: State, u: Tid, id: Id)
    requires Inv(s) && Enabled(s, DeleteStep(u, id)) && At(s, id).registered
    ensures Undoable(Apply(s, DeleteStep(u, id)), u, id) <==> Held(s, id)
  {
    var s' := Apply(s, DeleteStep(u, id));
    assert CellOk(id, At(s, id));
    StepKeepsInv(s, DeleteStep(u, id));
    MarkKeepsHeld(s, u, id);
    assert s'.dels[u] == NewDel(id, true) && At(s', id) == MarkDeleting(At(s, id));
    if Held(s, id) { HeldUndoes(s', u, id); } else { SafeIsFinal(s', u, id); }
  }

  /** Nobody can come to save an entry whose provisioning is still running. */
  lemma ProvisioningIsNotHeld(s: State, id: Id)
    requires Inv(s) && At(s, id).prov.Some?
    ensures !Held(s, id)
  {
    assert CellOk(id, At(s, id));
    forall t | t in s.ops ensures s.ops[t].id != id { assert OpOk(s.ops[t], At(s, s.ops[t].id)); }
  }

  /** Delete is total and final.  In every history: if a delete marks a registered entry that
      is still provisioning, or that nobody can come to save, and the call goes on to succeed,
      then from that moment on, through every later step of every thread and every crash and
      restart, there is no VM, no stored record and no registry entry of that sandbox. */
  lemma DeleteIsFinal(r: Run, m: nat, i: nat, k: nat, u: Tid, id: Id)
    requires IsHistory(r) && m < i < k < |r.states|
    requires r.steps[m] == DeleteStep(u, id) && At(r.states[m], id).registered
    requires At(r.states[m], id).prov.Some? || !Held(r.states[m], id)
    requires forall j :: m < j <= i ==> u in r.states[j].dels  // one call, not yet returned
    requires r.steps[i] == DelStep(u, DropEntry)
    ensures Gone(At(r.states[k], id))
  {
    HistoriesAreSafe(r, m);
    if At(r.states[m], id).prov.Some? { ProvisioningIsNotHeld(r.states[m], id); }
    assert Enabled(r.states[m], r.steps[m]) && r.states[m + 1] == Apply(r.states[m], r.steps[m]);
    UndoableIff(r.states[m], u, id);
    NotUndone(r, m + 1, i, k, u, id);
  }

  lemma NotUndone(r: Run, m: nat, i: nat, k: nat, u: Tid, id: Id)
    requires IsRun(r) && m <= i < k < |r.states| && !Undoable(r.states[m], u, id)
    requires r.steps[i] == DelStep(u, DropEntry) && forall j :: m <= j <= i ==> u in r.states[j].dels
    ensures Gone(At(r.states[k], id))
  {
    var q := Run(r.states[m..k + 1], r.steps[m..k]);
    Window(r, m, k);
    assert q.steps[i - m] == r.steps[i] && forall j :: 0 <= j <= i - m ==> q.states[j] == r.states[m + j];
    assert Succeeds(q, i - m, u);
    assert q.states[|q.steps|] == r.states[k];
  }

  lemma Window(r: Run, i: nat, k: nat)
    requires IsRun(r) && i <= k < |r.states|
    ensures IsRun(Run(r.states[i..k + 1], r.steps[i..k]))
  {
    var q := Run(r.states[i..k + 1], r.steps[i..k]);
    forall j | 0 <= j < |q.steps|
      ensures Enabled(q.states[j], q.steps[j]) && q.states[j + 1] == Apply(q.states[j], q.steps[j])
    {
      assert q.states[j] == r.states[i + j] && q.steps[j] == r.steps[i + j] && q.states[j + 1] == r.states[i + j + 1];
    }
  }
}
