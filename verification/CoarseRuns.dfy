/** Runs in which a poll is one step, from its list call to its last save.  Under
    that granularity the record on disk mirrors the entry, and the gateway's stop
    intent survives polls, crashes and restarts. */
module CoarseRuns {
  import opened Conditions
  import opened Records
  import opened Entries
  import opened Lifecycle
  import opened LifecycleInvariant

  predicate CoarseStep(st: Step) {
    st.PollStep? ==> st.la.QuickPoll? || st.la.AttachTail? || st.la.PollDone?
  }

  /** Every store write of the step succeeds. */
  predicate SavesSucceed(st: Step) {
    && !(st.ProvStep? && st.pa == SaveDigest(false))
    && !(st.OpStep? && st.oa == SaveMark(false))
    && !(st.PollStep? && st.la.QuickPoll? && st.la.lost != {})
  }

  ghost predicate CoarseRun(r: Run) {
    IsHistory(r) && forall i :: 0 <= i < |r.steps| ==> CoarseStep(r.steps[i])
  }

  predicate Present(c: Cell) {
    c.entry.Some? && !c.entry.value.deleting
  }

  /** What a stop in flight has established on an entry not being deleted. */
  ghost predicate Intends(o: Op, c: Cell) {
    Present(c) ==>
      && (o.pc.SavingMark? ==> o.pc.rec == c.entry.value.rec)
      && (o.kind == Stop && (o.pc == SetPhase || o.pc == Release(true)) ==>
            c.entry.value.rec.stopped && c.saved.Some? && c.saved.value.stopped)
      && (o.kind == Stop && o.pc == Release(true) ==> c.entry.value.cond.reason == ContainerStopped)
  }

  ghost predicate CoarseOk(s: State) {
    && (s.poll.Idle? || s.poll.Tails?)
    && forall t :: t in s.ops ==> Intends(s.ops[t], At(s, s.ops[t].id))
  }

  /** The record, the stored record and the phase of a held entry. */
  predicate Undisturbed(c: Cell, c': Cell) {
    Present(c') ==>
      Present(c) && c'.saved == c.saved && c'.entry.value.rec == c.entry.value.rec
      && SamePhase(c'.entry.value.cond, c.entry.value.cond)
  }

  lemma DelUndisturbed(d: Del, id: Id, c: Cell, a: DelAct)
    requires CellOk(id, c) && DelOk(d, c) && CanDel(d, c, a)
    ensures Undisturbed(c, DelCell(c, a))
  {
  }

  lemma PollUndisturbed(id: Id, c: Cell, ok: bool)
    requires CellOk(id, c) && Busy(c)
    ensures Undisturbed(c, QuickCell(c, ok)) && Undisturbed(c, AttachCell(c))
  {
  }

  /** In a coarse run only the holder disturbs a held entry. */
  lemma OthersDoNotDisturb(s: State, st: Step, id: Id)
    requires Inv(s) && Enabled(s, st) && Busy(At(s, id)) && s.phase.Serving?
    requires st.CreateStep? || st.ProvStep? || st.EnvStep? || st.BeginStep? || st.ReleaseStep?
    ensures Undisturbed(At(s, id), At(Apply(s, st), id))
  {
    assert CellOk(id, At(s, id));
    if id != Target(s, st) { OnlyTarget(s, st, id); }
  }

  lemma DelsDoNotDisturb(s: State, st: Step, id: Id)
    requires Inv(s) && Enabled(s, st) && (st.DelStep? || st.DeleteStep?)
    ensures Undisturbed(At(s, id), At(Apply(s, st), id))
  {
    assert CellOk(id, At(s, id));
    if id != Target(s, st) { OnlyTarget(s, st, id); }
    if st.DelStep? && s.dels[st.u].id == id { DelUndisturbed(s.dels[st.u], id, At(s, id), st.da); }
  }

  lemma PollsDoNotDisturb(s: State, a: PollAct, id: Id)
    requires Inv(s) && CanPoll(s, a) && CoarseStep(PollStep(a)) && Busy(At(s, id))
    ensures Undisturbed(At(s, id), At(DoPoll(s, a), id))
  {
    assert CellOk(id, At(s, id));
    PollUndisturbed(id, At(s, id), a.QuickPoll? && id !in a.lost);
  }

  lemma NotDisturbed(s: State, st: Step, id: Id)
    requires Inv(s) && Enabled(s, st) && CoarseStep(st) && !st.RestartStep? && Busy(At(s, id))
    requires !(st.OpStep? && s.ops[st.t].id == id)
    ensures Undisturbed(At(s, id), At(Apply(s, st), id))
  {
    assert PhaseOk(s.phase, At(s, id));
    match st
    case PollStep(a) => PollsDoNotDisturb(s, a, id);
    case DelStep(_, _) => DelsDoNotDisturb(s, st, id);
    case DeleteStep(_, _) => DelsDoNotDisturb(s, st, id);
    case OpStep(_, _) => OnlyTarget(s, st, id);
    case _ => OthersDoNotDisturb(s, st, id);
  }

  lemma OwnIntent(id: Id, o: Op, c: Cell, a: OpAct)
    requires CellOk(id, c) && OpOk(o, c) && CanOp(o, c, a) && Intends(o, c)
    ensures Intends(OpThread(o, c, a), OpCell(o, c, a))
  {
  }

  lemma IntentStep(s: State, st: Step, t: Tid)
    requires Inv(s) && CoarseOk(s) && Enabled(s, st) && CoarseStep(st) && !st.RestartStep?
    requires t in Apply(s, st).ops
    ensures Intends(Apply(s, st).ops[t], At(Apply(s, st), Apply(s, st).ops[t].id))
  {
    ThreadSource(s, st, t);
    if st.BeginStep? && st.t == t {
    } else if st.OpStep? && st.t == t {
      var o := s.ops[t];
      assert CellOk(o.id, At(s, o.id));
      OwnIntent(o.id, o, At(s, o.id), st.oa);
    } else {
      var o := s.ops[t];
      assert OpOk(o, At(s, o.id)) && Intends(o, At(s, o.id));
      NotDisturbed(s, st, o.id);
    }
  }

  lemma CoarseStepKeeps(s: State, st: Step)
    requires Inv(s) && CoarseOk(s) && Enabled(s, st) && CoarseStep(st)
    ensures CoarseOk(Apply(s, st))
  {
    if st.RestartStep? {
      assert PhaseOk(s.phase, At(s, ""));
    } else {
      forall t | t in Apply(s, st).ops ensures Intends(Apply(s, st).ops[t], At(Apply(s, st), Apply(s, st).ops[t].id)) {
        IntentStep(s, st, t);
      }
    }
  }

  lemma {:induction false} CoarseHistories(r: Run, i: nat)
    requires CoarseRun(r) && i < |r.states|
    ensures Inv(r.states[i]) && CoarseOk(r.states[i])
  {
    HistoriesAreSafe(r, i);
    if i > 0 {
      CoarseHistories(r, i - 1);
      assert CoarseStep(r.steps[i - 1]);
      CoarseStepKeeps(r.states[i - 1], r.steps[i - 1]);
    }
  }

  // ------------------------------------------- the coarse poll is a fine run

  function Unsaved(s: State): set<Id> {
    set id | id in s.cells && s.cells[id].poll.toSave
  }

  function AllSaved(s: State, lost: set<Id>): State {
    s.(cells := map id | id in s.cells :: SaveCell(s.cells[id], id !in lost), poll := Tails)
  }

  ghost predicate Leads(s: State, s': State) {
    exists r: Run :: IsRun(r) && r.states[0] == s && r.states[|r.steps|] == s'
                     && forall i :: 0 <= i < |r.steps| ==> r.steps[i].PollStep? && !r.steps[i].la.QuickPoll?
  }

  lemma LeadsStep(s: State, a: PollAct, s': State)
    requires CanPoll(s, a) && !a.QuickPoll? && Leads(DoPoll(s, a), s')
    ensures Leads(s, s')
  {
    var r: Run :| IsRun(r) && r.states[0] == DoPoll(s, a) && r.states[|r.steps|] == s'
                  && forall i :: 0 <= i < |r.steps| ==> r.steps[i].PollStep? && !r.steps[i].la.QuickPoll?;
    PrependIsRun(s, PollStep(a), r);
    var q := Prepend(s, PollStep(a), r);
    assert q.states[|q.steps|] == s' && forall i :: 0 < i < |q.steps| ==> q.steps[i] == r.steps[i - 1];
  }

  lemma LeadsNowhere(s: State)
    ensures Leads(s, s)
  {
    assert IsRun(Run([s], []));
  }

  /** Two steps save one listed entry. */
  lemma SaveOne(s: State, id: Id, lost: set<Id>)
    requires s.poll.Persist? && id in Unsaved(s) && CellOk(id, s.cells[id])
    ensures CanPoll(s, PickSave(id)) && CanPoll(DoPoll(s, PickSave(id)), SaveRec(id !in lost))
    ensures DoPoll(DoPoll(s, PickSave(id)), SaveRec(id !in lost)) == Put(s, id, SaveCell(s.cells[id], id !in lost))
  {
    var s2 := DoPoll(DoPoll(s, PickSave(id)), SaveRec(id !in lost));
    assert s2.cells == s.cells[id := SaveCell(s.cells[id], id !in lost)];
  }

  lemma NothingToSave(s: State, lost: set<Id>)
    requires s.poll.Persist? && Unsaved(s) == {}
    ensures CanPoll(s, PersistDone) && DoPoll(s, PersistDone) == AllSaved(s, lost)
  {
    forall id | id in s.cells ensures !s.cells[id].poll.toSave {
      assert id !in Unsaved(s);
    }
    assert DoPoll(s, PersistDone).cells == AllSaved(s, lost).cells;
  }

  lemma OneSaved(s: State, id: Id, lost: set<Id>)
    requires id in Unsaved(s) && forall j :: j in s.cells ==> CellOk(j, s.cells[j])
    ensures var m := Put(s, id, SaveCell(s.cells[id], id !in lost));
            && Unsaved(m) == Unsaved(s) - {id} && AllSaved(m, lost) == AllSaved(s, lost)
            && forall j :: j in m.cells ==> CellOk(j, m.cells[j])
  {
    var m := Put(s, id, SaveCell(s.cells[id], id !in lost));
    SaveKeepsCellOk(id, s.cells[id], id !in lost);
    assert AllSaved(m, lost).cells == AllSaved(s, lost).cells;
  }

  lemma {:induction false} SaveEverything(s: State, lost: set<Id>)
    requires s.poll.Persist? && forall id :: id in s.cells ==> CellOk(id, s.cells[id])
    ensures Leads(s, AllSaved(s, lost))
    decreases Unsaved(s)
  {
    if Unsaved(s) == {} {
      NothingToSave(s, lost);
      LeadsNowhere(AllSaved(s, lost));
      LeadsStep(s, PersistDone, AllSaved(s, lost));
    } else {
      var id :| id in Unsaved(s);
      SaveOne(s, id, lost);
      var m := Put(s, id, SaveCell(s.cells[id], id !in lost));
      OneSaved(s, id, lost);
      SaveEverything(m, lost);
      LeadsStep(DoPoll(s, PickSave(id)), SaveRec(id !in lost), AllSaved(s, lost));
      LeadsStep(s, PickSave(id), AllSaved(s, lost));
    }
  }

  lemma SaveKeepsCellOk(id: Id, c: Cell, ok: bool)
    requires CellOk(id, c)
    ensures CellOk(id, SaveCell(c, ok))
  {
  }

  lemma QuickIsAll(s: State, lost: set<Id>)
    requires CanPoll(s, QuickPoll(lost))
    ensures AllSaved(DoPoll(DoPoll(s, TakeList), ApplyList), lost) == DoPoll(s, QuickPoll(lost))
  {
    assert AllSaved(DoPoll(DoPoll(s, TakeList), ApplyList), lost).cells == DoPoll(s, QuickPoll(lost)).cells;
  }

  /** The one-step poll is a run of the fine steps with nothing in between. */
  lemma QuickPollIsARun(s: State, lost: set<Id>)
    requires Inv(s) && CanPoll(s, QuickPoll(lost))
    ensures Leads(s, DoPoll(s, QuickPoll(lost)))
  {
    var s1 := DoPoll(s, TakeList);
    var s2 := DoPoll(s1, ApplyList);
    StepKeepsInv(s, PollStep(TakeList));
    StepKeepsInv(s1, PollStep(ApplyList));
    forall id | id in s2.cells ensures CellOk(id, s2.cells[id]) {
      assert CellOk(id, At(s2, id));
    }
    SaveEverything(s2, lost);
    QuickIsAll(s, lost);
    LeadsStep(s1, ApplyList, AllSaved(s2, lost));
    LeadsStep(s, TakeList, AllSaved(s2, lost));
  }
}
