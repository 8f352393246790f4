/** The gateway's stop intent survives polls, crashes and restarts. */
module StopIntent {
  import opened Conditions
  import opened Records
  import opened Entries
  import opened Lifecycle
  import opened LifecycleInvariant
  import opened CoarseRuns

  /** The VM exists, is not running and is not being deleted. */
  predicate Resting(c: Cell) {
    c.vm.Some? && !c.vm.value.running && (c.entry.Some? ==> !c.entry.value.deleting)
  }

  /** The intent is on disk and, where there is an entry, in memory and reported. */
  predicate Kept(c: Cell) {
    && c.saved.Some? && c.saved.value.stopped
    && (c.entry.Some? ==> c.entry.value.rec.stopped && c.entry.value.cond.reason == ContainerStopped)
  }

  /** A start that has not got past its runtime call. */
  predicate Harmless(o: Op) {
    o.kind == Start ==> o.pc == Invoke || o.pc == Check || o.pc == Release(false)
  }

  ghost predicate Holds(s: State, id: Id) {
    && Kept(At(s, id)) && At(s, id).prov.None?
    && (s.phase != Down ==> At(s, id).registered || At(s, id).past.unread)
    && forall t :: t in s.ops && s.ops[t].id == id ==> Harmless(s.ops[t])
  }

  lemma OpKeeps(id: Id, o: Op, c: Cell, a: OpAct)
    requires CellOk(id, c) && OpOk(o, c) && CanOp(o, c, a)
    requires Kept(c) && Resting(c) && Harmless(o) && Resting(OpCell(o, c, a))
    ensures Kept(OpCell(o, c, a)) && Harmless(OpThread(o, c, a))
  {
  }

  /** A poll finds nothing to save here, so failing saves do not matter. */
  lemma PollKeeps(c: Cell, ok: bool)
    requires Kept(c) && Resting(c) && (c.registered ==> c.entry.Some?) && (c.poll.toSave ==> c.entry.Some?)
    ensures Kept(QuickCell(c, ok)) && (c.entry.Some? ==> Kept(AttachCell(c)))
  {
  }

  lemma RestartHolds(s: State, a: RestartAct, id: Id)
    requires Inv(s) && CanRestart(s, a) && Holds(s, id) && Resting(At(s, id))
    ensures Holds(DoRestart(s, a), id)
  {
    assert CellOk(id, At(s, id)) && PhaseOk(s.phase, At(s, id));
  }

  lemma PollHolds(s: State, a: PollAct, id: Id)
    requires Inv(s) && CanPoll(s, a) && CoarseOk(s) && CoarseStep(PollStep(a)) && Holds(s, id) && Resting(At(s, id))
    ensures Kept(At(DoPoll(s, a), id))
  {
    assert CellOk(id, At(s, id)) && PhaseOk(s.phase, At(s, id));
    PollKeeps(At(s, id), a.QuickPoll? && id !in a.lost);
  }

  lemma CellHolds(s: State, st: Step, id: Id)
    requires Inv(s) && Enabled(s, st) && !st.RestartStep? && !st.PollStep? && !st.DelStep?
    requires Holds(s, id) && Resting(At(s, id)) && Resting(At(Apply(s, st), id)) && id == Target(s, st)
    ensures Kept(At(Apply(s, st), id))
  {
    var c := At(s, id);
    assert CellOk(id, c) && PhaseOk(s.phase, c);
    match st
    case OpStep(t, a) => OpKeeps(id, s.ops[t], c, a);
    case _ =>
  }

  lemma ThreadsHarmless(s: State, st: Step, id: Id, t: Tid)
    requires Inv(s) && Enabled(s, st) && !st.RestartStep?
    requires Holds(s, id) && Resting(At(s, id)) && Resting(At(Apply(s, st), id))
    requires t in Apply(s, st).ops && Apply(s, st).ops[t].id == id
    ensures Harmless(Apply(s, st).ops[t])
  {
    ThreadSource(s, st, t);
    if st.OpStep? && st.t == t { OwnHarmless(s, t, st.oa); }
  }

  lemma OwnHarmless(s: State, t: Tid, a: OpAct)
    requires Inv(s) && Enabled(s, OpStep(t, a)) && Holds(s, s.ops[t].id) && Resting(At(s, s.ops[t].id))
    requires Resting(At(Apply(s, OpStep(t, a)), s.ops[t].id))
    ensures Harmless(Apply(s, OpStep(t, a)).ops[t])
  {
    var o := s.ops[t];
    var c := At(s, o.id);
    assert CellOk(o.id, c) && OpOk(o, c);
    TargetIs(s, OpStep(t, a));
    OpKeeps(o.id, o, c, a);
  }

  lemma HoldsStep(s: State, st: Step, id: Id)
    requires Inv(s) && CoarseOk(s) && Enabled(s, st) && CoarseStep(st)
    requires Holds(s, id) && Resting(At(s, id)) && Resting(At(Apply(s, st), id))
    ensures Holds(Apply(s, st), id)
  {
    if st.RestartStep? {
      RestartHolds(s, st.ra, id);
    } else {
      if st.PollStep? { PollHolds(s, st.la, id); } else { KeptNext(s, st, id); }
      HoldsNextIfKept(s, st, id);
    }
  }

  /** All that has to be shown of a step is that it keeps the cell. */
  lemma HoldsNextIfKept(s: State, st: Step, id: Id)
    requires Inv(s) && Enabled(s, st) && !st.RestartStep?
    requires Holds(s, id) && Resting(At(s, id)) && Resting(At(Apply(s, st), id)) && Kept(At(Apply(s, st), id))
    ensures Holds(Apply(s, st), id)
  {
    var s' := Apply(s, st);
    StepKeepsInv(s, st);
    assert CellOk(id, At(s, id)) && CellOk(id, At(s', id)) && Good(id, s'.phase, At(s, id), At(s', id));
    assert PhaseOk(s.phase, At(s, id));
    forall t | t in s'.ops && s'.ops[t].id == id ensures Harmless(s'.ops[t]) {
      ThreadsHarmless(s, st, id, t);
    }
  }

  lemma KeptNext(s: State, st: Step, id: Id)
    requires Inv(s) && Enabled(s, st) && !st.RestartStep? && !st.PollStep?
    requires Holds(s, id) && Resting(At(s, id)) && Resting(At(Apply(s, st), id))
    ensures Kept(At(Apply(s, st), id))
  {
    assert CellOk(id, At(s, id)) && PhaseOk(s.phase, At(s, id));
    if id != Target(s, st) {
      OnlyTarget(s, st, id);
    } else if st.DelStep? {
      DelSteps(s, st, id);
    } else {
      CellHolds(s, st, id);
    }
  }

  lemma DelSteps(s: State, st: Step, id: Id)
    requires Inv(s) && Enabled(s, st) && st.DelStep? && Holds(s, id) && Resting(At(s, id))
    requires id == Target(s, st) && Resting(At(Apply(s, st), id))
    ensures Kept(At(Apply(s, st), id))
  {
    var c, d := At(s, id), s.dels[st.u];
    assert CellOk(id, c) && PhaseOk(s.phase, c) && DelOk(d, c);
    assert At(Apply(s, st), id) == DelCell(c, st.da);
  }

  /** The step by which a stop returns success establishes the intent. */
  lemma StopEstablishes(s: State, t: Tid)
    requires Inv(s) && CoarseOk(s) && Enabled(s, ReleaseStep(t)) && s.ops[t].kind == Stop && s.ops[t].pc == Release(true)
    requires Present(At(s, s.ops[t].id))
    ensures Holds(Apply(s, ReleaseStep(t)), s.ops[t].id)
  {
    var id := s.ops[t].id;
    assert CellOk(id, At(s, id)) && OpOk(s.ops[t], At(s, id)) && Intends(s.ops[t], At(s, id));
  }

  lemma HoldsNext(r: Run, k: nat, id: Id)
    requires CoarseRun(r) && k < |r.steps| && Holds(r.states[k], id)
    requires Resting(At(r.states[k], id)) && Resting(At(r.states[k + 1], id))
    ensures Holds(r.states[k + 1], id)
  {
    CoarseHistories(r, k);
    var s := r.states[k];
    var st := r.steps[k];
    assert CoarseStep(st) && Enabled(s, st) && r.states[k + 1] == Apply(s, st);
    HoldsStep(s, st, id);
  }

  lemma {:induction false} HoldsAlong(r: Run, i: nat, k: nat, id: Id)
    requires CoarseRun(r) && i <= k < |r.states| && Holds(r.states[i], id)
    requires forall j :: i <= j <= k ==> Resting(At(r.states[j], id))
    ensures Holds(r.states[k], id)
    decreases k
  {
    if i < k {
      HoldsAlong(r, i, k - 1, id);
      HoldsNext(r, k - 1, id);
    }
  }

  /** From the moment StopSandbox returns success, for as long as the VM exists, is
      not running and is not being deleted, every observation of the sandbox says
      ContainerStopped: through any number of polls, failed starts, and rounds of
      crash and restart.  Whenever the process is past loading its records, the
      sandbox is there to be observed, unless its record could not be read at that start. */
  lemma StopIntentSurvives(r: Run, i: nat, k: nat, t: Tid, id: Id)
    requires CoarseRun(r) && i < k < |r.states|
    requires r.steps[i] == ReleaseStep(t) && r.states[i].ops[t].id == id
    requires r.states[i].ops[t].kind == Stop && r.states[i].ops[t].pc == Release(true)
    requires forall j :: i < j <= k ==> Resting(At(r.states[j], id))
    ensures var c := At(r.states[k], id);
            && (c.registered ==> c.entry.Some? && c.entry.value.cond.reason == ContainerStopped)
            && (r.states[k].phase != Down ==> c.registered || c.past.unread)
            && c.saved.Some? && c.saved.value.stopped
  {
    CoarseHistories(r, i);
    CoarseHistories(r, k);
    var s := r.states[i];
    assert r.states[i + 1] == Apply(s, ReleaseStep(t)) && Resting(At(r.states[i + 1], id));
    assert OpOk(s.ops[t], At(s, id));
    StopEstablishes(s, t);
    HoldsAlong(r, i + 1, k, id);
    assert CellOk(id, At(r.states[k], id));
  }
}
