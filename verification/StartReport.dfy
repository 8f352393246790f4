/** What a start that returns success, and a boot, have reported: exactly when it stays
    reported for as long as the VM runs. */
module StartReport {
  import opened Conditions
  import opened Records
  import opened Entries
  import opened Lifecycle
  import opened LifecycleInvariant
  import opened CoarseRuns
  import LifecycleTheorems
  import opened StopIntentFine

  /** The VM exists, is running and is not being deleted. */
  predicate Live(c: Cell) {
    c.vm.Some? && c.vm.value.running && (c.entry.Some? ==> !c.entry.value.deleting)
  }

  predicate SaysReady(c: Cell) {
    c.registered ==> c.entry.Some? && c.entry.value.cond.reason == BackendReady
  }

  ghost predicate LiveAlong(r: Run, id: Id) {
    forall j :: 0 <= j < |r.states| ==> Live(At(r.states[j], id))
  }

  /** In every continuation, for as long as the VM runs, every observation says it is ready. */
  ghost predicate StaysReady(s: State, id: Id) {
    forall r: Run :: IsRun(r) && r.states[0] == s && LiveAlong(r, id) ==> SaysReady(At(r.states[|r.steps|], id))
  }

  /** The poller holds no list from before the VM was running. */
  ghost predicate ListIsCurrent(s: State, id: Id) {
    s.poll.Listed? ==> At(s, id).poll.listed.Some? && At(s, id).poll.listed.value.running
  }

  /** A stop that has not got past its runtime call. */
  predicate NotStopping(o: Op) {
    o.kind == Stop ==> o.pc == Invoke || o.pc == Check || o.pc == Release(false)
  }

  /** Ready in memory where there is an entry; provisioning is over but for its last step. */
  predicate Reported(c: Cell) {
    && (c.entry.Some? ==> c.entry.value.cond.reason == BackendReady)
    && (c.prov.Some? ==> c.prov.value.pc == Close)
  }

  ghost predicate Holds(s: State, id: Id) {
    && Reported(At(s, id)) && ListIsCurrent(s, id)
    && forall t :: t in s.ops && s.ops[t].id == id ==> NotStopping(s.ops[t])
  }

  // ------------------------------------------------------------------ it is kept

  lemma OpKeeps(id: Id, o: Op, c: Cell, a: OpAct)
    requires CellOk(id, c) && OpOk(o, c) && CanOp(o, c, a) && NotStopping(o)
    requires Reported(c) && Live(c) && Live(OpCell(o, c, a))
    ensures Reported(OpCell(o, c, a)) && NotStopping(OpThread(o, c, a))
  {
  }

  lemma PollKeeps(c: Cell, ok: bool)
    requires Reported(c) && Live(c)
    ensures Reported(QuickCell(c, ok)) && (c.entry.Some? ==> Reported(AttachCell(c)))
    ensures c.poll.listed.Some? && c.poll.listed.value.running ==> Reported(ApplyCell(c))
  {
  }

  lemma PollStepKeeps(s: State, a: PollAct, id: Id)
    requires CanPoll(s, a) && Holds(s, id) && Live(At(s, id))
    ensures Reported(At(DoPoll(s, a), id)) && ListIsCurrent(DoPoll(s, a), id)
  {
    PollKeeps(At(s, id), a.QuickPoll? && id !in a.lost);
  }

  lemma RestartKeeps(s: State, a: RestartAct, id: Id)
    requires Inv(s) && CanRestart(s, a) && Holds(s, id) && Live(At(s, id)) && At(s, id).past.accepted.Some?
    ensures Holds(DoRestart(s, a), id)
  {
    assert CellOk(id, At(s, id)) && PhaseOk(s.phase, At(s, id));
  }

  /** The cell steps of everybody but the poller and a restart. */
  lemma CellKeeps(s: State, st: Step, id: Id)
    requires Inv(s) && Enabled(s, st) && !st.RestartStep? && !st.PollStep?
    requires Holds(s, id) && Live(At(s, id)) && Live(At(Apply(s, st), id)) && At(s, id).past.accepted.Some?
    ensures Reported(At(Apply(s, st), id))
  {
    var c := At(s, id);
    assert CellOk(id, c) && PhaseOk(s.phase, c);
    if id != Target(s, st) {
      OnlyTarget(s, st, id);
    } else {
      match st
      case OpStep(t, a) => OpStepKeeps(s, st, id);
      case DelStep(_, _) => DelStepKeeps(s, st, id);
      case DeleteStep(_, _) => DeleteStepKeeps(s, st, id);
      case _ =>
    }
  }

  lemma OpStepKeeps(s: State, st: Step, id: Id)
    requires Inv(s) && Enabled(s, st) && st.OpStep? && id == s.ops[st.t].id
    requires Holds(s, id) && Live(At(s, id)) && Live(At(Apply(s, st), id))
    ensures Reported(At(Apply(s, st), id))
  {
    assert CellOk(id, At(s, id)) && OpOk(s.ops[st.t], At(s, id));
    assert At(Apply(s, st), id) == OpCell(s.ops[st.t], At(s, id), st.oa);
    OpKeeps(id, s.ops[st.t], At(s, id), st.oa);
  }

  lemma DelStepKeeps(s: State, st: Step, id: Id)
    requires Enabled(s, st) && st.DelStep? && id == s.dels[st.u].id && Reported(At(s, id))
    ensures Reported(At(Apply(s, st), id))
  {
    assert At(Apply(s, st), id) == DelCell(At(s, id), st.da);
  }

  lemma DeleteStepKeeps(s: State, st: Step, id: Id)
    requires Enabled(s, st) && st.DeleteStep? && id == st.id && Reported(At(s, id)) && Live(At(Apply(s, st), id))
    ensures Reported(At(Apply(s, st), id))
  {
    assert At(Apply(s, st), id) == MarkDeleting(At(s, id));
  }

  lemma ThreadsDoNotStop(s: State, st: Step, id: Id, t: Tid)
    requires Inv(s) && Enabled(s, st) && !st.RestartStep? && Holds(s, id) && Live(At(s, id)) && Live(At(Apply(s, st), id))
    requires t in Apply(s, st).ops && Apply(s, st).ops[t].id == id
    ensures NotStopping(Apply(s, st).ops[t])
  {
    ThreadSource(s, st, t);
    if st.OpStep? && st.t == t {
      var o := s.ops[t];
      assert CellOk(o.id, At(s, o.id)) && OpOk(o, At(s, o.id));
      assert At(Apply(s, st), id) == OpCell(o, At(s, id), st.oa);
      OpKeeps(id, o, At(s, id), st.oa);
    }
  }

  lemma ListStaysCurrent(s: State, st: Step, id: Id)
    requires Enabled(s, st) && !st.RestartStep? && !st.PollStep? && ListIsCurrent(s, id)
    ensures ListIsCurrent(Apply(s, st), id)
  {
    OthersLeavePoller(s, st, id);
  }

  lemma HoldsStep(s: State, st: Step, id: Id)
    requires Inv(s) && Enabled(s, st) && Holds(s, id) && At(s, id).past.accepted.Some?
    requires Live(At(s, id)) && Live(At(Apply(s, st), id))
    ensures Holds(Apply(s, st), id)
  {
    if st.RestartStep? {
      RestartKeeps(s, st.ra, id);
    } else {
      if st.PollStep? {
        PollStepKeeps(s, st.la, id);
      } else {
        CellKeeps(s, st, id);
        ListStaysCurrent(s, st, id);
      }
      forall t | t in Apply(s, st).ops && Apply(s, st).ops[t].id == id ensures NotStopping(Apply(s, st).ops[t]) {
        ThreadsDoNotStop(s, st, id, t);
      }
    }
  }

  lemma AcceptedStays(s: State, st: Step, id: Id)
    requires Inv(s) && Enabled(s, st) && At(s, id).past.accepted.Some?
    ensures At(Apply(s, st), id).past.accepted.Some?
  {
    LifecycleTheorems.AcceptedStep(s, st, id);
  }

  lemma {:induction false} HoldsAlong(r: Run, id: Id, k: nat)
    requires IsRun(r) && k < |r.states| && LiveAlong(r, id) && Inv(r.states[0]) && Holds(r.states[0], id)
    requires At(r.states[0], id).past.accepted.Some?
    ensures Inv(r.states[k]) && Holds(r.states[k], id) && At(r.states[k], id).past.accepted.Some?
  {
    if k > 0 {
      HoldsAlong(r, id, k - 1);
      var s, st := r.states[k - 1], r.steps[k - 1];
      assert Enabled(s, st) && r.states[k] == Apply(s, st);
      assert Live(At(r.states[k - 1], id)) && Live(At(r.states[k], id));
      HoldsStep(s, st, id);
      StepKeepsInv(s, st);
      AcceptedStays(s, st, id);
    }
  }

  // ------------------------------------------------------------- or overwritten

  lemma Refute(s: State, id: Id, r: Run)
    requires IsRun(r) && r.states[0] == s && LiveAlong(r, id) && !SaysReady(At(r.states[|r.steps|], id))
    ensures !StaysReady(s, id)
  {
  }

  /** Ready has just been reported, and nobody holds the entry. */
  predicate JustReported(c: Cell) {
    && c.registered && !Busy(c) && Present(c) && c.entry.value.cond.reason == BackendReady
    && (c.prov.Some? ==> c.prov.value.pc == Close)
  }

  /** A list from before the VM was running, applied to the entry once it can be polled. */
  lemma OldListOverwrites(s: State, id: Id)
    requires Inv(s) && Live(At(s, id)) && JustReported(At(s, id)) && At(s, id).prov.None? && s.poll.Listed? && !ListIsCurrent(s, id)
    ensures !StaysReady(s, id)
  {
    assert CellOk(id, At(s, id));
    var s1 := Apply(s, PollStep(ApplyList));
    assert At(s1, id) == ApplyCell(At(s, id));
    Refute(s, id, Run([s, s1], [PollStep(ApplyList)]));
  }

  lemma StepThenRefute(s: State, st: Step, id: Id)
    requires Enabled(s, st) && Live(At(s, id)) && !StaysReady(Apply(s, st), id)
    ensures !StaysReady(s, id)
  {
    var r :| IsRun(r) && r.states[0] == Apply(s, st) && LiveAlong(r, id) && !SaysReady(At(r.states[|r.steps|], id));
    PrependIsRun(s, st, r);
    var q := Prepend(s, st, r);
    forall j | 0 <= j < |q.states| ensures Live(At(q.states[j], id)) {
      if j > 0 { assert q.states[j] == r.states[j - 1]; }
    }
    Refute(s, id, q);
  }

  /** The goroutine only has its channel left to close. */
  lemma ClosingOverwrites(s: State, id: Id)
    requires Inv(s) && Live(At(s, id)) && JustReported(At(s, id)) && At(s, id).prov.Some? && s.poll.Listed? && !ListIsCurrent(s, id)
    ensures !StaysReady(s, id)
  {
    assert CellOk(id, At(s, id));
    var st := ProvStep(id, CloseDone);
    StepKeepsInv(s, st);
    var s1 := Apply(s, st);
    assert At(s1, id) == ProvCell(id, At(s, id), CloseDone);
    OldListOverwrites(s1, id);
    StepThenRefute(s, st, id);
  }

  // ----------------------------------------------------------------- the theorems

  lemma StaysIffCurrent(s: State, id: Id)
    requires Inv(s) && Live(At(s, id)) && JustReported(At(s, id)) && forall t :: t in s.ops ==> s.ops[t].id != id
    ensures StaysReady(s, id) <==> ListIsCurrent(s, id)
  {
    assert CellOk(id, At(s, id));
    if ListIsCurrent(s, id) {
      forall r: Run | IsRun(r) && r.states[0] == s && LiveAlong(r, id) ensures SaysReady(At(r.states[|r.steps|], id)) {
        HoldsAlong(r, id, |r.steps|);
        assert CellOk(id, At(r.states[|r.steps|], id));
      }
    } else if At(s, id).prov.Some? {
      ClosingOverwrites(s, id);
    } else {
      OldListOverwrites(s, id);
    }
  }

  lemma ReleaseReports(s: State, t: Tid)
    requires Inv(s) && AllMarked(s) && Enabled(s, ReleaseStep(t)) && s.ops[t].kind == Start && s.ops[t].pc == Release(true)
    requires Present(At(s, s.ops[t].id))
    ensures var s' := Apply(s, ReleaseStep(t));
            JustReported(At(s', s.ops[t].id)) && (forall u :: u in s'.ops ==> s'.ops[u].id != s.ops[t].id)
  {
    var o := s.ops[t];
    assert CellOk(o.id, At(s, o.id)) && OpOk(o, At(s, o.id)) && Marked(o, At(s, o.id));
    assert At(Apply(s, ReleaseStep(t)), o.id) == SetBusy(At(s, o.id), false);
  }

  /** From the moment StartSandbox returns success, every observation of the running VM says
      it is ready in every continuation, if and only if the poller holds no list from before
      the VM was running. */
  lemma StartReportIff(r: Run, i: nat, t: Tid, id: Id)
    requires IsHistory(r) && i < |r.steps| && r.steps[i] == ReleaseStep(t) && r.states[i].ops[t].id == id
    requires r.states[i].ops[t].kind == Start && r.states[i].ops[t].pc == Release(true)
    requires Live(At(r.states[i + 1], id))
    ensures StaysReady(r.states[i + 1], id) <==> ListIsCurrent(r.states[i + 1], id)
  {
    var s := r.states[i];
    HistoriesAreSafe(r, i);
    HistoriesAreSafe(r, i + 1);
    HistoriesAreMarked(r, i);
    assert r.states[i + 1] == Apply(s, ReleaseStep(t));
    assert OpOk(s.ops[t], At(s, id));
    assert At(r.states[i + 1], id) == SetBusy(At(s, id), false);
    ReleaseReports(s, t);
    StaysIffCurrent(r.states[i + 1], id);
  }

  /** The same of provisioning, from the moment it reports the sandbox ready. */
  lemma BootReportIff(r: Run, i: nat, id: Id)
    requires IsHistory(r) && i < |r.steps| && r.steps[i] == ProvStep(id, ReportReady) && Live(At(r.states[i + 1], id))
    ensures StaysReady(r.states[i + 1], id) <==> ListIsCurrent(r.states[i + 1], id)
  {
    var s := r.states[i];
    HistoriesAreSafe(r, i);
    HistoriesAreSafe(r, i + 1);
    assert Enabled(s, r.steps[i]) && r.states[i + 1] == Apply(s, r.steps[i]);
    assert CellOk(id, At(s, id));
    assert At(r.states[i + 1], id) == ProvCell(id, At(s, id), ReportReady);
    forall t | t in s.ops ensures s.ops[t].id != id {
      assert OpOk(s.ops[t], At(s, s.ops[t].id));
    }
    StaysIffCurrent(r.states[i + 1], id);
  }
}
