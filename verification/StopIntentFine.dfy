/** The stop intent at full granularity, where a poll's list call, its pass and its saves
    interleave with everything else: exactly when it survives. */
module StopIntentFine {
  import opened Conditions
  import opened Records
  import opened Entries
  import opened Lifecycle
  import opened LifecycleInvariant
  import LifecycleTheorems
  import opened CoarseRuns
  import opened StopIntent

  // ------------------------------------------------- what a stop knows in memory

  /** A stop or start in flight on an entry that is not being deleted. */
  ghost predicate Marked(o: Op, c: Cell) {
    Present(c) ==>
      && (o.pc.SavingMark? || o.pc == SetPhase || o.pc == Release(true) ==> c.entry.value.rec.stopped == (o.kind == Stop))
      && (o.pc == Release(true) ==> c.entry.value.cond.reason == if o.kind == Stop then ContainerStopped else BackendReady)
  }

  ghost predicate AllMarked(s: State) {
    forall t :: t in s.ops ==> Marked(s.ops[t], At(s, s.ops[t].id))
  }

  /** The record in memory and the phase of a held entry. */
  predicate Left(c: Cell, c': Cell) {
    Present(c') ==> Present(c) && c'.entry.value.rec == c.entry.value.rec && SamePhase(c'.entry.value.cond, c.entry.value.cond)
  }

  lemma PollLeaves(s: State, a: PollAct, id: Id)
    requires CanPoll(s, a) && Busy(At(s, id))
    ensures Left(At(s, id), At(DoPoll(s, a), id))
  {
    if a == AttachTail(id) {
      assert At(DoPoll(s, a), id) == AttachCell(At(s, id));
    } else {
      LifecycleTheorems.PollLeavesEntry(s, a, id);
    }
  }

  lemma OthersLeave(s: State, st: Step, id: Id)
    requires Inv(s) && Enabled(s, st) && !st.RestartStep? && Busy(At(s, id))
    requires !(st.OpStep? && s.ops[st.t].id == id)
    ensures Left(At(s, id), At(Apply(s, st), id))
  {
    if st.PollStep? { PollLeaves(s, st.la, id); } else { NotDisturbed(s, st, id); }
  }

  lemma OwnMark(id: Id, o: Op, c: Cell, a: OpAct)
    requires CellOk(id, c) && OpOk(o, c) && CanOp(o, c, a) && Marked(o, c)
    ensures Marked(OpThread(o, c, a), OpCell(o, c, a))
  {
  }

  lemma MarkStep(s: State, st: Step, t: Tid)
    requires Inv(s) && AllMarked(s) && Enabled(s, st) && !st.RestartStep? && t in Apply(s, st).ops
    ensures Marked(Apply(s, st).ops[t], At(Apply(s, st), Apply(s, st).ops[t].id))
  {
    ThreadSource(s, st, t);
    if st.BeginStep? && st.t == t {
    } else if st.OpStep? && st.t == t {
      var o := s.ops[t];
      assert CellOk(o.id, At(s, o.id));
      OwnMark(o.id, o, At(s, o.id), st.oa);
    } else {
      var o := s.ops[t];
      assert OpOk(o, At(s, o.id)) && Marked(o, At(s, o.id));
      OthersLeave(s, st, o.id);
    }
  }

  lemma RestartMarks(s: State, a: RestartAct)
    requires Inv(s) && CanRestart(s, a)
    ensures AllMarked(DoRestart(s, a))
  {
  }

  lemma {:induction false} HistoriesAreMarked(r: Run, i: nat)
    requires IsHistory(r) && i < |r.states|
    ensures AllMarked(r.states[i])
  {
    if i > 0 {
      HistoriesAreMarked(r, i - 1);
      HistoriesAreSafe(r, i - 1);
      MarksNext(r.states[i - 1], r.steps[i - 1]);
    }
  }

  lemma MarksNext(s: State, st: Step)
    requires Inv(s) && AllMarked(s) && Enabled(s, st)
    ensures AllMarked(Apply(s, st))
  {
    if st.RestartStep? {
      RestartMarks(s, st.ra);
    } else {
      forall t | t in Apply(s, st).ops ensures Marked(Apply(s, st).ops[t], At(Apply(s, st), Apply(s, st).ops[t].id)) {
        MarkStep(s, st, t);
      }
    }
  }

  // -------------------------------------------------------------- the condition

  /** The poller holds nothing of the sandbox from before the stop: neither a list that
      does not show its VM at rest, nor a record without the stop mark. */
  ghost predicate PollerIsCurrent(s: State, id: Id) {
    && (s.poll.Listed? ==> At(s, id).poll.listed.Some? && !At(s, id).poll.listed.value.running)
    && (s.poll.Saving? && s.poll.rec.who.id == id ==> s.poll.rec.stopped)
  }

  /** The mark is on disk and the poller is current. */
  ghost predicate Settled(s: State, id: Id) {
    At(s, id).saved.Some? && At(s, id).saved.value.stopped && PollerIsCurrent(s, id)
  }

  lemma PollKeepsFine(s: State, a: PollAct, id: Id)
    requires Inv(s) && CanPoll(s, a) && Holds(s, id) && Resting(At(s, id)) && PollerIsCurrent(s, id)
    ensures Kept(At(DoPoll(s, a), id))
  {
    var c := At(s, id);
    assert CellOk(id, c) && PhaseOk(s.phase, c);
    PollKeeps(c, a.QuickPoll? && id !in a.lost);
    if a.ApplyList? { ApplyKeeps(c); }
  }

  lemma ApplyKeeps(c: Cell)
    requires Kept(c) && c.poll.listed.Some? && !c.poll.listed.value.running
    ensures Kept(ApplyCell(c))
  {
  }

  lemma PollerStaysCurrent(s: State, a: PollAct, id: Id)
    requires Inv(s) && CanPoll(s, a) && Holds(s, id) && Resting(At(s, id)) && PollerIsCurrent(s, id)
    ensures PollerIsCurrent(DoPoll(s, a), id)
  {
    if a.PickSave? { assert CellOk(a.id, At(s, a.id)); }
  }

  lemma OthersKeepPoller(s: State, st: Step, id: Id)
    requires Enabled(s, st) && !st.PollStep? && PollerIsCurrent(s, id)
    ensures PollerIsCurrent(Apply(s, st), id)
  {
    if !st.RestartStep? { OthersLeavePoller(s, st, id); }
  }

  lemma FineStep(s: State, st: Step, id: Id)
    requires Inv(s) && Enabled(s, st) && Holds(s, id) && PollerIsCurrent(s, id)
    requires Resting(At(s, id)) && Resting(At(Apply(s, st), id))
    ensures Holds(Apply(s, st), id) && PollerIsCurrent(Apply(s, st), id)
  {
    if st.RestartStep? {
      RestartHolds(s, st.ra, id);
      OthersKeepPoller(s, st, id);
    } else if st.PollStep? {
      PollKeepsFine(s, st.la, id);
      PollerStaysCurrent(s, st.la, id);
      HoldsNextIfKept(s, st, id);
    } else {
      KeptNext(s, st, id);
      OthersKeepPoller(s, st, id);
      HoldsNextIfKept(s, st, id);
    }
  }

  ghost predicate RestsAlong(r: Run, id: Id) {
    forall j :: 0 <= j < |r.states| ==> Resting(At(r.states[j], id))
  }

  lemma FineNext(r: Run, id: Id, k: nat)
    requires IsRun(r) && k < |r.steps| && Inv(r.states[k]) && Holds(r.states[k], id) && PollerIsCurrent(r.states[k], id)
    requires Resting(At(r.states[k], id)) && Resting(At(r.states[k + 1], id))
    ensures Inv(r.states[k + 1]) && Holds(r.states[k + 1], id) && PollerIsCurrent(r.states[k + 1], id)
  {
    var s, st := r.states[k], r.steps[k];
    assert Enabled(s, st) && r.states[k + 1] == Apply(s, st);
    FineStep(s, st, id);
    StepKeepsInv(s, st);
  }

  lemma {:induction false} HoldsAlongFine(r: Run, id: Id, k: nat)
    requires IsRun(r) && k < |r.states| && RestsAlong(r, id)
    requires Inv(r.states[0]) && Holds(r.states[0], id) && PollerIsCurrent(r.states[0], id)
    ensures Inv(r.states[k]) && Holds(r.states[k], id) && PollerIsCurrent(r.states[k], id)
  {
    if k > 0 {
      HoldsAlongFine(r, id, k - 1);
      assert Resting(At(r.states[k - 1], id)) && Resting(At(r.states[k], id));
      FineNext(r, id, k - 1);
    }
  }

  // ------------------------------------------------------------------ the theorem

  predicate SaysStopped(c: Cell) {
    c.registered ==> c.entry.Some? && c.entry.value.cond.reason == ContainerStopped
  }

  /** In every continuation, for as long as the VM stays at rest, every observation says
      ContainerStopped. */
  ghost predicate StaysStopped(s: State, id: Id) {
    forall r: Run :: IsRun(r) && r.states[0] == s && RestsAlong(r, id) ==> SaysStopped(At(r.states[|r.steps|], id))
  }

  lemma Refute(s: State, id: Id, r: Run)
    requires IsRun(r) && r.states[0] == s && RestsAlong(r, id) && !SaysStopped(At(r.states[|r.steps|], id))
    ensures !StaysStopped(s, id)
  {
  }

  /** A restart forgets a stop whose mark is not on disk. */
  lemma RestartForgets(s: State, id: Id)
    requires Resting(At(s, id)) && At(s, id).saved.Some? && !At(s, id).saved.value.stopped
    ensures !StaysStopped(s, id)
  {
    var s1 := Apply(s, RestartStep(Crash));
    assert At(s1, id) == DownCell(At(s, id));
    var s2 := Apply(s1, RestartStep(Load({}, {})));
    assert At(s2, id) == LoadCell(s1, id, At(s1, id), false, {});
    assert IsRun(Run([s, s1, s2], [RestartStep(Crash), RestartStep(Load({}, {}))]));
    LoadedSaysExited(s1, id, At(s1, id));
    Refute(s, id, Run([s, s1, s2], [RestartStep(Crash), RestartStep(Load({}, {}))]));
  }

  lemma LoadedSaysExited(s: State, id: Id, c: Cell)
    requires c.saved.Some? && !c.saved.value.stopped && c.vm.Some? && !c.vm.value.running
    ensures Resting(LoadCell(s, id, c, false, {})) && !SaysStopped(LoadCell(s, id, c, false, {}))
  {
  }

  /** A list from before the stop, applied after it, overwrites what the stop reported. */
  lemma OldListOverwrites(s: State, id: Id)
    requires Inv(s) && Resting(At(s, id)) && s.poll.Listed? && Kept(At(s, id))
    requires At(s, id).registered && !Busy(At(s, id)) && At(s, id).prov.None?
    requires !(At(s, id).poll.listed.Some? && !At(s, id).poll.listed.value.running)
    ensures !StaysStopped(s, id)
  {
    assert CellOk(id, At(s, id));
    var s1 := Apply(s, PollStep(ApplyList));
    assert At(s1, id) == ApplyCell(At(s, id));
    Refute(s, id, Run([s, s1], [PollStep(ApplyList)]));
  }

  /** A save from before the stop, landing after it, takes the mark off the disk. */
  lemma OldSaveForgets(s: State, id: Id)
    requires Inv(s) && Resting(At(s, id)) && s.poll.Saving? && s.poll.rec.who.id == id && !s.poll.rec.stopped
    ensures !StaysStopped(s, id)
  {
    var st := PollStep(SaveRec(true));
    var s1 := Apply(s, st);
    StepKeepsInv(s, st);
    assert At(s1, id) == At(s, id).(saved := Some(s.poll.rec));
    RestartForgets(s1, id);
    StepThenRefute(s, st, id);
  }

  lemma StepThenRefute(s: State, st: Step, id: Id)
    requires Enabled(s, st) && Resting(At(s, id)) && !StaysStopped(Apply(s, st), id)
    ensures !StaysStopped(s, id)
  {
    var r :| IsRun(r) && r.states[0] == Apply(s, st) && RestsAlong(r, id) && !SaysStopped(At(r.states[|r.steps|], id));
    PrependIsRun(s, st, r);
    var q := Prepend(s, st, r);
    forall j | 0 <= j < |q.states| ensures Resting(At(q.states[j], id)) {
      if j > 0 { assert q.states[j] == r.states[j - 1]; }
    }
    Refute(s, id, q);
  }

  /** What a stop that returns success leaves in memory. */
  predicate JustStopped(c: Cell) {
    c.registered && !Busy(c) && c.prov.None? && Present(c) && c.entry.value.rec.stopped && c.entry.value.cond.reason == ContainerStopped
  }

  lemma ReleaseLeaves(s: State, t: Tid)
    requires Inv(s) && AllMarked(s) && Enabled(s, ReleaseStep(t)) && s.ops[t].kind == Stop && s.ops[t].pc == Release(true)
    requires Present(At(s, s.ops[t].id))
    ensures var s' := Apply(s, ReleaseStep(t));
            JustStopped(At(s', s.ops[t].id)) && (forall u :: u in s'.ops ==> s'.ops[u].id != s.ops[t].id)
  {
    var o := s.ops[t];
    assert CellOk(o.id, At(s, o.id)) && OpOk(o, At(s, o.id)) && Marked(o, At(s, o.id));
    assert At(Apply(s, ReleaseStep(t)), o.id) == SetBusy(At(s, o.id), false);
  }

  lemma StaysIffSettled(s: State, id: Id)
    requires Inv(s) && Resting(At(s, id)) && JustStopped(At(s, id)) && forall u :: u in s.ops ==> s.ops[u].id != id
    ensures StaysStopped(s, id) <==> Settled(s, id)
  {
    var c := At(s, id);
    assert CellOk(id, c) && c.saved.Some?;
    if Settled(s, id) {
      forall r: Run | IsRun(r) && r.states[0] == s && RestsAlong(r, id) ensures SaysStopped(At(r.states[|r.steps|], id)) {
        HoldsAlongFine(r, id, |r.steps|);
        assert CellOk(id, At(r.states[|r.steps|], id));
      }
    } else if !c.saved.value.stopped {
      RestartForgets(s, id);
    } else if s.poll.Listed? {
      OldListOverwrites(s, id);
    } else {
      OldSaveForgets(s, id);
    }
  }

  /** At full granularity, in every history: from the moment StopSandbox returns success,
      every observation of the resting VM says ContainerStopped in every continuation, if
      and only if the mark is on disk and the poller holds no list and no save of the
      sandbox from before the stop. */
  lemma StopIntentIff(r: Run, i: nat, t: Tid, id: Id)
    requires IsHistory(r) && i < |r.steps| && r.steps[i] == ReleaseStep(t) && r.states[i].ops[t].id == id
    requires r.states[i].ops[t].kind == Stop && r.states[i].ops[t].pc == Release(true)
    requires Resting(At(r.states[i + 1], id))
    ensures StaysStopped(r.states[i + 1], id) <==> Settled(r.states[i + 1], id)
  {
    var s := r.states[i];
    HistoriesAreSafe(r, i);
    HistoriesAreSafe(r, i + 1);
    HistoriesAreMarked(r, i);
    assert r.states[i + 1] == Apply(s, ReleaseStep(t));
    assert OpOk(s.ops[t], At(s, id));
    assert At(r.states[i + 1], id) == SetBusy(At(s, id), false);
    ReleaseLeaves(s, t);
    StaysIffSettled(r.states[i + 1], id);
  }
}
