/** Histories in which a stop returns success and its report is lost all the same. */
module StopWitness {
  import opened Conditions
  import opened Records
  import opened Entries
  import opened Lifecycle
  import opened LifecycleInvariant
  import opened StopIntent
  import opened StopIntentFine
  import opened Witness

  /** The cell of a sandbox that a stop has gone through, up to its release. */
  function StoppedCell(c: Cell): Cell
    requires c.entry.Some? && c.vm.Some?
  {
    var rec := c.entry.value.rec.(stopped := true);
    c.(entry := Some(c.entry.value.(rec := rec, cond := STOPPED_CONDITION, busy := true)), saved := Some(rec),
       vm := Some(c.vm.value.(running := false)))
  }

  lemma StopGoesThrough(c: Cell, poll: PollPc)
    requires Reached(Serve(c, map[], map[], poll)) && c.registered && c.vm.Some?
    requires c.entry.Some? && LifecycleRefusal(c.entry.value) == None
    ensures Reached(Serve(StoppedCell(c), map[0 := Op(ID, Stop, Release(true), false)], map[], poll))
  {
    Begins(c, Stop, poll);
    var c1, o1 := SetBusy(c, true), Op(ID, Stop, Invoke, false);
    Stops(c1, o1, InvokeOk, poll);
    var c2, o2 := OpCell(o1, c1, InvokeOk), OpThread(o1, c1, InvokeOk);
    Stops(c2, o2, WriteMark, poll);
    var c3, o3 := OpCell(o2, c2, WriteMark), OpThread(o2, c2, WriteMark);
    Stops(c3, o3, SaveMark(true), poll);
    var c4, o4 := OpCell(o3, c3, SaveMark(true)), OpThread(o3, c3, SaveMark(true));
    Stops(c4, o4, WritePhase, poll);
    assert OpCell(o4, c4, WritePhase) == StoppedCell(c);
  }

  /** A reached state in which a stop is about to return success, the VM is at rest, and yet
      some continuation reports something else. */
  ghost predicate Forgettable(s: State) {
    && Reached(s) && Enabled(s, ReleaseStep(0)) && s.ops[0] == Op(ID, Stop, Release(true), false)
    && var s' := Apply(s, ReleaseStep(0));
    Resting(At(s', ID)) && !Settled(s', ID) && !StaysStopped(s', ID)
  }

  lemma UnsettledIsForgettable(c: Cell, poll: PollPc)
    requires c.entry.Some? && c.vm.Some? && !c.entry.value.deleting
    requires var s := Serve(StoppedCell(c), map[0 := Op(ID, Stop, Release(true), false)], map[], poll);
             Reached(s) && !Settled(Serve(SetBusy(StoppedCell(c), false), map[], map[], poll), ID)
    ensures Forgettable(Serve(StoppedCell(c), map[0 := Op(ID, Stop, Release(true), false)], map[], poll))
  {
    var s := Serve(StoppedCell(c), map[0 := Op(ID, Stop, Release(true), false)], map[], poll);
    var r: Run :| IsHistory(r) && r.states[|r.steps|] == s;
    HistoriesAreSafe(r, |r.steps|);
    HistoriesAreMarked(r, |r.steps|);
    OnePut(s, s.ops, map[], poll, StoppedCell(c), SetBusy(StoppedCell(c), false));
    var s' := Apply(s, ReleaseStep(0));
    assert s.ops - {0} == map[];
    assert s' == Serve(SetBusy(StoppedCell(c), false), map[], map[], poll);
    StepKeepsInv(s, ReleaseStep(0));
    ReleaseLeaves(s, 0);
    StaysIffSettled(s', ID);
  }

  /** First case: the poller took its list while the VM was running, and applies it after
      the stop has returned. */
  lemma OldListIsReached(cfg: Config, req: Request)
    requires req.id == ID
    ensures exists s :: Forgettable(s) && s.poll.Listed?
  {
    Booted(cfg, req);
    var c0 := Up(Rec(cfg, req));
    var c1 := ListCell(c0);
    assert DoPoll(Serve(c0, map[], map[], Idle), TakeList).cells == map[ID := c1];
    Polls(c0, Idle, TakeList, c1, Listed);
    StopGoesThrough(c1, Listed);
    UnsettledIsForgettable(c1, Listed);
  }

  /** A stopped sandbox whose VM somebody has started behind the gateway's back. */
  function Restarted(rec: Record): Cell {
    Up(rec).(entry := Some(Entry(rec.(stopped := true), STOPPED_CONDITION, false, false, Finished)), saved := Some(rec.(stopped := true)))
  }

  lemma RestartedIsReached(cfg: Config, req: Request)
    requires req.id == ID
    ensures Reached(Serve(Restarted(Rec(cfg, req)), map[], map[], Idle))
  {
    Booted(cfg, req);
    var c0 := Up(Rec(cfg, req));
    StopGoesThrough(c0, Idle);
    Releases(StoppedCell(c0), Op(ID, Stop, Release(true), false), Idle);
    var c1 := SetBusy(StoppedCell(c0), false);
    Turns(c1, VmTurns(true));
    assert EnvCell(Serving, c1, VmTurns(true)) == Restarted(Rec(cfg, req));
  }

  /** The poller has dropped the stop mark and holds the record it is about to save. */
  function Noticed(rec: Record): Cell {
    Up(rec).(saved := Some(rec.(stopped := true)))
  }

  lemma SaveIsHeld(cfg: Config, req: Request)
    requires req.id == ID
    ensures Reached(Serve(Noticed(Rec(cfg, req)), map[], map[], Saving(Rec(cfg, req))))
  {
    RestartedIsReached(cfg, req);
    var c0 := Restarted(Rec(cfg, req));
    var c1 := ListCell(c0);
    assert DoPoll(Serve(c0, map[], map[], Idle), TakeList).cells == map[ID := c1];
    Polls(c0, Idle, TakeList, c1, Listed);
    var c2 := ApplyCell(c1);
    assert DoPoll(Serve(c1, map[], map[], Listed), ApplyList).cells == map[ID := c2];
    Polls(c1, Listed, ApplyList, c2, Persist);
    OnePut(Serve(c2, map[], map[], Persist), map[], map[], Persist, c2, Noticed(Rec(cfg, req)));
    Polls(c2, Persist, PickSave(ID), Noticed(Rec(cfg, req)), Saving(Rec(cfg, req)));
  }

  /** Second case: the poller holds a record it picked before the stop, and saves it after
      the stop's own save; the next restart does not know of the stop. */
  lemma OldSaveIsReached(cfg: Config, req: Request)
    requires req.id == ID
    ensures exists s :: Forgettable(s) && s.poll.Saving?
  {
    SaveIsHeld(cfg, req);
    var c := Noticed(Rec(cfg, req));
    StopGoesThrough(c, Saving(Rec(cfg, req)));
    UnsettledIsForgettable(c, Saving(Rec(cfg, req)));
  }
}
