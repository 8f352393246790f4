/** Histories in which a running VM is reported lost or stopped: the poller took its list
    before the VM was running. */
module StartWitness {
  import opened Conditions
  import opened Records
  import opened Entries
  import opened Lifecycle
  import opened LifecycleInvariant
  import opened StopIntentFine
  import opened StartReport
  import opened StopWitness
  import opened Witness

  /** A list call that shows what there is now. */
  lemma ListIsTaken(c: Cell)
    requires Reached(Serve(c, map[], map[], Idle))
    ensures Reached(Serve(ListCell(c), map[], map[], Listed))
  {
    assert DoPoll(Serve(c, map[], map[], Idle), TakeList).cells == map[ID := ListCell(c)];
    Polls(c, Idle, TakeList, ListCell(c), Listed);
  }

  /** The VM is running and has been reported ready, and some continuation says otherwise
      while it runs on. */
  ghost predicate Overturned(s: State) {
    Reached(s) && Live(At(s, ID)) && SaysReady(At(s, ID)) && At(s, ID).registered && !StaysReady(s, ID)
  }

  lemma OldListOverturns(c: Cell)
    requires Reached(Serve(c, map[], map[], Listed)) && Live(c) && JustReported(c)
    requires !(c.poll.listed.Some? && c.poll.listed.value.running)
    ensures Overturned(Serve(c, map[], map[], Listed))
  {
    var s := Serve(c, map[], map[], Listed);
    var r: Run :| IsHistory(r) && r.states[|r.steps|] == s;
    HistoriesAreSafe(r, |r.steps|);
    assert At(s, ID) == c;
    StaysIffCurrent(s, ID);
  }

  /** A boot: the list was taken while the sandbox was still starting. */
  lemma BootIsOverturned(cfg: Config, req: Request)
    requires req.id == ID
    ensures exists s :: Overturned(s)
  {
    Accepted(cfg, req);
    var c0 := Created(BLANK, Rec(cfg, req), true);
    ListIsTaken(c0);
    var c1 := ListCell(c0);
    Provisions(c1, SkipPin, Listed);
    var c2 := ProvCell(ID, c1, SkipPin);
    Provisions(c2, Prepared, Listed);
    var c3 := ProvCell(ID, c2, Prepared);
    Provisions(c3, Cleared, Listed);
    var c4 := ProvCell(ID, c3, Cleared);
    Provisions(c4, NotCancelled, Listed);
    var c5 := ProvCell(ID, c4, NotCancelled);
    Provisions(c5, Boots, Listed);
    var c6 := ProvCell(ID, c5, Boots);
    Provisions(c6, ReportReady, Listed);
    OldListOverturns(ProvCell(ID, c6, ReportReady));
  }

  /** A start: the list was taken while the VM was still stopped. */
  lemma StartIsOverturned(cfg: Config, req: Request)
    requires req.id == ID
    ensures exists s :: Overturned(s)
  {
    Booted(cfg, req);
    var up := Up(Rec(cfg, req));
    StopGoesThrough(up, Idle);
    Releases(StoppedCell(up), Op(ID, Stop, Release(true), false), Idle);
    var c0 := SetBusy(StoppedCell(up), false);
    ListIsTaken(c0);
    var c1 := ListCell(c0);
    Begins(c1, Start, Listed);
    var c2, o2 := SetBusy(c1, true), Op(ID, Start, Invoke, false);
    Stops(c2, o2, InvokeOk, Listed);
    var c3, o3 := OpCell(o2, c2, InvokeOk), OpThread(o2, c2, InvokeOk);
    Stops(c3, o3, WriteMark, Listed);
    var c4, o4 := OpCell(o3, c3, WriteMark), OpThread(o3, c3, WriteMark);
    Stops(c4, o4, SaveMark(true), Listed);
    var c5, o5 := OpCell(o4, c4, SaveMark(true)), OpThread(o4, c4, SaveMark(true));
    Stops(c5, o5, WritePhase, Listed);
    var c6, o6 := OpCell(o5, c5, WritePhase), OpThread(o5, c5, WritePhase);
    Releases(c6, o6, Listed);
    OldListOverturns(SetBusy(c6, false));
  }
}
