/** The one way a successful delete can be undone: a stop already past its runtime call
    still saves the record it holds. */
module DeleteWitness {
  import opened Conditions
  import opened Records
  import opened Entries
  import opened Lifecycle
  import opened LifecycleInvariant
  import opened DeleteFinality
  import opened Witness

  /** A stop that has marked the entry and holds the record it is about to save. */
  function Held(rec: Record): Op {
    Op(ID, Stop, SavingMark(rec.(stopped := true)), false)
  }

  function Stopping(rec: Record): Cell {
    Up(rec).(entry := Some(Entry(rec.(stopped := true), READY_CONDITION, false, true, Finished)), vm := Some(Vm(false, true, ID)))
  }

  lemma StopIsSaving(cfg: Config, req: Request)
    requires req.id == ID
    ensures Reached(Serve(Stopping(Rec(cfg, req)), map[0 := Held(Rec(cfg, req))], map[], Idle))
  {
    Booted(cfg, req);
    var c0 := Up(Rec(cfg, req));
    Begins(c0, Stop, Idle);
    var c1, o1 := SetBusy(c0, true), Op(ID, Stop, Invoke, false);
    Stops(c1, o1, InvokeOk, Idle);
    var c2, o2 := OpCell(o1, c1, InvokeOk), OpThread(o1, c1, InvokeOk);
    Stops(c2, o2, WriteMark, Idle);
    assert OpCell(o2, c2, WriteMark) == Stopping(Rec(cfg, req));
  }

  /** The cell after the whole delete: nothing is left. */
  function Removed(rec: Record): Cell {
    Cell(Some(Entry(rec.(stopped := true), DELETING_CONDITION, true, true, Finished)), false, None, None, None, NO_MARK,
         Clean, Past(Some(rec.who), false, true, false))
  }

  lemma DeleteSucceeds(cfg: Config, req: Request)
    requires req.id == ID
    ensures Reached(Serve(Removed(Rec(cfg, req)), map[0 := Held(Rec(cfg, req))], map[0 := Del(ID, true, Returned, false)], Idle))
  {
    StopIsSaving(cfg, req);
    var ops := map[0 := Held(Rec(cfg, req))];
    var c0 := Stopping(Rec(cfg, req));
    var s := Serve(c0, ops, map[], Idle);
    assert At(s, ID) == c0;
    var c1, d1 := MarkDeleting(c0), Del(ID, true, Cancel, false);
    OnePut(s, ops, map[], Idle, c0, c1);
    Extend(s, DeleteStep(0, ID));
    assert s.dels[0 := d1] == map[0 := d1];
    Deletes(c1, ops, d1, CancelTask);
    var d2 := d1.(pc := Wait);
    Deletes(c1, ops, d2, DoneOrTimeout);
    var d3 := d1.(pc := RemoveVm);
    Deletes(c1, ops, d3, VmRemoved);
    var c4, d4 := DelCell(c1, VmRemoved), d1.(pc := RemoveRecord);
    Deletes(c4, ops, d4, RecordRemoved);
    var c5, d5 := DelCell(c4, RecordRemoved), d1.(pc := Unregister);
    Deletes(c5, ops, d5, DropEntry);
    assert DelCell(c5, DropEntry) == Removed(Rec(cfg, req));
  }

  /** There is a history in which a delete has returned success, nothing of the sandbox is
      left, and a later step still brings its record back: the stop's own save. */
  lemma DeleteCanBeUndone(cfg: Config, req: Request)
    requires req.id == ID
    ensures exists s :: Reached(s) && Inv(s) && Gone(At(s, ID)) && !GoneForever(s, ID)
                     && (exists u :: u in s.dels && s.dels[u].id == ID && s.dels[u].pc == Returned)
  {
    DeleteSucceeds(cfg, req);
    var s := Serve(Removed(Rec(cfg, req)), map[0 := Held(Rec(cfg, req))], map[0 := Del(ID, true, Returned, false)], Idle);
    var r: Run :| IsHistory(r) && r.states[|r.steps|] == s;
    HistoriesAreSafe(r, |r.steps|);
    assert s.ops[0].pc.SavingMark?;
    OpResurrects(s, ID, 0);
    assert At(s, ID) == Removed(Rec(cfg, req)) && s.dels[0].pc == Returned;
  }
}
