/** The handlers in their own shape: methods that update entry objects, the store and the
    VMs in place.  Each critical section, runtime call and store call is a method that is
    proved to be one step of the transition system, from any state it may find.  Put
    together they are the handlers, proved to be runs of those steps when nothing else
    happens in between; what happens in between is the transition system's business. */
module Handlers {
  import opened Conditions
  import opened Records
  import opened Entries
  import opened Lifecycle
  import L = Lifecycle
  import R = Registry

  // ------------------------------------------------- runs of one thread's steps

  datatype OpState = OpState(op: Op, cell: Cell)

  /** Where the steps of one stop or start lead; None if one of them cannot be taken. */
  function OpEnd(o: Op, c: Cell, acts: seq<OpAct>): Option<OpState> {
    if acts == [] then Some(OpState(o, c))
    else
      match OpEnd(o, c, acts[..|acts| - 1])
      case None => None
      case Some(m) =>
        var a := acts[|acts| - 1];
        if CanOp(m.op, m.cell, a) then Some(OpState(OpThread(m.op, m.cell, a), OpCell(m.op, m.cell, a))) else None
  }

  lemma OpSnoc(o: Op, c: Cell, acts: seq<OpAct>, a: OpAct)
    requires OpEnd(o, c, acts).Some? && CanOp(OpEnd(o, c, acts).value.op, OpEnd(o, c, acts).value.cell, a)
    ensures var m := OpEnd(o, c, acts).value;
            OpEnd(o, c, acts + [a]) == Some(OpState(OpThread(m.op, m.cell, a), OpCell(m.op, m.cell, a)))
  {
    assert (acts + [a])[..|acts|] == acts;
  }

  datatype DelState = DelState(del: Option<Del>, cell: Cell)

  /** Where the steps of one delete lead; its thread is gone once it returned an error. */
  function DelEnd(d: Del, c: Cell, acts: seq<DelAct>): Option<DelState> {
    if acts == [] then Some(DelState(Some(d), c))
    else
      match DelEnd(d, c, acts[..|acts| - 1])
      case None => None
      case Some(m) =>
        var a := acts[|acts| - 1];
        if m.del.Some? && CanDel(m.del.value, m.cell, a) then Some(DelState(DelThread(m.del.value, a), DelCell(m.cell, a))) else None
  }

  lemma DelSnoc(d: Del, c: Cell, acts: seq<DelAct>, a: DelAct)
    requires DelEnd(d, c, acts).Some? && DelEnd(d, c, acts).value.del.Some?
    requires CanDel(DelEnd(d, c, acts).value.del.value, DelEnd(d, c, acts).value.cell, a)
    ensures var m := DelEnd(d, c, acts).value;
            DelEnd(d, c, acts + [a]) == Some(DelState(DelThread(m.del.value, a), DelCell(m.cell, a)))
  {
    assert (acts + [a])[..|acts|] == acts;
  }

  /** A step of the provisioning goroutine, or its cancellation by somebody else. */
  datatype ProvStep = Takes(act: ProvAct) | Cancelled

  predicate CanProvStep(c: Cell, st: ProvStep) {
    if st.Takes? then CanProv(c, st.act) else c.prov.Some?
  }

  function ProvStepCell(id: Id, c: Cell, st: ProvStep): Cell
    requires CanProvStep(c, st)
  {
    if st.Takes? then ProvCell(id, c, st.act) else c.(prov := Some(c.prov.value.(cancelled := true)))
  }

  function ProvEnd(id: Id, c: Cell, steps: seq<ProvStep>): Option<Cell> {
    if steps == [] then Some(c)
    else
      match ProvEnd(id, c, steps[..|steps| - 1])
      case None => None
      case Some(m) => if CanProvStep(m, steps[|steps| - 1]) then Some(ProvStepCell(id, m, steps[|steps| - 1])) else None
  }

  lemma ProvSnoc(id: Id, c: Cell, steps: seq<ProvStep>, st: ProvStep)
    requires ProvEnd(id, c, steps).Some? && CanProvStep(ProvEnd(id, c, steps).value, st)
    ensures ProvEnd(id, c, steps + [st]) == Some(ProvStepCell(id, ProvEnd(id, c, steps).value, st))
  {
    assert (steps + [st])[..|steps|] == steps;
  }

  /** How a call fails, if it does: `took` says whether it took effect all the same. */
  datatype Failure = Works | Breaks(took: bool)

  /** A record with an observed digest pinned; without one it stays as it is. */
  function PinnedAs(rec: Record, digest: string): Record {
    if digest == "" then rec else rec.(imageDigest := digest)
  }

  class Driver {
    var sandboxes: map<Id, R.EntryObject>
    var store: map<Id, Record>
    var vms: map<string, Vm>
    var cancelled: set<Id>  // sandboxes whose provisioning context has been cancelled

    ghost predicate Valid()
      reads this, sandboxes.Values
    {
      && (forall i, j :: i in sandboxes && j in sandboxes && i != j ==> sandboxes[i] != sandboxes[j])
      && (forall i :: i in sandboxes ==> sandboxes[i].rec.who.id == i && sandboxes[i].rec.who.containerName == ContainerName(i))
    }

    /** The cell of an id, as far as the driver can see it. */
    ghost predicate Shows(id: Id, c: Cell)
      reads this, sandboxes.Values
    {
      && c.registered == (id in sandboxes)
      && (id in sandboxes ==> c.entry == Some(sandboxes[id].View()))
      && c.saved == (if id in store then Some(store[id]) else None)
      && c.vm == (if ContainerName(id) in vms then Some(vms[ContainerName(id)]) else None)
      && (c.prov.Some? ==> c.prov.value.cancelled == (id in cancelled))
    }

    /** Nothing of any other sandbox differs. */
    twostate predicate OthersSame(id: Id)
      reads this, sandboxes.Values
    {
      && (forall j :: j != id ==> (j in old(sandboxes) <==> j in sandboxes) && (j in old(store) <==> j in store))
      && (forall j :: j != id && j in sandboxes && j in old(sandboxes) ==> sandboxes[j] == old(sandboxes)[j])
      && (forall j :: j != id && j in store && j in old(store) ==> store[j] == old(store)[j])
      && (forall n :: n != ContainerName(id) ==> (n in old(vms) <==> n in vms))
      && (forall n :: n != ContainerName(id) && n in vms && n in old(vms) ==> vms[n] == old(vms)[n])
      && (forall j :: j != id ==> (j in old(cancelled) <==> j in cancelled))
    }

    // -------------------------------------------------------------- single steps

    /** A save of a record the caller holds, whatever the entry has become since. */
    method SaveRecord(id: Id, rec: Record, saves: bool, ghost c: Cell)
      requires Valid() && Shows(id, c)
      modifies this`store
      ensures Valid() && OthersSame(id) && Shows(id, if saves then c.(saved := Some(rec)) else c)
      ensures saves ==> id in store && store[id] == rec
    {
      if saves { store := store[id := rec]; }
    }

    /** The critical section that sets a condition. */
    method SetCondition(id: Id, cond: Condition, ghost c: Cell)
      requires Valid() && id in sandboxes && Shows(id, c)
      modifies sandboxes[id]
      ensures Valid() && OthersSame(id) && Shows(id, WithEntry(c, c.entry.value.(cond := cond)))
    {
      sandboxes[id].cond := cond;
    }

    /** The runtime call of a stop or start: an injected error, no such VM, or success. */
    method CallRuntime(id: Id, name: string, kind: OpKind, invoke: Failure, ghost o: Op, ghost c: Cell)
        returns (found: bool, ghost a: OpAct)
      requires Valid() && name == ContainerName(id) && Shows(id, c) && c.entry.Some?
      requires o == Op(id, kind, L.Invoke, false)
      modifies this`vms
      ensures Valid() && OthersSame(id)
      ensures found == (ContainerName(id) in old(vms)) && vms.Keys == old(vms).Keys
      ensures a == if invoke.Breaks? then InvokeErr(invoke.took) else if found then InvokeOk else InvokeMissing
      ensures CanOp(o, c, a) && Shows(id, OpCell(o, c, a))
    {
      found := name in vms;
      if found && (invoke.Works? || invoke.took) { vms := vms[name := vms[name].(running := kind == Start)]; }
      a := if invoke.Breaks? then InvokeErr(invoke.took) else if found then InvokeOk else InvokeMissing;
    }

    /** The state check after an error: only a VM already in the wanted state overrides it. */
    method CheckState(id: Id, name: string, kind: OpKind, getFails: bool, ghost o: Op, ghost c: Cell)
        returns (good: bool, ghost a: OpAct)
      requires Valid() && name == ContainerName(id) && Shows(id, c) && c.entry.Some?
      requires o == Op(id, kind, Check, false)
      ensures good == (!getFails && name in vms && vms[name].running == (kind == Start))
      ensures a == (if good then CheckGood else CheckBad) && CanOp(o, c, a) && OpCell(o, c, a) == c
    {
      good := !getFails && name in vms && vms[name].running == (kind == Start);
      a := if good then CheckGood else CheckBad;
    }

    /** The critical section that marks the intent; the record to save is a copy taken in it. */
    method WriteMarkOn(id: Id, kind: OpKind, ghost c: Cell) returns (rec: Record)
      requires Valid() && id in sandboxes && Shows(id, c)
      modifies sandboxes[id]
      ensures Valid() && OthersSame(id)
      ensures var o := Op(id, kind, SetMark, false);
              Shows(id, OpCell(o, c, WriteMark)) && OpThread(o, c, WriteMark) == o.(pc := SavingMark(rec))
    {
      var e := sandboxes[id];
      e.rec := e.rec.(stopped := kind == Stop);
      rec := e.rec;
    }

    /** The critical section that pins a digest, with the record to save. */
    method PinDigestOn(id: Id, digest: string, ghost c: Cell) returns (rec: Record)
      requires Valid() && id in sandboxes && Shows(id, c) && CanProv(c, PinDigest(digest))
      modifies sandboxes[id]
      ensures Valid() && OthersSame(id) && sandboxes[id].cond == old(sandboxes[id].cond)
      ensures rec == sandboxes[id].rec == old(sandboxes[id].rec).(imageDigest := digest)
      ensures var c' := ProvCell(id, c, PinDigest(digest)); Shows(id, c') && c'.prov == Some(c.prov.value.(pc := SavingDigest(rec)))
    {
      var e := sandboxes[id];
      e.rec := e.rec.(imageDigest := digest);
      rec := e.rec;
    }

    /** The critical section by which a delete marks the entry. */
    method MarkForDelete(id: Id, ghost c: Cell) returns (name: string)
      requires Valid() && id in sandboxes && Shows(id, c)
      modifies sandboxes[id]
      ensures Valid() && OthersSame(id) && Shows(id, MarkDeleting(c)) && name == ContainerName(id)
    {
      var e := sandboxes[id];
      name := e.rec.who.containerName;
      e.deleting := true;
      e.cond := DELETING_CONDITION;
    }

    /** The runtime's delete; an absent VM is no error. */
    method RemoveVmOf(id: Id, name: string, call: Failure, ghost c: Cell) returns (ok: bool)
      requires Valid() && name == ContainerName(id) && Shows(id, c)
      modifies this`vms
      ensures Valid() && OthersSame(id) && ok == call.Works?
      ensures Shows(id, DelCell(c, if ok then VmRemoved else VmError(call.took)))
    {
      if call.Works? || call.took { vms := vms - {name}; }
      ok := call.Works?;
    }

    method RemoveRecordOf(id: Id, call: Failure, ghost c: Cell) returns (ok: bool)
      requires Valid() && Shows(id, c)
      modifies this`store
      ensures Valid() && OthersSame(id) && ok == call.Works?
      ensures Shows(id, DelCell(c, if ok then RecordRemoved else RecordError(call.took)))
    {
      if call.Works? || call.took { store := store - {id}; }
      ok := call.Works?;
    }

    method Unregister(id: Id, ghost c: Cell)
      requires Valid() && Shows(id, c)
      modifies this`sandboxes
      ensures Valid() && OthersSame(id) && sandboxes == old(sandboxes) - {id} && Shows(id, DelCell(c, DropEntry))
    {
      sandboxes := sandboxes - {id};
    }

    // ------------------------------------------------------------- stop and start

    /** The runtime call of a stop or start and what its error is taken for. */
    method Invoke(id: Id, kind: OpKind, invoke: Failure, getFails: bool, ghost c0: Cell)
        returns (goOn: bool, ghost acts: seq<OpAct>)
      requires Valid() && id in sandboxes && Shows(id, c0)
      modifies this`vms
      ensures Valid() && OthersSame(id)
      ensures OpEnd(Op(id, kind, L.Invoke, false), c0, acts).Some?
      ensures var m := OpEnd(Op(id, kind, L.Invoke, false), c0, acts).value;
              Shows(id, m.cell) && m.op == Op(id, kind, if goOn then SetMark else Release(false), false)
      ensures goOn == (ContainerName(id) in vms
                       && (invoke.Works? || (!getFails && vms[ContainerName(id)].running == (kind == Start))))
      ensures goOn ==> vms[ContainerName(id)].running == (kind == Start)
    {
      var name := sandboxes[id].rec.who.containerName;
      ghost var o := Op(id, kind, L.Invoke, false);
      ghost var a;
      goOn, a := CallRuntime(id, name, kind, invoke, o, c0);
      OpSnoc(o, c0, [], a);
      acts := [] + [a];
      if invoke.Breaks? {
        ghost var b;
        goOn, b := CheckState(id, name, kind, getFails, o.(pc := Check), OpCell(o, c0, a));
        OpSnoc(o, c0, acts, b);
        acts := acts + [b];
      }
    }

    /** Records the intent on the entry, then on disk. */
    method SetStopped(id: Id, kind: OpKind, saves: bool, ghost o0: Op, ghost c0: Cell, ghost before: seq<OpAct>)
        returns (ghost acts: seq<OpAct>)
      requires Valid() && id in sandboxes && OpEnd(o0, c0, before).Some?
      requires var m := OpEnd(o0, c0, before).value; m.op == Op(id, kind, SetMark, false) && Shows(id, m.cell)
      modifies this`store, sandboxes[id]
      ensures Valid() && OthersSame(id)
      ensures OpEnd(o0, c0, acts).Some?
      ensures var m := OpEnd(o0, c0, acts).value;
              Shows(id, m.cell) && m.op == Op(id, kind, if saves then SetPhase else Release(false), false)
      ensures saves ==> id in store && store[id].stopped == (kind == Stop) && store[id] == sandboxes[id].rec
    {
      ghost var m := OpEnd(o0, c0, before).value;
      var rec := WriteMarkOn(id, kind, m.cell);
      OpSnoc(o0, c0, before, WriteMark);
      ghost var marked := OpEnd(o0, c0, before + [WriteMark]).value;
      SaveRecord(id, rec, saves, marked.cell);
      OpSnoc(o0, c0, before + [WriteMark], SaveMark(saves));
      acts := before + [WriteMark] + [SaveMark(saves)];
      assert Shows(id, OpCell(marked.op, marked.cell, SaveMark(saves)));
    }

    /** Records the intent, then the condition. */
    method Conclude(id: Id, kind: OpKind, saves: bool, ghost o0: Op, ghost c0: Cell, ghost before: seq<OpAct>)
        returns (ghost acts: seq<OpAct>)
      requires Valid() && id in sandboxes && OpEnd(o0, c0, before).Some?
      requires var m := OpEnd(o0, c0, before).value; m.op == Op(id, kind, SetMark, false) && Shows(id, m.cell)
      modifies this`store, sandboxes[id]
      ensures Valid() && OthersSame(id) && OpEnd(o0, c0, acts).Some?
      ensures var m := OpEnd(o0, c0, acts).value; Shows(id, m.cell) && m.op.pc == Release(saves)
      ensures saves ==> id in store && store[id].stopped == (kind == Stop) && store[id] == sandboxes[id].rec
      ensures saves ==> sandboxes[id].cond == (if kind == Stop then STOPPED_CONDITION else READY_CONDITION)
    {
      acts := SetStopped(id, kind, saves, o0, c0, before);
      if saves {
        SetCondition(id, if kind == Stop then STOPPED_CONDITION else READY_CONDITION, OpEnd(o0, c0, acts).value.cell);
        OpSnoc(o0, c0, acts, WritePhase);
        acts := acts + [WritePhase];
      }
    }

    /** StopSandbox and StartSandbox past their admission, undisturbed: a run of the thread's
        steps, from the call of the runtime to the release. */
    method Operate(id: Id, kind: OpKind, invoke: Failure, getFails: bool, saves: bool, ghost c0: Cell)
        returns (ok: bool, ghost acts: seq<OpAct>)
      requires Valid() && id in sandboxes && Shows(id, c0)
      modifies this`store, this`vms, sandboxes[id]
      ensures Valid() && OthersSame(id)
      ensures OpEnd(Op(id, kind, L.Invoke, false), c0, acts).Some?
      ensures var m := OpEnd(Op(id, kind, L.Invoke, false), c0, acts).value; Shows(id, m.cell) && m.op.pc == Release(ok)
      ensures ok ==> ContainerName(id) in vms && vms[ContainerName(id)].running == (kind == Start)
      ensures ok ==> id in store && store[id].stopped == (kind == Stop) && store[id] == sandboxes[id].rec
      ensures ok ==> sandboxes[id].cond == (if kind == Stop then STOPPED_CONDITION else READY_CONDITION)
      ensures ok == (saves && ContainerName(id) in vms
                     && (invoke.Works? || (!getFails && vms[ContainerName(id)].running == (kind == Start))))
    {
      ok, acts := Invoke(id, kind, invoke, getFails, c0);
      if ok {
        acts := Conclude(id, kind, saves, Op(id, kind, L.Invoke, false), c0, acts);
        ok := saves;
      }
    }

    /** The operation with the entry held: busy from its begin to its release. */
    method Hold(id: Id, kind: OpKind, invoke: Failure, getFails: bool, saves: bool, ghost c0: Cell)
        returns (ok: bool, ghost acts: seq<OpAct>)
      requires Valid() && id in sandboxes && Shows(id, c0)
      modifies this`store, this`vms, sandboxes[id]
      ensures Valid() && OthersSame(id) && !sandboxes[id].busy
      ensures var start := OpEnd(Op(id, kind, L.Invoke, false), SetBusy(c0, true), acts);
        start.Some? && start.value.op.pc == Release(ok) && start.value.cell.entry.Some? && Shows(id, SetBusy(start.value.cell, false))
      ensures ok ==> ContainerName(id) in vms && vms[ContainerName(id)].running == (kind == Start)
      ensures ok ==> id in store && store[id].stopped == (kind == Stop) && store[id] == sandboxes[id].rec
      ensures ok ==> sandboxes[id].cond == (if kind == Stop then STOPPED_CONDITION else READY_CONDITION)
    {
      var e := sandboxes[id];
      e.busy := true;
      ok, acts := Operate(id, kind, invoke, getFails, saves, SetBusy(c0, true));
      e.busy := false;
    }

    /** StopSandbox and StartSandbox, undisturbed: refused for the first reason that applies,
        with nothing changed, or a run of the machine from its begin to its release. */
    method StopOrStart(id: Id, kind: OpKind, invoke: Failure, getFails: bool, saves: bool, ghost c0: Cell)
        returns (refused: Option<Refusal>, ok: bool, ghost acts: seq<OpAct>)
      requires Valid() && (id in sandboxes ==> Shows(id, c0))
      modifies this`store, this`vms, sandboxes.Values
      ensures Valid() && sandboxes == old(sandboxes) && (id in sandboxes ==> OthersSame(id))
      ensures if id in sandboxes then RefusedInOrder(old(sandboxes[id].View()), refused) else refused == Some(NotFound)
      ensures refused.Some? ==> !ok && store == old(store) && vms == old(vms) && (id in sandboxes ==> Shows(id, c0))
      ensures refused.None? ==>
        var start := OpEnd(Op(id, kind, L.Invoke, false), SetBusy(c0, true), acts);
        start.Some? && start.value.op.pc == Release(ok) && start.value.cell.entry.Some? && Shows(id, SetBusy(start.value.cell, false))
      ensures ok ==> ContainerName(id) in vms && vms[ContainerName(id)].running == (kind == Start)
                     && id in store && store[id].stopped == (kind == Stop) && store[id] == sandboxes[id].rec
                     && sandboxes[id].cond == (if kind == Stop then STOPPED_CONDITION else READY_CONDITION)
    {
      ok, acts := false, [];
      if id !in sandboxes { return Some(NotFound), false, []; }
      refused := LifecycleRefusal(sandboxes[id].View());
      if refused.Some? { return; }
      ok, acts := Hold(id, kind, invoke, getFails, saves, c0);
    }

    // --------------------------------------------------------------------- delete

    /** Cancels the provisioning context; an adopted entry has none. */
    method CancelTaskOf(id: Id, ghost c: Cell)
      requires Valid() && id in sandboxes && Shows(id, c) && (c.prov.Some? ==> sandboxes[id].task == Running)
      modifies this`cancelled
      ensures Valid() && OthersSame(id) && Shows(id, DelCell(c, CancelTask))
      ensures cancelled == if sandboxes[id].task == NoTask then old(cancelled) else old(cancelled) + {id}
    {
      if sandboxes[id].task != NoTask { cancelled := cancelled + {id}; }
    }

    /** The cancellation of the goroutine and the wait for it: undisturbed, the wait ends at
        once if provisioning is over, and with the deadline if it is not. */
    method CancelAndWait(id: Id, ghost d: Del, ghost c: Cell) returns (expired: bool, ghost acts: seq<DelAct>)
      requires Valid() && id in sandboxes && Shows(id, c) && d.pc == Cancel && !d.expired
      requires c.prov.Some? ==> sandboxes[id].task == Running
      modifies this`cancelled
      ensures Valid() && OthersSame(id)
      ensures cancelled == if sandboxes[id].task == NoTask then old(cancelled) else old(cancelled) + {id}
      ensures expired == !ProvisionDone(sandboxes[id].View())
      ensures DelEnd(d, c, acts).Some? && Shows(id, DelEnd(d, c, acts).value.cell)
      ensures DelEnd(d, c, acts).value.del == Some(d.(pc := RemoveVm, expired := expired))
    {
      expired := !ProvisionDone(sandboxes[id].View());
      CancelTaskOf(id, c);
      DelSnoc(d, c, [], CancelTask);
      acts := [] + [CancelTask];
      if expired {
        DelSnoc(d, c, acts, DelExpires);
        acts := acts + [DelExpires];
      }
      DelSnoc(d, c, acts, DoneOrTimeout);
      acts := acts + [DoneOrTimeout];
    }

    /** DeleteSandbox of a known sandbox, undisturbed: a run of the machine's delete steps.
        Success leaves nothing; an error leaves the entry, marked deleting.  Either way a
        goroutine has been cancelled.  While provisioning goes on the wait runs into its
        deadline, and the call fails. */
    method Delete(id: Id, vmCall: Failure, storeCall: Failure, ghost c0: Cell)
        returns (ok: bool, ghost acts: seq<DelAct>)
      requires Valid() && id in sandboxes && Shows(id, c0) && (c0.prov.Some? ==> sandboxes[id].task == Running)
      modifies this, sandboxes[id]
      ensures old(sandboxes[id].task) != NoTask ==> id in cancelled
      ensures Valid() && OthersSame(id)
      ensures var end := DelEnd(NewDel(id, true), MarkDeleting(c0), acts);
              end.Some? && Shows(id, end.value.cell) && (if ok then end.value.del.Some? && end.value.del.value.pc == Returned else end.value.del.None?)
      ensures ok == (ProvisionDone(old(sandboxes[id].View())) && vmCall.Works? && storeCall.Works?)
      ensures ok ==> id !in sandboxes && id !in store && ContainerName(id) !in vms
      ensures !ok ==> id in sandboxes && sandboxes[id].deleting && sandboxes[id].cond == DELETING_CONDITION
    {
      ghost var d, c := NewDel(id, true), MarkDeleting(c0);
      var name := MarkForDelete(id, c0);
      var expired;
      expired, acts := CancelAndWait(id, d, c);
      ok, acts := TearDown(id, name, if expired then Breaks(vmCall == Breaks(true)) else vmCall, storeCall, expired, d, c, acts);
    }

    /** Removes the VM, then the record and the entry. */
    method TearDown(id: Id, name: string, vmCall: Failure, storeCall: Failure, ghost expired: bool, ghost d: Del, ghost c: Cell,
                    ghost before: seq<DelAct>)
        returns (ok: bool, ghost acts: seq<DelAct>)
      requires Valid() && id in sandboxes && name == ContainerName(id) && d.known
      requires DelEnd(d, c, before).Some? && Shows(id, DelEnd(d, c, before).value.cell)
      requires DelEnd(d, c, before).value.del == Some(d.(pc := RemoveVm, expired := expired)) && (expired ==> vmCall.Breaks?)
      modifies this`vms, this`store, this`sandboxes
      ensures Valid() && OthersSame(id) && ok == (vmCall.Works? && storeCall.Works?)
      ensures DelEnd(d, c, acts).Some? && Shows(id, DelEnd(d, c, acts).value.cell)
      ensures DelEnd(d, c, acts).value.del == if ok then Some(d.(pc := Returned, expired := expired)) else None
      ensures if ok then sandboxes == old(sandboxes) - {id} && id !in store && ContainerName(id) !in vms else sandboxes == old(sandboxes)
    {
      ok := RemoveVmOf(id, name, vmCall, DelEnd(d, c, before).value.cell);
      DelSnoc(d, c, before, if ok then VmRemoved else VmError(vmCall.took));
      acts := before + [if ok then VmRemoved else VmError(vmCall.took)];
      if ok { ok, acts := DropRecord(id, storeCall, d.(expired := expired), d, c, acts); }
    }

    /** Removes the record, then the entry. */
    method DropRecord(id: Id, storeCall: Failure, ghost now: Del, ghost d: Del, ghost c: Cell, ghost before: seq<DelAct>)
        returns (ok: bool, ghost acts: seq<DelAct>)
      requires Valid() && id in sandboxes && now.known
      requires DelEnd(d, c, before).Some? && Shows(id, DelEnd(d, c, before).value.cell)
      requires DelEnd(d, c, before).value.del == Some(now.(pc := RemoveRecord))
      modifies this`store, this`sandboxes
      ensures Valid() && OthersSame(id) && vms == old(vms) && ok == storeCall.Works?
      ensures DelEnd(d, c, acts).Some? && Shows(id, DelEnd(d, c, acts).value.cell)
      ensures DelEnd(d, c, acts).value.del == if ok then Some(now.(pc := Returned)) else None
      ensures if ok then sandboxes == old(sandboxes) - {id} && id !in store else sandboxes == old(sandboxes)
    {
      ok := RemoveRecordOf(id, storeCall, DelEnd(d, c, before).value.cell);
      DelSnoc(d, c, before, if ok then RecordRemoved else RecordError(storeCall.took));
      acts := before + [if ok then RecordRemoved else RecordError(storeCall.took)];
      if !ok { return; }
      Unregister(id, DelEnd(d, c, acts).value.cell);
      DelSnoc(d, c, acts, DropEntry);
      acts := acts + [DropEntry];
    }

    // --------------------------------------------------------------------- create

    /** CreateSandbox from its record on, one critical section: an id in use is refused;
        otherwise the record is on disk before anything is registered. */
    method Create(cfg: Config, req: Request, now: int, saves: bool, ghost c0: Cell) returns (ok: bool)
      requires Valid() && Shows(req.id, c0)
      modifies this`store, this`sandboxes, this`cancelled
      ensures Valid() && OthersSame(req.id) && vms == old(vms)
      ensures ok == (req.id !in old(sandboxes) && saves)
      ensures if req.id in old(sandboxes) then Shows(req.id, c0) else Shows(req.id, Created(c0, Accept(cfg, req, now), saves))
      ensures ok ==> req.id in sandboxes && req.id in store
                     && sandboxes[req.id].View() == Entry(store[req.id], STARTING_CONDITION, false, false, Running)
                     && Answers(store[req.id].who, cfg, req) && store[req.id].imageDigest == "" && !store[req.id].stopped
    {
      var imageRef := req.image;
      if imageRef == "" { imageRef := cfg.defaultImage; }
      var redacted := req.(token := "");
      var rec := Record(Identity(req.id, req.name, cfg.ns, req.workspace, ContainerName(req.id), imageRef, now, redacted), "", false);
      if rec.who.id in sandboxes { return false; }
      if !saves { return false; }
      store := store[rec.who.id := rec];
      cancelled := cancelled - {rec.who.id};
      var e := new R.EntryObject(rec, STARTING_CONDITION, Running);
      sandboxes := sandboxes[rec.who.id := e];
      ok := true;
    }

    // ------------------------------------------------------------------ provision

    /** Pins the digest observed at inspect time, in memory and then on disk. */
    method Pin(id: Id, digest: string, saves: bool, ghost c0: Cell, ghost before: seq<ProvStep>)
        returns (ok: bool, ghost steps: seq<ProvStep>)
      requires Valid() && id in sandboxes && ProvEnd(id, c0, before).Some? && Shows(id, ProvEnd(id, c0, before).value)
      requires ProvEnd(id, c0, before).value.prov.Some? && ProvEnd(id, c0, before).value.prov.value.pc == Inspect
      modifies this`store, sandboxes[id]
      ensures Valid() && OthersSame(id) && ProvEnd(id, c0, steps).Some? && sandboxes[id].cond == old(sandboxes[id].cond)
      ensures ok == (digest == "" || saves) && sandboxes[id].rec == PinnedAs(old(sandboxes[id].rec), digest)
      ensures ok && digest != "" ==> id in store && store[id] == sandboxes[id].rec
      ensures var p, c := ProvEnd(id, c0, before).value.prov.value, ProvEnd(id, c0, steps).value;
              Shows(id, c) && c.prov == Some(p.(pc := if ok then L.Prepare else L.Failed))
    {
      ghost var c := ProvEnd(id, c0, before).value;
      if digest == "" {
        ProvSnoc(id, c0, before, Takes(SkipPin));
        return true, before + [Takes(SkipPin)];
      }
      var rec := PinDigestOn(id, digest, c);
      ProvSnoc(id, c0, before, Takes(PinDigest(digest)));
      steps := before + [Takes(PinDigest(digest))];
      SaveRecord(id, rec, saves, ProvEnd(id, c0, steps).value);
      ProvSnoc(id, c0, steps, Takes(SaveDigest(saves)));
      steps := steps + [Takes(SaveDigest(saves))];
      ok := saves;
    }

    /** Somebody else's cancellation, if it comes now. */
    method Arrives(id: Id, now: bool, ghost c0: Cell, ghost before: seq<ProvStep>) returns (ghost steps: seq<ProvStep>)
      requires Valid() && ProvEnd(id, c0, before).Some? && Shows(id, ProvEnd(id, c0, before).value)
      requires ProvEnd(id, c0, before).value.prov.Some?
      modifies this`cancelled
      ensures Valid() && OthersSame(id) && ProvEnd(id, c0, steps).Some? && Shows(id, ProvEnd(id, c0, steps).value)
      ensures cancelled == if now then old(cancelled) + {id} else old(cancelled)
      ensures var c := ProvEnd(id, c0, before).value;
              ProvEnd(id, c0, steps).value == c.(prov := Some(c.prov.value.(cancelled := id in cancelled)))
    {
      steps := before;
      if now {
        cancelled := cancelled + {id};
        ProvSnoc(id, c0, before, Cancelled);
        steps := before + [Cancelled];
      }
    }

    /** The first part of provisioning: find and pin the image, then prepare the boot. */
    method Prepare(id: Id, found: bool, digest: string, saves: bool, prepares: bool, cancel: bool, ghost c0: Cell)
        returns (ok: bool, ghost steps: seq<ProvStep>)
      requires Valid() && id in sandboxes && Shows(id, c0) && c0.prov == Some(Prov(Inspect, false))
      modifies this`store, this`cancelled, sandboxes[id]
      ensures Valid() && OthersSame(id) && ProvEnd(id, c0, steps).Some? && sandboxes[id].cond == old(sandboxes[id].cond)
      ensures ok == (found && (digest == "" || saves) && prepares) && (id in cancelled) == cancel
      ensures var c := ProvEnd(id, c0, steps).value; Shows(id, c) && c.prov == Some(Prov(if ok then L.Clear else L.Failed, cancel))
      ensures sandboxes[id].rec == PinnedAs(old(sandboxes[id].rec), if found then digest else "")
      ensures ok && digest != "" ==> id in store && store[id] == sandboxes[id].rec
    {
      steps := Arrives(id, cancel, c0, []);
      if !found {
        ProvSnoc(id, c0, steps, Takes(Fails));
        return false, steps + [Takes(Fails)];
      }
      ok, steps := Pin(id, digest, saves, c0, steps);
      if !ok { return; }
      ProvSnoc(id, c0, steps, Takes(if prepares then Prepared else Fails));
      steps := steps + [Takes(if prepares then Prepared else Fails)];
      ok := prepares;
    }

    /** Clears a leftover VM of the name; no runtime call succeeds once cancelled. */
    method ClearStale(id: Id, name: string, clear: Failure, ghost c0: Cell, ghost before: seq<ProvStep>)
        returns (ok: bool, ghost steps: seq<ProvStep>)
      requires Valid() && name == ContainerName(id) && ProvEnd(id, c0, before).Some? && Shows(id, ProvEnd(id, c0, before).value)
      requires ProvEnd(id, c0, before).value.prov == Some(Prov(L.Clear, id in cancelled)) && ProvEnd(id, c0, before).value.entry.Some?
      modifies this`vms
      ensures Valid() && OthersSame(id) && ProvEnd(id, c0, steps).Some? && ok == (id !in cancelled && clear.Works?)
      ensures var c := ProvEnd(id, c0, steps).value;
              Shows(id, c) && c.prov == Some(Prov(if ok then CheckCancel else L.Failed, id in cancelled)) && c.entry.Some?
      ensures ok ==> ContainerName(id) !in vms
    {
      var call := if id in cancelled then Breaks(clear == Breaks(true)) else clear;
      ok := RemoveVmOf(id, name, call, ProvEnd(id, c0, before).value);
      ghost var st := Takes(if ok then Cleared else ClearFails(call.took));
      ProvSnoc(id, c0, before, st);
      steps := before + [st];
    }

    /** Boots the VM. */
    method RunVm(id: Id, name: string, boot: Failure, ghost c0: Cell, ghost before: seq<ProvStep>)
        returns (ok: bool, ghost steps: seq<ProvStep>)
      requires Valid() && name == ContainerName(id) && ProvEnd(id, c0, before).Some? && Shows(id, ProvEnd(id, c0, before).value)
      requires ProvEnd(id, c0, before).value.prov == Some(Prov(L.Boot, id in cancelled)) && ProvEnd(id, c0, before).value.entry.Some?
      modifies this`vms
      ensures Valid() && OthersSame(id) && ProvEnd(id, c0, steps).Some? && ok == (id !in cancelled && boot.Works?)
      ensures var c := ProvEnd(id, c0, steps).value; Shows(id, c) && c.prov == Some(Prov(if ok then L.MarkReady else L.Failed, id in cancelled))
      ensures ok ==> ContainerName(id) in vms && vms[ContainerName(id)] == Vm(true, true, id)
    {
      ok := boot.Works? && id !in cancelled;
      var booted := ok || boot == Breaks(true);
      if booted { vms := vms[name := Vm(true, true, id)]; }
      ghost var st := Takes(if ok then Boots else BootFails(if booted then Some(true) else None));
      ProvSnoc(id, c0, before, st);
      steps := before + [st];
    }

    /** The check for cancellation between clearing and booting. */
    method CheckCancelled(id: Id, ghost c0: Cell, ghost before: seq<ProvStep>) returns (stop: bool, ghost steps: seq<ProvStep>)
      requires ProvEnd(id, c0, before).Some? && ProvEnd(id, c0, before).value.entry.Some?
      requires ProvEnd(id, c0, before).value.prov == Some(Prov(CheckCancel, id in cancelled))
      ensures ProvEnd(id, c0, steps).Some? && stop == (id in cancelled)
      ensures ProvEnd(id, c0, steps).value == ProvEnd(id, c0, before).value.(prov := Some(Prov(if stop then L.Failed else L.Boot, stop)))
    {
      stop := id in cancelled;
      ProvSnoc(id, c0, before, Takes(if stop then Fails else NotCancelled));
      steps := before + [Takes(if stop then Fails else NotCancelled)];
    }

    /** The second part: clear, check for cancellation, boot; a cancellation may come before
        each of the three. */
    method BootVm(id: Id, cancel: (bool, bool, bool), clear: Failure, boot: Failure, ghost c0: Cell, ghost before: seq<ProvStep>)
        returns (ok: bool, ghost steps: seq<ProvStep>)
      requires Valid() && id in sandboxes && ProvEnd(id, c0, before).Some? && Shows(id, ProvEnd(id, c0, before).value)
      requires ProvEnd(id, c0, before).value.prov == Some(Prov(L.Clear, id in cancelled))
      modifies this`vms, this`cancelled
      ensures Valid() && OthersSame(id) && ProvEnd(id, c0, steps).Some?
      ensures var c := ProvEnd(id, c0, steps).value;
              Shows(id, c) && c.prov == Some(Prov(if ok then L.MarkReady else L.Failed, id in cancelled))
      ensures ok ==> id !in cancelled && ContainerName(id) in vms && vms[ContainerName(id)] == Vm(true, true, id)
      ensures id in cancelled ==> id in old(cancelled) || cancel.0 || cancel.1 || cancel.2
      ensures ok == (clear.Works? && boot.Works? && id !in old(cancelled) && !cancel.0 && !cancel.1 && !cancel.2)
    {
      var name := sandboxes[id].rec.who.containerName;
      steps := Arrives(id, cancel.0, c0, before);
      ok, steps := ClearStale(id, name, clear, c0, steps);
      if !ok { return; }
      steps := Arrives(id, cancel.1, c0, steps);
      var stop;
      stop, steps := CheckCancelled(id, c0, steps);
      if stop { return false, steps; }
      steps := Arrives(id, cancel.2, c0, steps);
      ok, steps := RunVm(id, name, boot, c0, steps);
    }

    method ReportSuccess(id: Id, ghost c0: Cell, ghost before: seq<ProvStep>) returns (ghost steps: seq<ProvStep>)
      requires Valid() && id in sandboxes && ProvEnd(id, c0, before).Some? && Shows(id, ProvEnd(id, c0, before).value)
      requires ProvEnd(id, c0, before).value.prov.Some? && ProvEnd(id, c0, before).value.prov.value.pc == MarkReady
      modifies sandboxes[id]
      ensures Valid() && OthersSame(id) && ProvEnd(id, c0, steps).Some?
      ensures var c := ProvEnd(id, c0, steps).value; Shows(id, c) && c.prov.Some? && c.prov.value.pc == Close
      ensures sandboxes[id].View() == old(sandboxes[id].View()).(cond := READY_CONDITION)
    {
      SetCondition(id, READY_CONDITION, ProvEnd(id, c0, before).value);
      ProvSnoc(id, c0, before, Takes(ReportReady));
      steps := before + [Takes(ReportReady)];
    }

    /** A cancelled failure is not reported: the delete that cancelled it cleans up. */
    method ReportFailed(id: Id, ghost c0: Cell, ghost before: seq<ProvStep>) returns (ghost steps: seq<ProvStep>)
      requires Valid() && id in sandboxes && ProvEnd(id, c0, before).Some? && Shows(id, ProvEnd(id, c0, before).value)
      requires ProvEnd(id, c0, before).value.prov == Some(Prov(L.Failed, id in cancelled))
      modifies sandboxes[id]
      ensures Valid() && OthersSame(id) && ProvEnd(id, c0, steps).Some?
      ensures var c := ProvEnd(id, c0, steps).value; Shows(id, c) && c.prov.Some? && c.prov.value.pc == Close
      ensures sandboxes[id].View() == if id in cancelled then old(sandboxes[id].View()) else old(sandboxes[id].View()).(cond := FAILED_CONDITION)
    {
      ProvSnoc(id, c0, before, Takes(DecideFailure));
      steps := before + [Takes(DecideFailure)];
      if id in cancelled { return; }
      SetCondition(id, FAILED_CONDITION, ProvEnd(id, c0, steps).value);
      ProvSnoc(id, c0, steps, Takes(ReportFailure));
      steps := steps + [Takes(ReportFailure)];
    }

    method CloseChannel(id: Id, ghost c0: Cell, ghost before: seq<ProvStep>) returns (ghost steps: seq<ProvStep>)
      requires Valid() && id in sandboxes && ProvEnd(id, c0, before).Some? && Shows(id, ProvEnd(id, c0, before).value)
      requires ProvEnd(id, c0, before).value.prov.Some? && ProvEnd(id, c0, before).value.prov.value.pc == Close
      modifies sandboxes[id]
      ensures Valid() && OthersSame(id) && ProvEnd(id, c0, steps).Some?
      ensures var c := ProvEnd(id, c0, steps).value; Shows(id, c) && c.prov.None?
      ensures sandboxes[id].View() == old(sandboxes[id].View()).(task := Finished)
    {
      sandboxes[id].task := Finished;
      ProvSnoc(id, c0, before, Takes(CloseDone));
      steps := before + [Takes(CloseDone)];
    }

    /** Converts the outcome into a condition and ends the goroutine. */
    method Finish(id: Id, ok: bool, ghost c0: Cell, ghost before: seq<ProvStep>)
        returns (ghost steps: seq<ProvStep>)
      requires Valid() && id in sandboxes && ProvEnd(id, c0, before).Some? && Shows(id, ProvEnd(id, c0, before).value)
      requires ProvEnd(id, c0, before).value.prov == Some(Prov(if ok then L.MarkReady else L.Failed, id in cancelled))
      modifies sandboxes[id]
      ensures Valid() && OthersSame(id) && ProvEnd(id, c0, steps).Some?
      ensures var c := ProvEnd(id, c0, steps).value; Shows(id, c) && c.prov.None?
      ensures sandboxes[id].View() == old(sandboxes[id].View()).(task := Finished,
                cond := if ok then READY_CONDITION else if id in cancelled then old(sandboxes[id].cond) else FAILED_CONDITION)
    {
      if ok { steps := ReportSuccess(id, c0, before); } else { steps := ReportFailed(id, c0, before); }
      steps := CloseChannel(id, c0, steps);
    }

    /** Everything up to the outcome. */
    method Attempt(id: Id, found: bool, digest: string, saves: bool, prepares: bool, clear: Failure, boot: Failure,
                   cancel: (bool, bool, bool, bool), ghost c0: Cell)
        returns (ok: bool, ghost steps: seq<ProvStep>)
      requires Valid() && id in sandboxes && Shows(id, c0) && c0.prov == Some(Prov(Inspect, false))
      modifies this`store, this`vms, this`cancelled, sandboxes[id]
      ensures Valid() && OthersSame(id) && ProvEnd(id, c0, steps).Some?
      ensures var c := ProvEnd(id, c0, steps).value;
              Shows(id, c) && c.prov == Some(Prov(if ok then L.MarkReady else L.Failed, id in cancelled))
      ensures sandboxes[id].cond == old(sandboxes[id].cond)
      ensures ok ==> ContainerName(id) in vms && vms[ContainerName(id)] == Vm(true, true, id)
      ensures sandboxes[id].rec == PinnedAs(old(sandboxes[id].rec), if found then digest else "")
      ensures ok && digest != "" ==> id in store && store[id] == sandboxes[id].rec
      ensures id in cancelled ==> cancel.0 || cancel.1 || cancel.2 || cancel.3
      ensures ok == (found && (digest == "" || saves) && prepares && clear.Works? && boot.Works?
                     && !cancel.0 && !cancel.1 && !cancel.2 && !cancel.3)
    {
      ok, steps := Prepare(id, found, digest, saves, prepares, cancel.0, c0);
      if ok { ok, steps := BootVm(id, (cancel.1, cancel.2, cancel.3), clear, boot, c0, steps); }
    }

    /** Provisioning, undisturbed but for a cancellation at any point: a run of the goroutine's
        steps from its first to the close of its channel.  The sandbox ends Ready with its VM
        booted, or Failed, or, if cancelled before the boot was through, with the condition
        it had; the digest observed is pinned, on disk before the boot. */
    method Provision(id: Id, found: bool, digest: string, saves: bool, prepares: bool, clear: Failure, boot: Failure,
                     cancel: (bool, bool, bool, bool), late: bool, ghost c0: Cell)
        returns (ok: bool, ghost steps: seq<ProvStep>)
      requires Valid() && id in sandboxes && Shows(id, c0) && c0.prov == Some(Prov(Inspect, false))
      modifies this`store, this`vms, this`cancelled, sandboxes[id]
      ensures Valid() && OthersSame(id) && ProvEnd(id, c0, steps).Some?
      ensures var c := ProvEnd(id, c0, steps).value; Shows(id, c) && c.prov.None?
      ensures sandboxes[id].task == Finished
      ensures sandboxes[id].cond == if ok then READY_CONDITION else if id in cancelled then old(sandboxes[id].cond) else FAILED_CONDITION
      ensures ok ==> ContainerName(id) in vms && vms[ContainerName(id)] == Vm(true, true, id)
      ensures sandboxes[id].rec == PinnedAs(old(sandboxes[id].rec), if found then digest else "")
      ensures ok && digest != "" ==> id in store && store[id] == sandboxes[id].rec
      ensures id in cancelled ==> cancel.0 || cancel.1 || cancel.2 || cancel.3 || late
      ensures ok == (found && (digest == "" || saves) && prepares && clear.Works? && boot.Works?
                     && !cancel.0 && !cancel.1 && !cancel.2 && !cancel.3)
    {
      ok, steps := Attempt(id, found, digest, saves, prepares, clear, boot, cancel, c0);
      steps := Arrives(id, late, c0, steps);
      steps := Finish(id, ok, c0, steps);
    }
  }
}
