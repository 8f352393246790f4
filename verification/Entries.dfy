/** One registry entry as a value, and the pure decisions the driver takes on it:
    the poller's and the bootstrap's classification, and the admission test of
    stop and start. */
module Entries {
  import opened Conditions
  import opened Records

  /** The channel that is closed when the provisioning goroutine ends. */
  datatype Task = NoTask | Running | Finished

  datatype Entry = Entry(rec: Record, cond: Condition, deleting: bool, busy: bool, task: Task)

  /** A runtime-observed VM: its state reduced to running or not, and the labels
      the reconciler reads. */
  datatype Vm = Vm(running: bool, managed: bool, sandbox: Id)

  datatype Option<+T> = None | Some(value: T)

  predicate ProvisionDone(e: Entry) {
    e.task != Running
  }

  predicate Pollable(e: Entry) {
    !e.deleting && !e.busy && ProvisionDone(e)
  }

  /** The single classification that polling and restart share: the phase of a
      sandbox as a function of its VM and the gateway's stop intent. */
  function Classify(vm: Option<Vm>, stopped: bool): Condition {
    match vm
    case None => FAILED_CONDITION
    case Some(v) =>
      if v.running then READY_CONDITION
      else if stopped then STOPPED_CONDITION
      else EXITED_CONDITION
  }

  function Observe(list: map<string, Vm>, rec: Record): Option<Vm> {
    if rec.who.containerName in list then Some(list[rec.who.containerName]) else None
  }

  /** What one poll does to one entry. */
  datatype Poll = Poll(entry: Entry, persist: bool, changed: bool, exited: bool)

  function PollEntry(e: Entry, vm: Option<Vm>): Poll {
    if !Pollable(e) then
      Poll(e, false, false, false)
    else if vm.None? && e.cond.reason == ProvisioningFailed then
      Poll(e, false, false, false)  // a failed boot is not reported again as a lost VM
    else
      // running against the stop mark: the mark gives way to what the runtime shows
      var restarted := vm.Some? && vm.value.running && e.rec.stopped;
      var rec := if restarted then e.rec.(stopped := false) else e.rec;
      var next := Classify(vm, e.rec.stopped);
      if SamePhase(next, e.cond) then
        Poll(e.(rec := rec), restarted, false, false)
      else
        Poll(e.(rec := rec, cond := next), restarted, true, next.reason == ContainerExited)
  }

  /** The entry a restart rebuilds from a record; `tail` says whether console
      output of an exited VM could be fetched. */
  function BootEntry(rec: Record, vm: Option<Vm>, tail: bool): Entry {
    var c := Classify(vm, rec.stopped);
    var cond := if c.reason == ContainerExited then c.(tail := tail) else c;
    Entry(rec, cond, false, false, NoTask)
  }

  datatype Refusal = NotFound | BeingDeleted | StillProvisioning | InProgress | NeverBooted

  /** Why a stop or start of this entry is refused, if it is. */
  function LifecycleRefusal(e: Entry): Option<Refusal> {
    if e.deleting then Some(BeingDeleted)
    else if !ProvisionDone(e) then Some(StillProvisioning)
    else if e.busy then Some(InProgress)
    else if e.cond.reason == ProvisioningFailed then Some(NeverBooted)
    else None
  }

  /** The refusals, each from the entry's own fields, in their order; none when none applies. */
  ghost predicate RefusedInOrder(e: Entry, r: Option<Refusal>) {
    && (r == Some(BeingDeleted) <==> e.deleting)
    && (r == Some(StillProvisioning) <==> !e.deleting && e.task == Running)
    && (r == Some(InProgress) <==> !e.deleting && e.task != Running && e.busy)
    && (r == Some(NeverBooted) <==> !e.deleting && e.task != Running && !e.busy && e.cond.reason == ProvisioningFailed)
    && (r == None <==> !e.deleting && e.task != Running && !e.busy && e.cond.reason != ProvisioningFailed)
  }

  /** Restart and polling agree: on an unchanged VM the first poll after a restart
      changes no status or reason and reports no transition, and what it leaves
      behind matches the shared classification. */
  lemma PollAfterBootIsQuiet(rec: Record, vm: Option<Vm>, tail: bool)
    ensures var e := BootEntry(rec, vm, tail);
            var p := PollEntry(e, vm);
            && !p.changed && !p.exited && p.entry.cond == e.cond
            && (p.persist <==> vm.Some? && vm.value.running && rec.stopped)
            && p.entry.rec == rec.(stopped := rec.stopped && !p.persist)
  {
  }

  /** After one quiescent poll a pollable entry matches the classification of the
      VM it saw, under both the old and the new stop mark. */
  lemma PollMatchesClassification(e: Entry, vm: Option<Vm>)
    requires Pollable(e) && Coherent(e.cond)
    ensures var p := PollEntry(e, vm);
            && SamePhase(p.entry.cond, Classify(vm, p.entry.rec.stopped))
            && SamePhase(p.entry.cond, Classify(vm, e.rec.stopped))
            && (p.changed <==> !SamePhase(p.entry.cond, e.cond))
            && (p.entry.rec.stopped ==> e.rec.stopped && !(vm.Some? && vm.value.running))
  {
  }

  /** A second poll of the same VM does nothing at all. */
  lemma SecondPollIsNoOp(e: Entry, vm: Option<Vm>)
    requires Coherent(e.cond)
    ensures PollEntry(PollEntry(e, vm).entry, vm) == Poll(PollEntry(e, vm).entry, false, false, false)
  {
  }
}
