/** What a delete's cancellation of provisioning is worth: from then on the goroutine gets no
    runtime call through, and exactly when it can leave a VM all the same. */
module Cancellation {
  import opened Records
  import opened Entries
  import opened Lifecycle
  import opened LifecycleInvariant

  /** A goroutine that is still running has been cancelled. */
  predicate Cancelled(c: Cell) {
    !Fresh(c) && (c.prov.Some? ==> c.prov.value.cancelled)
  }

  /** The goroutine is in its boot call. */
  predicate Booting(c: Cell) {
    c.prov.Some? && c.prov.value.pc == Boot
  }

  predicate StaysCancelled(c: Cell, c': Cell) {
    Cancelled(c) ==> Cancelled(c') && (Booting(c') ==> Booting(c))
  }

  lemma ProvStays(id: Id, c: Cell, a: ProvAct)
    requires CanProv(c, a)
    ensures StaysCancelled(c, ProvCell(id, c, a))
  {
  }

  lemma PollStays(s: State, a: PollAct, id: Id)
    requires CanPoll(s, a)
    ensures StaysCancelled(At(s, id), At(DoPoll(s, a), id))
  {
  }

  lemma RestartStays(s: State, a: RestartAct, id: Id)
    requires CanRestart(s, a)
    ensures StaysCancelled(At(s, id), At(DoRestart(s, a), id))
  {
  }

  lemma OpStays(o: Op, c: Cell, a: OpAct)
    requires CanOp(o, c, a)
    ensures StaysCancelled(c, OpCell(o, c, a))
  {
  }

  lemma DelStays(c: Cell, a: DelAct)
    ensures StaysCancelled(c, DelCell(c, a)) && StaysCancelled(c, MarkDeleting(c))
  {
  }

  /** The steps on one cell, of everybody but the poller and a restart. */
  lemma TargetStays(s: State, st: Step)
    requires Enabled(s, st) && !st.PollStep? && !st.RestartStep?
    ensures var id := Target(s, st); StaysCancelled(At(s, id), At(Apply(s, st), id))
  {
    match st
    case ProvStep(id, a) => ProvStays(id, At(s, id), a);
    case OpStep(t, a) => OpStays(s.ops[t], At(s, s.ops[t].id), a);
    case DelStep(u, a) => DelStays(At(s, s.dels[u].id), a);
    case DeleteStep(_, id) => DelStays(At(s, id), DropEntry);
    case _ =>
  }

  /** Nobody takes a cancellation back, and a cancelled goroutine does not get to its boot. */
  lemma StepStays(s: State, st: Step, id: Id)
    requires Enabled(s, st)
    ensures StaysCancelled(At(s, id), At(Apply(s, st), id))
  {
    if st.PollStep? {
      PollStays(s, st.la, id);
    } else if st.RestartStep? {
      RestartStays(s, st.ra, id);
    } else if id == Target(s, st) {
      TargetStays(s, st);
    } else {
      OnlyTarget(s, st, id);
    }
  }

  lemma RunStays(r: Run, k: nat, id: Id)
    requires IsRun(r) && k < |r.steps|
    ensures StaysCancelled(At(r.states[k], id), At(r.states[k + 1], id))
  {
    assert Enabled(r.states[k], r.steps[k]) && r.states[k + 1] == Apply(r.states[k], r.steps[k]);
    StepStays(r.states[k], r.steps[k], id);
  }

  lemma {:induction false} CancelledAlong(r: Run, i: nat, k: nat, id: Id)
    requires IsRun(r) && i <= k < |r.states|
    ensures StaysCancelled(At(r.states[i], id), At(r.states[k], id))
    decreases k - i
  {
    if i < k {
      RunStays(r, i, id);
      CancelledAlong(r, i + 1, k, id);
      StaysOn(At(r.states[i], id), At(r.states[i + 1], id), At(r.states[k], id));
    }
  }

  lemma StaysOn(a: Cell, b: Cell, c: Cell)
    requires StaysCancelled(a, b) && StaysCancelled(b, c)
    ensures StaysCancelled(a, c)
  {
  }

  /** The delete call `u` of the sandbox takes its cancel step. */
  ghost predicate Cancels(r: Run, m: nat, u: Tid, id: Id) {
    IsHistory(r) && m < |r.steps| && r.steps[m] == DelStep(u, CancelTask) && u in r.states[m].dels && r.states[m].dels[u].id == id
  }

  lemma CancelLeaves(r: Run, m: nat, u: Tid, id: Id)
    requires Cancels(r, m, u, id)
    ensures Cancelled(At(r.states[m + 1], id)) && (Booting(At(r.states[m + 1], id)) <==> Booting(At(r.states[m], id)))
  {
    HistoriesAreSafe(r, m);
    var s := r.states[m];
    assert DelOk(s.dels[u], At(s, id));
    assert Enabled(s, r.steps[m]) && r.states[m + 1] == Apply(s, r.steps[m]);
    assert At(r.states[m + 1], id) == DelCell(At(s, id), CancelTask);
  }

  /** From the cancel step of a delete on, in every history, the sandbox's goroutine never
      clears a leftover VM, never passes its cancellation check and never boots. */
  lemma CancelStops(r: Run, m: nat, k: nat, u: Tid, id: Id, a: ProvAct)
    requires Cancels(r, m, u, id) && m < k < |r.steps| && r.steps[k] == ProvStep(id, a)
    ensures a != Cleared && a != NotCancelled && a != Boots
  {
    CancelLeaves(r, m, u, id);
    CancelledAlong(r, m + 1, k, id);
    assert Enabled(r.states[k], r.steps[k]);
  }

  /** Step `k` is the goroutine's, and the VM is there after it and was not before. */
  ghost predicate LeavesVm(r: Run, k: nat, id: Id)
    requires IsRun(r)
  {
    && k < |r.steps| && r.steps[k].ProvStep? && r.steps[k].id == id
    && At(r.states[k], id).vm.None? && At(r.states[k + 1], id).vm.Some?
  }

  /** In no continuation does the goroutine bring a VM of the sandbox into being. */
  ghost predicate NeverBoots(s: State, id: Id) {
    forall r: Run, k: nat :: IsRun(r) && r.states[0] == s ==> !LeavesVm(r, k, id)
  }

  lemma OnlyBootingLeavesVm(r: Run, k: nat, id: Id)
    requires IsRun(r) && Cancelled(At(r.states[0], id)) && LeavesVm(r, k, id)
    ensures Booting(At(r.states[0], id))
  {
    CancelledAlong(r, 0, k, id);
    assert Enabled(r.states[k], r.steps[k]) && r.states[k + 1] == Apply(r.states[k], r.steps[k]);
  }

  /** The boot call reports an error and has taken effect all the same. */
  lemma BootFailsWithVm(s: State, id: Id)
    requires Booting(At(s, id)) && At(s, id).entry.Some? && At(s, id).vm.None?
    ensures !NeverBoots(s, id)
  {
    var st := ProvStep(id, BootFails(Some(true)));
    var r := Run([s, Apply(s, st)], [st]);
    assert IsRun(r) && LeavesVm(r, 0, id);
  }

  lemma VanishesThenBoots(s: State, id: Id)
    requires Booting(At(s, id)) && At(s, id).entry.Some? && At(s, id).vm.Some?
    ensures !NeverBoots(s, id)
  {
    var gone, fails := EnvStep(id, VmVanishes), ProvStep(id, BootFails(Some(true)));
    var s1 := Apply(s, gone);
    var r := Run([s, s1, Apply(s1, fails)], [gone, fails]);
    assert IsRun(r) && LeavesVm(r, 1, id);
  }

  /** A delete's cancellation keeps the goroutine from ever bringing the sandbox's VM into
      being if and only if the goroutine is not in its boot call already; that call may still
      take effect and report an error, which is why the delete waits before it removes the VM. */
  lemma NeverBootsIff(r: Run, m: nat, u: Tid, id: Id)
    requires Cancels(r, m, u, id)
    ensures NeverBoots(r.states[m + 1], id) <==> !Booting(At(r.states[m], id))
  {
    CancelLeaves(r, m, u, id);
    HistoriesAreSafe(r, m + 1);
    var s := r.states[m + 1];
    assert CellOk(id, At(s, id));
    if Booting(At(s, id)) {
      if At(s, id).vm.None? { BootFailsWithVm(s, id); } else { VanishesThenBoots(s, id); }
    } else {
      forall q: Run, k: nat | IsRun(q) && q.states[0] == s ensures !LeavesVm(q, k, id) {
        if LeavesVm(q, k, id) { OnlyBootingLeavesVm(q, k, id); }
      }
    }
  }
}
