/** Safety of every history of the driver, at full step granularity: no unrecorded
    VM, identities that never change, the restart's orphan sweep, and busy as a lock. */
module LifecycleTheorems {
  import opened Conditions
  import opened Records
  import opened Entries
  import opened Lifecycle
  import opened LifecycleInvariant

  /** At every point of every history, crash points included: a VM under an accepted
      sandbox's name was booted for that sandbox and has a record on disk; the record
      of an accepted sandbox disappears only through a delete. */
  lemma NoUnrecordedVm(r: Run, i: nat, id: Id)
    requires IsHistory(r) && i < |r.states|
    ensures var c := At(r.states[i], id);
            && (c.past.accepted.Some? && c.vm.Some? ==>
                  c.saved.Some? && c.vm.value.managed && c.vm.value.sandbox == id)
            && (c.past.accepted.Some? && !c.past.removed ==> c.saved.Some?)
  {
    HistoriesAreSafe(r, i);
    assert CellOk(id, At(r.states[i], id));
  }

  /** Identity fields and the accepted specification never change in memory or on
      disk, and no record ever holds the token. */
  lemma IdentityIsForever(r: Run, i: nat, k: nat, id: Id)
    requires IsHistory(r) && i <= k < |r.states|
    requires At(r.states[i], id).past.accepted.Some?
    ensures var who := At(r.states[i], id).past.accepted.value;
            var c := At(r.states[k], id);
            && c.past.accepted == Some(who)
            && (c.saved.Some? ==> c.saved.value.who == who)
            && (c.entry.Some? ==> c.entry.value.rec.who == who)
            && who.id == id && who.containerName == ContainerName(id) && who.sandbox.token == ""
  {
    AcceptedPersists(r, i, k, id);
    HistoriesAreSafe(r, k);
    assert CellOk(id, At(r.states[k], id));
  }

  lemma {:induction false} AcceptedPersists(r: Run, i: nat, k: nat, id: Id)
    requires IsHistory(r) && i <= k < |r.states|
    requires At(r.states[i], id).past.accepted.Some?
    ensures At(r.states[k], id).past.accepted == At(r.states[i], id).past.accepted
    decreases k
  {
    if i < k {
      AcceptedPersists(r, i, k - 1, id);
      HistoriesAreSafe(r, k - 1);
      AcceptedStep(r.states[k - 1], r.steps[k - 1], id);
    }
  }

  lemma RestartKeepsAccepted(s: State, a: RestartAct, id: Id)
    requires CanRestart(s, a) && At(s, id).past.accepted.Some?
    ensures At(DoRestart(s, a), id).past.accepted == At(s, id).past.accepted
  {
  }

  lemma AcceptedStep(s: State, st: Step, id: Id)
    requires Inv(s) && Enabled(s, st) && At(s, id).past.accepted.Some?
    ensures At(Apply(s, st), id).past.accepted == At(s, id).past.accepted
  {
    if st.RestartStep? {
      RestartKeepsAccepted(s, st.ra, id);
    } else {
      StepKeepsInv(s, st);
      assert Good(id, Apply(s, st).phase, At(s, id), At(Apply(s, st), id));
    }
  }

  /** When a restart has loaded its records, the VM of an accepted sandbox that no delete
      has removed is on the orphan list if and only if its record could not be read. */
  lemma OrphanIffUnread(r: Run, i: nat, id: Id, tails: set<Id>, unread: set<Id>)
    requires IsHistory(r) && i < |r.steps| && r.steps[i] == RestartStep(Load(tails, unread))
    requires var c := At(r.states[i], id); c.past.accepted.Some? && !c.past.removed && c.vm.Some?
    ensures At(r.states[i + 1], id).sweep.Orphan? <==> id in unread
  {
    HistoriesAreSafe(r, i);
    var s := r.states[i];
    assert r.states[i + 1] == Apply(s, r.steps[i]);
    assert CellOk(id, At(s, id));
    assert At(r.states[i + 1], id) == LoadCell(s, id, At(s, id), id in tails, unread);
  }

  /** The restart never sweeps away the VM of a sandbox that has a registry entry; of
      accepted sandboxes it sweeps only those that a delete removed, and those whose record
      it could not read. */
  lemma SweepSparesAccepted(r: Run, i: nat, id: Id, ok: bool)
    requires IsHistory(r) && i < |r.steps| && r.steps[i] == RestartStep(Sweep(id, ok))
    ensures var c := At(r.states[i], id);
            !c.registered && (c.past.accepted.None? || c.past.removed || c.past.unread)
  {
    HistoriesAreSafe(r, i);
    assert r.states[i + 1] == Apply(r.states[i], r.steps[i]);
    assert CellOk(id, At(r.states[i], id)) && PhaseOk(r.states[i].phase, At(r.states[i], id));
  }

  /** When the driver opens for business, exactly the records that could be read have their
      entries, and every managed VM has one too unless the runtime refused to delete the
      orphan. */
  lemma OpensWithEverythingKnown(r: Run, i: nat, id: Id)
    requires IsHistory(r) && i < |r.steps| && r.steps[i] == RestartStep(OpenForBusiness)
    ensures var c := At(r.states[i + 1], id);
            && (c.registered <==> c.saved.Some? && !c.past.unread)
            && (c.vm.Some? && c.vm.value.managed && !c.registered ==> c.sweep == SweepFailed)
  {
    HistoriesAreSafe(r, i);
    var s := r.states[i];
    assert r.states[i + 1] == Apply(s, r.steps[i]);
    assert PhaseOk(s.phase, At(s, id));
  }

  /** Busy is set exactly while one stop or start holds it, and only one can. */
  lemma BusyIsALock(r: Run, i: nat, id: Id)
    requires IsHistory(r) && i < |r.states|
    ensures var s := r.states[i];
            && (Busy(At(s, id)) <==> exists t :: t in s.ops && s.ops[t].id == id)
            && (forall t, u :: t in s.ops && u in s.ops && s.ops[t].id == id && s.ops[u].id == id ==> t == u)
  {
    HistoriesAreSafe(r, i);
    var s := r.states[i];
    if Busy(At(s, id)) { assert HasOp(s, id); }
    if t :| t in s.ops && s.ops[t].id == id { assert OpOk(s.ops[t], At(s, s.ops[t].id)); }
  }

  /** The phase of one entry before and after a step that is not its lock holder's. */
  ghost predicate PhaseKept(c: Cell, c': Cell) {
    c.entry.Some? && c'.entry.Some? && !c'.entry.value.deleting ==> SamePhase(c.entry.value.cond, c'.entry.value.cond)
  }

  lemma OpKeepsOthersPhase(s: State, st: Step, id: Id)
    requires Enabled(s, st) && Busy(At(s, id))
    requires st.BeginStep? || st.ReleaseStep? || (st.OpStep? && s.ops[st.t].id != id)
    ensures PhaseKept(At(s, id), At(Apply(s, st), id))
  {
    if id != Target(s, st) {
      OnlyTarget(s, st, id);
    } else {
      assert At(Apply(s, st), id) == SetBusy(At(s, id), st.BeginStep?);
    }
  }

  lemma OthersKeepPhase(s: State, st: Step, id: Id)
    requires Inv(s) && Enabled(s, st) && Busy(At(s, id))
    requires st.CreateStep? || st.ProvStep? || st.EnvStep?
    ensures PhaseKept(At(s, id), At(Apply(s, st), id))
  {
    assert CellOk(id, At(s, id));
    if id != Target(s, st) { OnlyTarget(s, st, id); }
  }

  lemma DelKeepsEntry(c: Cell, a: DelAct)
    ensures DelCell(c, a).entry == c.entry
  {
  }

  lemma DelKeepsPhase(s: State, st: Step, id: Id)
    requires Enabled(s, st) && Busy(At(s, id)) && st.DelStep?
    ensures PhaseKept(At(s, id), At(Apply(s, st), id))
  {
    var d := s.dels[st.u];
    DelKeepsEntry(At(s, d.id), st.da);
    assert At(Apply(s, st), id) == if d.id == id then DelCell(At(s, id), st.da) else At(s, id);
  }

  lemma DeleteKeepsPhase(s: State, st: Step, id: Id)
    requires Enabled(s, st) && Busy(At(s, id)) && st.DeleteStep?
    ensures PhaseKept(At(s, id), At(Apply(s, st), id))
  {
    assert At(Apply(s, st), id) == if st.id == id then MarkDeleting(At(s, id)) else At(s, id);
  }

  lemma RestartsKeepPhase(s: State, a: RestartAct, id: Id)
    requires Inv(s) && CanRestart(s, a) && Busy(At(s, id))
    ensures PhaseKept(At(s, id), At(DoRestart(s, a), id))
  {
    assert PhaseOk(s.phase, At(s, id));
  }

  /** A poll's classification skips a busy entry, whenever its list was taken. */
  lemma PollSkipsBusy(c: Cell)
    requires Busy(c)
    ensures ApplyCell(c).entry == c.entry && QuickCell(c, true).entry == c.entry && QuickCell(c, false).entry == c.entry
  {
  }

  lemma PollKeepsBusyPhase(s: State, a: PollAct, id: Id)
    requires CanPoll(s, a) && Busy(At(s, id))
    ensures PhaseKept(At(s, id), At(DoPoll(s, a), id))
  {
    var c := At(s, id);
    PollSkipsBusy(c);
    if a == AttachTail(id) {
      assert At(DoPoll(s, a), id) == AttachCell(c);
    } else {
      PollLeavesEntry(s, a, id);
    }
  }

  lemma PollLeavesEntry(s: State, a: PollAct, id: Id)
    requires CanPoll(s, a) && a != AttachTail(id) && Busy(At(s, id))
    ensures At(DoPoll(s, a), id).entry == At(s, id).entry
  {
    PollSkipsBusy(At(s, id));
  }

  /** While a stop or start holds an entry that is not being deleted, no step of any
      other thread changes the entry's status or reason, not even a poll that has
      already taken its list or left its critical section. */
  lemma OnlyTheHolderMovesThePhase(r: Run, i: nat, id: Id)
    requires IsHistory(r) && i < |r.steps| && Busy(At(r.states[i], id))
    requires !(r.steps[i].OpStep? && r.states[i].ops[r.steps[i].t].id == id)
    ensures PhaseKept(At(r.states[i], id), At(r.states[i + 1], id))
  {
    HistoriesAreSafe(r, i);
    var s := r.states[i];
    assert r.states[i + 1] == Apply(s, r.steps[i]);
    match r.steps[i]
    case PollStep(a) => PollKeepsBusyPhase(s, a, id);
    case OpStep(_, _) => OpKeepsOthersPhase(s, r.steps[i], id);
    case BeginStep(_, _, _) => OpKeepsOthersPhase(s, r.steps[i], id);
    case ReleaseStep(_) => OpKeepsOthersPhase(s, r.steps[i], id);
    case RestartStep(a) => RestartsKeepPhase(s, a, id);
    case DelStep(_, _) => DelKeepsPhase(s, r.steps[i], id);
    case DeleteStep(_, _) => DeleteKeepsPhase(s, r.steps[i], id);
    case _ => OthersKeepPhase(s, r.steps[i], id);
  }
}
