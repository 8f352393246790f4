/** A delete that reports success leaves nothing behind, and nothing brings the
    sandbox back: exactly when that holds. */
module DeleteFinality {
  import opened Conditions
  import opened Records
  import opened Entries
  import opened Lifecycle
  import opened LifecycleInvariant

  /** No VM, no record, no registry entry, no provisioning; the id is spent. */
  predicate Gone(c: Cell) {
    c.past.accepted.Some? && !c.registered && c.saved.None? && c.vm.None? && c.prov.None?
  }

  /** As good as gone: only a registry entry marked deleting may be left. */
  predicate Emptied(c: Cell) {
    && c.past.accepted.Some? && c.saved.None? && c.vm.None? && c.prov.None?
    && (c.registered ==> c.entry.Some? && c.entry.value.deleting)
  }

  /** A stop or start that has passed its runtime call and not yet its save. */
  predicate WillSave(o: Op) {
    o.pc == SetMark || o.pc.SavingMark?
  }

  /** Nobody still holds a save of this sandbox. */
  ghost predicate NoWriter(s: State, id: Id) {
    && (forall t :: t in s.ops && s.ops[t].id == id ==> !WillSave(s.ops[t]))
    && !At(s, id).poll.toSave && !(s.poll.Saving? && s.poll.rec.who.id == id)
  }

  lemma OpStaysGone(s: State, st: Step, id: Id)
    requires Enabled(s, st) && st.OpStep?
    requires Emptied(At(s, id)) && NoWriter(s, id)
    ensures At(Apply(s, st), id).saved.None? && NoWriter(Apply(s, st), id)
  {
    assert Apply(s, st).poll == s.poll;
  }

  lemma BusyStaysGone(s: State, st: Step, id: Id)
    requires Enabled(s, st) && (st.BeginStep? || st.ReleaseStep?)
    requires Emptied(At(s, id)) && NoWriter(s, id)
    ensures At(Apply(s, st), id).saved.None? && NoWriter(Apply(s, st), id)
  {
  }

  lemma DelStaysGone(s: State, st: Step, id: Id)
    requires Enabled(s, st) && st.DelStep?
    requires Emptied(At(s, id)) && NoWriter(s, id)
    ensures At(Apply(s, st), id).saved.None? && NoWriter(Apply(s, st), id)
  {
    var k := s.dels[st.u].id;
    var s' := Apply(s, st);
    assert At(s', id) == if k == id then DelCell(At(s, id), st.da) else At(s, id);
    assert s'.ops == s.ops && s'.poll == s.poll;
  }

  lemma MarkStaysGone(s: State, st: Step, id: Id)
    requires Enabled(s, st) && st.DeleteStep?
    requires Emptied(At(s, id)) && NoWriter(s, id)
    ensures At(Apply(s, st), id).saved.None? && NoWriter(Apply(s, st), id)
  {
  }

  lemma OthersStayGone(s: State, st: Step, id: Id)
    requires Enabled(s, st) && (st.CreateStep? || st.ProvStep? || st.EnvStep?)
    requires Emptied(At(s, id)) && NoWriter(s, id)
    ensures At(Apply(s, st), id).saved.None? && NoWriter(Apply(s, st), id)
  {
  }

  lemma PollStaysGone(s: State, a: PollAct, id: Id)
    requires Inv(s) && CanPoll(s, a) && Emptied(At(s, id)) && NoWriter(s, id)
    ensures At(DoPoll(s, a), id).saved.None? && NoWriter(DoPoll(s, a), id)
  {
    if a.PickSave? {
      assert CellOk(a.id, At(s, a.id));
    }
  }

  lemma RestartStaysGone(s: State, a: RestartAct, id: Id)
    requires CanRestart(s, a) && Gone(At(s, id)) && NoWriter(s, id)
    ensures Gone(At(DoRestart(s, a), id)) && NoWriter(DoRestart(s, a), id)
  {
  }

  lemma SavedStaysGone(s: State, st: Step, id: Id)
    requires Inv(s) && Enabled(s, st) && !st.RestartStep? && Emptied(At(s, id)) && NoWriter(s, id)
    ensures At(Apply(s, st), id).saved.None? && NoWriter(Apply(s, st), id)
  {
    match st
    case PollStep(a) => PollStaysGone(s, a, id);
    case OpStep(_, _) => OpStaysGone(s, st, id);
    case BeginStep(_, _, _) => BusyStaysGone(s, st, id);
    case ReleaseStep(_) => BusyStaysGone(s, st, id);
    case DelStep(_, _) => DelStaysGone(s, st, id);
    case DeleteStep(_, _) => MarkStaysGone(s, st, id);
    case _ => OthersStayGone(s, st, id);
  }

  lemma GoneStep(s: State, st: Step, id: Id)
    requires Inv(s) && Enabled(s, st) && Gone(At(s, id)) && NoWriter(s, id)
    ensures Gone(At(Apply(s, st), id)) && NoWriter(Apply(s, st), id)
  {
    if st.RestartStep? {
      RestartStaysGone(s, st.ra, id);
    } else {
      StepKeepsInv(s, st);
      var s' := Apply(s, st);
      assert Good(id, s'.phase, At(s, id), At(s', id));
      SavedStaysGone(s, st, id);
    }
  }

  lemma {:induction false} GoneRun(r: Run, id: Id, k: nat)
    requires IsRun(r) && k < |r.states| && Inv(r.states[0])
    requires Gone(At(r.states[0], id)) && NoWriter(r.states[0], id)
    ensures Inv(r.states[k]) && Gone(At(r.states[k], id)) && NoWriter(r.states[k], id)
  {
    if k > 0 {
      GoneRun(r, id, k - 1);
      GoneStep(r.states[k - 1], r.steps[k - 1], id);
      StepKeepsInv(r.states[k - 1], r.steps[k - 1]);
    }
  }

  ghost predicate GoneForever(s: State, id: Id) {
    forall r: Run :: IsRun(r) && r.states[0] == s ==> Gone(At(r.states[|r.steps|], id))
  }

  lemma Refute(s: State, id: Id, r: Run)
    requires IsRun(r) && r.states[0] == s && !Gone(At(r.states[|r.steps|], id))
    ensures !GoneForever(s, id)
  {
  }

  /** A stop or start whose save is still to come puts the record back. */
  lemma SaveResurrects(s: State, id: Id, t: Tid)
    requires Inv(s) && t in s.ops && s.ops[t].id == id && s.ops[t].pc.SavingMark?
    ensures !GoneForever(s, id)
  {
    var s1 := Apply(s, OpStep(t, SaveMark(true)));
    Refute(s, id, Run([s, s1], [OpStep(t, SaveMark(true))]));
  }

  lemma OpResurrects(s: State, id: Id, t: Tid)
    requires Inv(s) && t in s.ops && s.ops[t].id == id && WillSave(s.ops[t])
    ensures !GoneForever(s, id)
  {
    if s.ops[t].pc.SavingMark? {
      SaveResurrects(s, id, t);
    } else {
      var st := OpStep(t, WriteMark);
      StepKeepsInv(s, st);
      SaveResurrects(Apply(s, st), id, t);
      StepThenRefute(s, st, id);
    }
  }

  lemma PollSaveResurrects(s: State, id: Id)
    requires s.poll.Saving? && s.poll.rec.who.id == id
    ensures !GoneForever(s, id)
  {
    var s1 := Apply(s, PollStep(SaveRec(true)));
    Refute(s, id, Run([s, s1], [PollStep(SaveRec(true))]));
  }

  lemma PollPickResurrects(s: State, id: Id)
    requires Inv(s) && s.poll.Persist? && At(s, id).poll.toSave
    ensures !GoneForever(s, id)
  {
    assert CellOk(id, At(s, id));
    var s1 := Apply(s, PollStep(PickSave(id)));
    var s2 := Apply(s1, PollStep(SaveRec(true)));
    Refute(s, id, Run([s, s1, s2], [PollStep(PickSave(id)), PollStep(SaveRec(true))]));
  }

  /** Prefixing a step to a run that brings the sandbox back. */
  lemma StepThenRefute(s: State, st: Step, id: Id)
    requires Enabled(s, st) && !GoneForever(Apply(s, st), id)
    ensures !GoneForever(s, id)
  {
    var r :| IsRun(r) && r.states[0] == Apply(s, st) && !Gone(At(r.states[|r.steps|], id));
    PrependIsRun(s, st, r);
    Refute(s, id, Prepend(s, st, r));
  }

  lemma PollListResurrects(s: State, id: Id)
    requires Inv(s) && At(s, id).poll.toSave
    ensures !GoneForever(s, id)
  {
    if s.poll.Persist? {
      PollPickResurrects(s, id);
    } else if s.poll.rec.who.id == id {
      PollSaveResurrects(s, id);
    } else {
      var st := PollStep(SaveRec(false));
      StepKeepsInv(s, st);
      PollPickResurrects(Apply(s, st), id);
      StepThenRefute(s, st, id);
    }
  }

  /** Once a sandbox is gone it stays gone in every continuation if and only if no
      stop, start or poll still holds a save of it. */
  lemma GoneForeverIff(s: State, id: Id)
    requires Inv(s) && Gone(At(s, id))
    ensures GoneForever(s, id) <==> NoWriter(s, id)
  {
    if NoWriter(s, id) {
      forall r: Run | IsRun(r) && r.states[0] == s ensures Gone(At(r.states[|r.steps|], id)) {
        GoneRun(r, id, |r.steps|);
      }
    } else if t :| t in s.ops && s.ops[t].id == id && WillSave(s.ops[t]) {
      OpResurrects(s, id, t);
    } else if At(s, id).poll.toSave {
      PollListResurrects(s, id);
    } else {
      PollSaveResurrects(s, id);
    }
  }

  lemma Suffix(r: Run, i: nat)
    requires IsRun(r) && i < |r.states|
    ensures IsRun(Run(r.states[i..], r.steps[i..]))
  {
  }

  lemma GoneFrom(r: Run, i: nat, k: nat, id: Id)
    requires IsRun(r) && i <= k < |r.states| && Inv(r.states[i])
    requires Gone(At(r.states[i], id)) && NoWriter(r.states[i], id)
    ensures Gone(At(r.states[k], id))
  {
    Suffix(r, i);
    GoneRun(Run(r.states[i..], r.steps[i..]), id, k - i);
  }
}
