/** The store mirrors the registry. */
module StoreMirror {
  import opened Conditions
  import opened Records
  import opened Entries
  import opened Lifecycle
  import opened LifecycleInvariant
  import opened CoarseRuns

  /** Between the in-memory write of a pinned digest or stop mark and its save. */
  ghost predicate Writing(s: State, id: Id) {
    || (At(s, id).prov.Some? && At(s, id).prov.value.pc.SavingDigest?)
    || exists t :: t in s.ops && s.ops[t].id == id && s.ops[t].pc.SavingMark?
  }

  predicate Mirrored(c: Cell) {
    Present(c) ==> c.saved == Some(c.entry.value.rec)
  }

  /** The mirror from the point of view of the operation that holds the entry. */
  predicate HolderMirror(o: Op, c: Cell) {
    if o.pc.SavingMark? then Present(c) ==> o.pc.rec == c.entry.value.rec else Mirrored(c)
  }

  /** The mirror of a cell nobody holds. */
  predicate FreeMirror(c: Cell) {
    (c.prov.Some? && c.prov.value.pc.SavingDigest?) || Mirrored(c)
  }

  ghost predicate MirrorOk(s: State) {
    && (forall id :: !Busy(At(s, id)) ==> FreeMirror(At(s, id)))
    && (forall t :: t in s.ops ==> HolderMirror(s.ops[t], At(s, s.ops[t].id)))
  }

  lemma OwnMirror(id: Id, o: Op, c: Cell, a: OpAct)
    requires CellOk(id, c) && OpOk(o, c) && CanOp(o, c, a) && HolderMirror(o, c) && a != SaveMark(false)
    ensures HolderMirror(OpThread(o, c, a), OpCell(o, c, a))
  {
  }

  lemma ProvMirror(id: Id, c: Cell, a: ProvAct)
    requires CellOk(id, c) && CanProv(c, a) && FreeMirror(c) && a != SaveDigest(false)
    ensures FreeMirror(ProvCell(id, c, a))
  {
  }

  lemma PollMirror(id: Id, c: Cell)
    requires CellOk(id, c) && FreeMirror(c)
    ensures FreeMirror(QuickCell(c, true)) && (c.entry.Some? ==> FreeMirror(AttachCell(c)))
  {
  }

  lemma DelMirror(id: Id, d: Del, c: Cell, a: DelAct)
    requires CellOk(id, c) && DelOk(d, c) && CanDel(d, c, a) && FreeMirror(c)
    ensures FreeMirror(DelCell(c, a))
  {
  }

  lemma HolderStep(s: State, st: Step, t: Tid)
    requires Inv(s) && MirrorOk(s) && Enabled(s, st) && CoarseStep(st) && SavesSucceed(st) && !st.RestartStep?
    requires t in Apply(s, st).ops
    ensures HolderMirror(Apply(s, st).ops[t], At(Apply(s, st), Apply(s, st).ops[t].id))
  {
    ThreadSource(s, st, t);
    if st.BeginStep? && st.t == t {
      assert CellOk(st.id, At(s, st.id));
    } else if st.OpStep? && st.t == t {
      var o := s.ops[t];
      assert CellOk(o.id, At(s, o.id));
      OwnMirror(o.id, o, At(s, o.id), st.oa);
    } else {
      var o := s.ops[t];
      assert OpOk(o, At(s, o.id));
      NotDisturbed(s, st, o.id);
    }
  }

  lemma FreeOp(s: State, st: Step, id: Id)
    requires Inv(s) && MirrorOk(s) && Enabled(s, st) && (st.BeginStep? || st.ReleaseStep?)
    requires !Busy(At(Apply(s, st), id)) && id == Target(s, st)
    ensures FreeMirror(At(Apply(s, st), id))
  {
    var c := At(s, id);
    assert CellOk(id, c);
    assert At(Apply(s, st), id) == SetBusy(c, st.BeginStep?);
    if st.ReleaseStep? { assert OpOk(s.ops[st.t], c) && HolderMirror(s.ops[st.t], c); }
  }

  /** Its own steps never let go of an entry a stop or start holds. */
  lemma OpStaysBusy(s: State, st: Step)
    requires Inv(s) && Enabled(s, st) && st.OpStep?
    ensures Busy(At(Apply(s, st), s.ops[st.t].id))
  {
    var o := s.ops[st.t];
    var c := At(s, o.id);
    assert OpOk(o, c) && CellOk(o.id, c);
    assert At(Apply(s, st), o.id) == OpCell(o, c, st.oa);
  }

  lemma FreeDel(s: State, st: Step, id: Id)
    requires Inv(s) && MirrorOk(s) && Enabled(s, st) && st.DelStep?
    requires !Busy(At(Apply(s, st), id)) && id == Target(s, st)
    ensures FreeMirror(At(Apply(s, st), id))
  {
    var c := At(s, id);
    assert CellOk(id, c) && PhaseOk(s.phase, c);
    DelGood(id, s.dels[st.u], c, st.da);
    DelMirror(id, s.dels[st.u], c, st.da);
  }

  lemma FreeDelete(s: State, st: Step, id: Id)
    requires Inv(s) && MirrorOk(s) && Enabled(s, st) && st.DeleteStep?
    requires !Busy(At(Apply(s, st), id)) && id == Target(s, st)
    ensures FreeMirror(At(Apply(s, st), id))
  {
    assert CellOk(id, At(s, id));
  }

  lemma FreeRest(s: State, st: Step, id: Id)
    requires Inv(s) && MirrorOk(s) && Enabled(s, st) && SavesSucceed(st) && (st.CreateStep? || st.ProvStep? || st.EnvStep?)
    requires !Busy(At(Apply(s, st), id)) && id == Target(s, st)
    ensures FreeMirror(At(Apply(s, st), id))
  {
    var c := At(s, id);
    assert CellOk(id, c) && PhaseOk(s.phase, c);
    if st.ProvStep? {
      ProvGood(id, c, st.pa);
      ProvMirror(id, c, st.pa);
    }
  }

  lemma FreePoll(s: State, a: PollAct, id: Id)
    requires Inv(s) && MirrorOk(s) && CanPoll(s, a) && CoarseStep(PollStep(a)) && SavesSucceed(PollStep(a))
    requires !Busy(At(DoPoll(s, a), id))
    ensures FreeMirror(At(DoPoll(s, a), id))
  {
    assert CellOk(id, At(s, id)) && PhaseOk(s.phase, At(s, id));
    QuickGood(id, At(s, id), true);
    PollMirror(id, At(s, id));
  }

  lemma FreeStep(s: State, st: Step, id: Id)
    requires Inv(s) && MirrorOk(s) && Enabled(s, st) && CoarseStep(st) && SavesSucceed(st) && !st.RestartStep?
    requires !Busy(At(Apply(s, st), id))
    ensures FreeMirror(At(Apply(s, st), id))
  {
    if st.PollStep? {
      FreePoll(s, st.la, id);
    } else if id != Target(s, st) {
      OnlyTarget(s, st, id);
    } else {
      match st
      case OpStep(_, _) => OpStaysBusy(s, st);
      case BeginStep(_, _, _) => FreeOp(s, st, id);
      case ReleaseStep(_) => FreeOp(s, st, id);
      case DelStep(_, _) => FreeDel(s, st, id);
      case DeleteStep(_, _) => FreeDelete(s, st, id);
      case _ => FreeRest(s, st, id);
    }
  }

  lemma RestartMirror(s: State, a: RestartAct)
    requires Inv(s) && MirrorOk(s) && CanRestart(s, a)
    ensures MirrorOk(DoRestart(s, a))
  {
    forall id ensures !Busy(At(DoRestart(s, a), id)) ==> FreeMirror(At(DoRestart(s, a), id)) {
      assert CellOk(id, At(s, id)) && PhaseOk(s.phase, At(s, id));
    }
  }

  lemma MirrorStep(s: State, st: Step)
    requires Inv(s) && MirrorOk(s) && Enabled(s, st) && CoarseStep(st) && SavesSucceed(st)
    ensures MirrorOk(Apply(s, st))
  {
    if st.RestartStep? {
      RestartMirror(s, st.ra);
    } else {
      forall t | t in Apply(s, st).ops ensures HolderMirror(Apply(s, st).ops[t], At(Apply(s, st), Apply(s, st).ops[t].id)) {
        HolderStep(s, st, t);
      }
      forall id | !Busy(At(Apply(s, st), id)) ensures FreeMirror(At(Apply(s, st), id)) {
        FreeStep(s, st, id);
      }
    }
  }

  lemma {:induction false} MirrorHistories(r: Run, i: nat)
    requires CoarseRun(r) && i < |r.states|
    requires forall j :: 0 <= j < |r.steps| ==> SavesSucceed(r.steps[j])
    ensures MirrorOk(r.states[i])
  {
    if i > 0 {
      MirrorHistories(r, i - 1);
      CoarseHistories(r, i - 1);
      assert CoarseStep(r.steps[i - 1]) && SavesSucceed(r.steps[i - 1]);
      MirrorStep(r.states[i - 1], r.steps[i - 1]);
    }
  }

  /** If every save succeeds, then in every state of every coarse history a registered
      entry that is not being deleted equals its stored record, except while an
      operation on it is between its in-memory write and its save. */
  lemma StoreMirrorsRegistry(r: Run, i: nat, id: Id)
    requires CoarseRun(r) && i < |r.states|
    requires forall j :: 0 <= j < |r.steps| ==> SavesSucceed(r.steps[j])
    requires !Writing(r.states[i], id)
    ensures var c := At(r.states[i], id);
            c.registered && Present(c) ==> c.saved == Some(c.entry.value.rec)
  {
    MirrorHistories(r, i);
    CoarseHistories(r, i);
    var s := r.states[i];
    assert CellOk(id, At(s, id));
    if Busy(At(s, id)) {
      assert HasOp(s, id);
      var t :| t in s.ops && s.ops[t].id == id;
      assert HolderMirror(s.ops[t], At(s, id));
    }
  }
}
