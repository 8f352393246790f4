/** What became of a create request: its record answers it for good, and its VM is booted only
    with that record, the pinned digest included, on disk. */
module Requests {
  import opened Records
  import opened Entries
  import opened Lifecycle
  import opened LifecycleInvariant
  import opened LifecycleTheorems

  /** The step that accepts a request, whether or not the process outlives it. */
  predicate Accepts(st: Step, cfg: Config, req: Request, now: int) {
    st == CreateStep(cfg, req, now, true) || st == RestartStep(CrashInCreate(cfg, req, now))
  }

  lemma AcceptedThen(s: State, st: Step, cfg: Config, req: Request, now: int)
    requires Enabled(s, st) && Accepts(st, cfg, req, now)
    ensures At(Apply(s, st), req.id).past.accepted == Some(Accept(cfg, req, now).who)
  {
  }

  /** In every history, once a create has saved its record: in memory and on disk the sandbox's
      identity answers that request, field by field, and the record is there until a delete
      removes it. */
  lemma RequestIsAnswered(r: Run, i: nat, k: nat, cfg: Config, req: Request, now: int)
    requires IsHistory(r) && i < k < |r.states| && Accepts(r.steps[i], cfg, req, now)
    ensures var c := At(r.states[k], req.id);
      && (c.entry.Some? ==> Answers(c.entry.value.rec.who, cfg, req))
      && (c.saved.Some? ==> Answers(c.saved.value.who, cfg, req))
      && (!c.past.removed ==> c.saved.Some?)
  {
    assert Enabled(r.states[i], r.steps[i]) && r.states[i + 1] == Apply(r.states[i], r.steps[i]);
    AcceptedThen(r.states[i], r.steps[i], cfg, req, now);
    IdentityIsForever(r, i + 1, k, req.id);
    NoUnrecordedVm(r, k, req.id);
  }

  // ----------------------------------------------------------- pinned before the boot

  /** Where the goroutine has no write of the record under way. */
  predicate Settled(pc: ProvPc) {
    pc == Inspect || pc == Prepare || pc == Clear || pc == CheckCancel || pc == Boot
  }

  /** Until the boot is through, the record on disk is the one in memory. */
  predicate OnDisk(c: Cell) {
    c.prov.Some? && Settled(c.prov.value.pc) ==> c.entry.Some? && c.saved == Some(c.entry.value.rec)
  }

  lemma ProvOnDisk(id: Id, c: Cell, a: ProvAct)
    requires CellOk(id, c) && OnDisk(c) && CanProv(c, a)
    ensures OnDisk(ProvCell(id, c, a))
  {
  }

  lemma PollOnDisk(s: State, a: PollAct, id: Id)
    requires Inv(s) && CanPoll(s, a) && OnDisk(At(s, id))
    ensures OnDisk(At(DoPoll(s, a), id))
  {
    assert CellOk(id, At(s, id));
  }

  lemma OpOnDisk(id: Id, o: Op, c: Cell, a: OpAct)
    requires OpOk(o, c) && CanOp(o, c, a)
    ensures OnDisk(OpCell(o, c, a))
  {
  }

  lemma DelOnDisk(d: Del, c: Cell, a: DelAct)
    requires DelOk(d, c) && CanDel(d, c, a) && OnDisk(c)
    ensures OnDisk(DelCell(c, a))
  {
  }

  /** A stop, a start or a delete past its wait is never about an entry in provisioning. */
  lemma TargetOnDisk(s: State, st: Step)
    requires Inv(s) && Enabled(s, st) && !st.PollStep? && !st.RestartStep? && OnDisk(At(s, Target(s, st)))
    ensures OnDisk(At(Apply(s, st), Target(s, st)))
  {
    var id := Target(s, st);
    assert CellOk(id, At(s, id));
    TargetIs(s, st);
    match st
    case ProvStep(_, a) => ProvOnDisk(id, At(s, id), a);
    case OpStep(t, a) => OpOnDisk(id, s.ops[t], At(s, id), a);
    case DelStep(u, a) => DelOnDisk(s.dels[u], At(s, id), a);
    case _ =>
  }

  lemma StepOnDisk(s: State, st: Step, id: Id)
    requires Inv(s) && Enabled(s, st) && OnDisk(At(s, id))
    ensures OnDisk(At(Apply(s, st), id))
  {
    if st.PollStep? {
      PollOnDisk(s, st.la, id);
    } else if st.RestartStep? {
      assert PhaseOk(s.phase, At(s, id));
    } else if id == Target(s, st) {
      TargetOnDisk(s, st);
    } else {
      OnlyTarget(s, st, id);
    }
  }

  lemma {:induction false} HistoriesAreOnDisk(r: Run, i: nat, id: Id)
    requires IsHistory(r) && i < |r.states|
    ensures OnDisk(At(r.states[i], id))
  {
    if i > 0 {
      HistoriesAreOnDisk(r, i - 1, id);
      HistoriesAreSafe(r, i - 1);
      var s, st := r.states[i - 1], r.steps[i - 1];
      assert Enabled(s, st) && r.states[i] == Apply(s, st);
      StepOnDisk(s, st, id);
    }
  }

  /** While the goroutine runs, it is past its inspection and the digest in memory is `d`. */
  predicate Pinned(c: Cell, d: string) {
    && c.past.accepted.Some?
    && (c.prov.Some? ==> c.prov.value.pc != Inspect && c.entry.Some? && c.entry.value.rec.imageDigest == d)
  }

  lemma ProvPinned(id: Id, c: Cell, a: ProvAct, d: string)
    requires CanProv(c, a) && Pinned(c, d)
    ensures Pinned(ProvCell(id, c, a), d)
  {
  }

  lemma OpPinned(o: Op, c: Cell, a: OpAct, d: string)
    requires OpOk(o, c) && CanOp(o, c, a) && Pinned(c, d)
    ensures Pinned(OpCell(o, c, a), d)
  {
  }

  lemma DelPinned(c: Cell, a: DelAct, d: string)
    requires Pinned(c, d)
    ensures Pinned(DelCell(c, a), d) && Pinned(MarkDeleting(c), d)
  {
  }

  lemma PollPinned(s: State, a: PollAct, id: Id, d: string)
    requires Inv(s) && CanPoll(s, a) && Pinned(At(s, id), d)
    ensures Pinned(At(DoPoll(s, a), id), d)
  {
    assert CellOk(id, At(s, id));
  }

  lemma RestartPinned(s: State, a: RestartAct, id: Id, d: string)
    requires Inv(s) && CanRestart(s, a) && Pinned(At(s, id), d)
    ensures Pinned(At(DoRestart(s, a), id), d)
  {
    assert PhaseOk(s.phase, At(s, id));
  }

  lemma TargetPinned(s: State, st: Step, d: string)
    requires Inv(s) && Enabled(s, st) && !st.PollStep? && !st.RestartStep? && Pinned(At(s, Target(s, st)), d)
    ensures Pinned(At(Apply(s, st), Target(s, st)), d)
  {
    var id := Target(s, st);
    assert CellOk(id, At(s, id));
    TargetIs(s, st);
    match st
    case ProvStep(_, a) => ProvPinned(id, At(s, id), a, d);
    case OpStep(t, a) => OpPinned(s.ops[t], At(s, id), a, d);
    case DelStep(u, a) => DelPinned(At(s, id), a, d);
    case DeleteStep(_, _) => DelPinned(At(s, id), DropEntry, d);
    case _ =>
  }

  /** Nobody else touches the digest, and the goroutine pins once. */
  lemma StepPinned(s: State, st: Step, id: Id, d: string)
    requires Inv(s) && Enabled(s, st) && Pinned(At(s, id), d)
    ensures Pinned(At(Apply(s, st), id), d)
  {
    if st.PollStep? {
      PollPinned(s, st.la, id, d);
    } else if st.RestartStep? {
      RestartPinned(s, st.ra, id, d);
    } else if id == Target(s, st) {
      TargetPinned(s, st, d);
    } else {
      OnlyTarget(s, st, id);
    }
  }

  lemma {:induction false} PinnedAlong(r: Run, j: nat, k: nat, id: Id, d: string)
    requires IsHistory(r) && j <= k < |r.states| && Pinned(At(r.states[j], id), d)
    ensures Pinned(At(r.states[k], id), d)
    decreases k - j
  {
    if j < k {
      HistoriesAreSafe(r, j);
      assert Enabled(r.states[j], r.steps[j]) && r.states[j + 1] == Apply(r.states[j], r.steps[j]);
      StepPinned(r.states[j], r.steps[j], id, d);
      PinnedAlong(r, j + 1, k, id, d);
    }
  }

  lemma PinPins(s: State, id: Id, d: string)
    requires Inv(s) && Enabled(s, ProvStep(id, PinDigest(d)))
    ensures Pinned(At(Apply(s, ProvStep(id, PinDigest(d))), id), d)
  {
    assert CellOk(id, At(s, id));
    TargetIs(s, ProvStep(id, PinDigest(d)));
  }

  /** Strictly by the digest observed: in every history, when the sandbox's VM is booted, the
      record in memory is on disk and carries the digest that the goroutine pinned. */
  lemma BootsWhatIsPinned(r: Run, j: nat, k: nat, id: Id, d: string)
    requires IsHistory(r) && j < k < |r.steps| && r.steps[j] == ProvStep(id, PinDigest(d)) && r.steps[k] == ProvStep(id, Boots)
    ensures var c := At(r.states[k], id);
      c.entry.Some? && c.saved == Some(c.entry.value.rec) && c.saved.value.imageDigest == d
  {
    HistoriesAreSafe(r, j);
    assert Enabled(r.states[j], r.steps[j]) && r.states[j + 1] == Apply(r.states[j], r.steps[j]);
    PinPins(r.states[j], id, d);
    PinnedAlong(r, j + 1, k, id, d);
    HistoriesAreOnDisk(r, k, id);
    assert Enabled(r.states[k], r.steps[k]);
  }
}
