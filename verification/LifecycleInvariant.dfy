/** The invariant of every run at full step granularity, and its preservation. */
module LifecycleInvariant {
  import opened Conditions
  import opened Records
  import opened Entries
  import opened Lifecycle

  /** What holds of the cell of one id. */
  ghost predicate CellOk(id: Id, c: Cell) {
    // identities never change, and the token is never on disk
    && (c.past.accepted.Some? ==>
          var who := c.past.accepted.value;
          && ValidId(id) && who.id == id && who.containerName == ContainerName(id) && who.sandbox.token == ""
          && (c.saved.Some? || c.past.removed))
    && (c.entry.Some? ==> c.past.accepted == Some(c.entry.value.rec.who) && Coherent(c.entry.value.cond))
    && (c.saved.Some? ==> c.past.accepted == Some(c.saved.value.who))
    && (c.registered ==> c.entry.Some?)
    && (c.entry.Some? && !c.entry.value.deleting ==> c.registered)
    // provisioning runs exactly while the entry's task is open, and has a record
    && (c.prov.Some? <==> c.entry.Some? && c.entry.value.task == Running)
    && (c.prov.Some? ==> c.registered && c.saved.Some? && !c.entry.value.busy)
    && (c.prov.Some? && c.prov.value.pc.SavingDigest? ==> c.prov.value.pc.rec == c.entry.value.rec)
    // a VM under an accepted sandbox's name was booted for it and has a record
    && (c.vm.Some? ==> !Fresh(c))
    && (c.vm.Some? && c.past.accepted.Some? ==> c.saved.Some? && c.vm.value.managed && c.vm.value.sandbox == id)
    && (c.vm.Some? && c.vm.value.managed && c.past.accepted.None? ==> c.vm.value.sandbox == "")
    // the poller only holds entries whose provisioning is over
    && (c.poll.toSave || c.poll.toTail ==> c.entry.Some? && c.prov.None?)
  }

  ghost predicate OpOk(o: Op, c: Cell) {
    && c.entry.Some? && c.entry.value.busy && c.prov.None?
    && (o.pc.SavingMark? ==> o.pc.rec.who == c.entry.value.rec.who && o.pc.rec.stopped == (o.kind == Stop))
  }

  ghost predicate DelOk(d: Del, c: Cell) {
    && !Fresh(c)
    && (d.known ==> c.entry.Some? && c.entry.value.deleting)
    && (!d.known ==> !c.registered && (d.pc == RemoveVm || d.pc == RemoveRecord || d.pc == Returned))
    && (d.pc == RemoveVm && !d.expired ==> c.prov.None?)
    && (d.pc == RemoveRecord || d.pc == Unregister ==> c.prov.None? && (c.past.accepted.Some? ==> c.vm.None?))
    && (d.pc == Returned ==> !c.registered)
  }

  ghost predicate SavingOk(rec: Record, c: Cell) {
    c.entry.Some? && c.prov.None? && c.past.accepted == Some(rec.who)
  }

  /** What a cell may look like in each phase of the process. */
  ghost predicate PhaseOk(p: Phase, c: Cell) {
    match p
    case Down => c.entry.None? && c.poll == NO_MARK
    case Sweeping =>
      && c.prov.None? && c.poll == NO_MARK && (c.entry.Some? ==> !c.entry.value.busy)
      && c.registered == (c.saved.Some? && !c.past.unread)
      && (c.sweep.Orphan? ==> !c.registered)
      && (c.vm.Some? && c.vm.value.managed && !c.registered ==> c.sweep != Clean)
    case Serving => !c.sweep.Orphan? && (c.saved.Some? && c.entry.None? ==> c.past.unread)
  }

  ghost predicate CellsOk(s: State) {
    forall id :: CellOk(id, At(s, id)) && PhaseOk(s.phase, At(s, id))
  }

  /** Busy is a lock: its holder is the one stop or start in flight. */
  ghost predicate OpsOk(s: State) {
    && (forall t :: t in s.ops ==> OpOk(s.ops[t], At(s, s.ops[t].id)))
    && (forall t, u :: t in s.ops && u in s.ops && s.ops[t].id == s.ops[u].id ==> t == u)
    && (forall id :: Busy(At(s, id)) ==> HasOp(s, id))
  }

  ghost predicate HasOp(s: State, id: Id) {
    exists t :: t in s.ops && s.ops[t].id == id
  }

  ghost predicate DelsOk(s: State) {
    forall u :: u in s.dels ==> DelOk(s.dels[u], At(s, s.dels[u].id))
  }

  ghost predicate PollOk(s: State) {
    && (s.poll.Saving? ==> SavingOk(s.poll.rec, At(s, s.poll.rec.who.id)))
    && (forall id :: At(s, id).poll.toSave ==> s.poll.Persist? || s.poll.Saving?)
  }

  ghost predicate Inv(s: State) {
    && CellsOk(s) && OpsOk(s) && DelsOk(s)
    && PollOk(s)
    && (!s.phase.Serving? ==> s.ops == map[] && s.dels == map[] && s.poll == Idle)
  }

  /** What every step but a restart guarantees to the threads it does not belong to. */
  ghost predicate Stable(c: Cell, c': Cell) {
    && (Fresh(c') ==> Fresh(c))
    && (!Fresh(c) ==> c'.past.accepted == c.past.accepted)
    && (c.entry.Some? ==> c'.entry.Some? && (c.entry.value.deleting ==> c'.entry.value.deleting))
    && (c'.registered ==> c.registered || Fresh(c))
    && (c'.prov.Some? ==> c.prov.Some? || Fresh(c))
    && (c'.vm.Some? ==> c.vm.Some? || c.prov.Some? || c.past.accepted.None?)
  }

  ghost predicate Good(id: Id, p: Phase, c: Cell, c': Cell) {
    CellOk(id, c') && PhaseOk(p, c') && Stable(c, c')
  }

  predicate Busy(c: Cell) {
    c.entry.Some? && c.entry.value.busy
  }

  ghost predicate SameBusy(c: Cell, c': Cell) {
    Busy(c) == Busy(c')
  }

  /** Threads are not disturbed by a step of somebody else. */
  lemma DelStable(d: Del, c: Cell, c': Cell)
    requires DelOk(d, c) && Stable(c, c')
    ensures DelOk(d, c')
  {
  }

  lemma OpStable(id: Id, o: Op, c: Cell, c': Cell)
    requires OpOk(o, c) && Stable(c, c') && SameBusy(c, c') && CellOk(id, c) && CellOk(id, c')
    ensures OpOk(o, c')
  {
  }

  ghost predicate AllGood(s: State, s': State) {
    forall j :: Good(j, s'.phase, At(s, j), At(s', j))
  }

  ghost predicate BusyKept(s: State, s': State) {
    forall j :: SameBusy(At(s, j), At(s', j))
  }

  lemma GoodCells(s: State, s': State)
    requires AllGood(s, s')
    ensures CellsOk(s')
  {
    forall j ensures CellOk(j, At(s', j)) && PhaseOk(s'.phase, At(s', j)) {
      assert Good(j, s'.phase, At(s, j), At(s', j));
    }
  }

  /** A step that leaves all threads and busy marks alone keeps the invariant as
      soon as it leaves every cell good. */
  lemma ThreadsKept(s: State, s': State)
    requires Inv(s) && s'.phase == s.phase && s'.ops == s.ops && s'.dels == s.dels
    requires AllGood(s, s') && BusyKept(s, s') && PollOk(s') && (!s.phase.Serving? ==> s'.poll == s.poll)
    ensures Inv(s')
  {
    GoodCells(s, s');
    forall t | t in s'.ops ensures OpOk(s'.ops[t], At(s', s'.ops[t].id)) {
      var j := s.ops[t].id;
      assert Good(j, s.phase, At(s, j), At(s', j)) && SameBusy(At(s, j), At(s', j));
      OpStable(j, s.ops[t], At(s, j), At(s', j));
    }
    forall u | u in s'.dels ensures DelOk(s'.dels[u], At(s', s'.dels[u].id)) {
      var j := s.dels[u].id;
      assert Good(j, s.phase, At(s, j), At(s', j));
      DelStable(s.dels[u], At(s, j), At(s', j));
    }
    forall j | Busy(At(s', j)) ensures HasOp(s', j) {
      assert SameBusy(At(s, j), At(s', j));
      assert HasOp(s, j);
    }
  }

  /** The poller's pending save survives what others do to its cell. */
  lemma SavingStable(id: Id, rec: Record, c: Cell, c': Cell)
    requires SavingOk(rec, c) && CellOk(id, c) && Stable(c, c')
    ensures SavingOk(rec, c')
  {
  }

  lemma PutGood(s: State, s': State, id: Id, c': Cell)
    requires CellsOk(s) && s'.cells == s.cells[id := c'] && s'.phase == s.phase
    requires Good(id, s.phase, At(s, id), c')
    ensures AllGood(s, s') && forall j :: At(s', j) == if j == id then c' else At(s, j)
  {
    forall j ensures Good(j, s.phase, At(s, j), At(s', j)) && At(s', j) == (if j == id then c' else At(s, j)) {
      if j != id { Same(j, s.phase, At(s, j)); }
    }
  }

  lemma OneCell(s: State, s': State, id: Id, c': Cell)
    requires Inv(s) && s' == Put(s, id, c')
    requires Good(id, s.phase, At(s, id), c') && SameBusy(At(s, id), c')
    requires c'.poll == At(s, id).poll
    ensures Inv(s') && AllGood(s, s')
  {
    PutGood(s, s', id, c');
    if s.poll.Saving? {
      var k := s.poll.rec.who.id;
      assert Good(k, s.phase, At(s, k), At(s', k));
      SavingStable(k, s.poll.rec, At(s, k), At(s', k));
    }
    ThreadsKept(s, s');
  }

  lemma Same(id: Id, p: Phase, c: Cell)
    requires CellOk(id, c) && PhaseOk(p, c)
    ensures Good(id, p, c, c)
  {
  }

  /** Steps that leave the poller's marks alone. */
  predicate Tame(c: Cell, c': Cell) {
    c'.poll == c.poll
  }

  lemma CreatedGood(c: Cell, cfg: Config, req: Request, now: int, saved: bool)
    requires CellOk(req.id, c) && PhaseOk(Serving, c) && Fresh(c) && ValidId(req.id)
    ensures Good(req.id, Serving, c, Created(c, Accept(cfg, req, now), saved)) && Tame(c, Created(c, Accept(cfg, req, now), saved))
  {
  }

  lemma ProvGood(id: Id, c: Cell, a: ProvAct)
    requires CellOk(id, c) && PhaseOk(Serving, c) && CanProv(c, a)
    ensures Good(id, Serving, c, ProvCell(id, c, a))
    ensures SameBusy(c, ProvCell(id, c, a)) && Tame(c, ProvCell(id, c, a))
  {
  }

  lemma OpGood(id: Id, o: Op, c: Cell, a: OpAct)
    requires CellOk(id, c) && PhaseOk(Serving, c) && OpOk(o, c) && CanOp(o, c, a)
    ensures Good(id, Serving, c, OpCell(o, c, a)) && Tame(c, OpCell(o, c, a)) && OpOk(OpThread(o, c, a), OpCell(o, c, a))
  {
  }

  lemma DelGood(id: Id, d: Del, c: Cell, a: DelAct)
    requires CellOk(id, c) && PhaseOk(Serving, c) && DelOk(d, c) && CanDel(d, c, a)
    ensures Good(id, Serving, c, DelCell(c, a)) && SameBusy(c, DelCell(c, a)) && Tame(c, DelCell(c, a))
    ensures DelThread(d, a).Some? ==> DelOk(DelThread(d, a).value, DelCell(c, a))
  {
  }

  lemma MarkGood(id: Id, c: Cell)
    requires CellOk(id, c) && PhaseOk(Serving, c)
    ensures var c' := MarkDeleting(c);
            && Good(id, Serving, c, c') && SameBusy(c, c') && c'.poll == c.poll
            && DelOk(NewDel(id, c.registered), c')
  {
  }

  lemma EnvGood(id: Id, p: Phase, c: Cell, a: EnvAct)
    requires CellOk(id, c) && PhaseOk(p, c) && CanEnv(p, c, a)
    ensures Good(id, p, c, EnvCell(p, c, a)) && SameBusy(c, EnvCell(p, c, a)) && Tame(c, EnvCell(p, c, a))
  {
  }

  /** A stop or start begins or ends: the only steps that move a busy mark. */
  lemma BusyGood(id: Id, c: Cell, busy: bool)
    requires CellOk(id, c) && PhaseOk(Serving, c) && c.entry.Some?
    requires busy ==> LifecycleRefusal(c.entry.value) == None
    ensures Good(id, Serving, c, SetBusy(c, busy)) && Tame(c, SetBusy(c, busy))
    ensures busy ==> OpOk(Op(id, Stop, Invoke, false), SetBusy(c, busy))
  {
  }

  lemma ListGood(id: Id, c: Cell)
    requires CellOk(id, c) && PhaseOk(Serving, c)
    ensures Good(id, Serving, c, ListCell(c)) && SameBusy(c, ListCell(c))
  {
  }

  lemma ApplyGood(id: Id, c: Cell)
    requires CellOk(id, c) && PhaseOk(Serving, c)
    ensures Good(id, Serving, c, ApplyCell(c)) && SameBusy(c, ApplyCell(c))
  {
  }

  lemma SaveGood(id: Id, c: Cell, ok: bool)
    requires CellOk(id, c) && PhaseOk(Serving, c)
    ensures Good(id, Serving, c, SaveCell(c, ok)) && SameBusy(c, SaveCell(c, ok))
  {
  }

  lemma CreateStepGood(s: State, st: Step)
    requires Inv(s) && Enabled(s, st) && st.CreateStep?
    ensures Inv(Apply(s, st)) && AllGood(s, Apply(s, st))
  {
    CreatedGood(At(s, st.req.id), st.cfg, st.req, st.now, st.saved);
    OneCell(s, Apply(s, st), st.req.id, Created(At(s, st.req.id), Accept(st.cfg, st.req, st.now), st.saved));
  }

  lemma ProvStepGood(s: State, st: Step)
    requires Inv(s) && Enabled(s, st) && st.ProvStep?
    ensures Inv(Apply(s, st)) && AllGood(s, Apply(s, st))
  {
    ProvGood(st.id, At(s, st.id), st.pa);
    OneCell(s, Apply(s, st), st.id, ProvCell(st.id, At(s, st.id), st.pa));
  }

  lemma EnvStepGood(s: State, st: Step)
    requires Inv(s) && Enabled(s, st) && st.EnvStep?
    ensures Inv(Apply(s, st)) && AllGood(s, Apply(s, st))
  {
    EnvGood(st.id, s.phase, At(s, st.id), st.ea);
    OneCell(s, Apply(s, st), st.id, EnvCell(s.phase, At(s, st.id), st.ea));
  }

  /** Only the thread tables differ. */
  predicate SameCells(s: State, s': State) {
    s'.cells == s.cells && s'.poll == s.poll && s'.phase == s.phase
  }

  lemma SameCellsSameAt(s: State, m: State, s': State)
    requires SameCells(m, s') && AllGood(s, m)
    ensures AllGood(s, s') && forall j :: At(s', j) == At(m, j)
  {
    forall j ensures At(s', j) == At(m, j) && Good(j, s'.phase, At(s, j), At(s', j)) {
      assert Good(j, m.phase, At(s, j), At(m, j));
    }
  }

  lemma DelsReplaced(m: State, s': State)
    requires Inv(m) && m.phase.Serving? && SameCells(m, s') && s'.ops == m.ops
    requires forall u :: u in s'.dels ==> (u in m.dels && s'.dels[u] == m.dels[u]) || DelOk(s'.dels[u], At(m, s'.dels[u].id))
    ensures Inv(s')
  {
    assert forall j :: At(s', j) == At(m, j);
    forall j | Busy(At(s', j)) ensures HasOp(s', j) {
      assert HasOp(m, j);
    }
  }

  lemma DeleteStepGood(s: State, st: Step)
    requires Inv(s) && Enabled(s, st) && st.DeleteStep?
    ensures Inv(Apply(s, st)) && AllGood(s, Apply(s, st))
  {
    var c := At(s, st.id);
    var m := Put(s, st.id, MarkDeleting(c));
    MarkedGood(s, st.id);
    var d := NewDel(st.id, c.registered);
    var s' := m.(dels := m.dels[st.u := d]);
    assert s' == Apply(s, st);
    DelReplaced(m, s', st.u, st.id, Some(d));
    SameCellsSameAt(s, m, s');
  }

  lemma MarkedGood(s: State, id: Id)
    requires Inv(s) && s.phase.Serving?
    ensures var c := At(s, id);
            var m := Put(s, id, MarkDeleting(c));
            Inv(m) && AllGood(s, m) && DelOk(NewDel(id, c.registered), At(m, id))
  {
    var c := At(s, id);
    MarkGood(id, c);
    OneCell(s, Put(s, id, MarkDeleting(c)), id, MarkDeleting(c));
  }

  lemma DelStepGood(s: State, st: Step)
    requires Inv(s) && Enabled(s, st) && st.DelStep?
    ensures Inv(Apply(s, st)) && AllGood(s, Apply(s, st))
  {
    var d := s.dels[st.u];
    var m := Put(s, d.id, DelCell(At(s, d.id), st.da));
    DelGood(d.id, d, At(s, d.id), st.da);
    OneCell(s, m, d.id, DelCell(At(s, d.id), st.da));
    var d' := DelThread(d, st.da);
    var s' := m.(dels := if d'.Some? then m.dels[st.u := d'.value] else m.dels - {st.u});
    assert s' == Apply(s, st);
    DelReplaced(m, s', st.u, d.id, d');
    SameCellsSameAt(s, m, s');
  }

  /** The table of delete threads after one of them moves on or returns. */
  lemma DelReplaced(m: State, s': State, u: Tid, id: Id, d': Option<Del>)
    requires Inv(m) && m.phase.Serving? && SameCells(m, s') && s'.ops == m.ops
    requires s'.dels == if d'.Some? then m.dels[u := d'.value] else m.dels - {u}
    requires d'.Some? ==> d'.value.id == id && DelOk(d'.value, At(m, id))
    ensures Inv(s')
  {
    DelsReplaced(m, s');
  }

  lemma HasOpCarries(s: State, s': State, id: Id)
    requires HasOp(s, id)
    requires forall t :: t in s.ops && s.ops[t].id == id ==> t in s'.ops && s'.ops[t].id == id
    ensures HasOp(s', id)
  {
    var t :| t in s.ops && s.ops[t].id == id;
    assert t in s'.ops && s'.ops[t].id == id;
  }

  lemma OpsReplaced(m: State, s': State, t: Tid, o: Op)
    requires Inv(m) && t in m.ops && o.id == m.ops[t].id && OpOk(o, At(m, o.id))
    requires SameCells(m, s') && s'.dels == m.dels && s'.ops == m.ops[t := o]
    ensures Inv(s')
  {
    assert forall j :: At(s', j) == At(m, j);
    OpsStayOk(m, s', t, o);
  }

  lemma OpsStayOk(m: State, s': State, t: Tid, o: Op)
    requires OpsOk(m) && t in m.ops && o.id == m.ops[t].id && OpOk(o, At(m, o.id))
    requires (forall j :: At(s', j) == At(m, j)) && s'.ops == m.ops[t := o]
    ensures OpsOk(s')
  {
    forall j | Busy(At(s', j)) ensures HasOp(s', j) {
      HasOpCarries(m, s', j);
    }
  }

  lemma OpStepGood(s: State, st: Step)
    requires Inv(s) && Enabled(s, st) && st.OpStep?
    ensures Inv(Apply(s, st)) && AllGood(s, Apply(s, st))
  {
    var o := s.ops[st.t];
    var c := At(s, o.id);
    var m := Put(s, o.id, OpCell(o, c, st.oa));
    OpGood(o.id, o, c, st.oa);
    OneCell(s, m, o.id, OpCell(o, c, st.oa));
    OpsReplaced(m, Apply(s, st), st.t, OpThread(o, c, st.oa));
    SameCellsSameAt(s, m, Apply(s, st));
  }

  /** Delete threads and the poller do not mind a step that leaves its marks. */
  lemma OthersKept(s: State, s': State)
    requires Inv(s) && AllGood(s, s') && s'.phase == s.phase && s'.dels == s.dels && s'.poll == s.poll
    requires forall j :: At(s', j).poll == At(s, j).poll
    ensures DelsOk(s') && PollOk(s')
  {
    forall u | u in s'.dels ensures DelOk(s'.dels[u], At(s', s'.dels[u].id)) {
      var j := s.dels[u].id;
      assert Good(j, s'.phase, At(s, j), At(s', j));
      DelStable(s.dels[u], At(s, j), At(s', j));
    }
    if s.poll.Saving? {
      var k := s.poll.rec.who.id;
      assert Good(k, s'.phase, At(s, k), At(s', k));
      SavingStable(k, s.poll.rec, At(s, k), At(s', k));
    }
  }

  /** The cells after a step on one id, for the two steps that move a busy mark. */
  lemma BusyMoved(s: State, s': State, id: Id, busy: bool)
    requires Inv(s) && s.phase.Serving? && At(s, id).entry.Some?
    requires busy ==> LifecycleRefusal(At(s, id).entry.value) == None
    requires s'.cells == s.cells[id := SetBusy(At(s, id), busy)] && s'.phase == s.phase && s'.dels == s.dels && s'.poll == s.poll
    ensures AllGood(s, s') && CellsOk(s') && DelsOk(s') && PollOk(s')
    ensures forall j :: At(s', j) == if j == id then SetBusy(At(s, id), busy) else At(s, j)
  {
    BusyGood(id, At(s, id), busy);
    PutGood(s, s', id, SetBusy(At(s, id), busy));
    OthersKept(s, s');
    GoodCells(s, s');
  }

  /** The tables of stop and start threads before and after a begin or a release. */
  lemma OpsGrow(s: State, s': State, t: Tid, o: Op)
    requires OpsOk(s) && t !in s.ops && s'.ops == s.ops[t := o] && !Busy(At(s, o.id)) && OpOk(o, At(s', o.id))
    requires forall j :: j != o.id ==> At(s', j) == At(s, j)
    ensures OpsOk(s')
  {
    forall j | Busy(At(s', j)) ensures HasOp(s', j) {
      if j == o.id {
        assert t in s'.ops && s'.ops[t].id == j;
      } else {
        HasOpCarries(s, s', j);
      }
    }
  }

  lemma OpsShrink(s: State, s': State, t: Tid)
    requires OpsOk(s) && t in s.ops && s'.ops == s.ops - {t} && !Busy(At(s', s.ops[t].id))
    requires forall j :: j != s.ops[t].id ==> At(s', j) == At(s, j)
    ensures OpsOk(s')
  {
    forall j | Busy(At(s', j)) ensures HasOp(s', j) {
      HasOpCarries(s, s', j);
    }
  }

  lemma BeginStepGood(s: State, st: Step)
    requires Inv(s) && Enabled(s, st) && st.BeginStep?
    ensures Inv(Apply(s, st)) && AllGood(s, Apply(s, st))
  {
    var s' := Apply(s, st);
    BusyMoved(s, s', st.id, true);
    BusyGood(st.id, At(s, st.id), true);
    OpsGrow(s, s', st.t, Op(st.id, st.kind, Invoke, false));
  }

  lemma ReleaseStepGood(s: State, st: Step)
    requires Inv(s) && Enabled(s, st) && st.ReleaseStep?
    ensures Inv(Apply(s, st)) && AllGood(s, Apply(s, st))
  {
    var s' := Apply(s, st);
    BusyMoved(s, s', s.ops[st.t].id, false);
    OpsShrink(s, s', st.t);
  }

  predicate WholeRegistry(a: PollAct) {
    a.TakeList? || a.ApplyList? || a.QuickPoll?
  }

  lemma QuickGood(id: Id, c: Cell, ok: bool)
    requires CellOk(id, c) && PhaseOk(Serving, c)
    ensures Good(id, Serving, c, QuickCell(c, ok)) && SameBusy(c, QuickCell(c, ok))
  {
    ListGood(id, c);
    ApplyGood(id, ListCell(c));
    SaveGood(id, ApplyCell(ListCell(c)), ok);
  }

  lemma PollAllGood(s: State, a: PollAct)
    requires Inv(s) && CanPoll(s, a) && WholeRegistry(a)
    ensures Inv(DoPoll(s, a)) && AllGood(s, DoPoll(s, a))
  {
    var s' := DoPoll(s, a);
    forall j ensures Good(j, s.phase, At(s, j), At(s', j)) && SameBusy(At(s, j), At(s', j)) { PollGoodAt(s, a, j); }
    ThreadsKept(s, s');
  }

  lemma PollGoodAt(s: State, a: PollAct, j: Id)
    requires Inv(s) && CanPoll(s, a) && WholeRegistry(a)
    ensures Good(j, s.phase, At(s, j), At(DoPoll(s, a), j)) && SameBusy(At(s, j), At(DoPoll(s, a), j))
  {
    var c := At(s, j);
    assert CellOk(j, c) && PhaseOk(s.phase, c);
    match a
    case TakeList => ListGood(j, c);
    case ApplyList => ApplyGood(j, c);
    case QuickPoll(lost) => QuickGood(j, c, j !in lost);
    case _ =>
  }

  /** The cell a single-entry poll step works on. */
  function PollTarget(s: State, a: PollAct): Id {
    match a
    case PickSave(id) => id
    case AttachTail(id) => id
    case SaveRec(_) => if s.poll.Saving? then s.poll.rec.who.id else ""
    case _ => ""
  }

  lemma AttachGood(id: Id, c: Cell)
    requires CellOk(id, c) && PhaseOk(Serving, c) && c.entry.Some?
    ensures Good(id, Serving, c, AttachCell(c)) && SameBusy(c, AttachCell(c))
    ensures AttachCell(c).poll.toSave == c.poll.toSave
  {
  }

  lemma SavedGood(id: Id, c: Cell, rec: Record)
    requires CellOk(id, c) && PhaseOk(Serving, c) && SavingOk(rec, c)
    ensures Good(id, Serving, c, c.(saved := Some(rec))) && SameBusy(c, c.(saved := Some(rec)))
  {
  }

  lemma PollOneGood(s: State, a: PollAct, id: Id)
    requires Inv(s) && CanPoll(s, a) && !WholeRegistry(a) && id == PollTarget(s, a)
    ensures Good(id, s.phase, At(s, id), At(DoPoll(s, a), id)) && SameBusy(At(s, id), At(DoPoll(s, a), id))
  {
    var c := At(s, id);
    Same(id, s.phase, c);
    match a
    case AttachTail(_) => AttachGood(id, c);
    case SaveRec(ok) => SavedGood(id, c, s.poll.rec);
    case _ =>
  }

  lemma PollOneOnly(s: State, a: PollAct, id: Id)
    requires CanPoll(s, a) && !WholeRegistry(a) && id == PollTarget(s, a)
    ensures forall j :: j != id ==> At(DoPoll(s, a), j) == At(s, j)
  {
  }

  lemma PollOneOk(s: State, a: PollAct, id: Id)
    requires Inv(s) && CanPoll(s, a) && !WholeRegistry(a) && id == PollTarget(s, a)
    requires forall j :: j != id ==> At(DoPoll(s, a), j) == At(s, j)
    ensures PollOk(DoPoll(s, a))
  {
    assert CellOk(id, At(s, id));
    match a
    case PickSave(_) => assert DoPoll(s, a).poll.rec.who.id == id;
    case _ =>
  }

  lemma PollOneKeepsInv(s: State, a: PollAct)
    requires Inv(s) && CanPoll(s, a) && !WholeRegistry(a)
    ensures Inv(DoPoll(s, a)) && AllGood(s, DoPoll(s, a))
  {
    var s' := DoPoll(s, a);
    var id := PollTarget(s, a);
    PollOneGood(s, a, id);
    PollOneOnly(s, a, id);
    PollOneOk(s, a, id);
    forall j ensures Good(j, s'.phase, At(s, j), At(s', j)) && SameBusy(At(s, j), At(s', j)) {
      if j != id { Same(j, s.phase, At(s, j)); }
    }
    ThreadsKept(s, s');
  }

  lemma PollStepGood(s: State, st: Step)
    requires Inv(s) && Enabled(s, st) && st.PollStep?
    ensures Inv(Apply(s, st)) && AllGood(s, Apply(s, st))
  {
    if WholeRegistry(st.la) { PollAllGood(s, st.la); } else { PollOneKeepsInv(s, st.la); }
  }

  lemma CrashKeepsInv(s: State)
    requires forall id :: CellOk(id, At(s, id))
    ensures Inv(Downed(s))
  {
    forall j ensures CellOk(j, At(Downed(s), j)) && PhaseOk(Down, At(Downed(s), j)) && !Busy(At(Downed(s), j)) {
      assert CellOk(j, At(s, j));
    }
  }

  lemma CrashInCreateKeepsInv(s: State, a: RestartAct)
    requires Inv(s) && CanRestart(s, a) && a.CrashInCreate?
    ensures Inv(DoRestart(s, a))
  {
    var rec := Accept(a.cfg, a.req, a.now);
    var c := At(s, a.req.id);
    var s' := Put(s, a.req.id, c.(saved := Some(rec), past := c.past.(accepted := Some(rec.who))));
    forall j ensures CellOk(j, At(s', j)) {
      assert CellOk(j, At(s, j)) && PhaseOk(s.phase, At(s, j));
    }
    CrashKeepsInv(s');
  }

  lemma LoadKeepsInv(s: State, a: RestartAct)
    requires Inv(s) && CanRestart(s, a) && a.Load?
    ensures Inv(DoRestart(s, a))
  {
    var s' := DoRestart(s, a);
    assert CellOk("", At(s, ""));
    forall j ensures CellOk(j, At(s', j)) && PhaseOk(Sweeping, At(s', j)) && !Busy(At(s', j)) {
      assert CellOk(j, At(s, j)) && PhaseOk(Down, At(s, j));
    }
  }

  lemma SweepKeepsInv(s: State, a: RestartAct)
    requires Inv(s) && CanRestart(s, a) && (a.Sweep? || a.OpenForBusiness?)
    ensures Inv(DoRestart(s, a))
  {
    var s' := DoRestart(s, a);
    forall j ensures CellOk(j, At(s', j)) && PhaseOk(s'.phase, At(s', j)) && !Busy(At(s', j)) && !At(s', j).poll.toSave {
      assert CellOk(j, At(s, j)) && PhaseOk(s.phase, At(s, j));
    }
  }

  lemma RestartStepGood(s: State, st: Step)
    requires Inv(s) && Enabled(s, st) && st.RestartStep?
    ensures Inv(Apply(s, st))
  {
    match st.ra
    case Crash => CrashKeepsInv(s);
    case CrashInCreate(_, _, _) => CrashInCreateKeepsInv(s, st.ra);
    case Load(_, _) => LoadKeepsInv(s, st.ra);
    case Sweep(_, _) => SweepKeepsInv(s, st.ra);
    case OpenForBusiness => SweepKeepsInv(s, st.ra);
  }

  /** The one cell a step works on, for steps that are not the poller's or a restart. */
  function Target(s: State, st: Step): Id {
    match st
    case CreateStep(_, req, _, _) => req.id
    case ProvStep(id, _) => id
    case BeginStep(_, id, _) => id
    case OpStep(t, _) => if t in s.ops then s.ops[t].id else ""
    case ReleaseStep(t) => if t in s.ops then s.ops[t].id else ""
    case DeleteStep(_, id) => id
    case DelStep(u, _) => if u in s.dels then s.dels[u].id else ""
    case EnvStep(id, _) => id
    case _ => ""
  }

  lemma OnlyTarget(s: State, st: Step, id: Id)
    requires Enabled(s, st) && !st.PollStep? && !st.RestartStep? && id != Target(s, st)
    ensures At(Apply(s, st), id) == At(s, id)
  {
  }

  /** The cell that a step on one cell leaves. */
  ghost function TargetCell(s: State, st: Step): Cell
    requires Enabled(s, st) && !st.PollStep? && !st.RestartStep?
  {
    var c := At(s, Target(s, st));
    match st
    case CreateStep(cfg, req, now, saved) => Created(c, Accept(cfg, req, now), saved)
    case ProvStep(id, a) => ProvCell(id, c, a)
    case BeginStep(_, _, _) => SetBusy(c, true)
    case OpStep(t, a) => OpCell(s.ops[t], c, a)
    case ReleaseStep(_) => SetBusy(c, false)
    case DeleteStep(_, _) => MarkDeleting(c)
    case DelStep(_, a) => DelCell(c, a)
    case EnvStep(_, a) => EnvCell(s.phase, c, a)
  }

  lemma TargetIs(s: State, st: Step)
    requires Enabled(s, st) && !st.PollStep? && !st.RestartStep?
    ensures At(Apply(s, st), Target(s, st)) == TargetCell(s, st)
  {
  }

  /** Threads that are in both tables and were not stepped are the same. */
  lemma ThreadSource(s: State, st: Step, t: Tid)
    requires Enabled(s, st) && !st.RestartStep? && t in Apply(s, st).ops
    ensures t in s.ops || (st.BeginStep? && st.t == t)
    ensures t in s.ops && !(st.OpStep? && st.t == t) && !(st.BeginStep? && st.t == t) ==> Apply(s, st).ops[t] == s.ops[t]
  {
  }

  /** Only the poller and a restart move the poller's marks. */
  lemma OthersLeavePoller(s: State, st: Step, id: Id)
    requires Enabled(s, st) && !st.PollStep? && !st.RestartStep?
    ensures Apply(s, st).poll == s.poll && At(Apply(s, st), id).poll == At(s, id).poll
  {
    if id != Target(s, st) { OnlyTarget(s, st, id); }
  }

  /** Every step keeps the invariant, and every step but a restart leaves all other
      threads' expectations intact. */
  lemma StepKeepsInv(s: State, st: Step)
    requires Inv(s) && Enabled(s, st)
    ensures Inv(Apply(s, st))
    ensures !st.RestartStep? ==> AllGood(s, Apply(s, st))
  {
    match st
    case CreateStep(_, _, _, _) => CreateStepGood(s, st);
    case ProvStep(_, _) => ProvStepGood(s, st);
    case BeginStep(_, _, _) => BeginStepGood(s, st);
    case OpStep(_, _) => OpStepGood(s, st);
    case ReleaseStep(_) => ReleaseStepGood(s, st);
    case DeleteStep(_, _) => DeleteStepGood(s, st);
    case DelStep(_, _) => DelStepGood(s, st);
    case PollStep(_) => PollStepGood(s, st);
    case EnvStep(_, _) => EnvStepGood(s, st);
    case RestartStep(_) => RestartStepGood(s, st);
  }

  /** Every state of every history satisfies the invariant. */
  lemma {:induction false} HistoriesAreSafe(r: Run, i: nat)
    requires IsHistory(r) && i < |r.states|
    ensures Inv(r.states[i])
  {
    if i > 0 {
      HistoriesAreSafe(r, i - 1);
      StepKeepsInv(r.states[i - 1], r.steps[i - 1]);
    }
  }
}
