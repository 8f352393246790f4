/** Reaching given states step by step, for the cases that are shown by a history. */
module Witness {
  import opened Conditions
  import opened Records
  import opened Entries
  import opened Lifecycle

  ghost predicate Reached(s: State) {
    exists r: Run :: IsHistory(r) && r.states[|r.steps|] == s
  }

  lemma Extend(s: State, st: Step)
    requires Reached(s) && Enabled(s, st)
    ensures Reached(Apply(s, st))
  {
    var r: Run :| IsHistory(r) && r.states[|r.steps|] == s;
    var q := Run(r.states + [Apply(s, st)], r.steps + [st]);
    forall i | 0 <= i < |q.steps|
      ensures Enabled(q.states[i], q.steps[i]) && q.states[i + 1] == Apply(q.states[i], q.steps[i])
    {
      if i < |r.steps| { assert q.states[i] == r.states[i] && q.states[i + 1] == r.states[i + 1]; }
    }
    assert IsHistory(q);
  }

  const ID: Id := "a"

  /** The driver serving one sandbox. */
  function Serve(c: Cell, ops: map<Tid, Op>, dels: map<Tid, Del>, poll: PollPc): State {
    State(map[ID := c], ops, dels, poll, Serving)
  }

  lemma OnePut(s: State, ops: map<Tid, Op>, dels: map<Tid, Del>, poll: PollPc, c: Cell, c': Cell)
    requires s == Serve(c, ops, dels, poll)
    ensures Put(s, ID, c') == Serve(c', ops, dels, poll) && At(s, ID) == c
  {
    assert map[ID := c][ID := c'] == map[ID := c'];
  }

  lemma Provisions(c: Cell, a: ProvAct, poll: PollPc)
    requires Reached(Serve(c, map[], map[], poll)) && CanProv(c, a)
    ensures Reached(Serve(ProvCell(ID, c, a), map[], map[], poll))
  {
    var s := Serve(c, map[], map[], poll);
    OnePut(s, map[], map[], poll, c, ProvCell(ID, c, a));
    Extend(s, ProvStep(ID, a));
  }

  lemma Begins(c: Cell, kind: OpKind, poll: PollPc)
    requires Reached(Serve(c, map[], map[], poll)) && c.registered && c.entry.Some? && LifecycleRefusal(c.entry.value) == None
    ensures Reached(Serve(SetBusy(c, true), map[0 := Op(ID, kind, Invoke, false)], map[], poll))
  {
    var s, o := Serve(c, map[], map[], poll), Op(ID, kind, Invoke, false);
    OnePut(s, map[], map[], poll, c, SetBusy(c, true));
    Extend(s, BeginStep(0, ID, kind));
    assert s.ops[0 := o] == map[0 := o];
  }

  lemma Stops(c: Cell, o: Op, a: OpAct, poll: PollPc)
    requires Reached(Serve(c, map[0 := o], map[], poll)) && o.id == ID && CanOp(o, c, a)
    ensures Reached(Serve(OpCell(o, c, a), map[0 := OpThread(o, c, a)], map[], poll))
  {
    var s := Serve(c, map[0 := o], map[], poll);
    OnePut(s, map[0 := o], map[], poll, c, OpCell(o, c, a));
    Extend(s, OpStep(0, a));
    assert s.ops[0 := OpThread(o, c, a)] == map[0 := OpThread(o, c, a)];
  }

  lemma Releases(c: Cell, o: Op, poll: PollPc)
    requires Reached(Serve(c, map[0 := o], map[], poll)) && o.id == ID && o.pc.Release? && c.entry.Some?
    ensures Reached(Serve(SetBusy(c, false), map[], map[], poll))
  {
    var s := Serve(c, map[0 := o], map[], poll);
    OnePut(s, map[0 := o], map[], poll, c, SetBusy(c, false));
    Extend(s, ReleaseStep(0));
    assert s.ops - {0} == map[];
  }

  lemma Deletes(c: Cell, ops: map<Tid, Op>, d: Del, a: DelAct)
    requires Reached(Serve(c, ops, map[0 := d], Idle)) && d.id == ID && CanDel(d, c, a) && DelThread(d, a).Some?
    ensures Reached(Serve(DelCell(c, a), ops, map[0 := DelThread(d, a).value], Idle))
  {
    var s := Serve(c, ops, map[0 := d], Idle);
    OnePut(s, ops, map[0 := d], Idle, c, DelCell(c, a));
    Extend(s, DelStep(0, a));
    assert s.dels[0 := DelThread(d, a).value] == map[0 := DelThread(d, a).value];
  }

  /** A poll step and the one cell it leads to. */
  lemma Polls(c: Cell, poll: PollPc, a: PollAct, c': Cell, poll': PollPc)
    requires Reached(Serve(c, map[], map[], poll)) && CanPoll(Serve(c, map[], map[], poll), a)
    requires DoPoll(Serve(c, map[], map[], poll), a) == Serve(c', map[], map[], poll')
    ensures Reached(Serve(c', map[], map[], poll'))
  {
    Extend(Serve(c, map[], map[], poll), PollStep(a));
  }

  lemma Turns(c: Cell, a: EnvAct)
    requires Reached(Serve(c, map[], map[], Idle)) && CanEnv(Serving, c, a)
    ensures Reached(Serve(EnvCell(Serving, c, a), map[], map[], Idle))
  {
    var s := Serve(c, map[], map[], Idle);
    OnePut(s, map[], map[], Idle, c, EnvCell(Serving, c, a));
    Extend(s, EnvStep(ID, a));
  }

  function Rec(cfg: Config, req: Request): Record
    requires req.id == ID
  {
    Accept(cfg, req, 0)
  }

  /** A sandbox whose VM has booted and whose provisioning is over. */
  function Up(rec: Record): Cell {
    Cell(Some(Entry(rec, READY_CONDITION, false, false, Finished)), true, Some(rec), Some(Vm(true, true, ID)), None, NO_MARK,
         Clean, Past(Some(rec.who), false, false, false))
  }

  lemma Opened()
    ensures Reached(State(map[], map[], map[], Idle, Serving))
  {
    assert IsHistory(Run([INITIAL], []));
    Extend(INITIAL, RestartStep(Load({}, {})));
    var s1 := Apply(INITIAL, RestartStep(Load({}, {})));
    assert s1.cells == map[];
    Extend(s1, RestartStep(OpenForBusiness));
  }

  lemma Accepted(cfg: Config, req: Request)
    requires req.id == ID
    ensures Reached(Serve(Created(BLANK, Rec(cfg, req), true), map[], map[], Idle))
  {
    var s := State(map[], map[], map[], Idle, Serving);
    Opened();
    assert ValidId(ID);
    Extend(s, CreateStep(cfg, req, 0, true));
    var c := Created(BLANK, Rec(cfg, req), true);
    assert s.cells[ID := c] == map[ID := c];
  }

  lemma Booted(cfg: Config, req: Request)
    requires req.id == ID
    ensures Reached(Serve(Up(Rec(cfg, req)), map[], map[], Idle))
  {
    Accepted(cfg, req);
    var c0 := Created(BLANK, Rec(cfg, req), true);
    Provisions(c0, SkipPin, Idle);
    var c1 := ProvCell(ID, c0, SkipPin);
    Provisions(c1, Prepared, Idle);
    var c2 := ProvCell(ID, c1, Prepared);
    Provisions(c2, Cleared, Idle);
    var c3 := ProvCell(ID, c2, Cleared);
    Provisions(c3, NotCancelled, Idle);
    var c4 := ProvCell(ID, c3, NotCancelled);
    Provisions(c4, Boots, Idle);
    var c5 := ProvCell(ID, c4, Boots);
    Provisions(c5, ReportReady, Idle);
    var c6 := ProvCell(ID, c5, ReportReady);
    Provisions(c6, CloseDone, Idle);
    assert ProvCell(ID, c6, CloseDone) == Up(Rec(cfg, req));
  }
}
