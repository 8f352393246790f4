/** Exactly when the last event of a sandbox is up to date. */
module WatchOrder {
  import opened Records
  import opened Entries
  import opened Watch

  // --------------------------------------------------- every change is accounted for

  /** Someone is about to publish the change of version `v`, or has published it. */
  ghost predicate Carried(s: State, v: nat)
    requires v < |s.movers|
  {
    || (exists t :: t in s.publishers && s.publishers[t].id == s.movers[v] && s.publishers[t].change == v)
    || (exists p :: 0 <= p < |s.published| && s.published[p].event.id == s.movers[v] && s.published[p].change == v)
  }

  ghost predicate Accounted(s: State) {
    && |s.movers| == |s.versions|
    && (forall v :: 0 < v < |s.versions| ==> Carried(s, v))
  }

  /** A change is of the sandbox it is published for, and moves no other. */
  ghost predicate Attributed(s: State) {
    && |s.movers| == |s.versions| > 0
    && (forall t :: t in s.publishers ==>
          0 < s.publishers[t].change < |s.movers| && s.movers[s.publishers[t].change] == s.publishers[t].id
          && (s.publishers[t].event.Some? ==> s.publishers[t].event.value.id == s.publishers[t].id))
    && (forall p :: 0 <= p < |s.published| ==>
          0 < s.published[p].change < |s.movers| && s.movers[s.published[p].change] == s.published[p].event.id)
  }

  /** Only `id` differs, and nothing is forgotten. */
  ghost predicate Moves(a: map<Id, Seen>, b: map<Id, Seen>, id: Id) {
    && (forall j :: j != id ==> (j in a <==> j in b) && (j in a ==> a[j] == b[j]))
    && (id in a ==> id in b)
  }

  ghost predicate MovesAt(s: State, v: nat)
    requires 0 < v < |s.versions| == |s.movers|
  {
    Moves(s.versions[v - 1], s.versions[v], s.movers[v])
  }

  ghost predicate OneMoves(s: State) {
    |s.movers| == |s.versions| && forall v :: 0 < v < |s.versions| ==> MovesAt(s, v)
  }

  lemma AttributedStep(s: State, st: Step)
    requires Attributed(s) && Enabled(s, st)
    ensures Attributed(Apply(s, st))
  {
  }

  lemma OneMovesStep(s: State, st: Step)
    requires OneMoves(s) && Enabled(s, st)
    ensures OneMoves(Apply(s, st))
  {
    var s' := Apply(s, st);
    forall v | 0 < v < |s'.versions| ensures MovesAt(s', v) {
      if v < |s.versions| { assert MovesAt(s, v); }
    }
  }

  lemma PublishCarries(s: State, t: Tid, v: nat)
    requires Attributed(s) && Enabled(s, Publish(t)) && v < |s.movers| && Carried(s, v)
    ensures Carried(Apply(s, Publish(t)), v)
  {
    var s' := Apply(s, Publish(t));
    if p :| 0 <= p < |s.published| && s.published[p].event.id == s.movers[v] && s.published[p].change == v {
      assert s'.published[p] == s.published[p];
    } else {
      var u :| u in s.publishers && s.publishers[u].id == s.movers[v] && s.publishers[u].change == v;
      if u == t { assert s'.published[|s.published|].change == v; } else { assert u in s'.publishers; }
    }
  }

  lemma OthersCarry(s: State, st: Step, v: nat)
    requires Attributed(s) && Enabled(s, st) && !st.Publish? && v < |s.movers| && Carried(s, v)
    ensures Carried(Apply(s, st), v)
  {
    var s' := Apply(s, st);
    assert s'.movers[v] == s.movers[v] && s'.published == s.published;
    if u :| u in s.publishers && s.publishers[u].id == s.movers[v] && s.publishers[u].change == v {
      assert u in s'.publishers && s'.publishers[u].id == s.movers[v] && s'.publishers[u].change == v;
    }
  }

  lemma NewestCarried(s: State, st: Step)
    requires Attributed(s) && Enabled(s, st) && (st.Change? || st.Remove?)
    ensures Carried(Apply(s, st), |s.movers|)
  {
    var s' := Apply(s, st);
    assert st.t in s'.publishers && s'.publishers[st.t].change == |s.movers|;
  }

  lemma AccountedStep(s: State, st: Step)
    requires Attributed(s) && Accounted(s) && Enabled(s, st)
    ensures Accounted(Apply(s, st))
  {
    var s' := Apply(s, st);
    forall v | 0 < v < |s'.versions| ensures Carried(s', v) {
      if v == |s.versions| {
        NewestCarried(s, st);
      } else if st.Publish? {
        PublishCarries(s, st.t, v);
      } else {
        OthersCarry(s, st, v);
      }
    }
  }

  lemma {:induction false} HistoriesAccount(r: Run, i: nat)
    requires IsHistory(r) && i < |r.states|
    ensures Accounted(r.states[i]) && Attributed(r.states[i]) && OneMoves(r.states[i])
  {
    if i > 0 {
      HistoriesAccount(r, i - 1);
      var s, st := r.states[i - 1], r.steps[i - 1];
      assert Enabled(s, st) && r.states[i] == Apply(s, st);
      AccountedStep(s, st);
      AttributedStep(s, st);
      OneMovesStep(s, st);
    }
  }

  // ------------------------------------------------------------------ the condition

  /** What the publisher could check when it publishes: nothing published before for this
      sandbox carries a change that its own snapshot does not show. */
  ghost predicate InOrder(s: State, t: Tid)
    requires Enabled(s, Publish(t))
  {
    forall q :: 0 <= q < |s.published| && s.published[q].event.id == s.publishers[t].id ==>
      s.published[q].change <= s.publishers[t].event.value.asOf
  }

  /** The sandbox has not changed since version `v`. */
  predicate UnmovedSince(s: State, id: Id, v: nat) {
    forall w :: v < w < |s.movers| ==> s.movers[w] != id
  }

  lemma {:induction false} PublishedGrows(r: Run, k: nat, i: nat)
    requires IsHistory(r) && k <= i < |r.states|
    ensures r.states[k].published <= r.states[i].published
    decreases i
  {
    if k < i {
      PublishedGrows(r, k, i - 1);
      var s, st := r.states[i - 1], r.steps[i - 1];
      assert Enabled(s, st) && r.states[i] == Apply(s, st);
      assert s.published <= Apply(s, st).published;
    }
  }

  /** No other thread is between a change of the sandbox and its publish, and nothing was
      published for it after position `p`. */
  ghost predicate Quiet(s: State, id: Id, p: nat) {
    && (forall t :: t in s.publishers ==> s.publishers[t].id != id)
    && (forall q :: p < q < |s.published| ==> s.published[q].event.id != id)
  }

  lemma UnmovedIffNothingNewer(s: State, p: nat)
    requires Accounted(s) && Attributed(s) && p < |s.published| && Quiet(s, s.published[p].event.id, p)
    requires s.published[p].change <= s.published[p].event.asOf
    ensures UnmovedSince(s, s.published[p].event.id, s.published[p].event.asOf) <==>
            forall q :: 0 <= q < p && s.published[q].event.id == s.published[p].event.id ==>
              s.published[q].change <= s.published[p].event.asOf
  {
    var e := s.published[p].event;
    if !UnmovedSince(s, e.id, e.asOf) {
      var w :| e.asOf < w < |s.movers| && s.movers[w] == e.id;
      assert Carried(s, w);
      var q :| 0 <= q < |s.published| && s.published[q].event.id == e.id && s.published[q].change == w;
      assert q < p;
    }
    if q :| 0 <= q < p && s.published[q].event.id == e.id && s.published[q].change > e.asOf {
      assert s.movers[s.published[q].change] == e.id;
    }
  }

  /** When the last event of a sandbox has been published and no thread is about to publish
      another, the event was taken at or after the sandbox's last change if and only if it
      was published in order. */
  lemma LastEventIsLatestIff(r: Run, k: nat, i: nat, t: Tid)
    requires IsHistory(r) && k < i < |r.states| && r.steps[k] == Publish(t)
    requires Enabled(r.states[k], Publish(t))
    requires Quiet(r.states[i], r.states[k].publishers[t].id, |r.states[k].published|)
    ensures var e := r.states[k].publishers[t].event.value;
            UnmovedSince(r.states[i], e.id, e.asOf) <==> InOrder(r.states[k], t)
  {
    var s, s' := r.states[k], r.states[i];
    var p := |s.published|;
    HistoriesAccount(r, k);
    HistoriesAccount(r, i);
    HistoriesAreSafe(r, i);
    PublishedGrows(r, k + 1, i);
    assert r.states[k + 1] == Apply(s, Publish(t));
    assert s'.published[p] == r.states[k + 1].published[p] == Publication(s.publishers[t].event.value, s.publishers[t].change);
    assert forall q :: 0 <= q < p ==> s'.published[q] == r.states[k + 1].published[q] == s.published[q];
    assert Truthful(s', s'.published[p].event, s'.published[p].event.id, s'.published[p].change);
    UnmovedIffNothingNewer(s', p);
  }

  // ------------------------------------------------------------------------- values

  lemma {:induction false} UnmovedIsUnchanged(s: State, id: Id, v: nat, w: nat)
    requires OneMoves(s) && v <= w < |s.versions| && id in s.versions[v]
    requires forall x :: v < x <= w ==> s.movers[x] != id
    ensures id in s.versions[w] && s.versions[w][id] == s.versions[v][id]
    decreases w
  {
    if v < w {
      UnmovedIsUnchanged(s, id, v, w - 1);
      assert MovesAt(s, w);
    }
  }

  /** The event shows the sandbox as it is now: present with its phase, or removed. */
  predicate ShowsNow(s: State, e: Event) {
    && |s.versions| > 0 && e.id in s.versions[Now(s)]
    && match e.body
       case Sandbox(phase) => s.versions[Now(s)][e.id] == Seen(phase, true)
       case Deleted => !s.versions[Now(s)][e.id].registered
  }

  /** The sandbox was still registered when the event's snapshot was taken. */
  predicate TakenInTime(s: State, e: Event) {
    e.body.Deleted? || (e.asOf < |s.versions| && e.id in s.versions[e.asOf] && s.versions[e.asOf][e.id].registered)
  }

  /** An in-order last event shows the sandbox as it is now if and only if it is the deletion
      or its snapshot was taken while the sandbox was still registered. */
  lemma InOrderShowsNowIff(r: Run, k: nat, i: nat, t: Tid)
    requires IsHistory(r) && k < i < |r.states| && r.steps[k] == Publish(t)
    requires Enabled(r.states[k], Publish(t)) && InOrder(r.states[k], t)
    requires Quiet(r.states[i], r.states[k].publishers[t].id, |r.states[k].published|)
    ensures var s, e := r.states[i], r.states[k].publishers[t].event.value; ShowsNow(s, e) <==> TakenInTime(s, e)
  {
    var s, e := r.states[i], r.states[k].publishers[t].event.value;
    LastEventIsLatestIff(r, k, i, t);
    HistoriesAccount(r, i);
    LastEventIsTruthful(r, k, i, t);
    UnmovedIsUnchanged(s, e.id, e.asOf, Now(s));
  }

  /** A last event published out of order predates a change of its sandbox, and shows the
      sandbox as it is now only if later changes happen to have restored what it shows. */
  lemma OvertakenIsOld(r: Run, k: nat, i: nat, t: Tid)
    requires IsHistory(r) && k < i < |r.states| && r.steps[k] == Publish(t)
    requires Enabled(r.states[k], Publish(t)) && !InOrder(r.states[k], t)
    requires Quiet(r.states[i], r.states[k].publishers[t].id, |r.states[k].published|)
    ensures var s, e := r.states[i], r.states[k].publishers[t].event.value;
      && e.asOf < |s.versions| && e.id in s.versions[e.asOf] && e.id in s.versions[Now(s)]
      && (exists v :: e.asOf < v < |s.movers| && s.movers[v] == e.id)
      && (e.body.Sandbox? ==> (ShowsNow(s, e) <==> s.versions[Now(s)][e.id] == Seen(s.versions[e.asOf][e.id].phase, true)))
  {
    var s, e := r.states[i], r.states[k].publishers[t].event.value;
    LastEventIsLatestIff(r, k, i, t);
    HistoriesAccount(r, i);
    LastEventIsTruthful(r, k, i, t);
    StaysKnown(s, e.id, e.asOf, Now(s));
  }

  lemma LastEventIsTruthful(r: Run, k: nat, i: nat, t: Tid)
    requires IsHistory(r) && k < i < |r.states| && r.steps[k] == Publish(t) && Enabled(r.states[k], Publish(t))
    ensures var e := r.states[k].publishers[t].event.value; Truthful(r.states[i], e, e.id, r.states[k].publishers[t].change)
  {
    HistoriesAccount(r, k);
    HistoriesAreSafe(r, i);
    PublishedGrows(r, k + 1, i);
    assert r.states[k + 1] == Apply(r.states[k], Publish(t));
    var p := |r.states[k].published|;
    assert r.states[i].published[p] == r.states[k + 1].published[p];
    assert Truthful(r.states[i], r.states[i].published[p].event, r.states[i].published[p].event.id, r.states[i].published[p].change);
  }

  lemma {:induction false} StaysKnown(s: State, id: Id, v: nat, w: nat)
    requires OneMoves(s) && v <= w < |s.versions| && id in s.versions[v]
    ensures id in s.versions[w]
    decreases w
  {
    if v < w {
      StaysKnown(s, id, v, w - 1);
      assert MovesAt(s, w);
    }
  }

  /** A watcher that dropped nothing ends, for each sandbox, on the last event published for
      it since the watcher subscribed. */
  lemma WatcherEndsOnLast(r: Run, i: nat, w: Wid, p: nat)
    requires IsHistory(r) && i < |r.states| && w in r.states[i].watchers
    requires var s := r.states[i];
             var x := s.watchers[w];
             x.dropped == {} && x.since <= p < |s.published| && forall q :: p < q < |s.published| ==> s.published[q].event.id != s.published[p].event.id
    ensures var s := r.states[i];
            var x := s.watchers[w];
            p in Stream(x) && forall q :: q in Stream(x) && q < |s.published| && s.published[q].event.id == s.published[p].event.id ==> q <= p
  {
    HistoriesAreSafe(r, i);
    assert WatcherOk(r.states[i].watchers[w], r.states[i].published);
  }

  // --------------------------------------------- a snapshot taken after the removal

  const PRESENT: map<Id, Seen> := map["a" := Seen("Ready", true)]
  const REMOVED: map<Id, Seen> := map["a" := Seen("Ready", false)]
  const GONE := Event("a", Deleted, 2)
  const LATE := Event("a", Sandbox("Ready"), 2)
  const VERSIONS: seq<map<Id, Seen>> := [map[], PRESENT, REMOVED]
  const MOVERS: seq<Id> := ["", "a", "a"]

  /** One thread has changed the sandbox and not yet taken its snapshot; another has removed
      it and published the deletion. */
  const DELETED_FIRST := State(VERSIONS, MOVERS, [Publication(GONE, 2)], map[1 := Publisher("a", 1, None)],
                               map[0 := Watcher(0, Some(0), [], [0], {})])

  lemma DeletedFirstIsReached()
    ensures Reached(DELETED_FIRST)
  {
    assert IsHistory(Run([INITIAL], []));
    var b := State([map[]], [""], [], map[], map[0 := Watcher(0, None, [], [], {})]);
    ExtendTo(INITIAL, Subscribe(0), b);
    var c := State([map[]], [""], [], map[], OPENED);
    ExtendTo(b, OpeningSnapshot(0), c);
    var d := State([map[], PRESENT], ["", "a"], [], map[1 := Publisher("a", 1, None)], OPENED);
    ExtendTo(c, Change(1, "a", "Ready"), d);
    var e := State(VERSIONS, MOVERS, [], map[1 := Publisher("a", 1, None), 2 := Publisher("a", 2, Some(GONE))], OPENED);
    assert PRESENT["a" := Seen("Ready", false)] == REMOVED;
    ExtendTo(d, Remove(2, "a"), e);
    assert Offer(OPENED[0], 0) == DELETED_FIRST.watchers[0];
    ExtendTo(e, Publish(2), DELETED_FIRST);
  }

  /** All publishers are done and the watcher dropped nothing; the last event it got was
      published in order, and shows a sandbox that no longer exists. */
  ghost predicate ShowsTheGone(s: State, s': State) {
    && Reached(s) && Enabled(s, Publish(1)) && InOrder(s, 1) && s' == Apply(s, Publish(1))
    && s'.publishers == map[] && 0 in s'.watchers && s'.watchers[0].dropped == {} && Stream(s'.watchers[0]) == [0, 1]
    && |s'.published| == 2 && !ShowsNow(s', s'.published[1].event)
  }

  /** A thread that changed an entry can take its snapshot after a delete has unregistered the
      entry and published the deletion: the watcher ends on a sandbox that is gone. */
  lemma RemovedSandboxIsShown()
    ensures exists s, s' :: ShowsTheGone(s, s')
  {
    DeletedFirstIsReached();
    var s := State(VERSIONS, MOVERS, [Publication(GONE, 2)], map[1 := Publisher("a", 1, Some(LATE))], DELETED_FIRST.watchers);
    ExtendTo(DELETED_FIRST, TakeSnapshot(1), s);
    var s' := Apply(s, Publish(1));
    assert Offer(s.watchers[0], 1) == Watcher(0, Some(0), [], [0, 1], {});
    assert s'.watchers == map[0 := Watcher(0, Some(0), [], [0, 1], {})];
    assert s'.published[1] == Publication(LATE, 1) && s'.versions == VERSIONS;
    assert ShowsTheGone(s, s');
  }
}
