/** Watch streams over the hub: a watcher subscribes, then takes its opening snapshot,
    while any number of threads change the registry and publish what they changed.
    One step is one critical section of the registry lock or of the hub. */
module Watch {
  import opened Records
  import opened Entries
  import H = Hub

  type Tid = nat
  type Wid = nat

  /** An entry in the registry's history; `registered` is false after its removal. */
  datatype Seen = Seen(phase: string, registered: bool)

  /** A snapshot shows the entry's phase, whether or not the entry is still registered. */
  datatype Body = Sandbox(phase: string) | Deleted

  /** `asOf` is the registry version the event was taken from. */
  datatype Event = Event(id: Id, body: Body, asOf: nat)

  /** A thread between a registry change and its publish. */
  datatype Publisher = Publisher(id: Id, change: nat, event: Option<Event>)

  /** A published event together with the change that caused it. */
  datatype Publication = Publication(event: Event, change: nat)

  /** A watcher's queue and reading history hold positions in the publish log. */
  datatype Watcher = Watcher(
    since: nat,             // length of the publish log at subscription
    opening: Option<nat>,   // registry version of the opening snapshot
    received: seq<nat>,
    queue: seq<nat>,
    dropped: set<nat>)

  /** `versions[v]` is the registry after its v-th change, and `movers[v]` the sandbox that
      changed then. */
  datatype State = State(
    versions: seq<map<Id, Seen>>,
    movers: seq<Id>,
    published: seq<Publication>,
    publishers: map<Tid, Publisher>,
    watchers: map<Wid, Watcher>)

  const INITIAL := State([map[]], [""], [], map[], map[])

  function Now(s: State): nat
    requires |s.versions| > 0
  {
    |s.versions| - 1
  }

  datatype Step =
    | Change(t: Tid, id: Id, phase: string)
    | Remove(t: Tid, id: Id)          // unregister; its deletion event needs no snapshot
    | TakeSnapshot(t: Tid)
    | Publish(t: Tid)
    | Subscribe(w: Wid)
    | OpeningSnapshot(w: Wid)
    | Receive(w: Wid)
    | Unsubscribe(w: Wid)

  predicate Enabled(s: State, st: Step) {
    && |s.versions| > 0
    && match st
       case Change(t, _, _) => t !in s.publishers
       case Remove(t, id) => t !in s.publishers && id in s.versions[Now(s)]
       case TakeSnapshot(t) =>
         t in s.publishers && s.publishers[t].event.None? && s.publishers[t].id in s.versions[Now(s)]
       case Publish(t) => t in s.publishers && s.publishers[t].event.Some?
       case Subscribe(w) => w !in s.watchers
       case OpeningSnapshot(w) => w in s.watchers && s.watchers[w].opening.None?
       case Receive(w) => w in s.watchers && s.watchers[w].opening.Some? && s.watchers[w].queue != []
       case Unsubscribe(w) => w in s.watchers
  }

  function Offer(w: Watcher, p: nat): Watcher {
    w.(queue := H.Enqueue(w.queue, p), dropped := if |w.queue| < H.WATCH_BUFFER then w.dropped else w.dropped + {p})
  }

  /** A change registers a new sandbox; of a removed one it only changes the entry that
      somebody still holds. */
  predicate StillThere(s: State, id: Id)
    requires |s.versions| > 0
  {
    id in s.versions[Now(s)] ==> s.versions[Now(s)][id].registered
  }

  function Apply(s: State, st: Step): State
    requires Enabled(s, st)
  {
    match st
    case Change(t, id, phase) =>
      s.(versions := s.versions + [s.versions[Now(s)][id := Seen(phase, StillThere(s, id))]],
         movers := s.movers + [id],
         publishers := s.publishers[t := Publisher(id, |s.versions|, None)])
    case Remove(t, id) =>
      s.(versions := s.versions + [s.versions[Now(s)][id := s.versions[Now(s)][id].(registered := false)]],
         movers := s.movers + [id],
         publishers := s.publishers[t := Publisher(id, |s.versions|, Some(Event(id, Deleted, |s.versions|)))])
    case TakeSnapshot(t) =>
      var p := s.publishers[t];
      s.(publishers := s.publishers[t := p.(event := Some(Event(p.id, Sandbox(s.versions[Now(s)][p.id].phase), Now(s))))])
    case Publish(t) =>
      var p := s.publishers[t];
      s.(published := s.published + [Publication(p.event.value, p.change)],
         publishers := s.publishers - {t},
         watchers := map w | w in s.watchers :: Offer(s.watchers[w], |s.published|))
    case Subscribe(w) => s.(watchers := s.watchers[w := Watcher(|s.published|, None, [], [], {})])
    case OpeningSnapshot(w) => s.(watchers := s.watchers[w := s.watchers[w].(opening := Some(Now(s)))])
    case Receive(w) =>
      var x := s.watchers[w];
      s.(watchers := s.watchers[w := x.(received := x.received + [x.queue[0]], queue := x.queue[1..])])
    case Unsubscribe(w) => s.(watchers := s.watchers - {w})
  }

  /** Everything the watcher's channel ever carried, in order. */
  function Stream(w: Watcher): seq<nat> {
    w.received + w.queue
  }

  ghost predicate Increasing(q: seq<nat>) {
    forall i, j :: 0 <= i < j < |q| ==> q[i] < q[j]
  }

  ghost predicate WatcherOk(w: Watcher, published: seq<Publication>) {
    && w.since <= |published| && |w.queue| <= H.WATCH_BUFFER
    && Increasing(Stream(w))
    && (forall i :: 0 <= i < |Stream(w)| ==> w.since <= Stream(w)[i] < |published|)
    && (forall p :: w.since <= p < |published| ==> p in Stream(w) || p in w.dropped)
    && (w.opening.Some? ==> forall p :: 0 <= p < w.since ==> published[p].change <= w.opening.value)
  }

  /** An event shows a registry version at or after the change that caused it. */
  ghost predicate Truthful(s: State, e: Event, id: Id, change: nat) {
    && e.id == id && change <= e.asOf < |s.versions| && id in s.versions[e.asOf]
    && match e.body
       case Sandbox(phase) => phase == s.versions[e.asOf][id].phase
       case Deleted => e.asOf == change && !s.versions[change][id].registered
  }

  ghost predicate EventsOk(s: State) {
    && (forall p :: 0 <= p < |s.published| ==>
          Truthful(s, s.published[p].event, s.published[p].event.id, s.published[p].change))
    && (forall t :: t in s.publishers ==>
          && s.publishers[t].change < |s.versions|
          && (s.publishers[t].event.Some? ==>
                Truthful(s, s.publishers[t].event.value, s.publishers[t].id, s.publishers[t].change)))
  }

  ghost predicate WatchersOk(s: State) {
    forall w :: w in s.watchers ==> WatcherOk(s.watchers[w], s.published)
  }

  ghost predicate Inv(s: State) {
    |s.versions| > 0 && EventsOk(s) && WatchersOk(s)
  }

  lemma OfferOk(w: Watcher, published: seq<Publication>, x: Publication)
    requires WatcherOk(w, published)
    ensures WatcherOk(Offer(w, |published|), published + [x])
  {
    var w' := Offer(w, |published|);
    if |w.queue| < H.WATCH_BUFFER {
      assert Stream(w') == Stream(w) + [|published|];
    } else {
      assert Stream(w') == Stream(w);
    }
  }

  lemma ReceiveOk(w: Watcher, published: seq<Publication>)
    requires WatcherOk(w, published) && w.queue != []
    ensures WatcherOk(w.(received := w.received + [w.queue[0]], queue := w.queue[1..]), published)
  {
    assert Stream(w.(received := w.received + [w.queue[0]], queue := w.queue[1..])) == Stream(w);
  }

  lemma EventsKept(s: State, st: Step)
    requires Inv(s) && Enabled(s, st)
    ensures EventsOk(Apply(s, st))
  {
  }

  lemma WatchersKept(s: State, st: Step)
    requires Inv(s) && Enabled(s, st)
    ensures WatchersOk(Apply(s, st))
  {
    match st
    case Publish(t) =>
      forall w | w in s.watchers ensures WatcherOk(Apply(s, st).watchers[w], Apply(s, st).published) {
        OfferOk(s.watchers[w], s.published, Publication(s.publishers[t].event.value, s.publishers[t].change));
      }
    case Receive(w) => ReceiveOk(s.watchers[w], s.published);
    case _ =>
  }

  lemma StepKeepsInv(s: State, st: Step)
    requires Inv(s) && Enabled(s, st)
    ensures Inv(Apply(s, st))
  {
    EventsKept(s, st);
    WatchersKept(s, st);
  }

  datatype Run = Run(states: seq<State>, steps: seq<Step>)

  ghost predicate IsHistory(r: Run) {
    && |r.states| == |r.steps| + 1 && r.states[0] == INITIAL
    && forall i :: 0 <= i < |r.steps| ==> Enabled(r.states[i], r.steps[i]) && r.states[i + 1] == Apply(r.states[i], r.steps[i])
  }

  lemma {:induction false} HistoriesAreSafe(r: Run, i: nat)
    requires IsHistory(r) && i < |r.states|
    ensures Inv(r.states[i])
  {
    if i > 0 {
      HistoriesAreSafe(r, i - 1);
      StepKeepsInv(r.states[i - 1], r.steps[i - 1]);
    }
  }

  /** No transition is lost.  For every watcher that has its opening snapshot and
      every published change: either the opening snapshot is of a version that already
      contains the change, or the event, which shows a version at or after the change,
      is in the watcher's stream or was dropped; and the stream is in publish order. */
  lemma NoLostTransition(r: Run, i: nat, w: Wid, p: nat)
    requires IsHistory(r) && i < |r.states|
    requires w in r.states[i].watchers && r.states[i].watchers[w].opening.Some? && p < |r.states[i].published|
    ensures var s := r.states[i];
            var x := s.watchers[w];
            var b := s.published[p];
            && (b.change <= x.opening.value || p in Stream(x) || p in x.dropped)
            && Truthful(s, b.event, b.event.id, b.change)
            && Increasing(Stream(x)) && (forall q :: q in Stream(x) ==> x.since <= q < |s.published|)
  {
    HistoriesAreSafe(r, i);
  }

  /** An event is dropped for a watcher only by a publish that found 128 queued. */
  lemma DropsOnlyWhenFull(s: State, st: Step, w: Wid, p: nat)
    requires Inv(s) && Enabled(s, st) && w in Apply(s, st).watchers && p in Apply(s, st).watchers[w].dropped
    requires w in s.watchers ==> p !in s.watchers[w].dropped
    ensures st.Publish? && p == |s.published| && |s.watchers[w].queue| == H.WATCH_BUFFER
  {
  }

  ghost predicate Reached(s: State) {
    exists r: Run :: IsHistory(r) && r.states[|r.steps|] == s
  }

  lemma Extend(s: State, st: Step)
    requires Reached(s) && Enabled(s, st)
    ensures Reached(Apply(s, st))
  {
    var r: Run :| IsHistory(r) && r.states[|r.steps|] == s;
    var q := Run(r.states + [Apply(s, st)], r.steps + [st]);
    forall i | 0 <= i < |q.steps|
      ensures Enabled(q.states[i], q.steps[i]) && q.states[i + 1] == Apply(q.states[i], q.steps[i])
    {
      if i < |r.steps| { assert q.states[i] == r.states[i] && q.states[i + 1] == r.states[i + 1]; }
    }
    assert IsHistory(q);
  }

  const V1: map<Id, Seen> := map["a" := Seen("Ready", true)]
  const V2: map<Id, Seen> := map["a" := Seen("Stopped", true)]
  const OPENED: map<Wid, Watcher> := map[0 := Watcher(0, Some(0), [], [], {})]
  const SLOW := Publisher("a", 1, Some(Event("a", Sandbox("Ready"), 1)))
  const FAST := Publisher("a", 2, Some(Event("a", Sandbox("Stopped"), 2)))

  /** Two threads have each changed the sandbox and taken their snapshot. */
  const RACING := State([map[], V1, V2], ["", "a", "a"], [], map[1 := SLOW, 2 := FAST], OPENED)

  lemma ExtendTo(s: State, st: Step, s': State)
    requires Reached(s) && Enabled(s, st)
    requires var x := Apply(s, st);
             x.versions == s'.versions && x.movers == s'.movers && x.published == s'.published && x.publishers == s'.publishers && x.watchers == s'.watchers
    ensures Reached(s')
  {
    Extend(s, st);
  }

  const ONE_TAKEN := State([map[], V1], ["", "a"], [], map[1 := SLOW], OPENED)

  lemma OneSnapshotTaken()
    ensures Reached(ONE_TAKEN)
  {
    assert IsHistory(Run([INITIAL], []));
    var b := State([map[]], [""], [], map[], map[0 := Watcher(0, None, [], [], {})]);
    ExtendTo(INITIAL, Subscribe(0), b);
    var c := State([map[]], [""], [], map[], OPENED);
    ExtendTo(b, OpeningSnapshot(0), c);
    var d := State([map[], V1], ["", "a"], [], map[1 := Publisher("a", 1, None)], OPENED);
    ExtendTo(c, Change(1, "a", "Ready"), d);
    ExtendTo(d, TakeSnapshot(1), ONE_TAKEN);
  }

  lemma RacingIsReached()
    ensures Reached(RACING)
  {
    OneSnapshotTaken();
    var f := State([map[], V1, V2], ["", "a", "a"], [], map[1 := SLOW, 2 := Publisher("a", 2, None)], OPENED);
    assert V1["a" := Seen("Stopped", true)] == V2;
    ExtendTo(ONE_TAKEN, Change(2, "a", "Stopped"), f);
    ExtendTo(f, TakeSnapshot(2), RACING);
  }

  /** Taking a snapshot and publishing it are two steps, so two changes of one sandbox
      can be published in the other order: a watcher that missed nothing then ends up
      with an event that shows the older state. */
  lemma LastEventMayBeStale()
    ensures exists s :: Reached(s) && Stale(s, 0, "a")
  {
    RacingIsReached();
    var pub2 := Publication(FAST.event.value, 2);
    var h := State(RACING.versions, RACING.movers, [pub2], map[1 := SLOW], map[0 := Watcher(0, Some(0), [], [0], {})]);
    assert Offer(OPENED[0], 0) == h.watchers[0];
    ExtendTo(RACING, Publish(2), h);
    var k := State(RACING.versions, RACING.movers, [pub2, Publication(SLOW.event.value, 1)], map[], map[0 := Watcher(0, Some(0), [], [0, 1], {})]);
    assert Offer(h.watchers[0], 1) == k.watchers[0];
    ExtendTo(h, Publish(1), k);
    assert Stream(k.watchers[0]) == [0, 1];
    assert Stale(k, 0, "a");
  }

  /** All publishers are done, the watcher dropped nothing, and yet the last event it
      got for the sandbox does not show the current version. */
  ghost predicate Stale(s: State, w: Wid, id: Id) {
    && s.publishers == map[] && w in s.watchers && s.watchers[w].dropped == {} && Stream(s.watchers[w]) != []
    && |s.versions| > 0 && id in s.versions[Now(s)]
    && var q := Stream(s.watchers[w]);
    && q[|q| - 1] < |s.published|
    && s.published[q[|q| - 1]].event.id == id
    && s.published[q[|q| - 1]].event.body != Sandbox(s.versions[Now(s)][id].phase)
  }
}
