/** The bounded fan-out of watch events. */
module Hub {

  const WATCH_BUFFER: nat := 128

  /** A subscriber's channel: a bounded queue that may be closed once. */
  class Channel<T> {
    var queue: seq<T>
    var closed: bool

    constructor ()
      ensures queue == [] && !closed
    {
      queue, closed := [], false;
    }

    /** A non-blocking send; sending on a closed channel would panic. */
    method TrySend(ev: T) returns (sent: bool)
      requires !closed
      modifies this
      ensures sent == (|old(queue)| < WATCH_BUFFER) && closed == old(closed)
      ensures queue == (if sent then old(queue) + [ev] else old(queue)) == Enqueue(old(queue), ev)
    {
      sent := |queue| < WATCH_BUFFER;
      if sent { queue := queue + [ev]; }
    }
  }

  /** A bounded queue after an event is offered to it: a full queue drops it. */
  function Enqueue<T>(queue: seq<T>, ev: T): seq<T> {
    if |queue| < WATCH_BUFFER then queue + [ev] else queue
  }

  /** What every subscriber's queue holds after one event is offered to it. */
  function Offered<T>(queues: map<nat, seq<T>>, ev: T): map<nat, seq<T>> {
    map w | w in queues :: Enqueue(queues[w], ev)
  }

  class Hub<T> {
    var subs: map<nat, Channel<T>>
    var next: nat

    /** Subscribers have channels of their own, none of them closed, and no id that
        will be handed out is in use. */
    ghost predicate Valid()
      reads this, subs.Values
    {
      && (forall v, w :: v in subs && w in subs && v != w ==> subs[v] != subs[w])
      && (forall w :: w in subs ==> w < next && !subs[w].closed)
    }

    ghost function Queues(): map<nat, seq<T>>
      reads this, subs.Values
    {
      map w | w in subs :: subs[w].queue
    }

    constructor ()
      ensures Valid() && Queues() == map[]
    {
      subs, next := map[], 0;
    }

    method Subscribe() returns (id: nat, ch: Channel<T>)
      requires Valid()
      modifies this
      ensures Valid() && fresh(ch) && id !in old(subs)
      ensures subs == old(subs)[id := ch] && Queues() == old(Queues())[id := []]
    {
      id := next;
      next := next + 1;
      ch := new Channel<T>();
      subs := subs[id := ch];
    }

    /** Removes and closes the channel; a second call is harmless. */
    method Unsubscribe(id: nat)
      requires Valid()
      modifies this, subs.Values
      ensures Valid() && subs == old(subs) - {id}
      ensures Queues() == old(Queues()) - {id}
      ensures id in old(subs) ==> old(subs)[id].closed && old(subs)[id].queue == old(subs[id].queue)
    {
      if id in subs {
        var ch := subs[id];
        subs := subs - {id};
        ch.closed := true;
      }
    }

    /** Offers the event to every subscriber; a full queue drops it, and only there.
        The visiting order does not matter, and no closed channel is touched. */
    method Publish(ev: T)
      requires Valid()
      modifies subs.Values
      ensures Valid() && Queues() == Offered(old(Queues()), ev)
    {
      var todo := subs.Keys;
      ghost var before := Queues();
      while todo != {}
        invariant todo <= subs.Keys && Valid()
        invariant forall w :: w in subs ==> subs[w].queue == if w in todo then before[w] else Offered(before, ev)[w]
        decreases todo
      {
        var w :| w in todo;
        var sent := subs[w].TrySend(ev);
        todo := todo - {w};
      }
    }
  }
}
