/** The in-memory consumer: an event stays queued until its handler has succeeded. */
module WindowConsumer {
  import opened WindowModel
  import opened WindowHistory
  import opened WindowSink
  import opened WindowProcess

  /** Window and sink after the first `n` events, delivered one after the other. */
  ghost function Delivered(l: Limits, start: World, events: seq<Event>, sinkOk: nat -> bool, n: nat): World
    requires n <= |events|
  {
    if n == 0 then start
    else Deliver(l, Delivered(l, start, events, sinkOk, n - 1), Call(events[n - 1], sinkOk(n - 1)))
  }

  /** The handler returns an error for an event that is prepared like this. */
  predicate Fails(p: Prepared, sinkOk: bool) {
    p.Rejected? || (p.Accepted? && p.update.changed && !sinkOk)
  }

  /** The handler: it either succeeds and makes its delivery, or fails and changes nothing. */
  method Handle(window: Window, sink: MemoryMaterializer, c: Call) returns (ok: bool)
    requires window.Valid()
    modifies window, sink
    ensures window.Valid()
    ensures ok <==> !Fails(Prepare(window.limits, old(window.Value()), c.event), c.sinkOk)
    ensures ok ==> World(window.Value(), sink.values) == Deliver(window.limits, old(World(window.Value(), sink.values)), c)
    ensures !ok ==> window.Value() == old(window.Value()) && sink.values == old(sink.values)
  {
    var answer := window.ApplyAndMaterialize(c.event, sink, c.sinkOk);
    ok := !answer.Failed?;
  }

  /** `rest` is what remains of `all` without its first `n` elements. */
  ghost predicate Remains(all: seq<Event>, n: nat, rest: seq<Event>) {
    n + |rest| == |all| && forall k {:trigger rest[k]} :: 0 <= k < |rest| ==> rest[k] == all[n + k]
  }

  function Tail(s: seq<Event>): seq<Event>
    requires s != []
  {
    seq(|s| - 1, k requires 0 <= k < |s| - 1 => s[k + 1])
  }

  /** After `n` handled events: the rest of the queue, and window and sink as those events left them. */
  ghost predicate Reached(l: Limits, start: World, all: seq<Event>, sinkOk: nat -> bool, n: nat, s: World, rest: seq<Event>) {
    n <= |all| && Remains(all, n, rest) && s == Delivered(l, start, all, sinkOk, n)
  }

  lemma ReachedNext(l: Limits, start: World, all: seq<Event>, sinkOk: nat -> bool, n: nat, s: World, rest: seq<Event>)
    requires Reached(l, start, all, sinkOk, n, s, rest) && rest != []
    ensures Reached(l, start, all, sinkOk, n + 1, Deliver(l, s, Call(rest[0], sinkOk(n))), Tail(rest))
  {
    var rest' := Tail(rest);
    forall k | 0 <= k < |rest'| ensures rest'[k] == all[n + 1 + k] { assert rest'[k] == rest[k + 1]; }
  }

  class MemoryConsumer {
    var events: seq<Event>
    var closed: bool

    constructor (events: seq<Event>)
      ensures this.events == events && !closed
    {
      this.events, closed := events, false;
    }

    method Close()
      modifies this
      ensures closed && events == old(events)
    {
      closed := true;
    }

    /** The head of the queue is handled, and leaves the queue if that succeeds. */
    method HandleHead(window: Window, sink: MemoryMaterializer, sinkOk: nat -> bool, n: nat, ghost start: World, ghost all: seq<Event>)
      returns (fine: bool)
      requires window.Valid() && events != []
      requires Reached(window.limits, start, all, sinkOk, n, World(window.Value(), sink.values), events)
      modifies this`events, window, sink
      ensures window.Valid()
      ensures Reached(window.limits, start, all, sinkOk, if fine then n + 1 else n, World(window.Value(), sink.values), events)
      ensures fine ==> |events| < |old(events)|
      ensures !fine ==> events == old(events) && Fails(Prepare(window.limits, window.Value(), events[0]), sinkOk(n))
    {
      ReachedNext(window.limits, start, all, sinkOk, n, World(window.Value(), sink.values), events);
      fine := Handle(window, sink, Call(events[0], sinkOk(n)));
      if fine { events := Tail(events); }
    }

    /** Consume, with the window's ApplyAndMaterialize as the handler. `sinkOk` is the sink's answer
        and `live` the context's state at each event; `closing` says whether another thread has called
        Close by the time the queue is looked at for the n-th time. The events that leave the queue are the
        ones whose handler succeeded, in order; the first that fails stays queued and ends the loop
        with window and sink as the earlier events left them; a Close ends it before the next event. */
    method Consume(window: Window, sink: MemoryMaterializer, sinkOk: nat -> bool, live: nat -> bool, closing: nat -> bool)
      returns (ok: bool, handled: nat)
      requires window.Valid()
      modifies this`events, window, sink
      ensures window.Valid()
      ensures Reached(window.limits, old(World(window.Value(), sink.values)), old(events), sinkOk, handled,
                      World(window.Value(), sink.values), events)
      ensures (handled > 0 ==> !closed) && forall n :: 0 <= n < handled ==> !closing(n)
      ensures ok <==> !closed && !closing(handled) && events == []
      ensures !ok && !closed && !closing(handled) ==>
                !live(handled) || Fails(Prepare(window.limits, window.Value(), events[0]), sinkOk(handled))
    {
      handled := 0;
      ghost var start, all := World(window.Value(), sink.values), events;
      while true
        invariant window.Valid() && Reached(window.limits, start, all, sinkOk, handled, World(window.Value(), sink.values), events)
        invariant (handled > 0 ==> !closed) && forall n :: 0 <= n < handled ==> !closing(n)
        decreases |events|
      {
        if closed || closing(handled) { return false, handled; }
        if events == [] { return true, handled; }
        if !live(handled) { return false, handled; }
        var fine := HandleHead(window, sink, sinkOk, handled, start, all);
        if !fine { return false, handled; }
        handled := handled + 1;
      }
    }
  }
}
