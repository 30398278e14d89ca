/** The lock-free bump allocator: threads race by compare-and-swap on one cursor. */
module MemoryPool {
  import opened Common
  import opened Arithmetic
  import opened Bits

  ghost predicate Multiple(x: int, m: nat) {
    exists q: int :: x == q * m
  }

  /** checked_round_up on words of `bits` bits; `None` is the exception. */
  function CheckedRoundUp(value: nat, alignment: nat, bits: nat): Option<nat> {
    if alignment == 0 || And(alignment, alignment - 1) != 0 || value + alignment > Pow2(bits) then None
    else Some(And(value + alignment - 1, Pow2(bits) - alignment))
  }

  lemma {:induction false} Pow2Monotone(j: nat, k: nat)
    requires Pow2(j) <= Pow2(k)
    ensures j <= k
  {
    if j > k {
      Pow2Grows(k, j);
    }
  }

  lemma {:induction false} Pow2Grows(k: nat, j: nat)
    requires k < j
    ensures Pow2(k) < Pow2(j)
    decreases j
  {
    if k < j - 1 { Pow2Grows(k, j - 1); }
  }

  /** The mask form gives the least multiple of the alignment that is not below the value. */
  lemma RoundUpIsLeast(value: nat, alignment: nat, bits: nat)
    requires CheckedRoundUp(value, alignment, bits).Some?
    ensures var r := CheckedRoundUp(value, alignment, bits).value;
            && Multiple(r, alignment) && value <= r < value + alignment
            && forall x {:trigger Multiple(x, alignment)} :: Multiple(x, alignment) && x >= value ==> r <= x
  {
    PowerOfTwoTest(alignment);
    var k: nat :| alignment == Pow2(k);
    Pow2Monotone(k, bits);
    var q, r, rest := Floor(value + alignment - 1, alignment);
    HighMask(value + alignment - 1, bits, k, q, rest, r);
    LeastMultiple(value, alignment, q, r);
  }

  lemma Floor(x: nat, m: nat) returns (q: nat, r: nat, rest: nat)
    requires m > 0
    ensures r == q * m && x == r + rest && rest < m
  {
    q, rest := x / m, x % m;
    r := q * m;
  }

  lemma LeastMultiple(value: nat, m: nat, q: nat, r: nat)
    requires r == q * m && value <= r < value + m
    ensures Multiple(r, m) && forall x {:trigger Multiple(x, m)} :: Multiple(x, m) && x >= value ==> r <= x
  {
    forall y | Multiple(y, m) && y >= value ensures r <= y {
      var p :| y == p * m;
      if p < q {
        NextProduct(p, q, m);
      } else {
        ProductOrder(q, p, m);
      }
    }
  }

  /** checked_round_up throws exactly for an alignment that is no power of two and for a sum that leaves
      the word. */
  lemma RoundUpFailsExactly(value: nat, alignment: nat, bits: nat)
    ensures CheckedRoundUp(value, alignment, bits).None? <==>
      !PowerOfTwo(alignment) || value + alignment > Pow2(bits)
  {
    if alignment > 0 {
      PowerOfTwoTest(alignment);
    } else {
      forall k: nat ensures Pow2(k) != 0 { Pow2Positive(k); }
    }
  }

  lemma {:induction false} Pow2Positive(k: nat)
    ensures Pow2(k) > 0
  {
    if k > 0 { Pow2Positive(k - 1); }
  }

  // ----- the allocator --------------------------------------------------------------------

  /** One call of allocate; all a caller gets to see is the offset of its range. */
  datatype Thread =
    | Trying(position: nat, bytes: nat, alignment: nat)  // holds a loaded cursor value
    | Allocated(start: nat)
    | InvalidArgument
    | OutOfMemory

  datatype Pool = Pool(size: nat, bits: nat, cursor: nat, threads: map<nat, Thread>)

  datatype Event =
    | Load(t: nat, bytes: nat, alignment: nat)
    | Attempt(t: nat, spurious: bool)                    // compare_exchange_weak may fail for no reason

  function TryStep(s: Pool, t: nat, position: nat, bytes: nat, alignment: nat, spurious: bool): Pool {
    match CheckedRoundUp(position, alignment, s.bits)
    case None => s.(threads := s.threads[t := InvalidArgument])
    case Some(aligned) =>
      if aligned > s.size || bytes > s.size - aligned then s.(threads := s.threads[t := OutOfMemory])
      else if s.cursor == position && !spurious then
        s.(cursor := aligned + bytes, threads := s.threads[t := Allocated(aligned)])
      else s.(threads := s.threads[t := Trying(s.cursor, bytes, alignment)])
  }

  function Step(s: Pool, e: Event): Pool {
    match e
    case Load(t, bytes, alignment) =>
      if t in s.threads then s else s.(threads := s.threads[t := Trying(s.cursor, bytes, alignment)])
    case Attempt(t, spurious) =>
      if t in s.threads && s.threads[t].Trying?
      then TryStep(s, t, s.threads[t].position, s.threads[t].bytes, s.threads[t].alignment, spurious) else s
  }

  function After(size: nat, bits: nat, events: seq<Event>): Pool {
    if events == [] then Pool(size, bits, 0, map[])
    else Step(After(size, bits, events[..|events| - 1]), events[|events| - 1])
  }

  // ----- what was asked for ---------------------------------------------------------------

  datatype Request = Request(bytes: nat, alignment: nat)

  /** What call `t` asked for: its first Load. */
  function Asked(events: seq<Event>, t: nat): Option<Request> {
    if events == [] then None
    else
      var before, last := Asked(events[..|events| - 1], t), events[|events| - 1];
      if before.Some? then before
      else if last.Load? && last.t == t then Some(Request(last.bytes, last.alignment)) else None
  }

  /** Call `t` holds a range of the size and alignment it asked for, below the cursor. */
  ghost predicate Holds(events: seq<Event>, s: Pool, t: nat, start: nat) {
    && Asked(events, t).Some?
    && Multiple(start, Asked(events, t).value.alignment) && start + Asked(events, t).value.bytes <= s.cursor
  }

  /** The buffers two calls were given have no byte in common. */
  predicate Disjoint(events: seq<Event>, t: nat, start: nat, u: nat, start': nat)
    requires Asked(events, t).Some? && Asked(events, u).Some?
  {
    start + Asked(events, t).value.bytes <= start' || start' + Asked(events, u).value.bytes <= start
  }

  ghost predicate ThreadOk(events: seq<Event>, s: Pool, t: nat, th: Thread) {
    match th
    case Trying(position, bytes, alignment) => position <= s.cursor && Asked(events, t) == Some(Request(bytes, alignment))
    case Allocated(start) => Holds(events, s, t, start)
    case _ => Asked(events, t).Some?
  }

  ghost predicate Inv(events: seq<Event>, s: Pool) {
    && s.cursor <= s.size
    && (forall t {:trigger ThreadOk(events, s, t, s.threads[t])} :: t in s.threads ==> ThreadOk(events, s, t, s.threads[t]))
    && (forall t {:trigger Asked(events, t)} :: t !in s.threads ==> Asked(events, t) == None)
    && (forall t, u {:trigger s.threads[t], s.threads[u]} ::
          t in s.threads && u in s.threads && t != u && s.threads[t].Allocated? && s.threads[u].Allocated?
          && Asked(events, t).Some? && Asked(events, u).Some? ==>
            Disjoint(events, t, s.threads[t].start, u, s.threads[u].start))
  }

  /** One more event changes no request that was already made. */
  lemma AskedOnce(events: seq<Event>, e: Event, t: nat)
    ensures Asked(events, t).Some? ==> Asked(events + [e], t) == Asked(events, t)
    ensures Asked(events, t).None? ==>
      Asked(events + [e], t) == if e.Load? && e.t == t then Some(Request(e.bytes, e.alignment)) else None
  {
    assert (events + [e])[..|events|] == events;
  }

  /** A call that keeps its place does so under one more event. */
  lemma OtherThread(events: seq<Event>, s: Pool, e: Event, s': Pool, u: nat)
    requires Inv(events, s) && u in s.threads && s.cursor <= s'.cursor
    ensures ThreadOk(events + [e], s', u, s.threads[u]) && Asked(events + [e], u) == Asked(events, u) && Asked(events, u).Some?
  {
    assert ThreadOk(events, s, u, s.threads[u]);
    AskedOnce(events, e, u);
  }

  /** What one attempt does to its own call and to the cursor. */
  lemma OwnThread(events: seq<Event>, s: Pool, e: Event)
    requires Inv(events, s) && e.Attempt? && e.t in s.threads && s.threads[e.t].Trying?
    ensures var s' := Step(s, e);
            && s'.size == s.size && s'.bits == s.bits && s'.threads.Keys == s.threads.Keys
            && s.cursor <= s'.cursor <= s.size && ThreadOk(events, s', e.t, s'.threads[e.t])
            && (forall u :: u in s.threads && u != e.t ==> s'.threads[u] == s.threads[u])
            && (s'.threads[e.t].Allocated? ==> s.cursor <= s'.threads[e.t].start)
  {
    var th := s.threads[e.t];
    assert ThreadOk(events, s, e.t, th);
    if CheckedRoundUp(th.position, th.alignment, s.bits).Some? {
      RoundUpIsLeast(th.position, th.alignment, s.bits);
    }
  }

  lemma AttemptKeepsInv(events: seq<Event>, s: Pool, e: Event)
    requires Inv(events, s) && e.Attempt? && e.t in s.threads && s.threads[e.t].Trying?
    ensures Inv(events + [e], Step(s, e)) && s.cursor <= Step(s, e).cursor
  {
    var s', after := Step(s, e), events + [e];
    OwnThread(events, s, e);
    forall u | u in s'.threads ensures ThreadOk(after, s', u, s'.threads[u]) {
      OtherThread(events, s, e, s', u);
    }
    forall u | u !in s'.threads ensures Asked(after, u) == None { AskedOnce(events, e, u); }
    forall t, u | t in s'.threads && u in s'.threads && t != u && s'.threads[t].Allocated? && s'.threads[u].Allocated?
                  && Asked(after, t).Some? && Asked(after, u).Some?
      ensures Disjoint(after, t, s'.threads[t].start, u, s'.threads[u].start)
    {
      OtherThread(events, s, e, s', t);
      OtherThread(events, s, e, s', u);
      assert t != e.t ==> ThreadOk(events, s, t, s.threads[t]);
      assert u != e.t ==> ThreadOk(events, s, u, s.threads[u]);
    }
  }

  lemma LoadKeepsInv(events: seq<Event>, s: Pool, e: Event)
    requires Inv(events, s) && !(e.Attempt? && e.t in s.threads && s.threads[e.t].Trying?)
    ensures Inv(events + [e], Step(s, e)) && Step(s, e).cursor == s.cursor
  {
    var s', after := Step(s, e), events + [e];
    forall u | u in s'.threads ensures ThreadOk(after, s', u, s'.threads[u]) {
      if u in s.threads { OtherThread(events, s, e, s', u); } else { AskedOnce(events, e, u); }
    }
    forall u | u !in s'.threads ensures Asked(after, u) == None { AskedOnce(events, e, u); }
    forall t, u | t in s'.threads && u in s'.threads && t != u && s'.threads[t].Allocated? && s'.threads[u].Allocated?
                  && Asked(after, t).Some? && Asked(after, u).Some?
      ensures Disjoint(after, t, s'.threads[t].start, u, s'.threads[u].start)
    {
      OtherThread(events, s, e, s', t);
      OtherThread(events, s, e, s', u);
    }
  }

  lemma {:induction false} EveryRunKeepsInv(size: nat, bits: nat, events: seq<Event>)
    ensures var s := After(size, bits, events); Inv(events, s) && s.size == size && s.bits == bits
  {
    if events != [] {
      var before, e := events[..|events| - 1], events[|events| - 1];
      assert events == before + [e];
      EveryRunKeepsInv(size, bits, before);
      var s := After(size, bits, before);
      if e.Attempt? && e.t in s.threads && s.threads[e.t].Trying? {
        AttemptKeepsInv(before, s, e);
        OwnThread(before, s, e);
      } else {
        LoadKeepsInv(before, s, e);
      }
    }
  }

  /** Under every interleaving of any number of calls, with any spurious failures, a call that returns
      an offset returns one that is a multiple of the alignment it asked for, with all the bytes it
      asked for inside the pool, and no two calls have a byte of what they asked for in common. */
  lemma AllocationsAreDisjoint(size: nat, bits: nat, events: seq<Event>, t: nat, u: nat)
    requires var s := After(size, bits, events);
             t in s.threads && u in s.threads && s.threads[t].Allocated? && s.threads[u].Allocated?
    ensures Asked(events, t).Some? && Asked(events, u).Some?
    ensures var start, start', wanted, wanted' := After(size, bits, events).threads[t].start, After(size, bits, events).threads[u].start,
                                                  Asked(events, t).value, Asked(events, u).value;
            && Multiple(start, wanted.alignment) && start + wanted.bytes <= size
            && Multiple(start', wanted'.alignment) && start' + wanted'.bytes <= size
            && (t != u ==> start + wanted.bytes <= start' || start' + wanted'.bytes <= start)
  {
    var s := After(size, bits, events);
    EveryRunKeepsInv(size, bits, events);
    assert ThreadOk(events, s, t, s.threads[t]) && ThreadOk(events, s, u, s.threads[u]);
  }

  lemma {:induction false} CursorNeverFalls(size: nat, bits: nat, events: seq<Event>, n: nat, m: nat)
    requires n <= m <= |events|
    ensures After(size, bits, events[..n]).cursor <= After(size, bits, events[..m]).cursor
    decreases m
  {
    if n < m {
      CursorNeverFalls(size, bits, events, n, m - 1);
      assert events[..m][..m - 1] == events[..m - 1];
      EveryRunKeepsInv(size, bits, events[..m - 1]);
      var s, e := After(size, bits, events[..m - 1]), events[m - 1];
      if e.Attempt? && e.t in s.threads && s.threads[e.t].Trying? {
        AttemptKeepsInv(events[..m - 1], s, e);
      } else {
        LoadKeepsInv(events[..m - 1], s, e);
      }
    }
  }

  /** A refusal is honest and stays so: when a call is answered bad_alloc in a run, no range of the size
      and alignment it asked for fits behind the cursor, neither then nor at any later point of the run;
      when it is answered invalid_argument, its alignment is no power of two, or even the cursor plus
      the alignment leaves the word. */
  lemma RefusalIsHonest(size: nat, bits: nat, events: seq<Event>, n: nat, m: nat, t: nat, start: nat)
    requires n < |events| && n <= m <= |events| && events[n].Attempt? && events[n].t == t
    requires var s := After(size, bits, events[..n]); t in s.threads && s.threads[t].Trying?
    ensures Asked(events[..n], t).Some?
    ensures var wanted, answer, later := Asked(events[..n], t).value, Step(After(size, bits, events[..n]), events[n]).threads[t],
                                         After(size, bits, events[..m]).cursor;
            && (answer.OutOfMemory? && Multiple(start, wanted.alignment) && start >= later ==> start + wanted.bytes > size)
            && (answer.InvalidArgument? ==>
                  !PowerOfTwo(wanted.alignment) || later + wanted.alignment > Pow2(bits))
  {
    var s := After(size, bits, events[..n]);
    EveryRunKeepsInv(size, bits, events[..n]);
    assert ThreadOk(events[..n], s, t, s.threads[t]);
    CursorNeverFalls(size, bits, events, n, m);
    RoundUpFailsExactly(s.threads[t].position, s.threads[t].alignment, bits);
    if Step(s, events[n]).threads[t].OutOfMemory? {
      RoundUpIsLeast(s.threads[t].position, s.threads[t].alignment, bits);
    }
  }

  /** A call that runs alone gets the least aligned offset behind the cursor whenever its bytes fit
      there, and moves the cursor just behind them; otherwise it is refused and nothing moves. */
  lemma AllocateAlone(size: nat, bits: nat, events: seq<Event>, t: nat, bytes: nat, alignment: nat, least: nat)
    requires t !in After(size, bits, events).threads
    requires Multiple(least, alignment) && least >= After(size, bits, events).cursor
    requires forall x {:trigger Multiple(x, alignment)} :: Multiple(x, alignment) && x >= After(size, bits, events).cursor ==> least <= x
    ensures var s := After(size, bits, events);
            var s' := Step(Step(s, Load(t, bytes, alignment)), Attempt(t, false));
            var usable := PowerOfTwo(alignment) && s.cursor + alignment <= Pow2(bits);
            && t in s'.threads
            && (s'.threads[t] == Allocated(least) <==> usable && least + bytes <= size)
            && (s'.threads[t] == OutOfMemory <==> usable && least + bytes > size)
            && (s'.threads[t] == InvalidArgument <==> !usable)
            && s'.cursor == if usable && least + bytes <= size then least + bytes else s.cursor
  {
    var s := After(size, bits, events);
    EveryRunKeepsInv(size, bits, events);
    RoundUpFailsExactly(s.cursor, alignment, bits);
    if CheckedRoundUp(s.cursor, alignment, bits).Some? {
      RoundUpIsLeast(s.cursor, alignment, bits);
    }
  }
}
