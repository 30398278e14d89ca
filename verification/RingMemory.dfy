/** How each kind of memory access keeps the memory part of the ring invariant. */
module RingMemory {
  import opened RingSlots
  import opened Addressing
  import opened RingSystem
  import opened RingInvariant

  /** The slot of a position in flight is used by no other position in flight, and by an
      unclaimed position of the current window only one generation later. */
  lemma SlotIsPrivate(m: Memory, flights: Flights, q: nat)
    requires MemoryOk(m, flights) && q in flights
    ensures forall r :: r in flights && r != q ==> SlotIndex(r, m.Count()) != SlotIndex(q, m.Count())
    ensures forall p: nat :: m.enqueue <= p < m.enqueue + m.Count() && p != q + m.Count() ==>
      SlotIndex(p, m.Count()) != SlotIndex(q, m.Count())
  {
    var count := m.Count();
    assert CellOk(m, q, flights[q]);
    forall r | r in flights && r != q ensures SlotIndex(r, count) != SlotIndex(q, count) {
      assert CellOk(m, r, flights[r]);
      if r < q { IndexInjective(r, q, count); } else { IndexInjective(q, r, count); }
    }
    forall p: nat | m.enqueue <= p < m.enqueue + count && p != q + count
      ensures SlotIndex(p, count) != SlotIndex(q, count)
    {
      if p < q + count { IndexInjective(q, p, count); } else { IndexInjective(q, p - count, count); }
    }
  }

  /** A store by a responsible party into the slot of its own position. */
  lemma WriteKeepsMemory(m: Memory, flights: Flights, q: nat, f': Flight)
    requires MemoryOk(m, flights) && q in flights
    requires f'.cell.sequence == q + Lag(f'.stage)
    requires m.dequeue <= q <==> f'.stage.Filling? || f'.stage.Published?
    requires f'.stage.Answered? ==> AnswerFits(AnswerOf(f'.cell), Decode(f'.cell, m.slotBytes), m.cuda)
    ensures MemoryOk(m.With(q, f'.cell), flights[q := f'])
  {
    SlotIsPrivate(m, flights, q);
    var m', flights' := m.With(q, f'.cell), flights[q := f'];
    assert CellOk(m, q, flights[q]);
    forall r | r in flights' ensures CellOk(m', r, flights'[r]) {
      assert r in flights && CellOk(m, r, flights[r]);
    }
    forall p: nat | m'.enqueue <= p < m'.enqueue + m'.Count() ensures FreeOk(m', p, flights') {
      assert FreeOk(m, p, flights);
    }
  }

  /** A successful CAS on `enqueue` by a thread whose position's previous generation is gone. */
  lemma ClaimKeepsMemory(m: Memory, flights: Flights, t: nat)
    requires MemoryOk(m, flights)
    requires m.enqueue < m.Count() || m.enqueue - m.Count() !in flights
    ensures m.enqueue !in flights && m.At(m.enqueue).sequence == m.enqueue
    ensures MemoryOk(m.(enqueue := m.enqueue + 1),
                     flights[m.enqueue := Flight(HeldByProducer(t), Filling, 0, m.At(m.enqueue))])
  {
    var e := m.enqueue;
    var m', flights' := m.(enqueue := e + 1), flights[e := Flight(HeldByProducer(t), Filling, 0, m.At(e))];
    assert e in flights ==> CellOk(m, e, flights[e]);
    assert FreeOk(m, e, flights);
    forall r | r in flights' ensures CellOk(m', r, flights'[r]) {
      if r != e { assert CellOk(m, r, flights[r]); }
    }
    forall p: nat | m'.enqueue <= p < m'.enqueue + m'.Count() ensures FreeOk(m', p, flights') {
      if p != e + m.Count() { assert FreeOk(m, p, flights); }
    }
  }

  /** The store of `q + C` that hands an answered slot to the next generation. */
  lemma ReleaseKeepsMemory(m: Memory, flights: Flights, q: nat)
    requires MemoryOk(m, flights) && q in flights && flights[q].stage.Answered?
    ensures MemoryOk(m.With(q, m.At(q).(sequence := q + m.Count())), flights - {q})
  {
    SlotIsPrivate(m, flights, q);
    var m', flights' := m.With(q, m.At(q).(sequence := q + m.Count())), flights - {q};
    assert CellOk(m, q, flights[q]);
    forall r | r in flights' ensures CellOk(m', r, flights'[r]) {
      assert CellOk(m, r, flights[r]);
    }
    forall p: nat | m'.enqueue <= p < m'.enqueue + m'.Count() ensures FreeOk(m', p, flights') {
      assert FreeOk(m, p, flights);
    }
    forall r: nat | m'.dequeue <= r < m'.enqueue ensures r in flights' {
      assert r in flights;
    }
  }

  /** A successful CAS on `dequeue` at a published position. */
  lemma DrainKeepsMemory(m: Memory, flights: Flights, c: nat)
    requires MemoryOk(m, flights)
    requires m.dequeue in flights && flights[m.dequeue].stage.Published?
    ensures MemoryOk(m.(dequeue := m.dequeue + 1), DrainedBy(flights, m.dequeue, c))
  {
    var d := m.dequeue;
    var m', flights' := m.(dequeue := d + 1), DrainedBy(flights, d, c);
    assert CellOk(m, d, flights[d]);
    forall r | r in flights' ensures CellOk(m', r, flights'[r]) {
      assert CellOk(m, r, flights[r]);
    }
    forall p: nat | m'.enqueue <= p < m'.enqueue + m'.Count() ensures FreeOk(m', p, flights') {
      assert FreeOk(m, p, flights);
    }
    forall r: nat | m'.dequeue <= r < m'.enqueue ensures r in flights' {
      assert r in flights;
    }
  }

  lemma RehomeKeepsMemory(m: Memory, flights: Flights, q: nat, g: nat)
    requires MemoryOk(m, flights) && q in flights
    ensures MemoryOk(m, Rehomed(flights, q, g))
  {
    var flights' := Rehomed(flights, q, g);
    forall r | r in flights' ensures CellOk(m, r, flights'[r]) {
      assert CellOk(m, r, flights[r]);
    }
    forall p: nat | m.enqueue <= p < m.enqueue + m.Count() ensures FreeOk(m, p, flights') {
      assert FreeOk(m, p, flights);
    }
    forall r: nat | m.dequeue <= r < m.enqueue ensures r in flights' {
      assert r in flights;
    }
  }

  /** The slot of a position not yet claimed never runs ahead of it, and reaches it exactly when
      the previous generation has been released. */
  lemma UnclaimedSequence(m: Memory, flights: Flights, p: nat)
    requires MemoryOk(m, flights) && m.enqueue <= p < m.enqueue + m.Count()
    ensures m.At(p).sequence <= p
    ensures m.At(p).sequence == p <==> p < m.Count() || p - m.Count() !in flights
    ensures p >= m.Count() ==> m.At(p).sequence >= p - m.Count()
  {
    assert FreeOk(m, p, flights);
    if p >= m.Count() && p - m.Count() in flights {
      assert CellOk(m, p - m.Count(), flights[p - m.Count()]);
      assert SlotIndex(p, m.Count()) == SlotIndex(p - m.Count(), m.Count());
    }
  }

  /** The position of the current window that shares the slot of an earlier position. */
  lemma {:induction false} LaterGeneration(pos: nat, start: nat, count: nat) returns (p: nat)
    requires count > 0 && pos < start
    ensures start <= p < start + count && pos + count <= p
    ensures SlotIndex(p, count) == SlotIndex(pos, count)
    decreases start - pos
  {
    if start <= pos + count {
      p := pos + count;
    } else {
      p := LaterGeneration(pos + count, start, count);
    }
  }

  /** A claimed position's slot never shows an earlier sequence than the position. */
  lemma ClaimedSequence(m: Memory, flights: Flights, pos: nat)
    requires MemoryOk(m, flights) && pos < m.enqueue
    ensures m.At(pos).sequence >= pos
    ensures pos !in flights ==> m.At(pos).sequence > pos
  {
    if pos in flights {
      assert CellOk(m, pos, flights[pos]);
    } else {
      var p := LaterGeneration(pos, m.enqueue, m.Count());
      UnclaimedSequence(m, flights, p);
    }
  }
}
