/** Which slot a position uses. The recursive form is what the ring proofs use; the machine
    forms `p % C` and `p & (C - 1)` are shown equal to it in SegmentLayout. */
module Addressing {

  function SlotIndex(p: nat, count: nat): (i: nat)
    requires count > 0
    ensures i < count
  {
    if p < count then p else SlotIndex(p - count, count)
  }

  /** Two different positions less than one generation apart never share a slot. */
  lemma {:induction false} IndexInjective(p: nat, q: nat, count: nat)
    requires count > 0 && p < q < p + count
    ensures SlotIndex(p, count) != SlotIndex(q, count)
    decreases p
  {
    if p >= count {
      IndexInjective(p - count, q - count, count);
    }
  }
}
