/** The shared segment: its size, where slots lie, which header both sides accept, and how it
    starts out. Sizes are bounded by `maxSize`, the largest value of the platform's size type. */
module SegmentLayout {
  import opened Common
  import opened Arithmetic
  import opened Bits
  import opened Addressing
  import opened RingSlots
  import opened RingSystem

  const MAGIC: nat := 0x4644_4950
  const VERSION: nat := 1
  const HEADER_BYTES: nat := 320

  datatype Header = Header(magic: nat, version: nat, headerBytes: nat, slotCount: nat, slotSize: nat)

  /** valid_header. */
  predicate ValidHeader(h: Header) {
    && h.magic == MAGIC && h.version == VERSION && h.headerBytes == HEADER_BYTES && h.slotCount >= 4
    && And(h.slotCount, h.slotCount - 1) == 0
    && h.slotSize >= SLOT_PREFIX_BYTES && h.slotSize % 8 == 0
  }

  /** checked_size. */
  function CheckedSize(slots: nat, stride: nat, maxSize: nat): Option<nat> {
    if slots < 4 || And(slots, slots - 1) != 0 || stride < SLOT_PREFIX_BYTES || stride % 8 != 0 then None
    else if maxSize < HEADER_BYTES || slots > (maxSize - HEADER_BYTES) / stride then None
    else Some(HEADER_BYTES + slots * stride)
  }

  lemma QuotientTest(a: nat, b: nat, s: nat)
    requires s > 0
    ensures a > b / s <==> a * s > b
  {
    var q := b / s;
    assert b == q * s + b % s;
    if a > q {
      NextProduct(q, a, s);
    } else {
      ProductOrder(a, q, s);
    }
  }

  /** The division test refuses exactly what would overflow, so the size is exact. */
  lemma CheckedSizeIsExact(slots: nat, stride: nat, maxSize: nat)
    requires maxSize >= HEADER_BYTES
    ensures CheckedSize(slots, stride, maxSize).Some? <==>
            && slots >= 4 && PowerOfTwo(slots) && stride >= SLOT_PREFIX_BYTES && stride % 8 == 0
            && HEADER_BYTES + slots * stride <= maxSize
    ensures CheckedSize(slots, stride, maxSize).Some? ==> CheckedSize(slots, stride, maxSize).value == HEADER_BYTES + slots * stride
  {
    if slots >= 4 { PowerOfTwoTest(slots); }
    if stride > 0 { QuotientTest(slots, maxSize - HEADER_BYTES, stride); }
  }

  // ----- slots ----------------------------------------------------------------------------

  function SlotStart(h: Header, i: nat): nat {
    HEADER_BYTES + i * h.slotSize
  }

  lemma SlotIsAligned(h: Header, i: nat, base: nat)
    requires h.slotSize % 8 == 0 && base % 8 == 0
    ensures (base + SlotStart(h, i)) % 8 == 0
  {
    MultipleOfEight(i, h.slotSize);
    AlignedSum(base, i * h.slotSize);
  }

  lemma AlignedSum(base: nat, x: nat)
    requires base % 8 == 0 && x % 8 == 0
    ensures (base + (HEADER_BYTES + x)) % 8 == 0
  {
  }

  /** Slots do not overlap, start behind the header, end inside the checked size, and are aligned. */
  lemma SlotsAreDisjoint(h: Header, i: nat, j: nat, base: nat)
    requires ValidHeader(h) && i < j < h.slotCount && base % 8 == 0
    ensures HEADER_BYTES <= SlotStart(h, i) && SlotStart(h, i) + h.slotSize <= SlotStart(h, j)
    ensures SlotStart(h, j) + h.slotSize <= HEADER_BYTES + h.slotCount * h.slotSize
    ensures (base + SlotStart(h, i)) % 8 == 0 && (base + SlotStart(h, j)) % 8 == 0
  {
    NextProduct(i, j, h.slotSize);
    NextProduct(j, h.slotCount, h.slotSize);
    SlotIsAligned(h, i, base);
    SlotIsAligned(h, j, base);
  }

  lemma MultipleOfEight(i: nat, size: nat)
    requires size % 8 == 0
    ensures (i * size) % 8 == 0
  {
    var e := size / 8;
    var n := i * e;
    assert i * size == i * (8 * e) == 8 * n;
  }

  lemma {:induction false} SlotIndexRest(p: nat, count: nat) returns (q: nat)
    requires count > 0
    ensures p == q * count + SlotIndex(p, count)
  {
    if p < count {
      q := 0;
    } else {
      var before := SlotIndexRest(p - count, count);
      q := before + 1;
      assert q * count == before * count + count;
    }
  }

  /** The gateway's mask and the daemon's remainder pick the same slot for every position. */
  lemma BothSidesPickTheSameSlot(p: nat, count: nat)
    requires count > 0 && And(count, count - 1) == 0
    ensures And(p, count - 1) == p % count == SlotIndex(p, count)
  {
    PowerOfTwoTest(count);
    var k: nat :| count == Pow2(k);
    var q := SlotIndexRest(p, count);
    LowMask(p, k, q, SlotIndex(p, count));
    RestIsUnique(p, count, q, SlotIndex(p, count));
  }

  // ----- what the gateway accepts ---------------------------------------------------------

  datatype Layout = Layout(slotCount: nat, slotBytes: nat, segmentBytes: nat)

  predicate SlotAligned(base: nat, h: Header, i: nat) {
    (base + SlotStart(h, i)) % 8 == 0
  }

  ghost predicate SlotsAligned(base: nat, h: Header) {
    forall i: nat {:trigger SlotAligned(base, h, i)} :: i < h.slotCount ==> SlotAligned(base, h, i)
  }

  /** What validate_layout checks, in one formula. A base address of zero is the null pointer. */
  ghost predicate GatewayAccepts(base: nat, bytes: nat, h: Header) {
    && base != 0 && bytes >= HEADER_BYTES
    && h.magic == MAGIC && h.version == VERSION && h.headerBytes == HEADER_BYTES
    && h.slotCount >= 4 && PowerOfTwo(h.slotCount) && h.slotSize > SLOT_PREFIX_BYTES
    && HEADER_BYTES + h.slotCount * h.slotSize <= bytes
    && base % 8 == 0 && SlotsAligned(base, h)
  }

  /** validate_layout. */
  method ValidateLayout(base: nat, bytes: nat, h: Header, maxSize: nat) returns (layout: Option<Layout>)
    requires bytes <= maxSize
    ensures layout.Some? <==> GatewayAccepts(base, bytes, h)
    ensures layout.Some? ==> layout.value == Layout(h.slotCount, h.slotSize, HEADER_BYTES + h.slotCount * h.slotSize)
  {
    if base == 0 || bytes < HEADER_BYTES { return None; }
    if h.magic != MAGIC || h.version != VERSION { return None; }
    if h.headerBytes != HEADER_BYTES { return None; }
    if h.slotCount < 4 { return None; }
    PowerOfTwoTest(h.slotCount);
    if And(h.slotCount, h.slotCount - 1) != 0 || h.slotSize <= SLOT_PREFIX_BYTES { return None; }
    var slotBytes := h.slotCount * h.slotSize;
    if slotBytes > maxSize || HEADER_BYTES + slotBytes > maxSize { return None; }
    if HEADER_BYTES + slotBytes > bytes { return None; }
    var wordsAligned := HeaderWordsAligned(base);
    if !wordsAligned { return None; }
    var slotsAligned := SlotWordsAligned(base, h);
    if !slotsAligned { return None; }
    return Some(Layout(h.slotCount, h.slotSize, HEADER_BYTES + slotBytes));
  }

  /** The cursors and counters at 64, 128 and 192 and the shutdown word at 256. */
  method HeaderWordsAligned(base: nat) returns (ok: bool)
    ensures ok <==> base % 8 == 0
  {
    ok := (base + 64) % 8 == 0 && (base + 128) % 8 == 0 && (base + 192) % 8 == 0 && (base + 256) % 4 == 0;
  }

  method SlotWordsAligned(base: nat, h: Header) returns (ok: bool)
    ensures ok <==> SlotsAligned(base, h)
  {
    for index := 0 to h.slotCount
      invariant forall i: nat {:trigger SlotAligned(base, h, i)} :: i < index ==> SlotAligned(base, h, i)
    {
      if !SlotAligned(base, h, index) { return false; }
    }
    return true;
  }

  lemma StrideIsAligned(base: nat, h: Header)
    requires base % 8 == 0 && h.slotCount >= 4 && SlotsAligned(base, h)
    ensures h.slotSize % 8 == 0
  {
    assert SlotAligned(base, h, 1);
    assert SlotStart(h, 1) == HEADER_BYTES + h.slotSize;
  }

  lemma AlignedStrideAlignsSlots(base: nat, h: Header)
    requires base % 8 == 0 && h.slotSize % 8 == 0
    ensures SlotsAligned(base, h)
  {
    forall i: nat | i < h.slotCount ensures SlotAligned(base, h, i) {
      SlotIsAligned(h, i, base);
    }
  }

  /** On an aligned segment the gateway accepts exactly the headers that the daemon accepts, that
      fit, and that leave room for a payload: a slot of just the metadata is valid to the daemon only. */
  lemma GatewayAcceptsExactly(base: nat, bytes: nat, h: Header)
    requires base != 0 && base % 8 == 0 && bytes >= HEADER_BYTES
    ensures GatewayAccepts(base, bytes, h) <==>
            ValidHeader(h) && h.slotSize > SLOT_PREFIX_BYTES && HEADER_BYTES + h.slotCount * h.slotSize <= bytes
  {
    if h.slotCount >= 4 {
      PowerOfTwoTest(h.slotCount);
      if h.slotSize % 8 == 0 { AlignedStrideAlignsSlots(base, h); }
      if SlotsAligned(base, h) { StrideIsAligned(base, h); }
    }
  }

  /** A header that only the daemon accepts: its slots have room for the metadata and nothing else. */
  lemma MetadataOnlySlots(base: nat)
    requires base != 0 && base % 8 == 0
    ensures var h := Header(MAGIC, VERSION, HEADER_BYTES, 4, SLOT_PREFIX_BYTES);
            ValidHeader(h) && !GatewayAccepts(base, HEADER_BYTES + 4 * SLOT_PREFIX_BYTES, h)
  {
    assert Pow2(2) == 4 by { assert Pow2(0) == 1 && Pow2(1) == 2; }
    PowerOfTwoTest(4);
  }

  // ----- the initial segment --------------------------------------------------------------

  class Segment {
    var header: Header
    var enqueue: nat
    var dequeue: nat
    var ready: nat
    var shutdown: nat
    var slots: array<Slot>

    constructor ()
      ensures !ValidHeader(header)
    {
      header := Header(0, 0, 0, 0, 0);
      enqueue, dequeue, ready, shutdown := 0, 0, 0, 0;
      slots := new Slot[0];
    }

    /** initialize_segment: what it leaves is the initial state of the ring. */
    method Initialize(bytes: nat, slotCount: nat, slotSize: nat, maxSize: nat, cuda: bool) returns (ok: bool)
      requires maxSize >= HEADER_BYTES
      modifies this
      ensures ok <==> CheckedSize(slotCount, slotSize, maxSize).Some? && bytes >= CheckedSize(slotCount, slotSize, maxSize).value
      ensures !ok ==> unchanged(this)
      ensures ok ==> fresh(slots) && ValidHeader(header) && header.slotCount == slotCount && header.slotSize == slotSize
      ensures ok ==> Memory(slots[..], enqueue, dequeue, slotSize, cuda) == Init(slotCount, slotSize, 1, cuda, {}, {}).mem
      ensures ok ==> header == Header(0x4644_4950, 1, 320, slotCount, slotSize) && ready == 0 && shutdown == 0
      ensures ok ==> slots.Length == slotCount && forall i :: 0 <= i < slotCount ==> slots[i] == Slot(i, 64, 0, Scratch(0), 0, 0, 0.0, 0, 0, 0)
    {
      var required := CheckedSize(slotCount, slotSize, maxSize);
      if required.None? || bytes < required.value { return false; }
      header := Header(MAGIC, VERSION, HEADER_BYTES, slotCount, slotSize);
      enqueue, dequeue, ready, shutdown := 0, 0, 0, 0;
      slots := new Slot[slotCount](_ => Slot(0, 0, 0, Scratch(0), 0, 0, 0.0, 0, 0, 0));
      for i := 0 to slotCount
        invariant header == Header(MAGIC, VERSION, HEADER_BYTES, slotCount, slotSize)
        invariant enqueue == dequeue == ready == shutdown == 0
        invariant fresh(slots) && slots.Length == slotCount
        invariant forall j :: 0 <= j < i ==> slots[j] == FreshSlot(j)
        invariant forall j :: i <= j < slotCount ==> slots[j] == Slot(0, 0, 0, Scratch(0), 0, 0, 0.0, 0, 0, 0)
      {
        slots[i] := slots[i].(sequence := i);
        slots[i] := slots[i].(payloadOffset := SLOT_PREFIX_BYTES);
      }
      return true;
    }
  }
}
