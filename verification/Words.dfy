/** The 64-bit words that hold positions. The ring proofs use unbounded positions; here is when the
    two machine comparisons answer as the unbounded one does. */
module Words {
  const HALF: int := 0x8000_0000_0000_0000
  const WORD: int := 0x1_0000_0000_0000_0000

  /** A position as stored in a word: which turn of the counter it is on, and the word. */
  datatype Split = Split(turn: int, word: int)

  ghost predicate IsSplit(p: nat, s: Split) {
    0 <= s.word < WORD && s.turn >= 0 && p == s.turn * WORD + s.word
  }

  /** A word read as a two's complement number. */
  function Signed(w: int): int {
    if w < HALF then w else w - WORD
  }

  /** wrapping_sub on words. */
  function WrappingSub(a: int, b: int): int {
    if a >= b then a - b else a - b + WORD
  }

  /** `sequence.wrapping_sub(position) as i64`. */
  function GatewayDifference(sequence: int, position: int): int {
    Signed(WrappingSub(sequence, position))
  }

  /** `static_cast<int64_t>(sequence) - static_cast<int64_t>(position)`, before any overflow. */
  function DaemonDifference(sequence: int, position: int): int {
    Signed(sequence) - Signed(position)
  }

  /** The gateway's difference is the true one on every turn of the counters, as long as the two
      are less than half a turn apart. */
  lemma GatewayDifferenceIsTrue(s: nat, p: nat, a: Split, b: Split)
    requires IsSplit(s, a) && IsSplit(p, b) && -HALF <= s - p < HALF
    ensures GatewayDifference(a.word, b.word) == s - p
  {
    assert a.turn - b.turn == 0 || a.turn - b.turn == 1 || a.turn - b.turn == -1;
  }

  /** The half turns: the word boundary where the signed reading jumps lies at HALF. */
  function HalfTurn(s: Split): int {
    if s.word < HALF then s.turn else s.turn + 1
  }

  /** The daemon's difference is the true one, and fits its type, exactly when both counters lie
      between the same two jumps of the signed reading; otherwise it is off by whole turns. */
  lemma DaemonDifferenceIsExact(s: nat, p: nat, a: Split, b: Split)
    requires IsSplit(s, a) && IsSplit(p, b) && -HALF <= s - p < HALF
    ensures DaemonDifference(a.word, b.word) == s - p + (HalfTurn(b) - HalfTurn(a)) * WORD
    ensures DaemonDifference(a.word, b.word) == s - p <==> HalfTurn(a) == HalfTurn(b)
    ensures -HALF <= DaemonDifference(a.word, b.word) < HALF <==> HalfTurn(a) == HalfTurn(b)
  {
    var d := HalfTurn(b) - HalfTurn(a);
    assert d <= -1 ==> d * WORD <= -WORD;
    assert d >= 1 ==> d * WORD >= WORD;
  }

  /** The input on which the daemon's difference fails: a sequence one ahead of its position, across
      the jump, reads as far behind, which try_produce takes for a full ring. */
  lemma DaemonDifferenceFails()
    ensures DaemonDifference(HALF, HALF - 1) < 0 && GatewayDifference(HALF, HALF - 1) == 1
  {
  }
}
