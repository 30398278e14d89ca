/** Byte-wise string order and the character classes that event validation uses. */
module Strings {

  /** Go's `<` on strings. */
  predicate Before(a: string, b: string) {
    BeforeFrom(a, b, 0)
  }

  /** The comparison from character `i` on, when all earlier ones are equal. */
  predicate BeforeFrom(a: string, b: string, i: nat)
    requires i <= |a| && i <= |b|
    decreases |b| - i
  {
    i < |b| && (i == |a| || a[i] < b[i] || (a[i] == b[i] && BeforeFrom(a, b, i + 1)))
  }

  lemma BeforeIsTotal(a: string, b: string)
    ensures Before(a, b) || Before(b, a) || a == b
  {
    TotalFrom(a, b, 0);
  }

  lemma {:induction false} TotalFrom(a: string, b: string, i: nat)
    requires i <= |a| && i <= |b| && forall k :: 0 <= k < i ==> a[k] == b[k]
    ensures BeforeFrom(a, b, i) || BeforeFrom(b, a, i) || a == b
    decreases |a| - i
  {
    if i < |a| && i < |b| && a[i] == b[i] { TotalFrom(a, b, i + 1); }
  }

  lemma BeforeIsAsymmetric(a: string, b: string)
    requires Before(a, b)
    ensures !Before(b, a) && a != b
  {
    AsymmetricFrom(a, b, 0);
  }

  lemma {:induction false} AsymmetricFrom(a: string, b: string, i: nat)
    requires i <= |a| && i <= |b| && BeforeFrom(a, b, i)
    ensures !BeforeFrom(b, a, i) && a != b
    decreases |b| - i
  {
    if i < |a| && a[i] == b[i] { AsymmetricFrom(a, b, i + 1); }
  }

  lemma BeforeIsTransitive(a: string, b: string, c: string)
    requires Before(a, b) && Before(b, c)
    ensures Before(a, c)
  {
    TransitiveFrom(a, b, c, 0);
  }

  lemma {:induction false} TransitiveFrom(a: string, b: string, c: string, i: nat)
    requires i <= |a| && i <= |b| && i <= |c| && BeforeFrom(a, b, i) && BeforeFrom(b, c, i)
    ensures BeforeFrom(a, c, i)
    decreases |b| - i
  {
    if i < |a| && a[i] == b[i] && b[i] == c[i] { TransitiveFrom(a, b, c, i + 1); }
  }

  /** The strings agree up to `n`, where `a` ends or has the smaller character. */
  predicate FallsBehind(a: string, b: string, n: nat) {
    n <= |a| && n < |b| && (forall k :: 0 <= k < n ==> a[k] == b[k]) && (n == |a| || a[n] < b[n])
  }

  /** The order is the lexicographic one: a proper prefix comes first, otherwise the first difference
      decides. */
  lemma BeforeIsLexicographic(a: string, b: string)
    ensures Before(a, b) <==> exists n: nat {:trigger FallsBehind(a, b, n)} :: FallsBehind(a, b, n)
  {
    if Before(a, b) {
      var n := DifferenceFrom(a, b, 0);
    }
    if n: nat {:trigger FallsBehind(a, b, n)} :| FallsBehind(a, b, n) {
      BehindFrom(a, b, 0, n);
    }
  }

  lemma {:induction false} DifferenceFrom(a: string, b: string, i: nat) returns (n: nat)
    requires i <= |a| && i <= |b| && BeforeFrom(a, b, i) && forall k :: 0 <= k < i ==> a[k] == b[k]
    ensures FallsBehind(a, b, n)
    decreases |b| - i
  {
    n := i;
    if i < |a| && a[i] == b[i] { n := DifferenceFrom(a, b, i + 1); }
  }

  lemma {:induction false} BehindFrom(a: string, b: string, i: nat, n: nat)
    requires i <= n && FallsBehind(a, b, n)
    ensures i <= |a| && i <= |b| && BeforeFrom(a, b, i)
    decreases n - i
  {
    if i < n { BehindFrom(a, b, i + 1, n); }
  }

  function CharBytes(c: char): nat {
    var n := c as int;
    if n < 0x80 then 1 else if n < 0x800 then 2 else if n < 0x1_0000 then 3 else 4
  }

  /** Length in bytes of the UTF-8 encoding. */
  function ByteLength(s: string): nat {
    BytesUpTo(s, |s|)
  }

  function BytesUpTo(s: string, k: nat): nat
    requires k <= |s|
  {
    if k == 0 then 0 else BytesUpTo(s, k - 1) + CharBytes(s[k - 1])
  }

  /** unicode.IsControl. */
  predicate IsControl(c: char) {
    c as int < 0x20 || 0x7F <= c as int < 0xA0
  }

  /** unicode.IsSpace. */
  predicate IsSpace(c: char) {
    var n := c as int;
    || 0x09 <= n <= 0x0D || n == 0x20 || n == 0x85 || n == 0xA0 || n == 0x1680 || 0x2000 <= n <= 0x200A
    || n == 0x2028 || n == 0x2029 || n == 0x202F || n == 0x205F || n == 0x3000
  }

  predicate NoControl(s: string) {
    forall i :: 0 <= i < |s| ==> !IsControl(s[i])
  }

  /** strings.TrimSpace leaves the string alone. */
  predicate Trimmed(s: string) {
    s == [] || (!IsSpace(s[0]) && !IsSpace(s[|s| - 1]))
  }
}
