/** The list facts behind the window: what the stable sort, the cut and the sums do. */
module WindowLists {
  import opened WindowModel

  lemma {:induction false} InsertAfterFacts(s: seq<Item>, x: Item)
    ensures |InsertAfter(s, x)| == |s| + 1
    ensures multiset(InsertAfter(s, x)) == multiset(s) + multiset{x}
    ensures Sorted(s) ==> Sorted(InsertAfter(s, x))
  {
    if s != [] && s[|s| - 1].at > x.at {
      var init, last := s[..|s| - 1], s[|s| - 1];
      assert s == init + [last];
      InsertAfterFacts(init, x);
      var r := InsertAfter(init, x);
      if Sorted(s) {
        SortedInit(s);
        forall i | 0 <= i < |r| ensures r[i].at <= last.at {
          assert r[i] in multiset(r);
          assert r[i] in multiset(init) || r[i] == x;
        }
        SortedAppend(r, last);
      }
    } else if Sorted(s) {
      if s != [] { SortedInit(s); }
      SortedAppend(s, x);
    }
  }

  /** The last item of a sorted list is the latest. */
  lemma SortedInit(s: seq<Item>)
    requires Sorted(s) && s != []
    ensures Sorted(s[..|s| - 1])
    ensures forall y {:trigger y in s[..|s| - 1]} :: y in s[..|s| - 1] ==> y.at <= s[|s| - 1].at
    ensures forall i {:trigger s[i]} :: 0 <= i < |s| ==> s[i].at <= s[|s| - 1].at
  {
    var init := s[..|s| - 1];
    forall i, j ensures InOrder(init, i, j) { assert InOrder(s, i, j); }
    forall i | 0 <= i < |s| ensures s[i].at <= s[|s| - 1].at { assert InOrder(s, i, |s| - 1); }
  }

  lemma SortedAppend(s: seq<Item>, x: Item)
    requires Sorted(s) && forall i :: 0 <= i < |s| ==> s[i].at <= x.at
    ensures Sorted(s + [x])
  {
    var r := s + [x];
    forall i, j ensures InOrder(r, i, j) { assert InOrder(s, i, j); }
  }

  lemma SortedDrop(s: seq<Item>, n: nat)
    requires Sorted(s) && n <= |s|
    ensures Sorted(s[n..])
  {
    forall i, j ensures InOrder(s[n..], i, j) { assert InOrder(s, n + i, n + j); }
  }

  lemma {:induction false} StableSortFacts(s: seq<Item>)
    ensures |StableSort(s)| == |s|
    ensures multiset(StableSort(s)) == multiset(s)
    ensures Sorted(StableSort(s))
  {
    if s != [] {
      var init, last := s[..|s| - 1], s[|s| - 1];
      assert s == init + [last];
      StableSortFacts(init);
      InsertAfterFacts(StableSort(init), last);
    }
  }

  lemma {:induction false} SortOfSorted(s: seq<Item>)
    requires Sorted(s)
    ensures StableSort(s) == s
  {
    if s != [] {
      var init, last := s[..|s| - 1], s[|s| - 1];
      SortedInit(s);
      SortOfSorted(init);
      InsertLast(init, last);
      assert s == init + [last];
    }
  }

  /** Sorting once more after an append only places the new item. */
  lemma SortAppend(s: seq<Item>, x: Item)
    ensures StableSort(StableSort(s) + [x]) == StableSort(s + [x]) == InsertAfter(StableSort(s), x)
  {
    StableSortFacts(s);
    SortOfSorted(StableSort(s));
    assert (StableSort(s) + [x])[..|s|] == StableSort(s);
    assert (s + [x])[..|s|] == s;
  }

  lemma SinceAppend(s: seq<Item>, x: Item, cutoff: Time)
    ensures Since(s + [x], cutoff) == if x.at >= cutoff then Since(s, cutoff) + [x] else Since(s, cutoff)
  {
    assert (s + [x])[..|s|] == s;
  }

  lemma {:induction false} SinceConcat(a: seq<Item>, b: seq<Item>, cutoff: Time)
    ensures Since(a + b, cutoff) == Since(a, cutoff) + Since(b, cutoff)
    decreases |b|
  {
    if b == [] {
      assert a + b == a;
    } else {
      var init, last := b[..|b| - 1], b[|b| - 1];
      assert a + b == a + init + [last];
      SinceConcat(a, init, cutoff);
      SinceAppend(a + init, last, cutoff);
      assert b == init + [last];
    }
  }

  lemma {:induction false} SinceNarrows(s: seq<Item>, a: Time, b: Time)
    requires a <= b
    ensures Since(Since(s, a), b) == Since(s, b)
  {
    if s != [] {
      var init, last := s[..|s| - 1], s[|s| - 1];
      SinceNarrows(init, a, b);
      if last.at >= a { SinceAppend(Since(init, a), last, b); }
    }
  }

  lemma {:induction false} SinceAll(s: seq<Item>, cutoff: Time)
    requires forall i :: 0 <= i < |s| ==> s[i].at >= cutoff
    ensures Since(s, cutoff) == s
  {
    if s != [] {
      SinceAll(s[..|s| - 1], cutoff);
      assert s == s[..|s| - 1] + [s[|s| - 1]];
    }
  }

  lemma {:induction false} SinceNone(s: seq<Item>, cutoff: Time)
    requires forall i :: 0 <= i < |s| ==> s[i].at < cutoff
    ensures Since(s, cutoff) == []
  {
    if s != [] {
      SinceNone(s[..|s| - 1], cutoff);
    }
  }

  /** Every item kept is a retained one, and it is not before the cutoff. */
  lemma {:induction false} SinceMembers(s: seq<Item>, cutoff: Time)
    ensures forall x :: x in Since(s, cutoff) <==> x in s && x.at >= cutoff
    ensures |Since(s, cutoff)| <= |s|
  {
    if s != [] {
      SinceMembers(s[..|s| - 1], cutoff);
      assert s == s[..|s| - 1] + [s[|s| - 1]];
    }
  }

  lemma CutAt(s: seq<Item>, n: nat, cutoff: Time)
    requires n <= |s|
    requires (forall i :: 0 <= i < n ==> s[i].at < cutoff) && (forall i :: n <= i < |s| ==> s[i].at >= cutoff)
    ensures s[n..] == Since(s, cutoff)
  {
    var a, b := s[..n], s[n..];
    SinceConcat(a, b, cutoff);
    SinceNone(a, cutoff);
    SinceAll(b, cutoff);
    assert s == a + b;
  }

  /** On a sorted list the leading cut keeps exactly the items not before the cutoff. */
  lemma CutIsSince(s: seq<Item>, cutoff: Time)
    requires Sorted(s)
    ensures s[Lead(s, cutoff)..] == Since(s, cutoff)
  {
    var n := Lead(s, cutoff);
    forall i | 0 <= i < n ensures s[i].at < cutoff { assert Expires(s, i, cutoff); }
    forall i | n <= i < |s| ensures s[i].at >= cutoff { assert InOrder(s, n, i); }
    CutAt(s, n, cutoff);
  }

  lemma SinceSorted(s: seq<Item>, cutoff: Time)
    requires Sorted(s)
    ensures Sorted(Since(s, cutoff)) && |Since(s, cutoff)| == |s| - Lead(s, cutoff)
  {
    CutIsSince(s, cutoff);
    SortedDrop(s, Lead(s, cutoff));
  }

  lemma {:induction false} SinceInsert(s: seq<Item>, x: Item, cutoff: Time)
    requires Sorted(s)
    ensures Since(InsertAfter(s, x), cutoff) ==
      if x.at >= cutoff then InsertAfter(Since(s, cutoff), x) else Since(s, cutoff)
  {
    if s != [] { SortedInit(s); }
    if s == [] || s[|s| - 1].at <= x.at {
      SinceAppend(s, x, cutoff);
      SinceMembers(s, cutoff);
      if x.at >= cutoff {
        var r := Since(s, cutoff);
        if r != [] { assert r[|r| - 1] in s; }
        InsertLast(r, x);
      }
    } else {
      var init, last := s[..|s| - 1], s[|s| - 1];
      SinceInsert(init, x, cutoff);
      SinceAppend(InsertAfter(init, x), last, cutoff);
      if x.at >= cutoff {
        var r := Since(init, cutoff) + [last];
        assert r[..|r| - 1] == Since(init, cutoff);
      }
    }
  }

  lemma InsertLast(s: seq<Item>, x: Item)
    requires s == [] || s[|s| - 1].at <= x.at
    ensures InsertAfter(s, x) == s + [x]
  {
  }

  /** Dropping what lies before the cutoff commutes with the stable sort. */
  lemma {:induction false} SinceCommutesWithSort(s: seq<Item>, cutoff: Time)
    ensures Since(StableSort(s), cutoff) == StableSort(Since(s, cutoff))
  {
    if s != [] {
      var init, last := s[..|s| - 1], s[|s| - 1];
      SinceCommutesWithSort(init, cutoff);
      StableSortFacts(init);
      SinceInsert(StableSort(init), last, cutoff);
      if last.at >= cutoff {
        var r := Since(init, cutoff) + [last];
        assert r[..|r| - 1] == Since(init, cutoff);
      }
    }
  }

  // ----- stability ------------------------------------------------------------------------

  function AtTime(s: seq<Item>, t: Time): seq<Item> {
    if s == [] then []
    else if s[|s| - 1].at == t then AtTime(s[..|s| - 1], t) + [s[|s| - 1]]
    else AtTime(s[..|s| - 1], t)
  }

  lemma AtTimeAppend(s: seq<Item>, x: Item, t: Time)
    ensures AtTime(s + [x], t) == if x.at == t then AtTime(s, t) + [x] else AtTime(s, t)
  {
    assert (s + [x])[..|s|] == s;
  }

  lemma {:induction false} AtTimeInsert(s: seq<Item>, x: Item, t: Time)
    ensures AtTime(InsertAfter(s, x), t) == if x.at == t then AtTime(s, t) + [x] else AtTime(s, t)
  {
    if s == [] || s[|s| - 1].at <= x.at {
      AtTimeAppend(s, x, t);
    } else {
      var init, last := s[..|s| - 1], s[|s| - 1];
      AtTimeInsert(init, x, t);
      AtTimeAppend(InsertAfter(init, x), last, t);
    }
  }

  /** Events with equal times keep their acceptance order. */
  lemma {:induction false} SortIsStable(s: seq<Item>, t: Time)
    ensures AtTime(StableSort(s), t) == AtTime(s, t)
  {
    if s != [] {
      var init, last := s[..|s| - 1], s[|s| - 1];
      SortIsStable(init, t);
      AtTimeInsert(StableSort(init), last, t);
    }
  }

  // ----- sums and maxima ------------------------------------------------------------------

  lemma {:induction false} TotalConcat(a: seq<Item>, b: seq<Item>)
    ensures Total(a + b) == Total(a) + Total(b)
    decreases |b|
  {
    if b == [] {
      assert a + b == a;
    } else {
      var init := b[..|b| - 1];
      assert (a + b)[..|a + b| - 1] == a + init;
      TotalConcat(a, init);
    }
  }

  function Bigger(x: real, y: real): real {
    if x > y then x else y
  }

  lemma {:induction false} LargestConcat(a: seq<Item>, b: seq<Item>)
    ensures Largest(a + b) == Bigger(Largest(a), Largest(b))
    decreases |b|
  {
    LargestNonNegative(a);
    if b == [] {
      assert a + b == a;
    } else {
      var init := b[..|b| - 1];
      assert (a + b)[..|a + b| - 1] == a + init;
      LargestConcat(a, init);
    }
  }

  lemma {:induction false} LargestNonNegative(s: seq<Item>)
    ensures Largest(s) >= 0.0
  {
    if s != [] { LargestNonNegative(s[..|s| - 1]); }
  }

  lemma RemoveAt(s: seq<Item>, i: nat)
    requires i < |s|
    ensures Total(s) == Total(s[..i] + s[i + 1..]) + s[i].amount
    ensures Largest(s) == Bigger(Largest(s[..i] + s[i + 1..]), Bigger(0.0, s[i].amount))
    ensures multiset(s) == multiset(s[..i] + s[i + 1..]) + multiset{s[i]}
  {
    var a, b := s[..i], s[i + 1..];
    assert s == a + [s[i]] + b;
    TotalConcat(a + [s[i]], b);
    TotalConcat(a, [s[i]]);
    TotalConcat(a, b);
    LargestConcat(a + [s[i]], b);
    LargestConcat(a, [s[i]]);
    LargestConcat(a, b);
    assert [s[i]][..0] == [];
    LargestNonNegative(a);
    LargestNonNegative(b);
  }

  /** Sum and maximum depend only on which items there are, not on their order. */
  lemma {:induction false} OrderDoesNotMatter(a: seq<Item>, b: seq<Item>)
    requires multiset(a) == multiset(b)
    ensures |a| == |b| && Total(a) == Total(b) && Largest(a) == Largest(b)
    decreases |a|
  {
    assert |multiset(a)| == |a| && |multiset(b)| == |b|;
    if a != [] {
      var init, last := a[..|a| - 1], a[|a| - 1];
      assert a == init + [last];
      assert last in multiset(b);
      var i :| 0 <= i < |b| && b[i] == last;
      RemoveAt(b, i);
      var rest := b[..i] + b[i + 1..];
      assert multiset(init) == multiset(a) - multiset{last};
      assert multiset(rest) == multiset(b) - multiset{last};
      OrderDoesNotMatter(init, rest);
      LargestNonNegative(init);
    }
  }

  /** With non-negative amounts the maximum never exceeds the sum, and prefixes never exceed the whole. */
  lemma {:induction false} LargestWithinTotal(s: seq<Item>)
    requires forall i :: 0 <= i < |s| ==> s[i].amount >= 0.0
    ensures 0.0 <= Largest(s) <= Total(s)
  {
    if s != [] { LargestWithinTotal(s[..|s| - 1]); }
  }

  lemma {:induction false} PrefixTotal(s: seq<Item>, n: nat)
    requires n <= |s| && forall i :: 0 <= i < |s| ==> s[i].amount >= 0.0
    ensures Total(s[..n]) <= Total(s)
    decreases |s|
  {
    if n < |s| {
      PrefixTotal(s[..|s| - 1], n);
      assert s[..|s| - 1][..n] == s[..n];
    } else {
      assert s[..n] == s;
    }
  }
}
