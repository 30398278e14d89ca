/** Small datatypes shared by every module. */
module Common {
  datatype Option<+T> = None | Some(value: T)

  /** Removing a member of a set leaves one element fewer. */
  lemma SetMinusOne<T>(s: set<T>, x: T)
    requires x in s
    ensures |s - {x}| == |s| - 1
  {
    assert s == (s - {x}) + {x};
  }

  /** A set with members has one to name. */
  lemma AnyOf<T>(s: set<T>) returns (x: T)
    requires |s| > 0
    ensures x in s
  {
    x :| x in s;
  }

  /** A finite set of integers that all lie in a half-open window is no larger than the window. */
  lemma {:induction false} WindowBoundsCardinality(s: set<int>, lo: int, hi: int)
    requires lo <= hi
    requires forall x {:trigger x in s} :: x in s ==> lo <= x < hi
    ensures |s| <= hi - lo
    decreases hi - lo
  {
    if lo == hi {
      if |s| > 0 {
        var x := AnyOf(s);
        assert false;
      }
    } else if lo in s {
      SetMinusOne(s, lo);
      WindowBoundsCardinality(s - {lo}, lo + 1, hi);
    } else {
      WindowBoundsCardinality(s, lo + 1, hi);
    }
  }
}
