/** The order in which partitions are interleaved does not matter, as long as nothing is evicted. */
module WindowOrder {
  import opened Common
  import opened WindowModel
  import opened WindowLists
  import opened WindowHistory

  ghost predicate NoEviction(log: seq<Entry>) {
    forall n :: n in log ==> n.evicted == None
  }

  lemma {:induction false} HistoryCount(log: seq<Entry>, entity: string, x: Item)
    requires NoEviction(log)
    ensures multiset(History(log, entity))[x] == multiset(log)[Entry(entity, x, None)]
  {
    if log != [] {
      var init, last := log[..|log| - 1], log[|log| - 1];
      assert log == init + [last];
      assert last in log;
      HistoryCount(init, entity, x);
    }
  }

  lemma {:induction false} SinceCount(s: seq<Item>, c: Time, x: Item)
    ensures multiset(Since(s, c))[x] == if x.at >= c then multiset(s)[x] else 0
  {
    if s != [] {
      assert s == s[..|s| - 1] + [s[|s| - 1]];
      SinceCount(s[..|s| - 1], c, x);
    }
  }

  lemma {:induction false} LatestIsReached(s: seq<Item>)
    ensures LatestTime(s) >= 0
    ensures forall x :: x in s ==> x.at <= LatestTime(s)
    ensures LatestTime(s) == 0 || exists x :: x in s && x.at == LatestTime(s)
  {
    if s != [] {
      var init, last := s[..|s| - 1], s[|s| - 1];
      assert s == init + [last];
      LatestIsReached(init);
      if LatestTime(s) == last.at {
        assert last in s;
      } else if LatestTime(s) != 0 {
        var x :| x in init && x.at == LatestTime(init);
        assert x in s;
      }
    }
  }

  lemma LatestOfSame(a: seq<Item>, b: seq<Item>)
    requires multiset(a) == multiset(b)
    ensures LatestTime(a) == LatestTime(b)
  {
    LatestIsReached(a);
    LatestIsReached(b);
    assert forall x :: x in a <==> x in multiset(a);
    assert forall x :: x in b <==> x in multiset(b);
  }

  /** The same accepted entries give the same history up to order. */
  lemma SameHistories(a: seq<Entry>, b: seq<Entry>, entity: string)
    requires NoEviction(a) && NoEviction(b) && multiset(a) == multiset(b)
    ensures multiset(History(a, entity)) == multiset(History(b, entity))
  {
    forall x: Item ensures multiset(History(a, entity))[x] == multiset(History(b, entity))[x] {
      HistoryCount(a, entity, x);
      HistoryCount(b, entity, x);
    }
  }

  lemma SameWindows(l: Limits, a: seq<Item>, b: seq<Item>)
    requires multiset(a) == multiset(b)
    ensures LatestTime(a) == LatestTime(b) && multiset(Recomputed(l, a)) == multiset(Recomputed(l, b))
  {
    LatestOfSame(a, b);
    var c := LatestTime(a) - l.duration;
    forall x: Item ensures multiset(Since(a, c))[x] == multiset(Since(b, c))[x] {
      SinceCount(a, c, x);
      SinceCount(b, c, x);
    }
  }

  /** What a table shows of one entity, apart from the order of events with equal times. */
  ghost predicate SameView(v: Table, w: Table, entity: string) {
    && (entity in v.watermark <==> entity in w.watermark)
    && v.Mark(entity) == w.Mark(entity)
    && multiset(v.Items(entity)) == multiset(w.Items(entity))
    && Aggregate(entity, v.Items(entity), v.Mark(entity)) == Aggregate(entity, w.Items(entity), w.Mark(entity))
  }

  /** Order independence: two runs that accept the same events, in whatever order and between
      whatever failures and repetitions, and that evict nobody, agree on every entity: the same
      events, watermark, count, sum and maximum. */
  lemma OrderIndependence(l: Limits, a: seq<Call>, b: seq<Call>, entity: string)
    requires l.Valid()
    requires NoEviction(Journal(l, a)) && NoEviction(Journal(l, b))
    requires multiset(Journal(l, a)) == multiset(Journal(l, b))
    ensures SameView(Run(l, a), Run(l, b), entity)
  {
    RunRefinesHistory(l, a, entity);
    RunRefinesHistory(l, b, entity);
    ViewsOfSame(l, Run(l, a), Run(l, b), entity, Journal(l, a), Journal(l, b));
  }

  lemma ViewsOfSame(l: Limits, v: Table, w: Table, entity: string, a: seq<Entry>, b: seq<Entry>)
    requires NoEviction(a) && NoEviction(b) && multiset(a) == multiset(b)
    requires Refines(l, v, entity, History(a, entity)) && Refines(l, w, entity, History(b, entity))
    ensures SameView(v, w, entity)
  {
    var h, k := History(a, entity), History(b, entity);
    SameHistories(a, b, entity);
    SameWindows(l, h, k);
    StableSortFacts(Recomputed(l, h));
    StableSortFacts(Recomputed(l, k));
    OrderDoesNotMatter(v.Items(entity), w.Items(entity));
    assert |multiset(h)| == |h| && |multiset(k)| == |k|;
  }
}
