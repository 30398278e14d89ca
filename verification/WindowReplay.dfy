/** Finished deliveries of the same logs: what the interruptions and interleavings leave behind. */
module WindowReplay {
  import opened Common
  import opened WindowModel
  import opened WindowInvariant
  import opened WindowHistory
  import opened WindowOrder
  import opened WindowDelivery

  /** Every record of every partition has been committed. */
  ghost predicate Finished(logs: Logs, d: Delivery) {
    forall p :: p in logs ==> p in d.committed && d.committed[p] == |logs[p]|
  }

  /** A log applied once, without any failure. */
  function Once(log: seq<Event>): seq<Call> {
    if log == [] then [] else Once(log[..|log| - 1]) + [Call(log[|log| - 1], true)]
  }

  lemma {:induction false} OnlyOnePartition(done: seq<Call>, p: int)
    requires forall c :: c in done ==> c.sinkOk && c.event.partition == p
    ensures done == Once(Project(done, p))
  {
    if done != [] {
      var init, last := done[..|done| - 1], done[|done| - 1];
      assert done == init + [last];
      assert last in done && forall c :: c in init ==> c in done;
      OnlyOnePartition(init, p);
      assert Project(done, p)[..|Project(init, p)|] == Project(init, p);
    }
  }

  /** With one partition, a finished delivery without dead letters leaves exactly the state of
      applying the log once. */
  lemma OnePartitionReplays(l: Limits, p: int, log: seq<Event>, acts: seq<Action>)
    requires LogsOk(map[p := log]) && NoDeadLetters(acts) && Finished(map[p := log], After(l, map[p := log], acts))
    ensures After(l, map[p := log], acts).window == Run(l, Once(log))
  {
    var logs := map[p := log];
    OneLogDone(l, p, log, acts);
    FinishedIsWhole(l, logs, acts, p);
  }

  /** All accepted records of a finished delivery without dead letters are all records. */
  lemma FinishedIsWhole(l: Limits, logs: Logs, acts: seq<Action>, p: int)
    requires LogsOk(logs) && NoDeadLetters(acts) && Finished(logs, After(l, logs, acts)) && p in logs
    ensures Project(Achieved(l, logs, acts).done, p) == logs[p]
  {
    WithoutDeadLetters(l, logs, acts, p);
    assert logs[p][..|logs[p]|] == logs[p];
  }

  lemma OneLogDone(l: Limits, p: int, log: seq<Event>, acts: seq<Action>)
    requires LogsOk(map[p := log])
    ensures var done := Achieved(l, map[p := log], acts).done;
            After(l, map[p := log], acts).window == Run(l, done) && done == Once(Project(done, p))
  {
    var logs := map[p := log];
    EveryTraceKeepsInv(l, logs, acts);
    var done := Achieved(l, logs, acts).done;
    forall c | c in done ensures c.sinkOk && c.event.partition == p { assert c.event.partition in logs; }
    OnlyOnePartition(done, p);
  }

  // ----- no eviction when the entities fit ------------------------------------------------

  ghost predicate Fits(l: Limits, calls: seq<Call>, names: set<string>) {
    |names| <= l.maxEntities && forall c {:trigger c in calls} :: c in calls ==> c.event.entity in names
  }

  lemma RoomForOneMore(l: Limits, w: Table, e: Event, names: set<string>)
    requires KeysOk(l, w) && w.watermark.Keys <= names && e.entity in names && |names| <= l.maxEntities
    ensures Victim(l, w, e) == None
  {
    if e.entity !in w.watermark {
      assert w.watermark.Keys + {e.entity} <= names;
      Subset(w.watermark.Keys + {e.entity}, names);
      assert |w.watermark| == |w.watermark.Keys|;
    }
  }

  lemma Subset(a: set<string>, b: set<string>)
    requires a <= b
    ensures |a| <= |b|
  {
    assert b == a + (b - a);
  }

  lemma CommitNames(l: Limits, w: Table, e: Event)
    requires Prepare(l, w, e).Accepted?
    ensures Commit(l, w, e, Prepare(l, w, e).update).watermark.Keys <= w.watermark.Keys + {e.entity}
  {
  }

  lemma {:induction false} FewEntitiesStay(l: Limits, calls: seq<Call>, names: set<string>)
    requires l.Valid() && Fits(l, calls, names)
    ensures NoEviction(Journal(l, calls)) && Run(l, calls).watermark.Keys <= names
  {
    if calls != [] {
      var init, c := calls[..|calls| - 1], calls[|calls| - 1];
      assert c in calls && forall d :: d in init ==> d in calls;
      FewEntitiesStay(l, init, names);
      RunOk(l, init);
      RoomForOneMore(l, Run(l, init), c.event, names);
      if Commits(l, Run(l, init), c) {
        CommitNames(l, Run(l, init), c.event);
      } else {
        NoCommitNoChange(l, Run(l, init), c.event, c.sinkOk);
      }
    }
  }

  // ----- the same records, in any order ---------------------------------------------------

  lemma {:induction false} ProjectCount(done: seq<Call>, e: Event)
    requires forall c :: c in done ==> c.sinkOk
    ensures multiset(done)[Call(e, true)] == multiset(Project(done, e.partition))[e]
  {
    if done != [] {
      var init, last := done[..|done| - 1], done[|done| - 1];
      assert done == init + [last];
      assert last in done && forall c :: c in init ==> c in done;
      ProjectCount(init, e);
    }
  }

  lemma {:induction false} ForeignPartition(done: seq<Call>, p: int)
    requires forall c :: c in done ==> c.event.partition != p
    ensures Project(done, p) == []
  {
    if done != [] {
      var init, last := done[..|done| - 1], done[|done| - 1];
      assert last in done && forall c :: c in init ==> c in done;
      ForeignPartition(init, p);
    }
  }

  /** Two lists of accepted calls carry the same records. */
  ghost predicate SameAccepted(logs: Logs, a: seq<Call>, b: seq<Call>) {
    forall p {:trigger Project(a, p)} {:trigger Project(b, p)} :: p in logs ==> Project(a, p) == Project(b, p)
  }

  lemma SameRecords(l: Limits, logs: Logs, a: seq<Call>, b: seq<Call>)
    requires AllGood(l, logs, a) && AllGood(l, logs, b) && SameAccepted(logs, a, b)
    ensures multiset(a) == multiset(b)
  {
    forall c: Call ensures multiset(a)[c] == multiset(b)[c] {
      if c.sinkOk {
        ProjectCount(a, c.event);
        ProjectCount(b, c.event);
        if c.event.partition !in logs {
          ForeignPartition(a, c.event.partition);
          ForeignPartition(b, c.event.partition);
        }
        assert c == Call(c.event, true);
      } else {
        assert c !in a && c !in b;
      }
    }
  }

  function PlainEntry(c: Call): Entry {
    Entry(c.event.entity, ItemOf(c.event), None)
  }

  /** The journal entries of events accepted without an eviction. */
  function Plain(done: seq<Call>): seq<Entry> {
    seq(|done|, i requires 0 <= i < |done| => PlainEntry(done[i]))
  }

  lemma PlainAppend(done: seq<Call>, c: Call)
    ensures Plain(done + [c]) == Plain(done) + [PlainEntry(c)]
  {
  }

  /** When every call is accepted, the last one adds the last entry. */
  lemma JournalLast(l: Limits, init: seq<Call>, c: Call)
    requires |Journal(l, init + [c])| == |init| + 1
    ensures |Journal(l, init)| == |init|
    ensures Journal(l, init + [c]) == Journal(l, init) + [EntryOf(l, Run(l, init), c.event)]
  {
    assert (init + [c])[..|init|] == init;
    JournalIsShort(l, init);
  }

  lemma {:induction false} JournalIsPlain(l: Limits, done: seq<Call>)
    requires |Journal(l, done)| == |done| && NoEviction(Journal(l, done))
    ensures Journal(l, done) == Plain(done)
  {
    if done != [] {
      var init, last := done[..|done| - 1], done[|done| - 1];
      assert done == init + [last];
      JournalLast(l, init, last);
      NoEvictionSplits(Journal(l, init), EntryOf(l, Run(l, init), last.event));
      JournalIsPlain(l, init);
      PlainAppend(init, last);
    }
  }

  lemma NoEvictionSplits(log: seq<Entry>, n: Entry)
    requires NoEviction(log + [n])
    ensures NoEviction(log) && n.evicted == None
  {
    assert n in log + [n];
    assert forall m :: m in log ==> m in log + [n];
  }

  lemma {:induction false} JournalIsShort(l: Limits, done: seq<Call>)
    ensures |Journal(l, done)| <= |done|
  {
    if done != [] { JournalIsShort(l, done[..|done| - 1]); }
  }

  lemma PlainRemove(b: seq<Call>, i: nat)
    requires i < |b|
    ensures multiset(b) == multiset(b[..i] + b[i + 1..]) + multiset{b[i]}
    ensures multiset(Plain(b)) == multiset(Plain(b[..i] + b[i + 1..])) + multiset{PlainEntry(b[i])}
  {
    var lo, hi := b[..i], b[i + 1..];
    assert b == lo + [b[i]] + hi;
    assert Plain(b) == Plain(lo) + [PlainEntry(b[i])] + Plain(hi);
    assert Plain(lo + hi) == Plain(lo) + Plain(hi);
  }

  lemma {:induction false} PlainOfSame(a: seq<Call>, b: seq<Call>)
    requires multiset(a) == multiset(b)
    ensures multiset(Plain(a)) == multiset(Plain(b))
    decreases |a|
  {
    assert |multiset(a)| == |a| && |multiset(b)| == |b|;
    if a != [] {
      var init, last := a[..|a| - 1], a[|a| - 1];
      assert a == init + [last];
      assert last in multiset(b);
      var i :| 0 <= i < |b| && b[i] == last;
      PlainRemove(b, i);
      assert Plain(a) == Plain(init) + [PlainEntry(last)];
      var rest := b[..i] + b[i + 1..];
      assert multiset(init) == multiset(a) - multiset{last};
      assert multiset(rest) == multiset(b) - multiset{last};
      PlainOfSame(init, rest);
    }
  }

  // ----- agreement ------------------------------------------------------------------------

  /** The table has room for every entity named in the logs. */
  ghost predicate RoomForAll(l: Limits, logs: Logs, names: set<string>) {
    && |names| <= l.maxEntities
    && forall p, i :: p in logs && 0 <= i < |logs[p]| ==> logs[p][i].entity in names
  }

  lemma NamesOfDone(l: Limits, logs: Logs, acts: seq<Action>, names: set<string>)
    requires LogsOk(logs) && RoomForAll(l, logs, names)
    ensures Fits(l, Achieved(l, logs, acts).done, names)
  {
    EveryTraceKeepsInv(l, logs, acts);
    var d, x := After(l, logs, acts), Achieved(l, logs, acts);
    forall c | c in x.done ensures c.event.entity in names {
      var p := c.event.partition;
      assert PartitionOk(logs, d, x, p);
      DoneIsProjected(x.done, c);
      var j :| 0 <= j < |Project(x.done, p)| && Project(x.done, p)[j] == c.event;
      assert logs[p][x.taken[p][j]] == c.event;
    }
  }

  lemma DeliveriesOfSame(l: Limits, logs: Logs, acts: seq<Action>, others: seq<Action>, names: set<string>, entity: string)
    requires l.Valid() && LogsOk(logs) && RoomForAll(l, logs, names)
    requires SameAccepted(logs, Achieved(l, logs, acts).done, Achieved(l, logs, others).done)
    ensures SameView(After(l, logs, acts).window, After(l, logs, others).window, entity)
  {
    var a, b := Achieved(l, logs, acts).done, Achieved(l, logs, others).done;
    EveryTraceKeepsInv(l, logs, acts);
    EveryTraceKeepsInv(l, logs, others);
    NamesOfDone(l, logs, acts, names);
    NamesOfDone(l, logs, others, names);
    FewEntitiesStay(l, a, names);
    FewEntitiesStay(l, b, names);
    SameRecords(l, logs, a, b);
    PlainOfSame(a, b);
    JournalIsPlain(l, a);
    JournalIsPlain(l, b);
    OrderIndependence(l, a, b, entity);
  }

  /** Two deliveries of the same logs that have accepted the same records, through whatever failures,
      dead letters and interleavings, agree on every entity when the table has room for all of them. */
  lemma DeliveriesAgree(l: Limits, logs: Logs, acts: seq<Action>, others: seq<Action>, names: set<string>, entity: string)
    requires l.Valid() && LogsOk(logs) && RoomForAll(l, logs, names)
    requires Achieved(l, logs, acts).taken == Achieved(l, logs, others).taken
    ensures SameView(After(l, logs, acts).window, After(l, logs, others).window, entity)
  {
    var x, y := Achieved(l, logs, acts), Achieved(l, logs, others);
    EveryTraceKeepsInv(l, logs, acts);
    EveryTraceKeepsInv(l, logs, others);
    forall p | p in logs ensures Project(x.done, p) == Project(y.done, p) {
      assert PartitionOk(logs, After(l, logs, acts), x, p);
      assert PartitionOk(logs, After(l, logs, others), y, p);
      SameTaken(logs[p], Project(x.done, p), Project(y.done, p), x.taken[p], x.front[p], y.front[p]);
    }
    DeliveriesOfSame(l, logs, acts, others, names, entity);
  }

  lemma SameTaken(log: seq<Event>, a: seq<Event>, b: seq<Event>, ix: seq<nat>, m: nat, n: nat)
    requires TakenInOrder(log, a, ix, m) && TakenInOrder(log, b, ix, n)
    ensures a == b
  {
    forall k | 0 <= k < |ix| ensures a[k] == b[k] { assert a[k] == log[ix[k]]; }
  }

  /** In particular any two finished deliveries without dead letters. */
  lemma FinishedDeliveriesAgree(l: Limits, logs: Logs, acts: seq<Action>, others: seq<Action>, names: set<string>, entity: string)
    requires l.Valid() && LogsOk(logs) && RoomForAll(l, logs, names)
    requires NoDeadLetters(acts) && Finished(logs, After(l, logs, acts))
    requires NoDeadLetters(others) && Finished(logs, After(l, logs, others))
    ensures SameView(After(l, logs, acts).window, After(l, logs, others).window, entity)
  {
    var a, b := Achieved(l, logs, acts).done, Achieved(l, logs, others).done;
    forall p | p in logs ensures Project(a, p) == Project(b, p) {
      FinishedIsWhole(l, logs, acts, p);
      FinishedIsWhole(l, logs, others, p);
    }
    DeliveriesOfSame(l, logs, acts, others, names, entity);
  }
}
