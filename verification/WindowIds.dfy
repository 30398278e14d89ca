/** Why the logs' ids must be unique across partitions: with a shared id, a restart becomes visible. */
module WindowIds {
  import opened Common
  import opened Strings
  import opened WindowModel
  import opened WindowHistory
  import opened WindowDelivery

  const LIMITS := Limits(10, 2, 10, 100.0)

  /** Partition 0 carries id "a" and, long after it, id "b"; partition 1 carries id "a" again. */
  const A := Event("a", "x", 1.0, 1, 0, 0)
  const B := Event("b", "x", 2.0, 100, 0, 1)
  const AGAIN := Event("a", "y", 4.0, 100, 1, 0)
  const LOGS: Logs := map[0 := [A, B], 1 := [AGAIN]]

  lemma NamesAreValid()
    ensures ValidEvent(LIMITS, A) && ValidEvent(LIMITS, B) && ValidEvent(LIMITS, AGAIN)
  {
    assert BytesUpTo("a", 1) == 1 && BytesUpTo("b", 1) == 1 && BytesUpTo("x", 1) == 1 && BytesUpTo("y", 1) == 1;
  }

  /** An event on a list that it finds empty. */
  lemma OnEmptyList(mark: Time, e: Event)
    ensures Since([], mark - LIMITS.duration) == [] && Lead([], mark - LIMITS.duration) == 0
    ensures StableSort([ItemOf(e)]) == [ItemOf(e)] && Total([ItemOf(e)]) == e.amount && Ids([ItemOf(e)]) == {e.id}
  {
    assert [ItemOf(e)][..0] == [];
    assert StableSort([]) == [] && Total([]) == 0.0;
    assert InsertAfter([], ItemOf(e)) == [] + [ItemOf(e)];
    assert [ItemOf(e)][0].id in Ids([ItemOf(e)]);
  }

  const AFTER_A := Table(map["x" := [ItemOf(A)]], {"a"}, map[0 := 0], map["x" := 1], map["x" := 1], 1)
  const AFTER_B := Table(map["x" := [ItemOf(B)]], {"b"}, map[0 := 1], map["x" := 100], map["x" := 100], 1)

  /** The update for a first event of an entity. */
  lemma FirstDraft(e: Event)
    requires e.at > 0
    ensures var u := Draft(LIMITS, e, [], 0, None);
            && u.items == [ItemOf(e)] && u.mark == e.at && u.expired == [] && u.evict == None
            && Total(u.items) == e.amount && forall others :: Projected(LIMITS, e, u, others) == others + 1
  {
    OnEmptyList(e.at, e);
    assert [] + [ItemOf(e)] == [ItemOf(e)];
  }

  lemma Accepts(w: Table, e: Event, u: Update)
    requires ValidEvent(LIMITS, e) && !Stale(w, e) && Victim(LIMITS, w, e) == None
    requires u == Draft(LIMITS, e, w.Items(e.entity), w.Mark(e.entity), None)
    requires Projected(LIMITS, e, u, w.eventCount) <= 10 && Total(u.items) <= 100.0
    ensures Prepare(LIMITS, w, e) == Accepted(u)
  {
  }

  lemma CommitA(u: Update)
    requires u.items == [ItemOf(A)] && u.mark == 1 && u.expired == [] && u.evict == None
    ensures Commit(LIMITS, EMPTY_TABLE, A, u) == AFTER_A
  {
    assert Ids([]) == {};
  }

  lemma AcceptA()
    ensures Commits(LIMITS, EMPTY_TABLE, Call(A, true)) && Apply(LIMITS, EMPTY_TABLE, A, true) == AFTER_A
  {
    NamesAreValid();
    FirstDraft(A);
    var u := Draft(LIMITS, A, [], 0, None);
    CommitA(u);
    assert Victim(LIMITS, EMPTY_TABLE, A) == None;
    Accepts(EMPTY_TABLE, A, u);
  }

  /** Partition 1's record is taken for a repeat while "a" is remembered. */
  lemma IgnoreAgain()
    ensures Prepare(LIMITS, AFTER_A, AGAIN).Ignored?
  {
    NamesAreValid();
  }

  lemma DraftB()
    ensures var u := Draft(LIMITS, B, [ItemOf(A)], 1, None);
            && u.items == [ItemOf(B)] && u.mark == 100 && u.expired == [ItemOf(A)] && u.evict == None
            && Total(u.items) == 2.0 && Projected(LIMITS, B, u, 1) == 1
  {
    OnEmptyList(100, B);
    var s := [ItemOf(A)];
    assert s[..0] == [];
    assert Since(s, 90) == [];
    assert LeadFrom(s, 90, 0) == LeadFrom(s, 90, 1) == 1;
    assert s[..1] == s && [] + [ItemOf(B)] == [ItemOf(B)];
  }

  lemma CommitB(u: Update)
    requires u.items == [ItemOf(B)] && u.mark == 100 && u.expired == [ItemOf(A)] && u.evict == None
    ensures Commit(LIMITS, AFTER_A, B, u) == AFTER_B
  {
    OnEmptyList(1, A);
  }

  /** "b" comes so late that "a" expires and is forgotten. */
  lemma AcceptB()
    ensures Commits(LIMITS, AFTER_A, Call(B, true)) && Apply(LIMITS, AFTER_A, B, true) == AFTER_B
  {
    NamesAreValid();
    DraftB();
    var u := Draft(LIMITS, B, [ItemOf(A)], 1, None);
    CommitB(u);
    assert Victim(LIMITS, AFTER_A, B) == None;
    Accepts(AFTER_A, B, u);
  }

  /** From then on partition 1's record is new. */
  lemma AcceptAgain()
    ensures Commits(LIMITS, AFTER_B, Call(AGAIN, true)) && "y" in Apply(LIMITS, AFTER_B, AGAIN, true).watermark
  {
    NamesAreValid();
    FirstDraft(AGAIN);
    var u := Draft(LIMITS, AGAIN, [], 0, None);
    TracksAgain(u);
    AgainIsNew();
    Accepts(AFTER_B, AGAIN, u);
  }

  lemma AgainIsNew()
    ensures !Stale(AFTER_B, AGAIN) && Victim(LIMITS, AFTER_B, AGAIN) == None
    ensures AFTER_B.Items("y") == [] && AFTER_B.Mark("y") == 0
  {
  }

  lemma TracksAgain(u: Update)
    ensures "y" in Commit(LIMITS, AFTER_B, AGAIN, u).watermark
  {
  }

  // ----- two traces -----------------------------------------------------------------------

  /** The next record of a partition is fetched and handled. */
  ghost function Handle(d: Delivery, p: int): Delivery {
    Step(LIMITS, LOGS, Step(LIMITS, LOGS, d, Fetch(p)), Attempt(true))
  }

  lemma AfterHandle(acts: seq<Action>, p: int)
    ensures After(LIMITS, LOGS, acts + [Fetch(p), Attempt(true)]) == Handle(After(LIMITS, LOGS, acts), p)
  {
    var one, two := acts + [Fetch(p)], acts + [Fetch(p), Attempt(true)];
    assert one[..|acts|] == acts && two[..|acts| + 1] == one;
  }

  lemma AfterOne(acts: seq<Action>, a: Action)
    ensures After(LIMITS, LOGS, acts + [a]) == Step(LIMITS, LOGS, After(LIMITS, LOGS, acts), a)
  {
    assert (acts + [a])[..|acts|] == acts;
  }

  /** Both partitions stand at these positions, idle, with this window. */
  predicate Stands(d: Delivery, w: Table, at0: nat, at1: nat) {
    && d.window == w && d.stage.Idle? && d.cursor.Keys == d.committed.Keys == {0, 1}
    && d.cursor[0] == d.committed[0] == at0 && d.cursor[1] == d.committed[1] == at1
  }

  lemma Handled(d: Delivery, p: int, w': Table)
    requires d.stage.Idle? && p in LOGS && p in d.cursor && d.cursor[p] < |LOGS[p]|
    requires Succeeds(LIMITS, d.window, LOGS[p][d.cursor[p]], true) && Apply(LIMITS, d.window, LOGS[p][d.cursor[p]], true) == w'
    ensures var d' := Handle(d, p);
            && d'.window == w' && d'.stage == Passed(p, d.cursor[p])
            && d'.cursor == d.cursor[p := d.cursor[p] + 1] && d'.committed == d.committed
  {
  }

  lemma Settled(d: Delivery, d': Delivery, p: int, w: Table, at0: nat, at1: nat)
    requires Stands(d, w, at0, at1) && (p == 0 || p == 1) && d'.stage == Passed(p, d.cursor[p])
    requires d'.cursor == d.cursor[p := d.cursor[p] + 1] && d'.committed == d.committed
    ensures Stands(Step(LIMITS, LOGS, d', Settle), d'.window, if p == 0 then at0 + 1 else at0, if p == 1 then at1 + 1 else at1)
  {
  }

  /** A record is fetched, handled and committed. */
  lemma Through(acts: seq<Action>, p: int, w: Table, at0: nat, at1: nat, w': Table) returns (more: seq<Action>)
    requires Stands(After(LIMITS, LOGS, acts), w, at0, at1) && ((p == 0 && at0 < 2) || (p == 1 && at1 < 1))
    requires var e := LOGS[p][if p == 0 then at0 else at1];
             Succeeds(LIMITS, w, e, true) && Apply(LIMITS, w, e, true) == w'
    ensures more == acts + [Fetch(p), Attempt(true)] + [Settle]
    ensures Stands(After(LIMITS, LOGS, more), w', if p == 0 then at0 + 1 else at0, if p == 1 then at1 + 1 else at1)
  {
    AfterHandle(acts, p);
    Handled(After(LIMITS, LOGS, acts), p, w');
    Settled(After(LIMITS, LOGS, acts), Handle(After(LIMITS, LOGS, acts), p), p, w, at0, at1);
    AfterOne(acts + [Fetch(p), Attempt(true)], Settle);
    more := acts + [Fetch(p), Attempt(true)] + [Settle];
  }

  /** A record is fetched and handled, but not committed before a restart. */
  lemma Interrupted(acts: seq<Action>, w: Table) returns (more: seq<Action>)
    requires Stands(After(LIMITS, LOGS, acts), w, 1, 0) && Prepare(LIMITS, w, AGAIN).Ignored?
    ensures more == acts + [Fetch(1), Attempt(true)] + [Restart]
    ensures Stands(After(LIMITS, LOGS, more), w, 1, 0)
  {
    AfterHandle(acts, 1);
    NoCommitNoChange(LIMITS, w, AGAIN, true);
    Handled(After(LIMITS, LOGS, acts), 1, w);
    AfterOne(acts + [Fetch(1), Attempt(true)], Restart);
    more := acts + [Fetch(1), Attempt(true)] + [Restart];
  }

  lemma AtTheStart()
    ensures Stands(After(LIMITS, LOGS, []), EMPTY_TABLE, 0, 0)
  {
    assert LOGS.Keys == {0, 1};
  }

  lemma FirstThrough() returns (acts: seq<Action>)
    ensures |acts| == 3 && Stands(After(LIMITS, LOGS, acts), AFTER_A, 1, 0)
  {
    AtTheStart();
    AcceptA();
    acts := Through([], 0, EMPTY_TABLE, 0, 0, AFTER_A);
  }

  lemma SecondThrough(acts: seq<Action>, at1: nat) returns (more: seq<Action>)
    requires Stands(After(LIMITS, LOGS, acts), AFTER_A, 1, at1)
    ensures |more| == |acts| + 3 && Stands(After(LIMITS, LOGS, more), AFTER_B, 2, at1)
  {
    AcceptB();
    more := Through(acts, 0, AFTER_A, 1, at1, AFTER_B);
  }

  lemma Smooth() returns (acts: seq<Action>)
    ensures |acts| == 9 && Stands(After(LIMITS, LOGS, acts), AFTER_B, 2, 1)
  {
    var first := FirstThrough();
    IgnoreAgain();
    NoCommitNoChange(LIMITS, AFTER_A, AGAIN, true);
    var second := Through(first, 1, AFTER_A, 1, 0, AFTER_A);
    acts := SecondThrough(second, 1);
  }

  lemma WithRestart() returns (acts: seq<Action>)
    ensures |acts| == 12 && Stands(After(LIMITS, LOGS, acts), Apply(LIMITS, AFTER_B, AGAIN, true), 2, 1)
  {
    var first := FirstThrough();
    IgnoreAgain();
    var back := Interrupted(first, AFTER_A);
    var third := SecondThrough(back, 0);
    AcceptAgain();
    acts := Through(third, 1, AFTER_B, 2, 0, Apply(LIMITS, AFTER_B, AGAIN, true));
  }

  /** With the id "a" in both partitions, two finished deliveries differ: the one that a restart
      interrupted has accepted the second "a", the other has not. */
  lemma SharedIdsMakeRestartsVisible() returns (smooth: seq<Action>, interrupted: seq<Action>)
    ensures !LogsOk(LOGS) && |smooth| == 9 && |interrupted| == 12
    ensures Stands(After(LIMITS, LOGS, smooth), After(LIMITS, LOGS, smooth).window, 2, 1)
    ensures Stands(After(LIMITS, LOGS, interrupted), After(LIMITS, LOGS, interrupted).window, 2, 1)
    ensures "y" !in After(LIMITS, LOGS, smooth).window.watermark && "y" in After(LIMITS, LOGS, interrupted).window.watermark
  {
    assert LOGS[0][0].id == LOGS[1][0].id;
    AcceptAgain();
    smooth := Smooth();
    interrupted := WithRestart();
  }
}
