/** What committing means for the reader: a settled record is never handed out again, an attempt passes
    exactly when the event is admissible, and every interrupted delivery can be finished. */
module WindowCommits {
  import opened Common
  import opened WindowModel
  import opened WindowInvariant
  import opened WindowAdmission
  import opened WindowHistory
  import opened WindowDelivery

  // ----- positions ------------------------------------------------------------------------

  ghost predicate PlaceOk(logs: Logs, d: Delivery, p: int) {
    p in d.committed && p in d.cursor && p in logs && d.committed[p] <= d.cursor[p] <= |logs[p]|
  }

  /** The record in hand is the one before the reader's position, and not settled. */
  ghost predicate HandOk(d: Delivery) {
    !d.stage.Idle? ==>
      d.stage.p in d.cursor && d.stage.p in d.committed && d.stage.i + 1 == d.cursor[d.stage.p] && d.committed[d.stage.p] <= d.stage.i
  }

  ghost predicate PlacesOk(logs: Logs, d: Delivery) {
    HandOk(d) && forall p {:trigger PlaceOk(logs, d, p)} :: p in logs ==> PlaceOk(logs, d, p)
  }

  /** Each step keeps the positions in order, and the committed ones never fall. */
  lemma StepPlaces(l: Limits, logs: Logs, d: Delivery, a: Action)
    requires PlacesOk(logs, d)
    ensures PlacesOk(logs, Step(l, logs, d, a))
    ensures forall p {:trigger Step(l, logs, d, a).committed[p]} :: p in logs ==>
      p in Step(l, logs, d, a).committed && d.committed[p] <= Step(l, logs, d, a).committed[p]
  {
    var d' := Step(l, logs, d, a);
    assert a.Fetch? && a.p in logs ==> PlaceOk(logs, d, a.p);
    forall p | p in logs ensures PlaceOk(logs, d', p) && d.committed[p] <= d'.committed[p] {
      assert PlaceOk(logs, d, p);
    }
  }

  lemma {:induction false} PlacesAreKept(l: Limits, logs: Logs, acts: seq<Action>)
    ensures PlacesOk(logs, After(l, logs, acts))
  {
    if acts != [] {
      var init := acts[..|acts| - 1];
      PlacesAreKept(l, logs, init);
      StepPlaces(l, logs, After(l, logs, init), acts[|acts| - 1]);
    }
  }

  lemma {:induction false} CommitsNeverFall(l: Limits, logs: Logs, acts: seq<Action>, n: nat, m: nat, p: int)
    requires n <= m <= |acts| && p in logs
    ensures p in After(l, logs, acts[..n]).committed && p in After(l, logs, acts[..m]).committed
    ensures After(l, logs, acts[..n]).committed[p] <= After(l, logs, acts[..m]).committed[p]
    decreases m
  {
    PlacesAreKept(l, logs, acts[..n]);
    assert PlaceOk(logs, After(l, logs, acts[..n]), p);
    if n < m {
      CommitsNeverFall(l, logs, acts, n, m - 1, p);
      assert acts[..m][..m - 1] == acts[..m - 1];
      PlacesAreKept(l, logs, acts[..m - 1]);
      StepPlaces(l, logs, After(l, logs, acts[..m - 1]), acts[m - 1]);
      assert p in Step(l, logs, After(l, logs, acts[..m - 1]), acts[m - 1]).committed;
    }
  }

  /** A settled record is never handed out again, whatever fails and restarts afterwards: every record
      of its partition in hand at any later point lies behind it. */
  lemma SettledIsNeverRefetched(l: Limits, logs: Logs, acts: seq<Action>, n: nat, m: nat)
    requires n < m <= |acts| && acts[n] == Settle && After(l, logs, acts[..n]).stage.Passed?
    ensures var was, now := After(l, logs, acts[..n]).stage, After(l, logs, acts[..m]).stage;
            was.p in logs && !now.Idle? && now.p == was.p ==> now.i > was.i
  {
    var was, now := After(l, logs, acts[..n]).stage, After(l, logs, acts[..m]).stage;
    if was.p in logs && !now.Idle? && now.p == was.p {
      assert acts[..n + 1][..n] == acts[..n];
      CommitsNeverFall(l, logs, acts, n + 1, m, was.p);
      PlacesAreKept(l, logs, acts[..m]);
    }
  }

  /** What is not settled comes back: after a restart the next record handed out of a partition is the
      first one behind its last settled record. */
  lemma UnsettledIsRefetched(l: Limits, logs: Logs, acts: seq<Action>, p: int)
    requires p in logs
    ensures var d := After(l, logs, acts);
            && p in d.committed
            && (d.committed[p] < |logs[p]| ==> After(l, logs, acts + [Restart] + [Fetch(p)]).stage == Fetched(p, d.committed[p]))
  {
    PlacesAreKept(l, logs, acts);
    assert PlaceOk(logs, After(l, logs, acts), p);
    AfterAppend(l, logs, acts, Restart);
    AfterAppend(l, logs, acts + [Restart], Fetch(p));
  }

  lemma AfterAppend(l: Limits, logs: Logs, acts: seq<Action>, a: Action)
    ensures After(l, logs, acts + [a]) == Step(l, logs, After(l, logs, acts), a)
  {
    assert (acts + [a])[..|acts|] == acts;
  }

  // ----- attempts -------------------------------------------------------------------------

  /** The handler can succeed on the event: it is valid, and either a repeat or admissible with the sink
      storing what has changed. */
  ghost predicate Passable(l: Limits, w: Table, e: Event, sinkOk: bool) {
    && ValidEvent(l, e)
    && (Stale(w, e)
        || (|WouldHold(l, w, e)| <= l.maxEvents && WouldSum(l, w, e) <= l.maxAmount && (Arrives(l, w, e) ==> sinkOk)))
  }

  /** An attempt passes exactly when the event is passable, moves the window exactly when it was
      passable and no repeat, and otherwise leaves record, window and sink where they are. */
  lemma AttemptPassesExactly(l: Limits, logs: Logs, acts: seq<Action>, sinkOk: bool)
    requires l.Valid() && LogsOk(logs) && Holding(logs, After(l, logs, acts))
    ensures var d, d' := After(l, logs, acts), After(l, logs, acts + [Attempt(sinkOk)]);
            var e := logs[d.stage.p][d.stage.i];
            && (d'.stage == Passed(d.stage.p, d.stage.i) <==> Passable(l, d.window, e, sinkOk))
            && (d'.stage == d.stage <==> !Passable(l, d.window, e, sinkOk))
            && (!Passable(l, d.window, e, sinkOk) || Stale(d.window, e) ==> d'.window == d.window && d'.sink == d.sink)
            && (Passable(l, d.window, e, sinkOk) && !Stale(d.window, e) ==> e.id in d'.window.seen || !Arrives(l, d.window, e))
            && d'.cursor == d.cursor && d'.committed == d.committed && d'.dead == d.dead
  {
    var d := After(l, logs, acts);
    var e := logs[d.stage.p][d.stage.i];
    AfterAppend(l, logs, acts, Attempt(sinkOk));
    EveryTraceKeepsInv(l, logs, acts);
    RunOk(l, Achieved(l, logs, acts).done);
    SucceedsExactly(l, d.window, e, sinkOk);
    if Commits(l, d.window, Call(e, sinkOk)) && Arrives(l, d.window, e) { CommitIsRemembered(l, d.window, e, sinkOk); }
  }

  lemma SucceedsExactly(l: Limits, w: Table, e: Event, sinkOk: bool)
    requires TableOk(l, w)
    ensures Succeeds(l, w, e, sinkOk) <==> Passable(l, w, e, sinkOk)
    ensures Commits(l, w, Call(e, sinkOk)) <==> Passable(l, w, e, sinkOk) && !Stale(w, e)
  {
    AdmissionIsExact(l, w, e);
    var p := Prepare(l, w, e);
    if p.Accepted? {
      ChangeIsArrival(l, w, e, p.update);
    }
  }

  lemma ChangeIsArrival(l: Limits, w: Table, e: Event, u: Update)
    requires TableOk(l, w) && Prepare(l, w, e) == Accepted(u)
    ensures u.changed <==> Arrives(l, w, e)
  {
    AcceptedEventMovesOneRow(l, w, e, u, Commit(l, w, e, u));
  }

  lemma CommitIsRemembered(l: Limits, w: Table, e: Event, sinkOk: bool)
    requires TableOk(l, w) && Commits(l, w, Call(e, sinkOk)) && Arrives(l, w, e)
    ensures e.id in Apply(l, w, e, sinkOk).seen
  {
    ArrivalIsRemembered(l, w, e, Prepare(l, w, e).update);
  }

  lemma ArrivalIsRemembered(l: Limits, w: Table, e: Event, u: Update)
    requires TableOk(l, w) && Prepare(l, w, e) == Accepted(u)
    ensures Arrives(l, w, e) ==> e.id in Commit(l, w, e, u).seen
  {
    AcceptedEventMovesOneRow(l, w, e, u, Commit(l, w, e, u));
  }

  // ----- finishing ------------------------------------------------------------------------

  /** Further steps of a delivery, with its states. */
  datatype Trace = Trace(states: seq<Delivery>, acts: seq<Action>) {
    ghost predicate From(l: Limits, logs: Logs, d: Delivery) {
      && |states| == |acts| + 1 && states[0] == d
      && forall n {:trigger LinkAt(l, logs, n)} :: 0 <= n < |acts| ==> LinkAt(l, logs, n)
    }

    /** Step `n` leads to the next state; a dead letter is written only for a record that cannot pass. */
    ghost predicate LinkAt(l: Limits, logs: Logs, n: int) {
      && 0 <= n < |acts| && n + 1 < |states| && states[n + 1] == Step(l, logs, states[n], acts[n])
      && (acts[n] == DeadLetter ==> RefusedNow(l, logs, states[n]))
    }

    function End(): Delivery
      requires states != []
    {
      states[|states| - 1]
    }
  }

  ghost predicate RefusedNow(l: Limits, logs: Logs, d: Delivery) {
    Holding(logs, d) && !Passable(l, d.window, logs[d.stage.p][d.stage.i], true)
  }

  lemma Extend(l: Limits, logs: Logs, d: Delivery, trace: Trace, a: Action, d': Delivery) returns (trace': Trace)
    requires trace.From(l, logs, d) && d' == Step(l, logs, trace.End(), a) && (a == DeadLetter ==> RefusedNow(l, logs, trace.End()))
    ensures trace'.From(l, logs, d) && trace'.End() == d'
  {
    trace' := Trace(trace.states + [d'], trace.acts + [a]);
    forall n | 0 <= n < |trace'.acts| ensures trace'.LinkAt(l, logs, n) {
      if n < |trace.acts| { assert trace.LinkAt(l, logs, n); }
    }
  }

  /** Nothing in hand, the reader at the committed positions. */
  ghost predicate Ready(l: Limits, d: Delivery) {
    d.stage.Idle? && d.cursor == d.committed && TableOk(l, d.window)
  }

  /** The held record, attempted once with a working sink. */
  lemma TryOne(l: Limits, logs: Logs, d: Delivery)
    requires TableOk(l, d.window) && Holding(logs, d)
    ensures var d' := Step(l, logs, d, Attempt(true));
            && d'.cursor == d.cursor && d'.committed == d.committed && TableOk(l, d'.window)
            && (d'.stage == Passed(d.stage.p, d.stage.i) || (d'.stage == d.stage && RefusedNow(l, logs, d')))
  {
    var e := logs[d.stage.p][d.stage.i];
    SucceedsExactly(l, d.window, e, true);
    ApplyKeeps(l, d.window, e, true);
    if !Commits(l, d.window, Call(e, true)) { NoCommitNoChange(l, d.window, e, true); }
  }

  /** One record, from the reader's hand to the broker: attempted once, and written to the dead-letter
      topic only if that is refused. */
  lemma PassOne(l: Limits, logs: Logs, d: Delivery, trace: Trace, p: int) returns (trace': Trace)
    requires trace.From(l, logs, d) && Ready(l, trace.End())
    requires p in logs && p in trace.End().committed && trace.End().committed[p] < |logs[p]|
    ensures trace'.From(l, logs, d) && Ready(l, trace'.End())
    ensures trace'.End().committed == trace.End().committed[p := trace.End().committed[p] + 1]
  {
    var d0 := trace.End();
    var i := d0.committed[p];
    var d1 := d0.(stage := Fetched(p, i), cursor := d0.cursor[p := i + 1]);
    trace' := Extend(l, logs, d, trace, Fetch(p), d1);
    TryOne(l, logs, d1);
    var d2 := Step(l, logs, d1, Attempt(true));
    trace' := Extend(l, logs, d, trace', Attempt(true), d2);
    trace' := SettleOne(l, logs, d, trace', p, i);
  }

  lemma SettleOne(l: Limits, logs: Logs, d: Delivery, trace: Trace, p: int, i: nat) returns (trace': Trace)
    requires trace.From(l, logs, d) && TableOk(l, trace.End().window)
    requires trace.End().stage == Passed(p, i) || (trace.End().stage == Fetched(p, i) && RefusedNow(l, logs, trace.End()))
    ensures trace'.From(l, logs, d) && trace'.End().stage.Idle? && TableOk(l, trace'.End().window)
    ensures trace'.End().cursor == trace.End().cursor && trace'.End().committed == trace.End().committed[p := i + 1]
  {
    var d1 := trace.End();
    trace' := trace;
    if d1.stage.Fetched? {
      d1 := d1.(stage := Passed(p, i), dead := d1.dead + {(p, i)});
      trace' := Extend(l, logs, d, trace', DeadLetter, d1);
    }
    trace' := Extend(l, logs, d, trace', Settle, d1.(committed := d1.committed[p := i + 1], stage := Idle));
  }

  lemma {:induction false} FinishPartition(l: Limits, logs: Logs, d: Delivery, trace: Trace, p: int) returns (trace': Trace)
    requires trace.From(l, logs, d) && Ready(l, trace.End())
    requires p in logs && p in trace.End().committed && trace.End().committed[p] <= |logs[p]|
    ensures trace'.From(l, logs, d) && Ready(l, trace'.End())
    ensures trace'.End().committed == trace.End().committed[p := |logs[p]|]
    decreases |logs[p]| - trace.End().committed[p]
  {
    trace' := trace;
    if trace.End().committed[p] < |logs[p]| {
      trace' := PassOne(l, logs, d, trace, p);
      trace' := FinishPartition(l, logs, d, trace', p);
    }
  }

  /** All partitions but `todo` are settled. */
  ghost predicate LeftToDo(logs: Logs, committed: map<int, nat>, todo: set<int>) {
    && committed.Keys == logs.Keys && todo <= logs.Keys
    && forall p {:trigger committed[p]} :: p in logs ==> committed[p] <= |logs[p]| && (p !in todo ==> committed[p] == |logs[p]|)
  }

  lemma {:induction false} FinishAll(l: Limits, logs: Logs, d: Delivery, trace: Trace, todo: set<int>) returns (trace': Trace)
    requires trace.From(l, logs, d) && Ready(l, trace.End()) && LeftToDo(logs, trace.End().committed, todo)
    ensures trace'.From(l, logs, d) && LeftToDo(logs, trace'.End().committed, {})
    decreases |todo|
  {
    trace' := trace;
    if |todo| == 0 {
      assert todo == {};
    } else {
      var p := AnyOf(todo);
      assert trace.End().committed[p] <= |logs[p]|;
      trace' := FinishPartition(l, logs, d, trace, p);
      trace' := FinishAll(l, logs, d, trace', todo - {p});
    }
  }

  /** Whatever has happened, a restarted delivery can be finished: there is a continuation that settles
      every record of every partition and writes to the dead-letter topic only records that could not
      pass at that moment. */
  lemma DeliveryCanFinish(l: Limits, logs: Logs, acts: seq<Action>) returns (trace: Trace)
    requires l.Valid() && LogsOk(logs)
    ensures trace.From(l, logs, After(l, logs, acts))
    ensures forall p {:trigger trace.End().committed[p]} :: p in logs ==> p in trace.End().committed && trace.End().committed[p] == |logs[p]|
  {
    var d := After(l, logs, acts);
    EveryTraceKeepsInv(l, logs, acts);
    RunOk(l, Achieved(l, logs, acts).done);
    PlacesAreKept(l, logs, acts);
    trace := FinishFrom(l, logs, d);
  }

  lemma FinishFrom(l: Limits, logs: Logs, d: Delivery) returns (trace: Trace)
    requires TableOk(l, d.window) && PlacesOk(logs, d) && d.committed.Keys == logs.Keys
    ensures trace.From(l, logs, d) && LeftToDo(logs, trace.End().committed, {})
  {
    var d1 := d.(cursor := d.committed, stage := Idle);
    trace := Extend(l, logs, d, Trace([d], []), Restart, d1);
    forall p | p in logs ensures d.committed[p] <= |logs[p]| { assert PlaceOk(logs, d, p); }
    trace := FinishAll(l, logs, d, trace, logs.Keys);
  }
}
