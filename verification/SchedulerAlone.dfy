/** What the dispatcher does with a healthy queue when it is left alone: it fills one batch, calls the
    handler with it and gives every Submit the result at its own index. */
module SchedulerAlone {
  import opened Common
  import opened SchedulerModel
  import opened SchedulerInvariant
  import opened SchedulerGuarantees

  /** An item within its delay, waiting and alive. */
  predicate Fit(it: Item, at: Time) {
    it.state.Queued? && !it.gone && at < it.expiry
  }

  ghost predicate AllFit(items: seq<Item>, ids: seq<nat>, at: Time) {
    forall m {:trigger ids[m]} :: 0 <= m < |ids| ==> ids[m] < |items| && Fit(items[ids[m]], at)
  }

  // ----- collecting -----------------------------------------------------------------------

  function CollectedTo(s: State, n: nat): State
    requires n <= |s.queue|
  {
    s.(queue := s.queue[n..], disp := Collecting(s.queue[..n]))
  }

  lemma {:induction false} Collect(c: Config, s: State, n: nat) returns (walk: Walk)
    requires s.disp.Seeking? && 1 <= n <= |s.queue| && n <= c.maxBatch && AllFit(s.items, s.queue[..n], s.now)
    ensures walk.From(c, s) && walk.End() == CollectedTo(s, n)
    decreases n
  {
    assert s.queue[..n][n - 1] == s.queue[n - 1];
    if n == 1 {
      walk := CollectFirst(c, s);
    } else {
      assert forall m :: 0 <= m < n - 1 ==> s.queue[..n - 1][m] == s.queue[..n][m];
      walk := Collect(c, s, n - 1);
      walk := CollectNext(c, s, n - 1, walk);
    }
  }

  lemma CollectFirst(c: Config, s: State) returns (walk: Walk)
    requires s.disp.Seeking? && |s.queue| > 0 && s.queue[0] < |s.items| && s.items[s.queue[0]].state.Queued?
    ensures walk.From(c, s) && walk.End() == CollectedTo(s, 1)
  {
    assert s.queue[..1] == [s.queue[0]];
    walk := Extend(c, s, Walk([s], []), Receive, s.(queue := s.queue[1..], disp := Received(s.queue[0])));
    walk := Extend(c, s, walk, LoadState, CollectedTo(s, 1));
  }

  lemma CollectNext(c: Config, s: State, n: nat, walk: Walk) returns (walk': Walk)
    requires n < |s.queue| && n < c.maxBatch && s.queue[n] < |s.items| && s.items[s.queue[n]].state.Queued?
    requires walk.From(c, s) && walk.End() == CollectedTo(s, n)
    ensures walk'.From(c, s) && walk'.End() == CollectedTo(s, n + 1)
  {
    var i := s.queue[n];
    assert s.queue[n..][0] == i && s.queue[n..][1..] == s.queue[n + 1..];
    assert s.queue[..n + 1] == s.queue[..n] + [i];
    walk' := Extend(c, s, walk, Receive, s.(queue := s.queue[n + 1..], disp := Peeked(s.queue[..n], i)));
    walk' := Extend(c, s, walk', LoadState, CollectedTo(s, n + 1));
  }

  // ----- sorting --------------------------------------------------------------------------

  function Chosen(it: Item): Item {
    it.(state := Dispatched, announced := true)
  }

  /** The items once those named in `ids` are dispatched. */
  function ChosenItems(items: seq<Item>, ids: seq<nat>): seq<Item> {
    seq(|items|, i requires 0 <= i < |items| => if i in ids then Chosen(items[i]) else items[i])
  }

  lemma ChooseOne(items: seq<Item>, ids: seq<nat>, n: nat)
    requires n < |ids| && Increasing(ids) && ids[n] < |items|
    ensures ids[n] !in ids[..n] && ChosenItems(items, ids[..n])[ids[n]] == items[ids[n]]
    ensures ChosenItems(items, ids[..n])[ids[n] := Chosen(items[ids[n]])] == ChosenItems(items, ids[..n + 1])
  {
    assert ids[..n + 1] == ids[..n] + [ids[n]];
  }

  function SortedTo(s: State, ids: seq<nat>, n: nat): State
    requires n <= |ids|
  {
    s.(items := ChosenItems(s.items, ids[..n]), disp := Sorting(ids, n, ids[..n], s.now, true))
  }

  lemma {:induction false} Sort(c: Config, s: State, ids: seq<nat>, n: nat) returns (walk: Walk)
    requires s.disp == Collecting(ids) && n <= |ids| && Increasing(ids) && AllFit(s.items, ids, s.now)
    ensures walk.From(c, s) && walk.End() == SortedTo(s, ids, n)
    decreases n
  {
    if n == 0 {
      assert ChosenItems(s.items, ids[..0]) == s.items;
      walk := Extend(c, s, Walk([s], []), StopCollecting, SortedTo(s, ids, 0));
    } else {
      walk := Sort(c, s, ids, n - 1);
      walk := SortOne(c, s, ids, n - 1, walk);
    }
  }

  lemma SortOne(c: Config, s: State, ids: seq<nat>, n: nat, walk: Walk) returns (walk': Walk)
    requires n < |ids| && Increasing(ids) && AllFit(s.items, ids, s.now)
    requires walk.From(c, s) && walk.End() == SortedTo(s, ids, n)
    ensures walk'.From(c, s) && walk'.End() == SortedTo(s, ids, n + 1)
  {
    var i, s0 := ids[n], SortedTo(s, ids, n);
    ChooseOne(s.items, ids, n);
    var s1 := s0.(disp := Judged(ids, n, ids[..n], s.now, true, Go));
    var s2 := WithItem(s1, i, s.items[i].(state := Dispatched)).(disp := Announcing(ids, n, ids[..n], s.now, true));
    assert s2.items[i := Chosen(s.items[i])] == ChosenItems(s.items, ids[..n + 1]);
    assert ids[..n] + [i] == ids[..n + 1];
    walk' := Extend(c, s, walk, Judge, s1);
    walk' := Extend(c, s, walk', Swap, s2);
    walk' := Extend(c, s, walk', Announce, SortedTo(s, ids, n + 1));
  }

  lemma ChosenValues(items: seq<Item>, ids: seq<nat>)
    ensures ValuesOf(ChosenItems(items, ids), ids) == ValuesOf(items, ids)
  {
  }

  // ----- replying -------------------------------------------------------------------------

  /** The first `n` items of the batch have their results, nothing else has changed. */
  ghost predicate AnsweredTo(items: seq<Item>, items': seq<Item>, ids: seq<nat>, values: seq<nat>, n: nat) {
    && n <= |ids| == |values| && |items'| == |items|
    && (forall i {:trigger items'[i]} :: 0 <= i < |items| ==> items'[i].sub == items[i].sub && (i !in ids[..n] ==> items'[i] == items[i]))
    && (forall m {:trigger ids[m]} :: 0 <= m < n ==> ids[m] < |items| && items'[ids[m]].reply == Some(Ok(values[m])))
  }

  /** The items are alive and have no reply yet. */
  ghost predicate AllOpen(items: seq<Item>, ids: seq<nat>) {
    forall m {:trigger ids[m]} :: 0 <= m < |ids| ==> ids[m] < |items| && !items[ids[m]].gone && items[ids[m]].reply.None?
  }

  lemma AnswerOne(items: seq<Item>, was: seq<Item>, ids: seq<nat>, values: seq<nat>, n: nat)
    requires n < |ids| && Increasing(ids) && AllOpen(items, ids) && AnsweredTo(items, was, ids, values, n)
    ensures ids[n] < |was| && was[ids[n]] == items[ids[n]]
    ensures AnsweredTo(items, was[ids[n] := items[ids[n]].(reply := Some(Ok(values[n])), sent := items[ids[n]].sent + 1)], ids, values, n + 1)
  {
    assert ids[n] !in ids[..n];
    assert ids[..n + 1] == ids[..n] + [ids[n]];
  }

  function RepliedTo(s: State, items: seq<Item>, ids: seq<nat>, values: seq<nat>, n: nat, open: bool): State {
    s.(items := items, disp := Replying(ids, n, Results(values), open))
  }

  lemma {:induction false} ReplyAll(c: Config, s: State, ids: seq<nat>, values: seq<nat>, open: bool, n: nat)
    returns (walk: Walk, items: seq<Item>)
    requires s.disp == Replying(ids, 0, Results(values), open) && n <= |ids| == |values| && Increasing(ids) && AllOpen(s.items, ids)
    ensures walk.From(c, s) && AnsweredTo(s.items, items, ids, values, n) && walk.End() == RepliedTo(s, items, ids, values, n, open)
    decreases n
  {
    if n == 0 {
      walk, items := Walk([s], []), s.items;
    } else {
      walk, items := ReplyAll(c, s, ids, values, open, n - 1);
      walk, items := ReplyOne(c, s, ids, values, open, n - 1, walk, items);
    }
  }

  lemma ReplyOne(c: Config, s: State, ids: seq<nat>, values: seq<nat>, open: bool, n: nat, walk: Walk, items: seq<Item>)
    returns (walk': Walk, items': seq<Item>)
    requires n < |ids| == |values| && Increasing(ids) && AllOpen(s.items, ids)
    requires walk.From(c, s) && AnsweredTo(s.items, items, ids, values, n) && walk.End() == RepliedTo(s, items, ids, values, n, open)
    ensures walk'.From(c, s) && AnsweredTo(s.items, items', ids, values, n + 1) && walk'.End() == RepliedTo(s, items', ids, values, n + 1, open)
  {
    var i, r := ids[n], Ok(values[n]);
    AnswerOne(s.items, items, ids, values, n);
    var s1 := s.(items := items, disp := Sending(ids, n, Results(values), open, r));
    items' := items[i := s.items[i].(reply := Some(r), sent := s.items[i].sent + 1)];
    walk' := Extend(c, s, walk, Choose, s1);
    walk' := Extend(c, s, walk', Send, RepliedTo(s, items', ids, values, n + 1, open));
  }

  // ----- the theorems ---------------------------------------------------------------------

  /** The size of the batch a waiting queue makes. */
  function Fill(c: Config, s: State): nat {
    if |s.queue| < c.maxBatch then |s.queue| else c.maxBatch
  }

  lemma QueueIncreases(c: Config, s: State, n: nat)
    requires Inv(c, s) && n <= |s.queue|
    ensures Increasing(s.queue[..n])
  {
  }

  /** A healthy queue makes one full batch: left alone, a dispatcher looking for work calls the handler
      with the values of the first queued items, as many as fit, in order and at this very moment, and
      leaves the others queued. */
  lemma HealthyQueueIsCalled(c: Config, s: State) returns (walk: Walk)
    requires Inv(c, s) && s.disp.Seeking? && s.queue != [] && AllFit(s.items, s.queue[..Fill(c, s)], s.now)
    ensures walk.From(c, s) && Inv(c, walk.End())
    ensures var ids, s' := s.queue[..Fill(c, s)], walk.End();
            && s'.disp == Calling(ids, true) && s'.queue == s.queue[Fill(c, s)..]
            && s'.calls == s.calls + [Call(ids, ValuesOf(s.items, ids), s.now, None)]
  {
    var n := Fill(c, s);
    var ids := s.queue[..n];
    QueueIncreases(c, s, n);
    walk := Collect(c, s, n);
    walk := SortAndCall(c, s, CollectedTo(s, n), ids, walk);
    WalkKeepsInv(c, s, walk, |walk.steps|);
  }

  lemma SortAndCall(c: Config, s0: State, s: State, ids: seq<nat>, before: Walk) returns (walk: Walk)
    requires before.From(c, s0) && before.End() == s
    requires s.disp == Collecting(ids) && ids != [] && Increasing(ids) && AllFit(s.items, ids, s.now)
    ensures walk.From(c, s0)
    ensures walk.End() == s.(items := ChosenItems(s.items, ids), disp := Calling(ids, true),
                             calls := s.calls + [Call(ids, ValuesOf(s.items, ids), s.now, None)])
  {
    var sort := Sort(c, s, ids, |ids|);
    walk := Append(c, s0, before, sort);
    assert ids[..|ids|] == ids;
    ChosenValues(s.items, ids);
    walk := Extend(c, s0, walk, EndSorting,
                   s.(items := ChosenItems(s.items, ids), disp := Calling(ids, true),
                      calls := s.calls + [Call(ids, ValuesOf(s.items, ids), s.now, None)]));
  }

  lemma Append(c: Config, s: State, first: Walk, second: Walk) returns (walk: Walk)
    requires first.From(c, s) && second.From(c, first.End())
    ensures walk.From(c, s) && walk.End() == second.End()
  {
    walk := Walk(first.states + second.states[1..], first.steps + second.steps);
    var n := |first.steps|;
    forall i | 0 <= i < |walk.steps| ensures walk.LinkAt(c, i) {
      if i < n {
        assert first.LinkAt(c, i);
      } else {
        assert second.LinkAt(c, i - n);
        assert walk.states[i] == second.states[i - n] && walk.states[i + 1] == second.states[i - n + 1];
      }
    }
  }

  /** One result per value is passed on: when the handler answers a batch whose contexts are alive,
      every item of it gets the result at its own index, and its waiting Submit can return it at once. */
  lemma ResultsAreDelivered(c: Config, s: State, values: seq<nat>) returns (walk: Walk)
    requires Inv(c, s) && s.disp.Calling? && |values| == |s.disp.active|
    requires forall i {:trigger s.items[i]} :: 0 <= i < |s.items| && i in s.disp.active ==> !s.items[i].gone
    ensures walk.From(c, s)
    ensures var ids, s' := s.disp.active, walk.End();
            && s'.disp == Rest(s.disp.open) && s'.queue == s.queue
            && forall j {:trigger ids[j]} :: 0 <= j < |ids| ==>
                 && ids[j] < |s.items| && ids[j] < |s'.items| && s'.items[ids[j]].reply == Some(Ok(values[j]))
                 && (s.items[ids[j]].sub.Waiting? ==> ReturnsBy(c, s', ids[j], TakeReply, Ok(values[j])))
  {
    var ids, open := s.disp.active, s.disp.open;
    OpenReplies(c, s);
    var s1 := ReturnStep(s, Results(values)).value;
    walk := Extend(c, s, Walk([s], []), HandlerReturns(Results(values)), s1);
    var reply, items := ReplyAll(c, s1, ids, values, open, |ids|);
    walk := Append(c, s, walk, reply);
    var s' := s1.(items := items, disp := Rest(open));
    walk := Extend(c, s, walk, Finish, s');
    forall j | 0 <= j < |ids|
      ensures ids[j] < |s.items| && ids[j] < |s'.items| && s'.items[ids[j]].reply == Some(Ok(values[j]))
      ensures s.items[ids[j]].sub.Waiting? ==> ReturnsBy(c, s', ids[j], TakeReply, Ok(values[j]))
    {
      assert items[ids[j]].sub == s.items[ids[j]].sub;
      if s.items[ids[j]].sub.Waiting? { TakesReply(c, s', ids[j]); }
    }
  }

  lemma TakesReply(c: Config, s: State, i: nat)
    requires i < |s.items| && s.items[i].sub.Waiting? && s.items[i].reply.Some?
    ensures ReturnsBy(c, s, i, TakeReply, s.items[i].reply.value)
  {
    OwnStep(c, s, i, TakeReply, SubmitterStep(s.items[i], s.now, s.disp.Stopped?, TakeReply).value);
  }

  /** One step of its own lets the Submit of item `i` return `r`. */
  predicate ReturnsBy(c: Config, s: State, i: nat, e: SubmitterEvent, r: Result) {
    var s' := Next(c, s, BySubmitter(i, e));
    s'.Some? && i < |s'.value.items| && s'.value.items[i].sub == Returned(r)
  }

  /** Nothing in a running call has been answered. */
  lemma OpenReplies(c: Config, s: State)
    requires Inv(c, s) && s.disp.Calling?
    requires forall i {:trigger s.items[i]} :: 0 <= i < |s.items| && i in s.disp.active ==> !s.items[i].gone
    ensures AllOpen(s.items, s.disp.active) && Increasing(s.disp.active) && s.calls != []
  {
    var ids := s.disp.active;
    forall m | 0 <= m < |ids| ensures ids[m] < |s.items| && !s.items[ids[m]].gone && s.items[ids[m]].reply.None? {
      assert ids[m] in ids;
      assert ItemOk(s.disp, Head(s), s.calls, ids[m], s.items[ids[m]]);
    }
  }

  // ----- submitters -----------------------------------------------------------------------

  /** Two steps of its own let the Submit of item `i` return `r`. */
  predicate ReturnsAfter(c: Config, s: State, i: nat, first: SubmitterEvent, second: SubmitterEvent, r: Result) {
    && Next(c, s, BySubmitter(i, first)).Some?
    && var s' := Next(c, Next(c, s, BySubmitter(i, first)).value, BySubmitter(i, second));
    s'.Some? && i < |s'.value.items| && s'.value.items[i].sub == Returned(r)
  }

  /** A waiting Submit does not hang: once its delay is used up and nobody has dispatched it, once its
      context is done, or once the dispatcher has left, its own steps lead to its return. */
  lemma WaitingSubmitReturns(c: Config, s: State, i: nat)
    requires Inv(c, s) && i < |s.items| && s.items[i].sub.Waiting?
    ensures s.now >= s.items[i].expiry && s.items[i].state.Queued? ==> ReturnsAfter(c, s, i, FireTimer, TimerSwap, QueueDelay)
    ensures s.items[i].gone ==> ReturnsAfter(c, s, i, FireContext, ContextSwap, ContextError)
    ensures s.disp.Stopped? ==> s.items[i].reply.Some? && ReturnsAfter(c, s, i, SeeDone, LookAgain, s.items[i].reply.value)
  {
    assert ItemOk(s.disp, Head(s), s.calls, i, s.items[i]);
    var it := s.items[i];
    if s.now >= it.expiry && it.state.Queued? { TwoSteps(c, s, i, FireTimer, TimerSwap, QueueDelay); }
    if it.gone { TwoSteps(c, s, i, FireContext, ContextSwap, ContextError); }
    if s.disp.Stopped? { TwoSteps(c, s, i, SeeDone, LookAgain, it.reply.value); }
  }

  /** Neither does one that waits for its result: it returns the reply once it is there, and a context
      error once its context is done. */
  lemma AwaitingSubmitReturns(c: Config, s: State, i: nat)
    requires i < |s.items| && s.items[i].sub.Awaiting?
    ensures s.items[i].reply.Some? ==> ReturnsBy(c, s, i, AwaitReply, s.items[i].reply.value)
    ensures s.items[i].gone ==> ReturnsBy(c, s, i, AwaitContext, ContextError)
  {
    var it := s.items[i];
    if it.reply.Some? { OwnStep(c, s, i, AwaitReply, it.(reply := None, sub := Returned(it.reply.value))); }
    if it.gone { OwnStep(c, s, i, AwaitContext, it.(sub := Returned(ContextError))); }
  }

  lemma TwoSteps(c: Config, s: State, i: nat, first: SubmitterEvent, second: SubmitterEvent, r: Result)
    requires i < |s.items| && SubmitterStep(s.items[i], s.now, s.disp.Stopped?, first).Some?
    requires var it := SubmitterStep(s.items[i], s.now, s.disp.Stopped?, first).value;
             && SubmitterStep(it, s.now, s.disp.Stopped?, second).Some?
             && SubmitterStep(it, s.now, s.disp.Stopped?, second).value.sub == Returned(r)
    ensures ReturnsAfter(c, s, i, first, second, r)
  {
    var it := SubmitterStep(s.items[i], s.now, s.disp.Stopped?, first).value;
    OwnStep(c, s, i, first, it);
    OwnStep(c, WithItem(s, i, it), i, second, SubmitterStep(it, s.now, s.disp.Stopped?, second).value);
  }

  lemma OwnStep(c: Config, s: State, i: nat, e: SubmitterEvent, it: Item)
    requires i < |s.items| && SubmitterStep(s.items[i], s.now, s.disp.Stopped?, e) == Some(it)
    ensures Next(c, s, BySubmitter(i, e)) == Some(WithItem(s, i, it))
  {
  }
}
