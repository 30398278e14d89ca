/** What the batcher promises, over every run. */
module SchedulerGuarantees {
  import opened Common
  import opened SchedulerModel
  import opened SchedulerInvariant
  import opened SchedulerSteps
  import opened SchedulerCalls
  import opened SchedulerOrigins

  // ----- replies --------------------------------------------------------------------------

  lemma SendIsFree(c: Config, s: State)
    requires Inv(c, s)
    ensures s.disp.Refusing? ==> DispatcherStep(c, s, SendRefusal).Some?
    ensures s.disp.Sending? ==> DispatcherStep(c, s, Send).Some?
  {
    match s.disp
    case Refusing(batch, k, active, at, open, result) =>
      HandIsBehindHead(c, s.disp, Head(s), batch[k]);
      assert ItemOk(s.disp, Head(s), s.calls, batch[k], s.items[batch[k]]);
    case Sending(active, j, outcome, open, result) =>
      assert active[j..][0] == active[j];
      HandIsBehindHead(c, s.disp, Head(s), active[j]);
      assert ItemOk(s.disp, Head(s), s.calls, active[j], s.items[active[j]]);
    case _ =>
  }

  /** Each item gets at most one reply in any run, and the dispatcher is never held up by a full
      reply channel. */
  lemma RepliesNeverBlock(c: Config, r: Run, n: nat)
    requires c.Valid() && r.Valid(c) && n < |r.states|
    ensures forall i :: 0 <= i < |r.states[n].items| ==> r.states[n].items[i].sent <= 1
    ensures r.states[n].disp.Refusing? ==> Next(c, r.states[n], ByDispatcher(SendRefusal)).Some?
    ensures r.states[n].disp.Sending? ==> Next(c, r.states[n], ByDispatcher(Send)).Some?
  {
    EveryStateIsOk(c, r, n);
    var s := r.states[n];
    forall i: nat | i < |s.items| ensures s.items[i].sent <= 1 { assert ItemOk(s.disp, Head(s), s.calls, i, s.items[i]); }
    SendIsFree(c, s);
  }

  /** A submitter in waitForResult has its reply buffered, or the current batch owes it one. */
  lemma WaitersAreOwed(c: Config, r: Run, n: nat, i: nat)
    requires c.Valid() && r.Valid(c) && n < |r.states| && i < |r.states[n].items|
    requires r.states[n].items[i].sub.Awaiting?
    ensures r.states[n].items[i].reply.Some? || Owed(r.states[n].disp, i) || RefusedNow(r.states[n].disp, i)
  {
    EveryStateIsOk(c, r, n);
    assert ItemOk(r.states[n].disp, Head(r.states[n]), r.states[n].calls, i, r.states[n].items[i]);
  }

  /** No admitted item is lost: none is ever answered ErrClosed or ErrFull, and when the dispatcher
      has left, nothing is queued any more and everyone still waiting has a reply at hand. */
  lemma AdmittedItemsAreServed(c: Config, r: Run, n: nat, i: nat)
    requires c.Valid() && r.Valid(c) && n < |r.states| && i < |r.states[n].items|
    ensures var it := r.states[n].items[i];
            && it.sub != Returned(Closed) && it.sub != Returned(Full)
            && (r.states[n].disp.Stopped? ==>
                  r.states[n].queue == [] && !it.state.Queued? && (it.sub.Returned? || it.reply.Some?))
  {
    EveryStateIsOk(c, r, n);
    assert ItemOk(r.states[n].disp, Head(r.states[n]), r.states[n].calls, i, r.states[n].items[i]);
  }

  // ----- the handler ----------------------------------------------------------------------

  /** Each value reaches the handler at most once and in admission order: along all calls, and
      along the arguments of each, item numbers strictly increase. Batches hold between one and
      maxBatch values, the values are the items' own, and each was judged less than maxDelay after its
      Submit began. */
  lemma HandlerSeesAdmissionOrder(c: Config, r: Run, n: nat)
    requires c.Valid() && r.Valid(c) && n < |r.states|
    ensures var s := r.states[n];
            && (forall a :: 0 <= a < |s.calls| ==> 1 <= |s.calls[a].ids| == |s.calls[a].values| <= c.maxBatch)
            && (forall a, k :: 0 <= a < |s.calls| && 0 <= k < |s.calls[a].ids| ==>
                  && s.calls[a].ids[k] < |s.items|
                  && s.calls[a].values[k] == s.items[s.calls[a].ids[k]].value
                  && s.calls[a].at < s.items[s.calls[a].ids[k]].expiry)
            && (forall a, k, b, j :: 0 <= a < |s.calls| && 0 <= b < |s.calls| && 0 <= k < |s.calls[a].ids| && 0 <= j < |s.calls[b].ids| ==>
                  (s.calls[a].ids[k] < s.calls[b].ids[j] <==> a < b || (a == b && k < j)))
    ensures var s := r.states[n];
            forall a, k :: 0 <= a < |s.calls| && 0 <= k < |s.calls[a].ids| ==>
              Prompt(c, r, s.items[s.calls[a].ids[k]].caller, s.calls[a].values[k], s.calls[a].at)
  {
    EveryStateIsOk(c, r, n);
    var s := r.states[n];
    CallFacts(c, s.items, s.calls);
    forall a, k | 0 <= a < |s.calls| && 0 <= k < |s.calls[a].ids|
      ensures Prompt(c, r, s.items[s.calls[a].ids[k]].caller, s.calls[a].values[k], s.calls[a].at)
    {
      var b, d := HandlerCallsAreTimely(c, r, n, a, k);
      assert r.acts[b] == Begin(s.items[s.calls[a].ids[k]].caller, s.calls[a].values[k], false);
    }
  }

  /** A Submit of `value` by `t` began less than maxDelay before `at`. */
  ghost predicate Prompt(c: Config, r: Run, t: nat, value: nat, at: Time) {
    exists b {:trigger r.acts[b]} :: 0 <= b < |r.acts| && b < |r.states| && r.acts[b] == Begin(t, value, false) && at < r.states[b].now + c.maxDelay
  }

  lemma CallFacts(c: Config, items: seq<Item>, calls: seq<Call>)
    requires CallsOk(c, items, calls)
    ensures forall a :: 0 <= a < |calls| ==> 1 <= |calls[a].ids| == |calls[a].values| <= c.maxBatch
    ensures forall a, k :: 0 <= a < |calls| && 0 <= k < |calls[a].ids| ==>
              && calls[a].ids[k] < |items|
              && calls[a].values[k] == items[calls[a].ids[k]].value
              && calls[a].at < items[calls[a].ids[k]].expiry
    ensures forall a, k, b, j :: 0 <= a < |calls| && 0 <= b < |calls| && 0 <= k < |calls[a].ids| && 0 <= j < |calls[b].ids| ==>
              (calls[a].ids[k] < calls[b].ids[j] <==> a < b || (a == b && k < j))
  {
    forall a, k | 0 <= a < |calls| && 0 <= k < |calls[a].ids|
      ensures calls[a].ids[k] < |items| && calls[a].values[k] == items[calls[a].ids[k]].value && calls[a].at < items[calls[a].ids[k]].expiry
    {
      assert CallOk(c, items, calls[a]);
      assert calls[a].ids[k] in calls[a].ids;
    }
    forall a, k, b, j | 0 <= a < |calls| && 0 <= b < |calls| && 0 <= k < |calls[a].ids| && 0 <= j < |calls[b].ids|
      ensures calls[a].ids[k] < calls[b].ids[j] <==> a < b || (a == b && k < j)
    {
      assert CallOk(c, items, calls[a]);
      assert calls[a].ids[k] in calls[a].ids && calls[b].ids[j] in calls[b].ids;
    }
  }

  /** What the scheduler itself refuses never reaches the handler: a Submit answered ErrClosed,
      ErrFull or its own ErrQueueDelay. */
  lemma RefusalsNeverReachHandler(c: Config, r: Run, n: nat, a: nat, k: nat)
    requires c.Valid() && r.Valid(c) && n < |r.states|
    requires a < |r.states[n].calls| && k < |r.states[n].calls[a].ids|
    ensures var s := r.states[n];
            var i := s.calls[a].ids[k];
            && i < |s.items| && s.items[i].sub != Returned(QueueDelay) && s.items[i].reply != Some(QueueDelay)
            && s.items[i].caller in s.attempts && s.attempts[s.items[i].caller] == Admitted(i)
  {
    EveryStateIsOk(c, r, n);
    var s := r.states[n];
    var i := s.calls[a].ids[k];
    CallFacts(c, s.items, s.calls);
    assert i in s.calls[a].ids;
    assert InCalls(s.calls, i);
    assert ItemOk(s.disp, Head(s), s.calls, i, s.items[i]);
  }

  /** A successful Submit returns the result at the index where its own value was passed. */
  lemma SuccessIsOwnResult(c: Config, r: Run, n: nat, i: nat) returns (a: nat, k: nat)
    requires c.Valid() && r.Valid(c) && n < |r.states| && i < |r.states[n].items|
    requires r.states[n].items[i].sub.Returned? && r.states[n].items[i].sub.result.Ok?
    ensures a < |r.states[n].calls|
    ensures var call := r.states[n].calls[a];
            && k < |call.ids| == |call.values| && call.ids[k] == i && call.values[k] == r.states[n].items[i].value
            && call.outcome.Some? && call.outcome.value.Results? && |call.outcome.value.values| == |call.ids|
            && call.outcome.value.values[k] == r.states[n].items[i].sub.result.value
  {
    EveryStateIsOk(c, r, n);
    var s := r.states[n];
    var v := s.items[i].sub.result.value;
    assert ItemOk(s.disp, Head(s), s.calls, i, s.items[i]);
    a, k :| 0 <= a < |s.calls| && 0 <= k && Answers(s.calls[a], k, i, v);
    CallFacts(c, s.items, s.calls);
    assert s.calls[a].values[k] == s.items[s.calls[a].ids[k]].value;
  }

  /** An answer, once returned, is final. */
  lemma {:induction false} AnswersAreFinal(c: Config, r: Run, n: nat, m: nat, i: nat)
    requires c.Valid() && r.Valid(c) && n <= m < |r.states| && i < |r.states[n].items|
    requires r.states[n].items[i].sub.Returned?
    ensures i < |r.states[m].items| && r.states[m].items[i].sub == r.states[n].items[i].sub
    decreases m
  {
    if n < m {
      AnswersAreFinal(c, r, n, m - 1, i);
      assert Next(c, r.states[m - 1], r.acts[m - 1]) == Some(r.states[m]);
      AnswerStays(c, r.states[m - 1], r.acts[m - 1], i);
    }
  }

  lemma DispatcherLeavesAnswer(c: Config, s: State, e: DispatcherEvent, i: nat)
    requires DispatcherStep(c, s, e).Some? && i < |s.items|
    ensures i < |DispatcherStep(c, s, e).value.items| && DispatcherStep(c, s, e).value.items[i].sub == s.items[i].sub
  {
  }

  lemma SubmitterKeepsAnswer(it: Item, now: Time, stopped: bool, e: SubmitterEvent)
    requires it.sub.Returned?
    ensures SubmitterStep(it, now, stopped, e) == None
  {
  }

  lemma AnswerStays(c: Config, s: State, a: Action, i: nat)
    requires Next(c, s, a).Some? && i < |s.items| && s.items[i].sub.Returned?
    ensures i < |Next(c, s, a).value.items| && Next(c, s, a).value.items[i].sub == s.items[i].sub
  {
    match a
    case ByDispatcher(e) => DispatcherLeavesAnswer(c, s, e, i);
    case BySubmitter(j, e) => if j == i { SubmitterKeepsAnswer(s.items[i], s.now, s.disp.Stopped?, e); }
    case _ =>
  }

  // ----- closing --------------------------------------------------------------------------

  /** An upper bound on the dispatcher's remaining steps once the queue is closed. */
  function Work(s: State): nat {
    20 * |s.queue| +
    match s.disp
    case Seeking => 1
    case Received(i) => 20
    case Collecting(batch) => 5 + 9 * |batch|
    case Peeked(batch, i) => 24 + 9 * |batch|
    case Sorting(batch, k, active, at, open) => 4 + 8 * Left(batch, k) + 4 * |active|
    case Judged(batch, k, active, at, open, verdict) => 3 + 8 * Left(batch, k) + 4 * |active|
    case Refusing(batch, k, active, at, open, result) => 2 + 8 * Left(batch, k) + 4 * |active|
    case Announcing(batch, k, active, at, open) => 2 + 8 * Left(batch, k) + 4 * |active|
    case Calling(active, open) => 3 + 4 * |active|
    case Replying(active, j, outcome, open) => 2 + 2 * Left(active, j)
    case Sending(active, j, outcome, open, result) => 1 + 2 * Left(active, j)
    case Stopped => 0
  }

  function Left(s: seq<nat>, k: nat): nat {
    if k <= |s| then |s| - k else 0
  }

  lemma WorkShrinks(c: Config, s: State, e: DispatcherEvent)
    requires HandOk(c, s.disp, Head(s)) && DispatcherStep(c, s, e).Some?
    ensures Work(DispatcherStep(c, s, e).value) < Work(s)
  {
    if s.disp.Sorting? || s.disp.Judged? || s.disp.Refusing? || s.disp.Announcing? { SortingShrinks(c, s, e); }
    else { CollectingShrinks(c, s, e); }
  }

  lemma SortingShrinks(c: Config, s: State, e: DispatcherEvent)
    requires HandOk(c, s.disp, Head(s)) && DispatcherStep(c, s, e).Some?
    requires s.disp.Sorting? || s.disp.Judged? || s.disp.Refusing? || s.disp.Announcing?
    ensures Work(DispatcherStep(c, s, e).value) < Work(s)
  {
  }

  lemma CollectingShrinks(c: Config, s: State, e: DispatcherEvent)
    requires HandOk(c, s.disp, Head(s)) && DispatcherStep(c, s, e).Some?
    requires !s.disp.Sorting? && !s.disp.Judged? && !s.disp.Refusing? && !s.disp.Announcing?
    ensures Work(DispatcherStep(c, s, e).value) < Work(s)
  {
  }

  lemma OthersLeaveWork(c: Config, s: State, a: Action)
    requires s.closed && Next(c, s, a).Some? && !a.ByDispatcher?
    ensures Work(Next(c, s, a).value) == Work(s) && Next(c, s, a).value.closed
  {
  }

  lemma UnblockedMove(c: Config, s: State) returns (e: DispatcherEvent)
    requires HandOk(c, s.disp, Head(s)) && CurrentOk(s.items, s.calls, s.disp)
    requires !s.disp.Stopped? && !s.disp.Refusing? && !s.disp.Sending?
    requires s.disp.Seeking? ==> s.queue != [] || s.closed
    ensures DispatcherStep(c, s, e).Some?
  {
    match s.disp
    case Seeking => e := if s.queue == [] then SeeClosed else Receive;
    case Received(i) => e := LoadState;
    case Collecting(batch) => e := StopCollecting;
    case Peeked(batch, i) => e := LoadState;
    case Sorting(batch, k, active, at, open) =>
      e := if k == |batch| then EndSorting else Judge;
      if k < |batch| { assert batch[k] in batch; }
    case Judged(batch, k, active, at, open, verdict) => e := Swap; assert batch[k] in batch;
    case Announcing(batch, k, active, at, open) => e := Announce; assert batch[k] in batch;
    case Calling(active, open) => e := HandlerReturns(Failure(0));
    case Replying(active, j, outcome, open) =>
      e := if j == |active| then Finish else Choose;
      if j < |active| { assert active[j] in active; }
  }

  /** The dispatcher is never stuck: unless it has left, or idles on an open and empty queue, it
      has a next step. */
  lemma DispatcherCanMove(c: Config, s: State) returns (e: DispatcherEvent)
    requires Inv(c, s) && !s.disp.Stopped? && (s.disp.Seeking? ==> s.queue != [] || s.closed)
    ensures DispatcherStep(c, s, e).Some?
  {
    SendIsFree(c, s);
    if s.disp.Refusing? { e := SendRefusal; }
    else if s.disp.Sending? { e := Send; }
    else { e := UnblockedMove(c, s); }
  }

  /** Steps the dispatcher takes on its own. */
  datatype Walk = Walk(states: seq<State>, steps: seq<DispatcherEvent>) {
    ghost predicate From(c: Config, s: State) {
      && |states| == |steps| + 1 && states[0] == s
      && forall n {:trigger LinkAt(c, n)} :: 0 <= n < |steps| ==> LinkAt(c, n)
    }

    ghost predicate LinkAt(c: Config, n: int) {
      0 <= n < |steps| && n + 1 < |states| && DispatcherStep(c, states[n], steps[n]) == Some(states[n + 1])
    }

    function End(): State
      requires states != []
    {
      states[|states| - 1]
    }
  }

  lemma Extend(c: Config, s: State, walk: Walk, e: DispatcherEvent, s': State) returns (walk': Walk)
    requires walk.From(c, s) && DispatcherStep(c, walk.End(), e) == Some(s')
    ensures walk'.From(c, s) && walk'.End() == s' && walk'.steps == walk.steps + [e]
  {
    walk' := Walk(walk.states + [s'], walk.steps + [e]);
    forall n | 0 <= n < |walk'.steps| ensures walk'.LinkAt(c, n) {
      if n < |walk.steps| { assert walk.LinkAt(c, n); }
    }
  }

  lemma {:induction false} WalkKeepsInv(c: Config, s: State, walk: Walk, n: nat)
    requires Inv(c, s) && walk.From(c, s) && n < |walk.states|
    ensures Inv(c, walk.states[n])
  {
    if n > 0 {
      WalkKeepsInv(c, s, walk, n - 1);
      assert walk.LinkAt(c, n - 1);
      NextKeepsInv(c, walk.states[n - 1], ByDispatcher(walk.steps[n - 1]));
    }
  }

  /** The dispatcher's own steps lead from any closed state to its end, as long as the handler
      returns. */
  lemma CloseDrains(c: Config, s: State) returns (walk: Walk)
    requires Inv(c, s) && s.closed
    ensures walk.From(c, s) && |walk.steps| <= Work(s)
    ensures Inv(c, walk.End()) && walk.End().disp.Stopped? && walk.End().queue == []
  {
    walk := DrainFrom(c, s, Walk([s], []));
  }

  lemma {:induction false} DrainFrom(c: Config, s: State, walk: Walk) returns (walk': Walk)
    requires walk.From(c, s) && Inv(c, walk.End()) && walk.End().closed
    ensures walk'.From(c, s) && |walk'.steps| <= |walk.steps| + Work(walk.End())
    ensures Inv(c, walk'.End()) && walk'.End().disp.Stopped? && walk'.End().queue == []
    decreases Work(walk.End())
  {
    var now := walk.End();
    if now.disp.Stopped? {
      walk' := walk;
    } else {
      var e := DispatcherCanMove(c, now);
      var next := DispatcherStep(c, now, e).value;
      WorkShrinks(c, now, e);
      NextKeepsInv(c, now, ByDispatcher(e));
      DispatcherKeepsClosed(c, now, e);
      walk' := Extend(c, s, walk, e, next);
      walk' := DrainFrom(c, s, walk');
    }
  }

  lemma DispatcherKeepsClosed(c: Config, s: State, e: DispatcherEvent)
    requires DispatcherStep(c, s, e).Some?
    ensures DispatcherStep(c, s, e).value.closed == s.closed
  {
  }

  function DispatcherSteps(acts: seq<Action>): nat {
    if acts == [] then 0 else DispatcherSteps(acts[..|acts| - 1]) + if acts[|acts| - 1].ByDispatcher? then 1 else 0
  }

  /** However submitters, clocks and cancellations interleave after Close, the dispatcher takes only
      the bounded number of steps that drain the queue. */
  lemma {:induction false} DrainIsBounded(c: Config, r: Run, n: nat, m: nat)
    requires c.Valid() && r.Valid(c) && n <= m < |r.states| && r.states[n].closed
    ensures r.states[m].closed && DispatcherSteps(r.acts[n..m]) + Work(r.states[m]) <= Work(r.states[n])
    decreases m
  {
    if n < m {
      DrainIsBounded(c, r, n, m - 1);
      WorkInRun(c, r, m - 1);
      LastStep(r.acts, n, m);
    }
  }

  lemma WorkInRun(c: Config, r: Run, n: nat)
    requires c.Valid() && r.Valid(c) && n < |r.acts| && r.states[n].closed
    ensures r.states[n + 1].closed && Work(r.states[n + 1]) + (if r.acts[n].ByDispatcher? then 1 else 0) <= Work(r.states[n])
  {
    EveryStateIsOk(c, r, n);
    assert Next(c, r.states[n], r.acts[n]) == Some(r.states[n + 1]);
    StepWork(c, r.states[n], r.acts[n], r.states[n + 1]);
  }

  lemma LastStep(acts: seq<Action>, n: nat, m: nat)
    requires n < m <= |acts|
    ensures DispatcherSteps(acts[n..m]) == DispatcherSteps(acts[n..m - 1]) + if acts[m - 1].ByDispatcher? then 1 else 0
  {
    var some := acts[n..m];
    assert some[..|some| - 1] == acts[n..m - 1];
  }

  lemma StepWork(c: Config, s: State, a: Action, s': State)
    requires Inv(c, s) && s.closed && Next(c, s, a) == Some(s')
    ensures s'.closed && Work(s') + (if a.ByDispatcher? then 1 else 0) <= Work(s)
  {
    if a.ByDispatcher? {
      WorkShrinks(c, s, a.d);
      DispatcherKeepsClosed(c, s, a.d);
    } else {
      OthersLeaveWork(c, s, a);
    }
  }
}
