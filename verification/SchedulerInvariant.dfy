/** The inductive invariant of the batcher. Its parts take only the components they depend on. */
module SchedulerInvariant {
  import opened Common
  import opened SchedulerModel

  predicate Increasing(s: seq<nat>) {
    forall i, j :: 0 <= i < j < |s| ==> s[i] < s[j]
  }

  ghost predicate Below(s: seq<nat>, n: int) {
    forall x {:trigger x in s} :: x in s ==> x < n
  }

  /** The queue holds the latest admissions, in order. */
  ghost predicate QueueOk(c: Config, queue: seq<nat>, count: nat) {
    && |queue| <= count && |queue| <= c.maxQueue
    && forall k {:trigger queue[k]} :: 0 <= k < |queue| ==> queue[k] == count - |queue| + k
  }

  ghost predicate BatchOk(c: Config, batch: seq<nat>, head: int) {
    1 <= |batch| <= c.maxBatch && Increasing(batch) && Below(batch, head)
  }

  /** Sorting a batch: what is already active comes before what is still to be judged. */
  ghost predicate SortOk(c: Config, batch: seq<nat>, k: nat, active: seq<nat>, head: int) {
    && BatchOk(c, batch, head) && k <= |batch|
    && Increasing(active) && |active| <= k && Below(active, head)
    && (k < |batch| ==> Below(active, batch[k]))
  }

  ghost predicate ActiveOk(c: Config, active: seq<nat>, head: int) {
    1 <= |active| <= c.maxBatch && Increasing(active) && Below(active, head)
  }

  ghost predicate HandOk(c: Config, d: Dispatcher, head: int) {
    match d
    case Seeking => true
    case Received(i) => i < head
    case Collecting(batch) => BatchOk(c, batch, head)
    case Peeked(batch, i) => BatchOk(c, batch, i) && |batch| < c.maxBatch && i < head
    case Sorting(batch, k, active, at, open) => SortOk(c, batch, k, active, head)
    case Judged(batch, k, active, at, open, verdict) => SortOk(c, batch, k, active, head) && k < |batch|
    case Refusing(batch, k, active, at, open, result) =>
      SortOk(c, batch, k, active, head) && k < |batch| && (result == ContextError || result == QueueDelay)
    case Announcing(batch, k, active, at, open) => SortOk(c, batch, k, active, head) && k < |batch|
    case Calling(active, open) => ActiveOk(c, active, head)
    case Replying(active, j, outcome, open) => ActiveOk(c, active, head) && j <= |active|
    case Sending(active, j, outcome, open, result) => ActiveOk(c, active, head) && j < |active|
    case Stopped => true
  }

  /** The dispatcher leaves only when the queue is closed and drained. */
  ghost predicate ShutOk(d: Dispatcher, closed: bool, queue: seq<nat>) {
    var leaving := match d
      case Sorting(_, _, _, _, open) => !open
      case Judged(_, _, _, _, open, _) => !open
      case Refusing(_, _, _, _, open, _) => !open
      case Announcing(_, _, _, _, open) => !open
      case Calling(_, open) => !open
      case Replying(_, _, _, open) => !open
      case Sending(_, _, _, open, _) => !open
      case Stopped => true
      case _ => false;
    leaving ==> closed && queue == []
  }

  // ----- what the dispatcher has in hand --------------------------------------------------

  /** Taken from the queue and not yet decided. */
  ghost predicate Undecided(d: Dispatcher, i: nat) {
    match d
    case Received(j) => i == j
    case Collecting(batch) => i in batch
    case Peeked(batch, j) => i in batch || i == j
    case Sorting(batch, k, active, at, open) => k <= |batch| && i in batch[k..]
    case Judged(batch, k, active, at, open, verdict) => k <= |batch| && i in batch[k..]
    case Refusing(batch, k, active, at, open, result) => k < |batch| && i in batch[k + 1..]
    case Announcing(batch, k, active, at, open) => k < |batch| && i in batch[k + 1..]
    case _ => false
  }

  /** Won for dispatch, reply still to come. */
  ghost predicate Owed(d: Dispatcher, i: nat) {
    match d
    case Sorting(batch, k, active, at, open) => i in active
    case Judged(batch, k, active, at, open, verdict) => i in active
    case Refusing(batch, k, active, at, open, result) => i in active
    case Announcing(batch, k, active, at, open) => i in active || (k < |batch| && i == batch[k])
    case Calling(active, open) => i in active
    case Replying(active, j, outcome, open) => j <= |active| && i in active[j..]
    case Sending(active, j, outcome, open, result) => j <= |active| && i in active[j..]
    case _ => false
  }

  /** Expired by the dispatcher, refusal about to be sent. */
  ghost predicate RefusedNow(d: Dispatcher, i: nat) {
    d.Refusing? && d.k < |d.batch| && i == d.batch[d.k]
  }

  /** Everything in hand that has not reached the handler yet. */
  ghost predicate BeforeHandler(d: Dispatcher, i: nat) {
    !d.Calling? && !d.Replying? && !d.Sending? && (Undecided(d, i) || Owed(d, i) || RefusedNow(d, i))
  }

  // ----- the handler's calls --------------------------------------------------------------

  ghost predicate InCalls(calls: seq<Call>, i: nat) {
    exists c {:trigger calls[c]} :: 0 <= c < |calls| && i in calls[c].ids
  }

  /** The value of item `i` was the k-th argument of a call whose k-th result is `v`. */
  ghost predicate Answers(call: Call, k: nat, i: nat, v: nat) {
    && k < |call.ids| && call.ids[k] == i
    && call.outcome.Some? && call.outcome.value.Results?
    && |call.outcome.value.values| == |call.ids| && call.outcome.value.values[k] == v
  }

  ghost predicate Answered(calls: seq<Call>, i: nat, v: nat) {
    exists c, k {:trigger Answers(calls[c], k, i, v)} :: 0 <= c < |calls| && 0 <= k && Answers(calls[c], k, i, v)
  }

  ghost predicate Suffers(call: Call, i: nat, r: Result) {
    && i in call.ids && call.outcome.Some?
    && (r.HandlerError? ==> call.outcome.value == Failure(r.tag))
    && (r.WrongCount? ==> call.outcome.value.Results? && |call.outcome.value.values| != |call.ids|)
  }

  ghost predicate Suffered(calls: seq<Call>, i: nat, r: Result) {
    exists c {:trigger Suffers(calls[c], i, r)} :: 0 <= c < |calls| && Suffers(calls[c], i, r)
  }

  ghost predicate ResultOk(calls: seq<Call>, i: nat, state: ItemState, r: Result) {
    match r
    case Ok(v) => Answered(calls, i, v)
    case ContextError => true
    case QueueDelay => state.Expired?
    case Closed => false
    case Full => false
    case HandlerError(tag) => Suffered(calls, i, r)
    case WrongCount => Suffered(calls, i, r)
  }

  ghost predicate Timely(items: seq<Item>, ids: seq<nat>, at: Time) {
    forall i {:trigger i in ids} :: i in ids ==> i < |items| && at < items[i].expiry
  }

  ghost predicate CallOk(c: Config, items: seq<Item>, call: Call) {
    && 1 <= |call.ids| <= c.maxBatch && Increasing(call.ids)
    && Timely(items, call.ids, call.at)
    && call.values == ValuesOf(items, call.ids)
  }

  ghost predicate CallsOk(c: Config, items: seq<Item>, calls: seq<Call>) {
    && (forall n {:trigger calls[n]} :: 0 <= n < |calls| ==> CallOk(c, items, calls[n]))
    && (forall n, m, x, y {:trigger x in calls[n].ids, y in calls[m].ids} ::
          0 <= n < m < |calls| && x in calls[n].ids && y in calls[m].ids ==> x < y)
  }

  /** Everything called so far was admitted before everything still to be called. */
  ghost predicate CallsBefore(calls: seq<Call>, d: Dispatcher, head: int) {
    forall n, x {:trigger x in calls[n].ids} :: 0 <= n < |calls| && x in calls[n].ids ==>
      x < head && forall i {:trigger BeforeHandler(d, i)} :: BeforeHandler(d, i) ==> x < i
  }

  /** The running call is the last one. */
  ghost predicate CurrentOk(items: seq<Item>, calls: seq<Call>, d: Dispatcher) {
    match d
    case Sorting(batch, k, active, at, open) => Timely(items, active, at)
    case Judged(batch, k, active, at, open, verdict) =>
      && Timely(items, active, at)
      && (verdict.Go? && k < |batch| ==> batch[k] < |items| && at < items[batch[k]].expiry)
    case Refusing(batch, k, active, at, open, result) => Timely(items, active, at)
    case Announcing(batch, k, active, at, open) =>
      Timely(items, active, at) && (k < |batch| ==> batch[k] < |items| && at < items[batch[k]].expiry)
    case Calling(active, open) =>
      calls != [] && calls[|calls| - 1].ids == active && calls[|calls| - 1].outcome == None
    case Replying(active, j, outcome, open) =>
      calls != [] && calls[|calls| - 1].ids == active && calls[|calls| - 1].outcome == Some(outcome)
    case Sending(active, j, outcome, open, result) =>
      && calls != [] && calls[|calls| - 1].ids == active && calls[|calls| - 1].outcome == Some(outcome)
      && j < |active| && ResultOk(calls, active[j], Dispatched, result)
    case _ => true
  }

  // ----- one item -------------------------------------------------------------------------

  ghost predicate ItemOk(d: Dispatcher, head: int, calls: seq<Call>, i: nat, it: Item) {
    && it.sent <= 1
    && (it.sent == 0 ==> it.reply.None?)
    && (it.sent == 1 ==> !it.state.Queued? && (it.reply.Some? || it.sub.Returned?))
    && (it.state.Queued? ==> it.sent == 0 && (i >= head || Undecided(d, i)) && !it.sub.Awaiting? && !it.sub.Returned?)
    && (it.state.Dispatched? && it.sent == 0 ==> Owed(d, i))
    && (it.state.Expired? && it.sent == 0 ==> it.sub.Returned? || RefusedNow(d, i))
    && (Owed(d, i) ==> it.state.Dispatched? && it.sent == 0)
    && (RefusedNow(d, i) ==> it.state.Expired? && it.sent == 0)
    && (it.announced ==> it.state.Dispatched?)
    && (InCalls(calls, i) ==> it.state.Dispatched?)
    && (it.sub.SawDone? ==> d.Stopped?)
    && (it.reply.Some? ==> ResultOk(calls, i, it.state, it.reply.value))
    && (it.sub.Returned? ==> ResultOk(calls, i, it.state, it.sub.result))
  }

  ghost predicate ItemsOk(d: Dispatcher, head: int, calls: seq<Call>, items: seq<Item>) {
    forall i: nat {:trigger ItemOk(d, head, calls, i, items[i])} :: i < |items| ==> ItemOk(d, head, calls, i, items[i])
  }

  /** Admissions and admitted items correspond. */
  ghost predicate AttemptsOk(items: seq<Item>, attempts: map<nat, Attempt>) {
    && (forall i {:trigger items[i]} :: 0 <= i < |items| ==> items[i].caller in attempts && attempts[items[i].caller] == Admitted(i))
    && (forall t {:trigger attempts[t]} :: t in attempts && attempts[t].Admitted? ==>
          attempts[t].item < |items| && items[attempts[t].item].caller == t)
  }

  function Head(s: State): int {
    |s.items| - |s.queue|
  }

  ghost predicate Inv(c: Config, s: State) {
    && c.Valid()
    && QueueOk(c, s.queue, |s.items|)
    && HandOk(c, s.disp, Head(s))
    && ShutOk(s.disp, s.closed, s.queue)
    && CallsOk(c, s.items, s.calls)
    && CallsBefore(s.calls, s.disp, Head(s))
    && CurrentOk(s.items, s.calls, s.disp)
    && ItemsOk(s.disp, Head(s), s.calls, s.items)
    && AttemptsOk(s.items, s.attempts)
  }

  lemma StartInv(c: Config)
    requires c.Valid()
    ensures Inv(c, START)
  {
  }

  // ----- frames ---------------------------------------------------------------------------

  /** What never changes in an item. */
  ghost predicate Fixed(a: seq<Item>, b: seq<Item>) {
    && |a| <= |b|
    && forall i {:trigger b[i]} :: 0 <= i < |a| ==> b[i].caller == a[i].caller && b[i].value == a[i].value && b[i].expiry == a[i].expiry
  }

  lemma TimelyFrame(a: seq<Item>, b: seq<Item>, ids: seq<nat>, at: Time)
    requires Fixed(a, b) && Timely(a, ids, at)
    ensures Timely(b, ids, at)
  {
    forall i | i in ids ensures i < |b| && at < b[i].expiry { assert i < |a| && b[i].expiry == a[i].expiry; }
  }

  lemma CallsFrame(c: Config, a: seq<Item>, b: seq<Item>, calls: seq<Call>)
    requires Fixed(a, b) && CallsOk(c, a, calls)
    ensures CallsOk(c, b, calls)
  {
    forall n | 0 <= n < |calls| ensures CallOk(c, b, calls[n]) {
      var ids := calls[n].ids;
      assert CallOk(c, a, calls[n]);
      TimelyFrame(a, b, ids, calls[n].at);
      forall k | 0 <= k < |ids| ensures ValuesOf(a, ids)[k] == ValuesOf(b, ids)[k] {
        assert ids[k] in ids;
        assert b[ids[k]].value == a[ids[k]].value;
      }
      assert ValuesOf(a, ids) == ValuesOf(b, ids);
    }
  }

  lemma CurrentFrame(a: seq<Item>, b: seq<Item>, calls: seq<Call>, d: Dispatcher)
    requires Fixed(a, b) && CurrentOk(a, calls, d)
    ensures CurrentOk(b, calls, d)
  {
    match d
    case Sorting(batch, k, active, at, open) => TimelyFrame(a, b, active, at);
    case Judged(batch, k, active, at, open, verdict) =>
      TimelyFrame(a, b, active, at);
      assert verdict.Go? && k < |batch| ==> b[batch[k]].expiry == a[batch[k]].expiry;
    case Refusing(batch, k, active, at, open, result) => TimelyFrame(a, b, active, at);
    case Announcing(batch, k, active, at, open) =>
      TimelyFrame(a, b, active, at);
      assert k < |batch| ==> b[batch[k]].expiry == a[batch[k]].expiry;
    case _ =>
  }

  lemma AttemptsFrame(a: seq<Item>, b: seq<Item>, attempts: map<nat, Attempt>)
    requires Fixed(a, b) && |a| == |b| && AttemptsOk(a, attempts)
    ensures AttemptsOk(b, attempts)
  {
    forall i | 0 <= i < |b| ensures b[i].caller in attempts && attempts[b[i].caller] == Admitted(i) {
      assert b[i].caller == a[i].caller;
    }
    forall t | t in attempts && attempts[t].Admitted?
      ensures attempts[t].item < |b| && b[attempts[t].item].caller == t
    {
      assert a[attempts[t].item].caller == t;
    }
  }
}
