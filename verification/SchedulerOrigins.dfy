/** Where the batcher's numbers come from: every item from a Submit call that began at a known time,
    every refusal at the door from a closed or full queue, every call's time from the clock. */
module SchedulerOrigins {
  import opened Common
  import opened SchedulerModel
  import opened SchedulerInvariant
  import opened SchedulerCalls

  // ----- what a step does to attempts and items -------------------------------------------

  lemma DispatcherFixes(c: Config, s: State, e: DispatcherEvent)
    requires DispatcherStep(c, s, e).Some?
    ensures var s' := DispatcherStep(c, s, e).value;
            Fixed(s.items, s'.items) && |s'.items| == |s.items| && s'.attempts == s.attempts
  {
  }

  lemma SubmitterFixes(c: Config, s: State, i: nat, e: SubmitterEvent)
    requires Next(c, s, BySubmitter(i, e)).Some?
    ensures var s' := Next(c, s, BySubmitter(i, e)).value;
            Fixed(s.items, s'.items) && |s'.items| == |s.items| && s'.attempts == s.attempts
  {
  }

  /** Items are only appended, by an admission, and an attempt changes only by its own Begin or
      Enqueue. */
  lemma StepFixes(c: Config, s: State, a: Action)
    requires Next(c, s, a).Some?
    ensures var s' := Next(c, s, a).value;
            && Fixed(s.items, s'.items)
            && (|s'.items| > |s.items| ==>
                  && a.Enqueue? && a.caller in s.attempts && s.attempts[a.caller].Ready? && |s'.items| == |s.items| + 1
                  && var it := s'.items[|s.items|];
                  it.caller == a.caller && it.value == s.attempts[a.caller].value && it.expiry == s.attempts[a.caller].expiry)
            && (forall t {:trigger s'.attempts[t]} :: t in s'.attempts ==>
                  || (t in s.attempts && s'.attempts[t] == s.attempts[t])
                  || ((a.Begin? || a.Enqueue?) && a.caller == t))
  {
    match a
    case BySubmitter(i, e) => SubmitterFixes(c, s, i, e);
    case ByDispatcher(e) => DispatcherFixes(c, s, e);
    case _ =>
  }

  // ----- the beginning of a Submit --------------------------------------------------------

  /** Step `b` is the beginning of a Submit of `value` by `t` whose context is alive, and `expiry` is
      the moment its delay is used up. */
  ghost predicate Began(c: Config, r: Run, b: nat, t: nat, value: nat, expiry: Time) {
    && b < |r.acts| && b < |r.states|
    && r.acts[b] == Begin(t, value, false)
    && expiry == r.states[b].now + c.maxDelay
  }

  lemma {:induction false} ReadyOrigin(c: Config, r: Run, n: nat, t: nat) returns (b: nat)
    requires r.Valid(c) && n < |r.states| && t in r.states[n].attempts && r.states[n].attempts[t].Ready?
    ensures b < n && Began(c, r, b, t, r.states[n].attempts[t].value, r.states[n].attempts[t].expiry)
    decreases n
  {
    b := 0;
    if n > 0 {
      var s, a := r.states[n - 1], r.acts[n - 1];
      assert Next(c, s, a) == Some(r.states[n]);
      StepFixes(c, s, a);
      if a.Begin? && a.caller == t {
        b := n - 1;
      } else {
        b := ReadyOrigin(c, r, n - 1, t);
      }
    }
  }

  /** Every admitted item belongs to one Submit call: it carries that call's value, its delay counts
      from the moment the call began, and it was admitted later, as the next item. */
  lemma {:induction false} ItemsComeFromSubmits(c: Config, r: Run, n: nat, i: nat) returns (b: nat, e: nat)
    requires r.Valid(c) && n < |r.states| && i < |r.states[n].items|
    ensures var it := r.states[n].items[i]; Began(c, r, b, it.caller, it.value, it.expiry)
    ensures b < e < n && r.acts[e].Enqueue? && r.acts[e].caller == r.states[n].items[i].caller
    ensures |r.states[e].items| == i < |r.states[e + 1].items|
    decreases n
  {
    b, e := 0, 0;
    if n > 0 {
      var s, a := r.states[n - 1], r.acts[n - 1];
      assert Next(c, s, a) == Some(r.states[n]);
      StepFixes(c, s, a);
      if i < |s.items| {
        b, e := ItemsComeFromSubmits(c, r, n - 1, i);
      } else {
        e := n - 1;
        b := ReadyOrigin(c, r, n - 1, a.caller);
      }
    }
  }

  // ----- refusals at the door -------------------------------------------------------------

  lemma {:induction false} ClosedByClose(c: Config, r: Run, n: nat)
    requires r.Valid(c) && n < |r.states|
    ensures r.states[n].closed <==> exists j :: 0 <= j < n && r.acts[j] == Close
    decreases n
  {
    if n > 0 {
      ClosedByClose(c, r, n - 1);
      assert Next(c, r.states[n - 1], r.acts[n - 1]) == Some(r.states[n]);
      if r.acts[n - 1].ByDispatcher? {
        KeepsClosed(c, r.states[n - 1], r.acts[n - 1].d);
      }
    }
  }

  lemma KeepsClosed(c: Config, s: State, e: DispatcherEvent)
    requires DispatcherStep(c, s, e).Some?
    ensures DispatcherStep(c, s, e).value.closed == s.closed
  {
  }

  /** How many items the dispatcher has taken off the queue. */
  function Taken(acts: seq<Action>): nat {
    if acts == [] then 0 else Taken(acts[..|acts| - 1]) + if acts[|acts| - 1] == ByDispatcher(Receive) then 1 else 0
  }

  lemma {:induction false} QueueIsCounted(c: Config, r: Run, n: nat)
    requires r.Valid(c) && n < |r.states|
    ensures |r.states[n].queue| + Taken(r.acts[..n]) == |r.states[n].items|
    decreases n
  {
    if n > 0 {
      QueueIsCounted(c, r, n - 1);
      assert Next(c, r.states[n - 1], r.acts[n - 1]) == Some(r.states[n]);
      assert r.acts[..n][..n - 1] == r.acts[..n - 1];
      StepCounts(c, r.states[n - 1], r.acts[n - 1]);
    }
  }

  lemma StepCounts(c: Config, s: State, a: Action)
    requires Next(c, s, a).Some?
    ensures var s' := Next(c, s, a).value;
            |s'.queue| + (if a == ByDispatcher(Receive) then 1 else 0) - |s.queue| == |s'.items| - |s.items|
  {
    match a
    case ByDispatcher(e) => DispatcherCounts(c, s, e);
    case _ =>
  }

  lemma DispatcherCounts(c: Config, s: State, e: DispatcherEvent)
    requires DispatcherStep(c, s, e).Some?
    ensures var s' := DispatcherStep(c, s, e).value;
            |s'.queue| + (if e.Receive? then 1 else 0) == |s.queue| && |s'.items| == |s.items|
  {
  }

  /** The door: an Enqueue after Close is refused with ErrClosed, one that finds maxQueue items
      admitted and not yet taken with ErrFull, and every other one is admitted as the next item. */
  lemma DoorIsHonest(c: Config, r: Run, n: nat, t: nat, gone: bool)
    requires c.Valid() && r.Valid(c) && n < |r.acts| && r.acts[n] == Enqueue(t, gone)
    ensures t in r.states[n + 1].attempts
    ensures var closed, full := (exists j :: 0 <= j < n && r.acts[j] == Close), |r.states[n].items| - Taken(r.acts[..n]) == c.maxQueue;
            var after := r.states[n + 1].attempts[t];
            && (after == Refused(Closed) <==> closed)
            && (after == Refused(Full) <==> !closed && full)
            && (after == Admitted(|r.states[n].items|) <==> !closed && !full)
            && |r.states[n + 1].items| == |r.states[n].items| + if closed || full then 0 else 1
  {
    assert Next(c, r.states[n], r.acts[n]) == Some(r.states[n + 1]);
    EveryStateIsOk(c, r, n);
    ClosedByClose(c, r, n);
    QueueIsCounted(c, r, n);
  }

  /** Step `j` is the reason why the Submit of `t` was refused with `result`. */
  ghost predicate Refuses(c: Config, r: Run, j: nat, t: nat, result: Result) {
    && j < |r.acts| && j < |r.states|
    && match result
       case ContextError => r.acts[j].Begin? && r.acts[j].caller == t && r.acts[j].gone
       case Closed => r.acts[j].Enqueue? && r.acts[j].caller == t && exists m :: 0 <= m < j && r.acts[m] == Close
       case Full =>
         && r.acts[j].Enqueue? && r.acts[j].caller == t
         && |r.states[j].items| - Taken(r.acts[..j]) == c.maxQueue
       case _ => false
  }

  lemma DoorStep(c: Config, r: Run, n: nat, t: nat)
    requires c.Valid() && r.Valid(c) && n < |r.acts| && (r.acts[n].Begin? || r.acts[n].Enqueue?) && r.acts[n].caller == t
    requires t in r.states[n + 1].attempts && r.states[n + 1].attempts[t].Refused?
    ensures Refuses(c, r, n, t, r.states[n + 1].attempts[t].result)
  {
    assert Next(c, r.states[n], r.acts[n]) == Some(r.states[n + 1]);
    if r.acts[n].Enqueue? {
      DoorIsHonest(c, r, n, t, r.acts[n].gone);
    }
  }

  /** A Submit that is refused before it is admitted began with its context done, or came to the door
      after Close, or found the queue full. */
  lemma {:induction false} RefusalsComeFromTheDoor(c: Config, r: Run, n: nat, t: nat) returns (j: nat)
    requires c.Valid() && r.Valid(c) && n < |r.states| && t in r.states[n].attempts && r.states[n].attempts[t].Refused?
    ensures j < n && Refuses(c, r, j, t, r.states[n].attempts[t].result)
    decreases n
  {
    j := 0;
    if n > 0 {
      var a := r.acts[n - 1];
      assert Next(c, r.states[n - 1], a) == Some(r.states[n]);
      if (a.Begin? || a.Enqueue?) && a.caller == t {
        j := n - 1;
        DoorStep(c, r, n - 1, t);
      } else {
        AttemptStays(c, r.states[n - 1], a, r.states[n], t);
        j := RefusalsComeFromTheDoor(c, r, n - 1, t);
      }
    }
  }

  lemma AttemptStays(c: Config, s: State, a: Action, s': State, t: nat)
    requires Next(c, s, a) == Some(s') && t in s'.attempts && !((a.Begin? || a.Enqueue?) && a.caller == t)
    ensures t in s.attempts && s'.attempts[t] == s.attempts[t]
  {
    StepFixes(c, s, a);
  }

  // ----- the clock of a dispatch ----------------------------------------------------------

  /** The batch being sorted and the moment it is judged by. */
  function InSort(d: Dispatcher): Option<(seq<nat>, Time)> {
    match d
    case Sorting(batch, k, active, at, open) => Some((batch, at))
    case Judged(batch, k, active, at, open, verdict) => Some((batch, at))
    case Refusing(batch, k, active, at, open, result) => Some((batch, at))
    case Announcing(batch, k, active, at, open) => Some((batch, at))
    case _ => None
  }

  predicate StartsDispatch(a: Action) {
    a == ByDispatcher(StopCollecting) || a == ByDispatcher(SeeClosed)
  }

  /** Step `d` began the dispatch of `batch` at the clock reading `at`, and none began between it and `n`. */
  ghost predicate DispatchedAt(r: Run, d: nat, n: nat, batch: seq<nat>, at: Time) {
    && d < n <= |r.acts| && n <= |r.states|
    && StartsDispatch(r.acts[d]) && r.states[d].disp == Collecting(batch) && r.states[d].now == at
    && forall j :: d < j < n ==> !StartsDispatch(r.acts[j])
  }

  /** A batch and its moment stay what they are until it is called or dropped. */
  lemma SortStays(c: Config, s: State, a: Action)
    requires Next(c, s, a).Some? && InSort(Next(c, s, a).value.disp).Some?
    ensures var s' := Next(c, s, a).value;
            || (!StartsDispatch(a) && InSort(s'.disp) == InSort(s.disp))
            || (StartsDispatch(a) && s.disp.Collecting? && InSort(s'.disp) == Some((s.disp.batch, s.now)))
  {
    if a.ByDispatcher? {
      DispatcherSort(c, s, a.d);
    }
  }

  lemma DispatcherSort(c: Config, s: State, e: DispatcherEvent)
    requires DispatcherStep(c, s, e).Some? && InSort(DispatcherStep(c, s, e).value.disp).Some?
    ensures var s' := DispatcherStep(c, s, e).value;
            || (!StartsDispatch(ByDispatcher(e)) && InSort(s'.disp) == InSort(s.disp))
            || (StartsDispatch(ByDispatcher(e)) && s.disp.Collecting? && InSort(s'.disp) == Some((s.disp.batch, s.now)))
  {
  }

  lemma {:induction false} SortOrigin(c: Config, r: Run, n: nat) returns (d: nat)
    requires r.Valid(c) && n < |r.states| && InSort(r.states[n].disp).Some?
    ensures DispatchedAt(r, d, n, InSort(r.states[n].disp).value.0, InSort(r.states[n].disp).value.1)
    decreases n
  {
    d := 0;
    if n > 0 {
      var s, a := r.states[n - 1], r.acts[n - 1];
      assert Next(c, s, a) == Some(r.states[n]);
      SortStays(c, s, a);
      if StartsDispatch(a) {
        d := n - 1;
      } else {
        d := SortOrigin(c, r, n - 1);
      }
    }
  }

  /** Calls are only appended, at the end of a sort and with its moment. */
  lemma CallsFixed(c: Config, s: State, a: Action)
    requires Next(c, s, a).Some?
    ensures var s' := Next(c, s, a).value;
            && |s.calls| <= |s'.calls|
            && (forall n {:trigger s'.calls[n]} :: 0 <= n < |s.calls| ==> s'.calls[n].ids == s.calls[n].ids && s'.calls[n].at == s.calls[n].at)
            && (|s'.calls| > |s.calls| ==>
                  && a == ByDispatcher(EndSorting) && |s'.calls| == |s.calls| + 1 && s.disp.Sorting?
                  && s'.calls[|s.calls|].ids == s.disp.active && s'.calls[|s.calls|].at == s.disp.at)
  {
    if a.ByDispatcher? {
      DispatcherCalls(c, s, a.d);
    }
  }

  lemma DispatcherCalls(c: Config, s: State, e: DispatcherEvent)
    requires DispatcherStep(c, s, e).Some?
    ensures var s' := DispatcherStep(c, s, e).value;
            && |s.calls| <= |s'.calls|
            && (forall n {:trigger s'.calls[n]} :: 0 <= n < |s.calls| ==> s'.calls[n].ids == s.calls[n].ids && s'.calls[n].at == s.calls[n].at)
            && (|s'.calls| > |s.calls| ==>
                  && e == EndSorting && |s'.calls| == |s.calls| + 1 && s.disp.Sorting?
                  && s'.calls[|s.calls|].ids == s.disp.active && s'.calls[|s.calls|].at == s.disp.at)
  {
  }

  /** Every call of the handler ends one sort: it was made by step `e`, and its moment is what the
      clock showed at step `d` when the collection it came from was closed. */
  lemma {:induction false} CallsHaveTheirMoment(c: Config, r: Run, n: nat, a: nat) returns (d: nat, e: nat)
    requires r.Valid(c) && n < |r.states| && a < |r.states[n].calls|
    ensures d < e < n && r.acts[e] == ByDispatcher(EndSorting) && |r.states[e].calls| == a
    ensures r.states[d].disp.Collecting? && DispatchedAt(r, d, e, r.states[d].disp.batch, r.states[n].calls[a].at)
    decreases n
  {
    d, e := 0, 0;
    if n > 0 {
      var s := r.states[n - 1];
      assert Next(c, s, r.acts[n - 1]) == Some(r.states[n]);
      CallsFixed(c, s, r.acts[n - 1]);
      if a < |s.calls| {
        d, e := CallsHaveTheirMoment(c, r, n - 1, a);
      } else {
        e := n - 1;
        d := SortOrigin(c, r, n - 1);
      }
    }
  }

  /** The queue delay: whatever reaches the handler is the value of a Submit that began, at step `b`,
      less than maxDelay before the moment, read at step `d`, when its batch was closed. */
  lemma HandlerCallsAreTimely(c: Config, r: Run, n: nat, a: nat, k: nat) returns (b: nat, d: nat)
    requires c.Valid() && r.Valid(c) && n < |r.states| && a < |r.states[n].calls| && k < |r.states[n].calls[a].ids|
    ensures r.states[n].calls[a].ids[k] < |r.states[n].items| && k < |r.states[n].calls[a].values|
    ensures var call := r.states[n].calls[a];
            var it := r.states[n].items[call.ids[k]];
            && Began(c, r, b, it.caller, call.values[k], it.expiry)
            && d < |r.acts| && StartsDispatch(r.acts[d]) && r.states[d].now == call.at
            && r.states[d].now < r.states[b].now + c.maxDelay
  {
    EveryStateIsOk(c, r, n);
    var call := r.states[n].calls[a];
    assert CallOk(c, r.states[n].items, call) && call.ids[k] in call.ids;
    var e;
    b, e := ItemsComeFromSubmits(c, r, n, call.ids[k]);
    d, e := CallsHaveTheirMoment(c, r, n, a);
  }

  // ----- contexts -------------------------------------------------------------------------

  lemma DispatcherLeavesContexts(c: Config, s: State, e: DispatcherEvent, i: nat)
    requires DispatcherStep(c, s, e).Some? && i < |s.items|
    ensures i < |DispatcherStep(c, s, e).value.items| && DispatcherStep(c, s, e).value.items[i].gone == s.items[i].gone
  {
  }

  lemma StepContexts(c: Config, s: State, a: Action, i: nat)
    requires Next(c, s, a).Some? && i < |s.items|
    ensures i < |Next(c, s, a).value.items|
    ensures Next(c, s, a).value.items[i].gone == (s.items[i].gone || a == Cancel(i))
  {
    match a
    case ByDispatcher(e) => DispatcherLeavesContexts(c, s, e, i);
    case BySubmitter(j, e) =>
    case _ =>
  }

  /** An item's context is done exactly when it was done at its admission or has been cancelled since. */
  lemma {:induction false} ContextsEndByCancel(c: Config, r: Run, n: nat, i: nat, e: nat)
    requires r.Valid(c) && n < |r.states| && i < |r.states[n].items|
    requires e < n && r.acts[e].Enqueue? && |r.states[e].items| == i && i < |r.states[e + 1].items|
    ensures r.states[n].items[i].gone <==> r.acts[e].gone || exists j :: e < j < n && r.acts[j] == Cancel(i)
    decreases n
  {
    var s, a := r.states[n - 1], r.acts[n - 1];
    assert Next(c, s, a) == Some(r.states[n]);
    if n == e + 1 {
      assert r.states[n].items[i].gone == a.gone;
    } else {
      ItemsStay(c, r, e + 1, n - 1);
      ContextsEndByCancel(c, r, n - 1, i, e);
      StepContexts(c, s, a, i);
    }
  }

  lemma {:induction false} ItemsStay(c: Config, r: Run, m: nat, n: nat)
    requires r.Valid(c) && m <= n < |r.states|
    ensures |r.states[m].items| <= |r.states[n].items|
    decreases n
  {
    if m < n {
      ItemsStay(c, r, m, n - 1);
      assert Next(c, r.states[n - 1], r.acts[n - 1]) == Some(r.states[n]);
      StepFixes(c, r.states[n - 1], r.acts[n - 1]);
    }
  }
}
