/** The handler's invocations, and the invariant over every step and every run. */
module SchedulerCalls {
  import opened Common
  import opened SchedulerModel
  import opened SchedulerInvariant
  import opened SchedulerSteps

  /** Later logs contain earlier ones, up to outcomes that were still open. */
  ghost predicate Extends(a: seq<Call>, b: seq<Call>) {
    && |a| <= |b|
    && forall n {:trigger b[n]} :: 0 <= n < |a| ==> b[n].ids == a[n].ids && (a[n].outcome.Some? ==> b[n].outcome == a[n].outcome)
  }

  lemma ResultStays(a: seq<Call>, b: seq<Call>, i: nat, state: ItemState, r: Result)
    requires Extends(a, b) && ResultOk(a, i, state, r)
    ensures ResultOk(b, i, state, r)
  {
    match r
    case Ok(v) =>
      var n, k :| 0 <= n < |a| && 0 <= k && Answers(a[n], k, i, v);
      assert b[n].ids == a[n].ids;
      assert Answers(b[n], k, i, v);
    case HandlerError(tag) =>
      var n :| 0 <= n < |a| && Suffers(a[n], i, r);
      assert b[n].ids == a[n].ids;
      assert Suffers(b[n], i, r);
    case WrongCount =>
      var n :| 0 <= n < |a| && Suffers(a[n], i, r);
      assert b[n].ids == a[n].ids;
      assert Suffers(b[n], i, r);
    case _ =>
  }

  /** A move of dispatcher and call log that changes no item. */
  lemma ItemWithLog(d: Dispatcher, head: int, calls: seq<Call>, i: nat, it: Item, d': Dispatcher, calls': seq<Call>)
    requires ItemOk(d, head, calls, i, it) && Extends(calls, calls')
    requires Respects(d, head, d', head, i, it)
    requires InCalls(calls', i) ==> InCalls(calls, i) || Owed(d, i)
    ensures ItemOk(d', head, calls', i, it)
  {
    if it.reply.Some? { ResultStays(calls, calls', i, it.state, it.reply.value); }
    if it.sub.Returned? { ResultStays(calls, calls', i, it.state, it.sub.result); }
  }

  lemma AppendedCalls(c: Config, items: seq<Item>, calls: seq<Call>, call: Call)
    requires CallsOk(c, items, calls) && CallOk(c, items, call)
    requires forall n, x, y {:trigger x in calls[n].ids, y in call.ids} ::
               0 <= n < |calls| && x in calls[n].ids && y in call.ids ==> x < y
    ensures CallsOk(c, items, calls + [call])
  {
    var more := calls + [call];
    forall n | 0 <= n < |more| ensures CallOk(c, items, more[n]) {
      if n < |calls| { assert CallOk(c, items, calls[n]); }
    }
    forall n, m, x, y | 0 <= n < m < |more| && x in more[n].ids && y in more[m].ids ensures x < y {
      assert x in calls[n].ids;
    }
  }

  lemma InvokeCalls(c: Config, s: State)
    requires Inv(c, s) && s.disp.Sorting? && s.disp.k == |s.disp.batch| && s.disp.active != []
    ensures CallsOk(c, s.items, s.calls + [Call(s.disp.active, ValuesOf(s.items, s.disp.active), s.disp.at, None)])
  {
    var d := s.disp;
    var call := Call(d.active, ValuesOf(s.items, d.active), d.at, None);
    forall n, x, y | 0 <= n < |s.calls| && x in s.calls[n].ids && y in call.ids ensures x < y {
      assert BeforeHandler(d, y);
    }
    AppendedCalls(c, s.items, s.calls, call);
  }

  lemma InvokeBefore(calls: seq<Call>, d: Dispatcher, head: int, call: Call, d': Dispatcher)
    requires CallsBefore(calls, d, head) && Below(call.ids, head) && d'.Calling?
    ensures CallsBefore(calls + [call], d', head)
  {
    var more := calls + [call];
    forall n, x | 0 <= n < |more| && x in more[n].ids ensures x < head {
      if n < |calls| { assert x in calls[n].ids; }
    }
  }

  lemma InvokeKeepsInv(c: Config, s: State)
    requires Inv(c, s) && EndSortingStep(s).Some? && s.disp.active != []
    ensures Inv(c, EndSortingStep(s).value)
  {
    var d := s.disp;
    var s' := EndSortingStep(s).value;
    assert d.batch[d.k..] == [];
    InvokeCalls(c, s);
    InvokeBefore(s.calls, d, Head(s), s'.calls[|s.calls|], s'.disp);
    forall i: nat | i < |s.items| ensures ItemOk(s'.disp, Head(s), s'.calls, i, s'.items[i]) {
      assert ItemOk(d, Head(s), s.calls, i, s.items[i]);
      if InCalls(s'.calls, i) {
        var n :| 0 <= n < |s'.calls| && i in s'.calls[n].ids;
        assert n < |s.calls| ==> i in s.calls[n].ids;
      }
      ItemWithLog(d, Head(s), s.calls, i, s.items[i], s'.disp, s'.calls);
    }
  }

  lemma ReturnCalls(c: Config, items: seq<Item>, calls: seq<Call>, outcome: Outcome, d: Dispatcher, head: int, d': Dispatcher)
    requires CallsOk(c, items, calls) && calls != [] && CallsBefore(calls, d, head) && d'.Replying?
    ensures CallsOk(c, items, calls[|calls| - 1 := calls[|calls| - 1].(outcome := Some(outcome))])
    ensures CallsBefore(calls[|calls| - 1 := calls[|calls| - 1].(outcome := Some(outcome))], d', head)
  {
    var now := calls[|calls| - 1 := calls[|calls| - 1].(outcome := Some(outcome))];
    forall n | 0 <= n < |now| ensures CallOk(c, items, now[n]) && now[n].ids == calls[n].ids {
      assert CallOk(c, items, calls[n]);
    }
    forall n, m, x, y | 0 <= n < m < |now| && x in now[n].ids && y in now[m].ids ensures x < y {
      assert x in calls[n].ids && y in calls[m].ids;
    }
    forall n, x | 0 <= n < |now| && x in now[n].ids ensures x < head { assert x in calls[n].ids; }
  }

  lemma ReturnKeepsInv(c: Config, s: State, outcome: Outcome)
    requires Inv(c, s) && ReturnStep(s, outcome).Some?
    ensures Inv(c, ReturnStep(s, outcome).value)
  {
    var d := s.disp;
    var s' := ReturnStep(s, outcome).value;
    ReturnCalls(c, s.items, s.calls, outcome, d, Head(s), s'.disp);
    forall i: nat | i < |s.items| ensures ItemOk(s'.disp, Head(s), s'.calls, i, s'.items[i]) {
      assert ItemOk(d, Head(s), s.calls, i, s.items[i]);
      ReturnItem(d, Head(s), s.calls, i, s.items[i], outcome, s'.disp);
    }
  }

  lemma ReturnItem(d: Dispatcher, head: int, calls: seq<Call>, i: nat, it: Item, outcome: Outcome, d': Dispatcher)
    requires d.Calling? && calls != [] && calls[|calls| - 1].outcome == None && ItemOk(d, head, calls, i, it)
    requires d' == Replying(d.active, 0, outcome, d.open)
    ensures ItemOk(d', head, calls[|calls| - 1 := calls[|calls| - 1].(outcome := Some(outcome))], i, it)
  {
    var now := calls[|calls| - 1 := calls[|calls| - 1].(outcome := Some(outcome))];
    assert d.active[0..] == d.active;
    if InCalls(now, i) {
      var n :| 0 <= n < |now| && i in now[n].ids;
      assert i in calls[n].ids;
    }
    ItemWithLog(d, head, calls, i, it, d', now);
  }

  // ----- all steps ------------------------------------------------------------------------

  lemma CollectingKeepsInv(c: Config, s: State, e: DispatcherEvent)
    requires Inv(c, s) && DispatcherStep(c, s, e).Some?
    requires e.Receive? || e.SeeClosed? || e.LoadState? || e.StopCollecting?
    ensures Inv(c, DispatcherStep(c, s, e).value)
  {
    if e.Receive? { ReceiveKeepsInv(c, s); }
    else if e.LoadState? { LoadKeepsInv(c, s); }
    else if e.StopCollecting? { StartSortingKeepsInv(c, s, true); }
    else if s.disp.Seeking? { StopKeepsInv(c, s); }
    else { StartSortingKeepsInv(c, s, false); }
  }

  lemma SwapKeepsInv(c: Config, s: State)
    requires Inv(c, s) && SwapStep(s).Some?
    ensures Inv(c, SwapStep(s).value)
  {
    var d' := SwapStep(s).value.disp;
    if d'.Sorting? { SkipKeepsInv(c, s); } else if d'.Announcing? { DispatchKeepsInv(c, s); } else { ExpireKeepsInv(c, s); }
  }

  lemma SortingKeepsInv(c: Config, s: State, e: DispatcherEvent)
    requires Inv(c, s) && DispatcherStep(c, s, e).Some?
    requires e.Judge? || e.Swap? || e.SendRefusal? || e.Announce? || e.EndSorting?
    ensures Inv(c, DispatcherStep(c, s, e).value)
  {
    if e.Judge? { JudgeKeepsInv(c, s); }
    else if e.Swap? { SwapKeepsInv(c, s); }
    else if e.SendRefusal? { RefusalKeepsInv(c, s); }
    else if e.Announce? { AnnounceKeepsInv(c, s); }
    else if s.disp.active == [] { EndSortingKeepsInv(c, s); }
    else { InvokeKeepsInv(c, s); }
  }

  lemma ReplyingKeepsInv(c: Config, s: State, e: DispatcherEvent)
    requires Inv(c, s) && DispatcherStep(c, s, e).Some?
    requires e.HandlerReturns? || e.Choose? || e.Send? || e.Finish?
    ensures Inv(c, DispatcherStep(c, s, e).value)
  {
    match e
    case HandlerReturns(outcome) => ReturnKeepsInv(c, s, outcome);
    case Choose => ChooseKeepsInv(c, s);
    case Send => SendKeepsInv(c, s);
    case Finish => FinishKeepsInv(c, s);
  }

  lemma EnqueueKeepsInv(c: Config, s: State, t: nat, gone: bool)
    requires Inv(c, s) && EnqueueStep(c, s, t, gone).Some?
    ensures Inv(c, EnqueueStep(c, s, t, gone).value)
  {
    if s.closed { AttemptOnly(c, s, t, Refused(Closed)); }
    else if |s.queue| >= c.maxQueue { AttemptOnly(c, s, t, Refused(Full)); }
    else { AdmitKeepsInv(c, s, t, gone); }
  }

  lemma ClockAndClose(c: Config, s: State, now: Time)
    requires Inv(c, s)
    ensures Inv(c, s.(now := now)) && Inv(c, s.(closed := true))
  {
  }

  lemma DispatcherKeepsInv(c: Config, s: State, e: DispatcherEvent)
    requires Inv(c, s) && DispatcherStep(c, s, e).Some?
    ensures Inv(c, DispatcherStep(c, s, e).value)
  {
    if e.Receive? || e.SeeClosed? || e.LoadState? || e.StopCollecting? { CollectingKeepsInv(c, s, e); }
    else if e.HandlerReturns? || e.Choose? || e.Send? || e.Finish? { ReplyingKeepsInv(c, s, e); }
    else { SortingKeepsInv(c, s, e); }
  }

  lemma WorldKeepsInv(c: Config, s: State, a: Action)
    requires Inv(c, s) && Next(c, s, a).Some? && !a.BySubmitter? && !a.ByDispatcher?
    ensures Inv(c, Next(c, s, a).value)
  {
    match a
    case Tick(t) => ClockAndClose(c, s, t);
    case Close => ClockAndClose(c, s, s.now);
    case Begin(t, value, gone) => BeginKeepsInv(c, s, t, value, gone);
    case Enqueue(t, gone) => EnqueueKeepsInv(c, s, t, gone);
    case Cancel(i) => CancelKeepsInv(c, s, i);
  }

  lemma BeginKeepsInv(c: Config, s: State, t: nat, value: nat, gone: bool)
    requires Inv(c, s) && Next(c, s, Begin(t, value, gone)).Some?
    ensures Inv(c, Next(c, s, Begin(t, value, gone)).value)
  {
    AttemptOnly(c, s, t, if gone then Refused(ContextError) else Ready(value, s.now + c.maxDelay));
  }

  lemma NextKeepsInv(c: Config, s: State, a: Action)
    requires Inv(c, s) && Next(c, s, a).Some?
    ensures Inv(c, Next(c, s, a).value)
  {
    match a
    case BySubmitter(i, e) => SubmitterKeepsInv(c, s, i, e);
    case ByDispatcher(e) => DispatcherKeepsInv(c, s, e);
    case _ => WorldKeepsInv(c, s, a);
  }

  /** A run: each state follows from the one before by one action. */
  datatype Run = Run(states: seq<State>, acts: seq<Action>) {
    ghost predicate Valid(c: Config) {
      && |states| == |acts| + 1 && states[0] == START
      && forall n {:trigger acts[n]} :: 0 <= n < |acts| ==> Next(c, states[n], acts[n]) == Some(states[n + 1])
    }
  }

  lemma {:induction false} EveryStateIsOk(c: Config, r: Run, n: nat)
    requires c.Valid() && r.Valid(c) && n < |r.states|
    ensures Inv(c, r.states[n])
  {
    if n == 0 {
      StartInv(c);
    } else {
      EveryStateIsOk(c, r, n - 1);
      assert Next(c, r.states[n - 1], r.acts[n - 1]) == Some(r.states[n]);
      NextKeepsInv(c, r.states[n - 1], r.acts[n - 1]);
    }
  }
}
