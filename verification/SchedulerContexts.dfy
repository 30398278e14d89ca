/** What a done context rules out: the item never reaches the handler unless the dispatcher had already
    judged it, and its Submit never succeeds unless its answer had already been chosen. */
module SchedulerContexts {
  import opened Common
  import opened SchedulerModel
  import opened SchedulerInvariant
  import opened SchedulerSteps
  import opened SchedulerCalls

  // ----- the handler ----------------------------------------------------------------------

  /** The context of item `i` is done and the dispatcher has not judged it fit. */
  predicate Barred(s: State, i: nat) {
    && i < |s.items| && s.items[i].gone && !s.items[i].state.Dispatched?
    && !(s.disp.Judged? && s.disp.verdict.Go? && s.disp.k < |s.disp.batch| && s.disp.batch[s.disp.k] == i)
  }

  lemma DispatcherBars(c: Config, s: State, e: DispatcherEvent, i: nat)
    requires DispatcherStep(c, s, e).Some? && Barred(s, i)
    ensures Barred(DispatcherStep(c, s, e).value, i)
  {
  }

  lemma SubmitterBars(c: Config, s: State, j: nat, e: SubmitterEvent, i: nat)
    requires Next(c, s, BySubmitter(j, e)).Some? && Barred(s, i)
    ensures Barred(Next(c, s, BySubmitter(j, e)).value, i)
  {
  }

  lemma BarredStays(c: Config, s: State, a: Action, i: nat)
    requires Next(c, s, a).Some? && Barred(s, i)
    ensures Barred(Next(c, s, a).value, i)
  {
    match a
    case ByDispatcher(e) => DispatcherBars(c, s, e, i);
    case BySubmitter(j, e) => SubmitterBars(c, s, j, e, i);
    case _ =>
  }

  lemma {:induction false} BarredLasts(c: Config, r: Run, n: nat, m: nat, i: nat)
    requires r.Valid(c) && n <= m < |r.states| && Barred(r.states[n], i)
    ensures Barred(r.states[m], i)
    decreases m
  {
    if n < m {
      BarredLasts(c, r, n, m - 1, i);
      assert Next(c, r.states[m - 1], r.acts[m - 1]) == Some(r.states[m]);
      BarredStays(c, r.states[m - 1], r.acts[m - 1], i);
    }
  }

  /** An item whose context is done before it is judged is never passed to the handler. */
  lemma GoneNeverReachesHandler(c: Config, r: Run, n: nat, m: nat, i: nat)
    requires c.Valid() && r.Valid(c) && n <= m < |r.states| && Barred(r.states[n], i)
    ensures Barred(r.states[m], i) && forall a :: 0 <= a < |r.states[m].calls| ==> i !in r.states[m].calls[a].ids
  {
    BarredLasts(c, r, n, m, i);
    EveryStateIsOk(c, r, m);
    BarredIsUncalled(c, r.states[m], i);
  }

  lemma BarredIsUncalled(c: Config, s: State, i: nat)
    requires Inv(c, s) && Barred(s, i)
    ensures forall a :: 0 <= a < |s.calls| ==> i !in s.calls[a].ids
  {
    assert ItemOk(s.disp, Head(s), s.calls, i, s.items[i]);
    assert forall a :: 0 <= a < |s.calls| && i in s.calls[a].ids ==> InCalls(s.calls, i);
  }

  // ----- the answer -----------------------------------------------------------------------

  predicate Refusal(r: Result) {
    r.ContextError? || r.QueueDelay?
  }

  /** The context of item `i` is done and no other answer than a refusal has been chosen for it. */
  predicate Spurned(s: State, i: nat) {
    && i < |s.items| && s.items[i].gone
    && (s.items[i].reply.Some? ==> Refusal(s.items[i].reply.value))
    && (s.items[i].sub.Returned? ==> Refusal(s.items[i].sub.result))
    && (s.disp.Sending? && s.disp.j < |s.disp.active| && s.disp.active[s.disp.j] == i ==> Refusal(s.disp.result))
  }

  lemma DispatcherSpurns(c: Config, s: State, e: DispatcherEvent, i: nat)
    requires HandOk(c, s.disp, Head(s)) && DispatcherStep(c, s, e).Some? && Spurned(s, i)
    ensures Spurned(DispatcherStep(c, s, e).value, i)
  {
  }

  lemma SubmitterSpurns(c: Config, s: State, j: nat, e: SubmitterEvent, i: nat)
    requires Inv(c, s) && Next(c, s, BySubmitter(j, e)).Some? && Spurned(s, i)
    ensures Spurned(Next(c, s, BySubmitter(j, e)).value, i)
  {
    if j == i {
      SubmitterKeepsInv(c, s, j, e);
      var s' := Next(c, s, BySubmitter(j, e)).value;
      assert ItemOk(s'.disp, Head(s'), s'.calls, i, s'.items[i]);
    }
  }

  lemma SpurnedStays(c: Config, s: State, a: Action, i: nat)
    requires Inv(c, s) && Next(c, s, a).Some? && Spurned(s, i)
    ensures Spurned(Next(c, s, a).value, i)
  {
    match a
    case ByDispatcher(e) => DispatcherSpurns(c, s, e, i);
    case BySubmitter(j, e) => SubmitterSpurns(c, s, j, e, i);
    case _ =>
  }

  /** A Submit whose context is done before its answer is chosen ends, if at all, with a context error
      or ErrQueueDelay. */
  lemma {:induction false} GoneNeverSucceeds(c: Config, r: Run, n: nat, m: nat, i: nat)
    requires c.Valid() && r.Valid(c) && n <= m < |r.states| && Spurned(r.states[n], i)
    ensures Spurned(r.states[m], i)
    decreases m
  {
    if n < m {
      GoneNeverSucceeds(c, r, n, m - 1, i);
      EveryStateIsOk(c, r, m - 1);
      assert Next(c, r.states[m - 1], r.acts[m - 1]) == Some(r.states[m]);
      SpurnedStays(c, r.states[m - 1], r.acts[m - 1], i);
    }
  }
}
