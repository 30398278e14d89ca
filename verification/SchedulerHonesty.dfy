/** Why a Submit fails: its delay is really used up, or its context is really done. */
module SchedulerHonesty {
  import opened Common
  import opened SchedulerModel
  import opened SchedulerCalls
  import opened SchedulerOrigins

  /** A refusal that fits the clock and the item. */
  predicate Honest(now: Time, it: Item, r: Result) {
    && (r.QueueDelay? ==> now >= it.expiry)
    && (r.ContextError? ==> it.gone)
  }

  predicate HonestItem(now: Time, it: Item) {
    && (it.sub.TimerFired? ==> now >= it.expiry)
    && (it.sub.ContextFired? ==> it.gone)
    && (it.reply.Some? ==> Honest(now, it, it.reply.value))
    && (it.sub.Returned? ==> Honest(now, it, it.sub.result))
  }

  ghost predicate HonestItems(now: Time, items: seq<Item>) {
    forall i {:trigger HonestItem(now, items[i])} :: 0 <= i < |items| ==> HonestItem(now, items[i])
  }

  /** What the dispatcher is about to say about its current item. */
  predicate HonestDispatcher(now: Time, items: seq<Item>, d: Dispatcher) {
    match d
    case Sorting(batch, k, active, at, open) => at <= now
    case Judged(batch, k, active, at, open, verdict) =>
      && at <= now && k < |batch| && batch[k] < |items|
      && (verdict.Gone? ==> items[batch[k]].gone) && (verdict.TooLate? ==> now >= items[batch[k]].expiry)
    case Refusing(batch, k, active, at, open, result) =>
      at <= now && k < |batch| && batch[k] < |items| && Honest(now, items[batch[k]], result)
    case Announcing(batch, k, active, at, open) => at <= now
    case Sending(active, j, outcome, open, result) =>
      j < |active| && active[j] < |items| && Honest(now, items[active[j]], result)
    case _ => true
  }

  ghost predicate Fair(s: State) {
    HonestItems(s.now, s.items) && HonestDispatcher(s.now, s.items, s.disp)
  }

  /** Later, and with more contexts done, an honest refusal stays honest. */
  predicate Ages(now: Time, it: Item, now': Time, it': Item) {
    now <= now' && it'.expiry == it.expiry && (it.gone ==> it'.gone)
  }

  lemma DispatcherAges(now: Time, items: seq<Item>, d: Dispatcher, now': Time, items': seq<Item>)
    requires HonestDispatcher(now, items, d) && |items| <= |items'| && now <= now'
    requires forall i {:trigger items'[i]} :: 0 <= i < |items| ==> Ages(now, items[i], now', items'[i])
    ensures HonestDispatcher(now', items', d)
  {
    match d
    case Judged(batch, k, active, at, open, verdict) => assert Ages(now, items[batch[k]], now', items'[batch[k]]);
    case Refusing(batch, k, active, at, open, result) => assert Ages(now, items[batch[k]], now', items'[batch[k]]);
    case Sending(active, j, outcome, open, result) => assert Ages(now, items[active[j]], now', items'[active[j]]);
    case _ =>
  }

  lemma ItemFair(s: State, i: nat, it: Item)
    requires Fair(s) && i < |s.items| && HonestItem(s.now, it) && Ages(s.now, s.items[i], s.now, it)
    ensures Fair(WithItem(s, i, it))
  {
    var s' := WithItem(s, i, it);
    forall j | 0 <= j < |s'.items| ensures HonestItem(s.now, s'.items[j]) {
      if j != i { assert HonestItem(s.now, s.items[j]); }
    }
    DispatcherAges(s.now, s.items, s.disp, s.now, s'.items);
  }

  lemma SubmitterFair(c: Config, s: State, i: nat, e: SubmitterEvent)
    requires Fair(s) && Next(c, s, BySubmitter(i, e)).Some?
    ensures Fair(Next(c, s, BySubmitter(i, e)).value)
  {
    assert HonestItem(s.now, s.items[i]);
    ItemFair(s, i, SubmitterStep(s.items[i], s.now, s.disp.Stopped?, e).value);
  }

  lemma WorldFair(c: Config, s: State, a: Action)
    requires Fair(s) && Next(c, s, a).Some? && !a.BySubmitter? && !a.ByDispatcher?
    ensures Fair(Next(c, s, a).value)
  {
    var s' := Next(c, s, a).value;
    forall i | 0 <= i < |s'.items| ensures HonestItem(s'.now, s'.items[i]) {
      if i < |s.items| { assert HonestItem(s.now, s.items[i]); }
    }
    DispatcherAges(s.now, s.items, s.disp, s'.now, s'.items);
  }

  /** Sends put an honest refusal into an item; the other dispatcher steps leave answers alone. */
  lemma SendFair(s: State, i: nat, r: Result, d: Dispatcher)
    requires Fair(s) && SendTo(s, i, r, d).Some? && Honest(s.now, s.items[i], r)
    requires HonestDispatcher(s.now, SendTo(s, i, r, d).value.items, d)
    ensures Fair(SendTo(s, i, r, d).value)
  {
    var s' := SendTo(s, i, r, d).value;
    forall j | 0 <= j < |s'.items| ensures HonestItem(s.now, s'.items[j]) { assert HonestItem(s.now, s.items[j]); }
  }

  lemma DispatcherFair(c: Config, s: State, e: DispatcherEvent)
    requires Fair(s) && DispatcherStep(c, s, e).Some?
    ensures Fair(DispatcherStep(c, s, e).value)
  {
    var s' := DispatcherStep(c, s, e).value;
    if e.SendRefusal? {
      SendFair(s, s.disp.batch[s.disp.k], s.disp.result, s'.disp);
    } else if e.Send? {
      SendFair(s, s.disp.active[s.disp.j], s.disp.result, s'.disp);
    } else {
      AnswersLeftAlone(c, s, e);
      forall i | 0 <= i < |s'.items| ensures HonestItem(s'.now, s'.items[i]) { assert HonestItem(s.now, s.items[i]); }
    }
  }

  /** The other steps of the dispatcher leave every answer alone, and what it is about to say fits. */
  lemma AnswersLeftAlone(c: Config, s: State, e: DispatcherEvent)
    requires HonestDispatcher(s.now, s.items, s.disp) && DispatcherStep(c, s, e).Some? && !e.SendRefusal? && !e.Send?
    ensures var s' := DispatcherStep(c, s, e).value;
            && s'.now == s.now && |s'.items| == |s.items| && HonestDispatcher(s'.now, s'.items, s'.disp)
            && forall i {:trigger s'.items[i]} :: 0 <= i < |s.items| ==>
                 && s'.items[i].expiry == s.items[i].expiry && s'.items[i].gone == s.items[i].gone
                 && s'.items[i].reply == s.items[i].reply && s'.items[i].sub == s.items[i].sub
  {
  }

  lemma {:induction false} EveryStateIsFair(c: Config, r: Run, n: nat)
    requires r.Valid(c) && n < |r.states|
    ensures Fair(r.states[n])
  {
    if n > 0 {
      EveryStateIsFair(c, r, n - 1);
      var s, a := r.states[n - 1], r.acts[n - 1];
      assert Next(c, s, a) == Some(r.states[n]);
      match a
      case BySubmitter(i, e) => SubmitterFair(c, s, i, e);
      case ByDispatcher(e) => DispatcherFair(c, s, e);
      case _ => WorldFair(c, s, a);
    }
  }

  /** An admitted item is answered ErrQueueDelay only when maxDelay has passed since its Submit began
      at step `b`, and with a context error only when its context was done at its admission at step
      `e` or has been cancelled since. */
  lemma FailuresAreHonest(c: Config, r: Run, n: nat, i: nat) returns (b: nat, e: nat)
    requires r.Valid(c) && n < |r.states| && i < |r.states[n].items|
    ensures var it := r.states[n].items[i]; Began(c, r, b, it.caller, it.value, it.expiry)
    ensures b < e < n && r.acts[e].Enqueue? && r.acts[e].caller == r.states[n].items[i].caller && |r.states[e].items| == i
    ensures r.states[n].items[i].sub == Returned(QueueDelay) ==> r.states[n].now >= r.states[b].now + c.maxDelay
    ensures r.states[n].items[i].sub == Returned(ContextError) ==>
      r.acts[e].gone || exists j :: e < j < n && r.acts[j] == Cancel(i)
  {
    b, e := ItemsComeFromSubmits(c, r, n, i);
    EveryStateIsFair(c, r, n);
    assert HonestItem(r.states[n].now, r.states[n].items[i]);
    ContextsEndByCancel(c, r, n, i, e);
  }
}
