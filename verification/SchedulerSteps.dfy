/** Every step keeps the invariant, one kind of step at a time. */
module SchedulerSteps {
  import opened Common
  import opened SchedulerModel
  import opened SchedulerInvariant

  // ----- steps that touch one item only ---------------------------------------------------

  /** A change of one item's changeable parts leaves logs, attempts and the current batch valid. */
  lemma ItemFrames(c: Config, items: seq<Item>, i: nat, it: Item, calls: seq<Call>, attempts: map<nat, Attempt>, d: Dispatcher)
    requires i < |items| && it.caller == items[i].caller && it.value == items[i].value && it.expiry == items[i].expiry
    requires CallsOk(c, items, calls) && AttemptsOk(items, attempts) && CurrentOk(items, calls, d)
    ensures CallsOk(c, items[i := it], calls) && AttemptsOk(items[i := it], attempts) && CurrentOk(items[i := it], calls, d)
  {
    var now := items[i := it];
    assert Fixed(items, now);
    CallsFrame(c, items, now, calls);
    CurrentFrame(items, now, calls, d);
    AttemptsFrame(items, now, attempts);
  }

  lemma OneItem(c: Config, s: State, i: nat, it: Item)
    requires Inv(c, s) && i < |s.items|
    requires it.caller == s.items[i].caller && it.value == s.items[i].value && it.expiry == s.items[i].expiry
    requires ItemOk(s.disp, Head(s), s.calls, i, it)
    ensures Inv(c, WithItem(s, i, it))
  {
    var s' := WithItem(s, i, it);
    ItemFrames(c, s.items, i, it, s.calls, s.attempts, s.disp);
    forall j: nat | j < |s'.items| ensures ItemOk(s'.disp, Head(s'), s'.calls, j, s'.items[j]) {
      assert ItemOk(s.disp, Head(s), s.calls, j, s.items[j]);
    }
  }

  /** An item whose dispatcher is gone has its answer. */
  lemma SubmitterItem(d: Dispatcher, head: int, calls: seq<Call>, i: nat, it: Item, now: Time, e: SubmitterEvent)
    requires ItemOk(d, head, calls, i, it) && (d.Stopped? ==> i < head)
    requires SubmitterStep(it, now, d.Stopped?, e).Some?
    ensures ItemOk(d, head, calls, i, SubmitterStep(it, now, d.Stopped?, e).value)
    ensures var it' := SubmitterStep(it, now, d.Stopped?, e).value;
            it'.caller == it.caller && it'.value == it.value && it'.expiry == it.expiry
  {
  }

  lemma SubmitterKeepsInv(c: Config, s: State, i: nat, e: SubmitterEvent)
    requires Inv(c, s) && Next(c, s, BySubmitter(i, e)).Some?
    ensures Inv(c, Next(c, s, BySubmitter(i, e)).value)
  {
    assert ItemOk(s.disp, Head(s), s.calls, i, s.items[i]);
    SubmitterItem(s.disp, Head(s), s.calls, i, s.items[i], s.now, e);
    OneItem(c, s, i, SubmitterStep(s.items[i], s.now, s.disp.Stopped?, e).value);
  }

  lemma CancelKeepsInv(c: Config, s: State, i: nat)
    requires Inv(c, s) && i < |s.items|
    ensures Inv(c, WithItem(s, i, s.items[i].(gone := true)))
  {
    assert ItemOk(s.disp, Head(s), s.calls, i, s.items[i]);
    OneItem(c, s, i, s.items[i].(gone := true));
  }

  // ----- admission ------------------------------------------------------------------------

  lemma CallsKnowTheirItems(c: Config, s: State, i: nat)
    requires Inv(c, s) && InCalls(s.calls, i)
    ensures i < Head(s)
  {
    var n :| 0 <= n < |s.calls| && i in s.calls[n].ids;
  }

  lemma HandIsBehindHead(c: Config, d: Dispatcher, head: int, i: nat)
    requires HandOk(c, d, head) && (Undecided(d, i) || Owed(d, i) || RefusedNow(d, i))
    ensures i < head
  {
    match d
    case Sorting(batch, k, active, at, open) => SliceMembers(batch, k);
    case Judged(batch, k, active, at, open, verdict) => SliceMembers(batch, k);
    case Refusing(batch, k, active, at, open, result) => SliceMembers(batch, k + 1); assert batch[k] in batch;
    case Announcing(batch, k, active, at, open) => SliceMembers(batch, k + 1); assert batch[k] in batch;
    case Replying(active, j, outcome, open) => SliceMembers(active, j);
    case Sending(active, j, outcome, open, result) => SliceMembers(active, j);
    case _ =>
  }

  lemma SliceMembers(s: seq<nat>, k: nat)
    requires k <= |s|
    ensures forall x :: x in s[k..] ==> x in s
    ensures forall x :: x in s <==> x in s[..k] || x in s[k..]
  {
    assert s == s[..k] + s[k..];
  }

  lemma BatchAppend(c: Config, batch: seq<nat>, i: nat, head: int)
    requires BatchOk(c, batch, i) && |batch| < c.maxBatch && i < head
    ensures BatchOk(c, batch + [i], head) && BatchOk(c, batch, head)
  {
    forall k | 0 <= k < |batch| ensures batch[k] < i { assert batch[k] in batch; }
  }

  lemma AdmitKeepsInv(c: Config, s: State, t: nat, gone: bool)
    requires Inv(c, s) && t in s.attempts && s.attempts[t].Ready? && !s.closed && |s.queue| < c.maxQueue
    ensures Inv(c, EnqueueStep(c, s, t, gone).value)
  {
    var s' := EnqueueStep(c, s, t, gone).value;
    var n := |s.items|;
    assert Head(s') == Head(s);
    assert Fixed(s.items, s'.items);
    CallsFrame(c, s.items, s'.items, s.calls);
    CurrentFrame(s.items, s'.items, s.calls, s.disp);
    if Owed(s.disp, n) || RefusedNow(s.disp, n) { HandIsBehindHead(c, s.disp, Head(s), n); }
    if InCalls(s.calls, n) { CallsKnowTheirItems(c, s, n); }
    forall j: nat | j < |s'.items| ensures ItemOk(s'.disp, Head(s'), s'.calls, j, s'.items[j]) {
      if j < n { assert ItemOk(s.disp, Head(s), s.calls, j, s.items[j]); }
    }
    AdmitAttempts(s.items, s.attempts, t, s'.items[n]);
  }

  lemma AdmitAttempts(items: seq<Item>, attempts: map<nat, Attempt>, t: nat, it: Item)
    requires AttemptsOk(items, attempts) && t in attempts && attempts[t].Ready? && it.caller == t
    ensures AttemptsOk(items + [it], attempts[t := Admitted(|items|)])
  {
    var more, now := items + [it], attempts[t := Admitted(|items|)];
    forall i | 0 <= i < |more| ensures more[i].caller in now && now[more[i].caller] == Admitted(i) {
      if i < |items| { assert attempts[items[i].caller] == Admitted(i); }
    }
    forall u | u in now && now[u].Admitted? ensures now[u].item < |more| && more[now[u].item].caller == u {
      if u != t { assert attempts[u].Admitted?; }
    }
  }

  lemma AttemptOnly(c: Config, s: State, t: nat, a: Attempt)
    requires Inv(c, s) && (t in s.attempts ==> s.attempts[t].Ready?) && !a.Admitted?
    ensures Inv(c, s.(attempts := s.attempts[t := a]))
  {
    var now := s.attempts[t := a];
    forall i | 0 <= i < |s.items| ensures s.items[i].caller in now && now[s.items[i].caller] == Admitted(i) {
      assert s.attempts[s.items[i].caller] == Admitted(i);
    }
    forall u | u in now && now[u].Admitted? ensures now[u].item < |s.items| && s.items[now[u].item].caller == u {
      assert s.attempts[u].Admitted?;
    }
  }

  // ----- dispatcher steps that change no item ---------------------------------------------

  /** What a move of the dispatcher must respect for one item it does not change. */
  ghost predicate Respects(d: Dispatcher, head: int, d': Dispatcher, head': int, i: nat, it: Item) {
    && (Owed(d', i) <==> Owed(d, i))
    && (RefusedNow(d', i) <==> RefusedNow(d, i))
    && (it.state.Queued? && (i >= head || Undecided(d, i)) ==> i >= head' || Undecided(d', i))
    && (d.Stopped? ==> d'.Stopped?)
  }

  lemma ItemShift(d: Dispatcher, head: int, d': Dispatcher, head': int, calls: seq<Call>, i: nat, it: Item)
    requires ItemOk(d, head, calls, i, it) && Respects(d, head, d', head', i, it)
    ensures ItemOk(d', head', calls, i, it)
  {
  }

  lemma ItemsShift(d: Dispatcher, head: int, d': Dispatcher, head': int, calls: seq<Call>, items: seq<Item>)
    requires ItemsOk(d, head, calls, items)
    requires forall i: nat {:trigger items[i]} :: i < |items| ==> Respects(d, head, d', head', i, items[i])
    ensures ItemsOk(d', head', calls, items)
  {
    forall i: nat | i < |items| ensures ItemOk(d', head', calls, i, items[i]) {
      assert ItemOk(d, head, calls, i, items[i]);
      ItemShift(d, head, d', head', calls, i, items[i]);
    }
  }

  lemma BeforeShift(calls: seq<Call>, d: Dispatcher, head: int, d': Dispatcher, head': int)
    requires CallsBefore(calls, d, head) && head <= head'
    requires forall i: nat {:trigger BeforeHandler(d', i)} :: BeforeHandler(d', i) ==> BeforeHandler(d, i) || i >= head
    ensures CallsBefore(calls, d', head')
  {
  }

  lemma ReceiveKeepsInv(c: Config, s: State)
    requires Inv(c, s) && ReceiveStep(c, s).Some?
    ensures Inv(c, ReceiveStep(c, s).value)
  {
    var s' := ReceiveStep(c, s).value;
    assert s.queue[0] == Head(s) && Head(s') == Head(s) + 1;
    forall k | 0 <= k < |s'.queue| ensures s'.queue[k] == |s.items| - |s'.queue| + k { assert s'.queue[k] == s.queue[k + 1]; }
    ItemsShift(s.disp, Head(s), s'.disp, Head(s'), s.calls, s.items);
    BeforeShift(s.calls, s.disp, Head(s), s'.disp, Head(s'));
  }

  lemma LoadKeepsInv(c: Config, s: State)
    requires Inv(c, s) && LoadStep(s).Some?
    ensures Inv(c, LoadStep(s).value)
  {
    var s' := LoadStep(s).value;
    if s.disp.Peeked? { BatchAppend(c, s.disp.batch, s.disp.item, Head(s)); }
    ItemsShift(s.disp, Head(s), s'.disp, Head(s'), s.calls, s.items);
    BeforeShift(s.calls, s.disp, Head(s), s'.disp, Head(s'));
  }

  lemma StartSortingKeepsInv(c: Config, s: State, open: bool)
    requires Inv(c, s) && s.disp.Collecting? && (!open ==> s.closed && s.queue == [])
    ensures Inv(c, s.(disp := Sorting(s.disp.batch, 0, [], s.now, open)))
  {
    var s' := s.(disp := Sorting(s.disp.batch, 0, [], s.now, open));
    assert s.disp.batch[0..] == s.disp.batch;
    ItemsShift(s.disp, Head(s), s'.disp, Head(s'), s.calls, s.items);
    BeforeShift(s.calls, s.disp, Head(s), s'.disp, Head(s'));
  }

  lemma StopKeepsInv(c: Config, s: State)
    requires Inv(c, s) && s.disp.Seeking? && s.closed && s.queue == []
    ensures Inv(c, s.(disp := Stopped))
  {
    ItemsShift(s.disp, Head(s), Stopped, Head(s), s.calls, s.items);
    BeforeShift(s.calls, s.disp, Head(s), Stopped, Head(s));
  }

  lemma JudgeKeepsInv(c: Config, s: State)
    requires Inv(c, s) && JudgeStep(s).Some?
    ensures Inv(c, JudgeStep(s).value)
  {
    var s' := JudgeStep(s).value;
    ItemsShift(s.disp, Head(s), s'.disp, Head(s'), s.calls, s.items);
    BeforeShift(s.calls, s.disp, Head(s), s'.disp, Head(s'));
  }

  lemma EndSortingKeepsInv(c: Config, s: State)
    requires Inv(c, s) && EndSortingStep(s).Some? && s.disp.active == []
    ensures Inv(c, EndSortingStep(s).value)
  {
    var s' := EndSortingStep(s).value;
    assert s.disp.batch[s.disp.k..] == [];
    ItemsShift(s.disp, Head(s), s'.disp, Head(s'), s.calls, s.items);
    BeforeShift(s.calls, s.disp, Head(s), s'.disp, Head(s'));
  }

  lemma FinishKeepsInv(c: Config, s: State)
    requires Inv(c, s) && s.disp.Replying? && s.disp.j == |s.disp.active|
    ensures Inv(c, s.(disp := Rest(s.disp.open)))
  {
    var d' := Rest(s.disp.open);
    assert s.disp.active[s.disp.j..] == [];
    ItemsShift(s.disp, Head(s), d', Head(s), s.calls, s.items);
    BeforeShift(s.calls, s.disp, Head(s), d', Head(s));
  }

  lemma ChosenResult(calls: seq<Call>, active: seq<nat>, j: nat, outcome: Outcome, it: Item)
    requires calls != [] && calls[|calls| - 1].ids == active && calls[|calls| - 1].outcome == Some(outcome) && j < |active|
    ensures ResultOk(calls, active[j], Dispatched, ReplyFor(it, outcome, j, |active|))
  {
    var n, r := |calls| - 1, ReplyFor(it, outcome, j, |active|);
    if r.Ok? {
      assert Answers(calls[n], j, active[j], r.value);
    } else if r.HandlerError? || r.WrongCount? {
      assert Suffers(calls[n], active[j], r);
    }
  }

  lemma ChooseKeepsInv(c: Config, s: State)
    requires Inv(c, s) && DispatcherStep(c, s, Choose).Some?
    ensures Inv(c, DispatcherStep(c, s, Choose).value)
  {
    var s' := DispatcherStep(c, s, Choose).value;
    var d := s.disp;
    ChosenResult(s.calls, d.active, d.j, d.outcome, s.items[d.active[d.j]]);
    ItemsShift(s.disp, Head(s), s'.disp, Head(s'), s.calls, s.items);
    BeforeShift(s.calls, s.disp, Head(s), s'.disp, Head(s'));
  }

  // ----- dispatcher steps that change one item --------------------------------------------

  /** The dispatcher moves and the item `i` changes with it; all others are respected. */
  lemma MoveWithItem(c: Config, s: State, i: nat, it: Item, d': Dispatcher)
    requires Inv(c, s) && i < |s.items|
    requires it.caller == s.items[i].caller && it.value == s.items[i].value && it.expiry == s.items[i].expiry
    requires ItemOk(d', Head(s), s.calls, i, it)
    requires forall j: nat {:trigger s.items[j]} :: j < |s.items| && j != i ==> Respects(s.disp, Head(s), d', Head(s), j, s.items[j])
    requires HandOk(c, d', Head(s)) && ShutOk(d', s.closed, s.queue)
    requires CallsBefore(s.calls, d', Head(s))
    requires CurrentOk(s.items, s.calls, d')
    ensures Inv(c, WithItem(s, i, it).(disp := d'))
  {
    var s' := WithItem(s, i, it).(disp := d');
    ItemFrames(c, s.items, i, it, s.calls, s.attempts, d');
    forall j: nat | j < |s'.items| ensures ItemOk(d', Head(s'), s'.calls, j, s'.items[j]) {
      if j != i {
        assert ItemOk(s.disp, Head(s), s.calls, j, s.items[j]);
        ItemShift(s.disp, Head(s), d', Head(s), s.calls, j, s.items[j]);
      }
    }
  }

  lemma HeadAndTail(s: seq<nat>, k: nat, tail: seq<nat>)
    requires k < |s| && Increasing(s) && tail == s[k + 1..]
    ensures forall x {:trigger x in s[k..]} :: x in s[k..] <==> x == s[k] || x in tail
    ensures forall x {:trigger x in tail} :: x in tail ==> s[k] < x
  {
    assert s[k..] == [s[k]] + tail;
    forall j | 0 <= j < |tail| ensures s[k] < tail[j] { assert tail[j] == s[k + 1 + j]; }
  }

  /** The state of the next batch item was no longer Queued. */
  lemma SkipKeepsInv(c: Config, s: State)
    requires Inv(c, s) && SwapStep(s).Some? && SwapStep(s).value.disp.Sorting?
    ensures Inv(c, SwapStep(s).value)
  {
    var d := s.disp;
    var s' := SwapStep(s).value;
    HeadAndTail(d.batch, d.k, d.batch[d.k + 1..]);
    SortAdvance(c, d.batch, d.k, d.active, Head(s));
    ItemsShift(s.disp, Head(s), s'.disp, Head(s'), s.calls, s.items);
    BeforeShift(s.calls, s.disp, Head(s), s'.disp, Head(s'));
  }

  lemma NotActive(c: Config, batch: seq<nat>, k: nat, active: seq<nat>, head: int)
    requires SortOk(c, batch, k, active, head) && k < |batch|
    ensures batch[k] !in active
  {
  }

  /** What a swap from Queued leaves of the batch: the item is out of the undecided part. */
  lemma SwapHand(c: Config, s: State, d': Dispatcher)
    requires Inv(c, s) && s.disp.Judged?
    requires var d := s.disp;
             || d' == Announcing(d.batch, d.k, d.active, d.at, d.open)
             || (exists r :: d' == Refusing(d.batch, d.k, d.active, d.at, d.open, r))
    ensures CallsBefore(s.calls, d', Head(s))
    ensures forall j: nat {:trigger s.items[j]} :: j < |s.items| && j != s.disp.batch[s.disp.k] ==>
              Respects(s.disp, Head(s), d', Head(s), j, s.items[j])
  {
    var d := s.disp;
    HeadAndTail(d.batch, d.k, d.batch[d.k + 1..]);
    BeforeShift(s.calls, d, Head(s), d', Head(s));
  }

  /** The swap from Queued to Dispatched succeeded. */
  lemma DispatchKeepsInv(c: Config, s: State)
    requires Inv(c, s) && SwapStep(s).Some? && SwapStep(s).value.disp.Announcing?
    ensures Inv(c, SwapStep(s).value)
  {
    var d, s' := s.disp, SwapStep(s).value;
    var i := d.batch[d.k];
    SwapHand(c, s, s'.disp);
    assert ItemOk(d, Head(s), s.calls, i, s.items[i]);
    MoveWithItem(c, s, i, s'.items[i], s'.disp);
  }

  /** The swap from Queued to Expired succeeded. */
  lemma ExpireKeepsInv(c: Config, s: State)
    requires Inv(c, s) && SwapStep(s).Some? && SwapStep(s).value.disp.Refusing?
    ensures Inv(c, SwapStep(s).value)
  {
    var d, s' := s.disp, SwapStep(s).value;
    var i := d.batch[d.k];
    SwapHand(c, s, s'.disp);
    NotActive(c, d.batch, d.k, d.active, Head(s));
    assert ItemOk(d, Head(s), s.calls, i, s.items[i]);
    MoveWithItem(c, s, i, s'.items[i], s'.disp);
  }

  lemma AnnounceKeepsInv(c: Config, s: State)
    requires Inv(c, s) && AnnounceStep(s).Some?
    ensures Inv(c, AnnounceStep(s).value)
  {
    var d := s.disp;
    var s' := AnnounceStep(s).value;
    var i := d.batch[d.k];
    SortAdvance(c, d.batch, d.k, d.active, Head(s));
    BeforeShift(s.calls, d, Head(s), s'.disp, Head(s));
    assert ItemOk(d, Head(s), s.calls, i, s.items[i]);
    MoveWithItem(c, s, i, s'.items[i], s'.disp);
  }

  lemma RefusalKeepsInv(c: Config, s: State)
    requires Inv(c, s) && DispatcherStep(c, s, SendRefusal).Some?
    ensures Inv(c, DispatcherStep(c, s, SendRefusal).value)
  {
    var d := s.disp;
    var s' := DispatcherStep(c, s, SendRefusal).value;
    var i := d.batch[d.k];
    SortAdvance(c, d.batch, d.k, d.active, Head(s));
    BeforeShift(s.calls, d, Head(s), s'.disp, Head(s));
    assert ItemOk(d, Head(s), s.calls, i, s.items[i]);
    MoveWithItem(c, s, i, s'.items[i], s'.disp);
  }

  lemma SendKeepsInv(c: Config, s: State)
    requires Inv(c, s) && DispatcherStep(c, s, Send).Some?
    ensures Inv(c, DispatcherStep(c, s, Send).value)
  {
    var d := s.disp;
    var s' := DispatcherStep(c, s, Send).value;
    var i := d.active[d.j];
    HeadAndTail(d.active, d.j, d.active[d.j + 1..]);
    BeforeShift(s.calls, d, Head(s), s'.disp, Head(s));
    assert ItemOk(d, Head(s), s.calls, i, s.items[i]);
    MoveWithItem(c, s, i, s'.items[i], s'.disp);
  }

  lemma SortAdvance(c: Config, batch: seq<nat>, k: nat, active: seq<nat>, head: int)
    requires SortOk(c, batch, k, active, head) && k < |batch|
    ensures SortOk(c, batch, k + 1, active, head)
    ensures SortOk(c, batch, k + 1, active + [batch[k]], head)
  {
    forall j | 0 <= j < |active| ensures active[j] < batch[k] { assert active[j] in active; }
    assert batch[k] in batch;
  }
}
