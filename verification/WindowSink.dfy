/** The window together with its feature sink: what is served is what was committed. */
module WindowSink {
  import opened Common
  import opened Strings
  import opened WindowModel
  import opened WindowLists
  import opened WindowInvariant
  import opened WindowHistory

  datatype World = World(window: Table, sink: map<string, Features>)

  /** validateMaterializedFeatures. */
  predicate ValidFeatures(l: Limits, f: Features) {
    && f.entity != "" && ByteLength(f.entity) <= 256 && '\r' !in f.entity && '\n' !in f.entity
    && 0.0 <= f.total <= l.maxAmount && 0.0 <= f.largest <= f.total
  }

  /** MemoryMaterializer.Put: `None` is the error answer, which stores nothing. */
  function Put(l: Limits, sink: map<string, Features>, ok: bool, f: Features): Option<map<string, Features>> {
    if ok && ValidFeatures(l, f) then Some(sink[f.entity := f]) else None
  }

  /** ApplyAndMaterialize with the sink in the picture. */
  ghost function Deliver(l: Limits, s: World, c: Call): World {
    match Prepare(l, s.window, c.event)
    case Accepted(u) =>
      if !u.changed then World(Commit(l, s.window, c.event, u), s.sink)
      else (match Put(l, s.sink, c.sinkOk, u.features)
            case Some(sink') => World(Commit(l, s.window, c.event, u), sink')
            case None => s)
    case _ => s
  }

  ghost function DeliverAll(l: Limits, calls: seq<Call>): World {
    if calls == [] then World(EMPTY_TABLE, map[])
    else Deliver(l, DeliverAll(l, calls[..|calls| - 1]), calls[|calls| - 1])
  }

  /** Window.Snapshot. */
  function Snapshot(l: Limits, w: Table, entity: string, now: Time): Option<Features> {
    var mark := Later(w.Mark(entity), now);
    if w.Items(entity) == [] then None
    else Some(Aggregate(entity, Since(w.Items(entity), mark - l.duration), mark))
  }

  // ----- every vector is acceptable to the sink -------------------------------------------

  lemma NoLineBreaks(s: string)
    requires NoControl(s)
    ensures '\r' !in s && '\n' !in s
  {
    assert IsControl('\r') && IsControl('\n');
  }

  lemma AcceptedItemsOk(l: Limits, w: Table, e: Event)
    requires TableOk(l, w) && Prepare(l, w, e).Accepted?
    ensures ListOk(l, Prepare(l, w, e).update.items, Prepare(l, w, e).update.mark)
  {
    AcceptedFacts(l, w, e);
    CurrentList(l, w, e.entity);
    NextItemsOk(l, w.Items(e.entity), w.Mark(e.entity), e);
  }

  lemma AcceptedEventIsValid(l: Limits, w: Table, e: Event)
    requires Prepare(l, w, e).Accepted?
    ensures e.entity != "" && ByteLength(e.entity) <= 256 && NoControl(e.entity)
  {
  }

  /** Every vector the window yields passes the sink's validation. */
  lemma FeaturesAreValid(l: Limits, w: Table, e: Event)
    requires TableOk(l, w) && Prepare(l, w, e).Accepted?
    ensures ValidFeatures(l, Prepare(l, w, e).update.features)
  {
    AcceptedFacts(l, w, e);
    AcceptedItemsOk(l, w, e);
    AcceptedEventIsValid(l, w, e);
    NoLineBreaks(e.entity);
    ListTotals(l, Prepare(l, w, e).update.items, Prepare(l, w, e).update.mark);
  }

  lemma ListTotals(l: Limits, s: seq<Item>, mark: Time)
    requires ListOk(l, s, mark)
    ensures 0.0 <= Largest(s) <= Total(s) <= l.maxAmount
  {
    forall i | 0 <= i < |s| ensures s[i].amount >= 0.0 { assert s[i] in s; assert InWindow(l, s[i], mark); }
    LargestWithinTotal(s);
  }

  /** So a delivery moves the window exactly as Apply says, and the sink with it. */
  lemma DeliverIsApply(l: Limits, s: World, c: Call)
    requires TableOk(l, s.window)
    ensures Deliver(l, s, c).window == Apply(l, s.window, c.event, c.sinkOk)
    ensures Deliver(l, s, c).sink ==
            if Commits(l, s.window, c) && Prepare(l, s.window, c.event).update.changed
            then s.sink[c.event.entity := Prepare(l, s.window, c.event).update.features] else s.sink
  {
    if Prepare(l, s.window, c.event).Accepted? {
      FeaturesAreValid(l, s.window, c.event);
      AcceptedFacts(l, s.window, c.event);
    }
  }

  lemma {:induction false} DeliverAllIsRun(l: Limits, calls: seq<Call>)
    requires l.Valid()
    ensures DeliverAll(l, calls).window == Run(l, calls)
  {
    if calls != [] {
      var init, c := calls[..|calls| - 1], calls[|calls| - 1];
      DeliverAllIsRun(l, init);
      RunOk(l, init);
      DeliverIsApply(l, DeliverAll(l, init), c);
    }
  }

  // ----- agreement ------------------------------------------------------------------------

  /** The sink holds the committed aggregate of a tracked entity. */
  ghost predicate Agree(s: World, entity: string) {
    entity in s.window.watermark ==>
      && s.window.Items(entity) != []
      && entity in s.sink
      && s.sink[entity] == Aggregate(entity, s.window.Items(entity), s.window.Mark(entity))
  }

  /** What an accepted event does to its own entity. */
  lemma OwnRows(l: Limits, w: Table, e: Event)
    requires TableOk(l, w) && Prepare(l, w, e).Accepted? && e.at >= -l.duration
    ensures var u := Prepare(l, w, e).update;
            && u.features == Aggregate(e.entity, u.items, u.mark)
            && (u.changed ==> u.items != [])
            && (!u.changed ==> e.entity in w.watermark && u.items == w.Items(e.entity) && u.mark == w.Mark(e.entity))
  {
    AcceptedFacts(l, w, e);
    CurrentList(l, w, e.entity);
    var u := Prepare(l, w, e).update;
    NextItemsLength(l, w.Items(e.entity), u.mark, e);
    if e.at < u.mark - l.duration {
      LateEventChangesNothing(l, w.Items(e.entity), w.Mark(e.entity), e);
    }
  }

  lemma DeliverKeepsAgreement(l: Limits, s: World, c: Call, entity: string)
    requires TableOk(l, s.window) && Agree(s, entity) && c.event.at >= -l.duration
    ensures Agree(Deliver(l, s, c), entity)
  {
    DeliverIsApply(l, s, c);
    if Commits(l, s.window, c) {
      CommitRows(l, s.window, c.event, entity);
      OwnRows(l, s.window, c.event);
    }
  }

  lemma {:induction false} AgreementStays(l: Limits, calls: seq<Call>, entity: string)
    requires l.Valid() && forall c :: c in calls ==> c.event.at >= -l.duration
    ensures Agree(DeliverAll(l, calls), entity)
  {
    if calls != [] {
      var init, c := calls[..|calls| - 1], calls[|calls| - 1];
      assert c in calls && forall d :: d in init ==> d in calls;
      AgreementStays(l, init, entity);
      RunOk(l, init);
      DeliverAllIsRun(l, init);
      DeliverKeepsAgreement(l, DeliverAll(l, init), c, entity);
    }
  }

  /** Sink agreement: after any calls with event times not before the zero time minus the window,
      whatever the sink answers, every tracked entity is served its committed aggregate, and
      Snapshot shows the same at any time not past its watermark. */
  lemma SinkAgrees(l: Limits, calls: seq<Call>, entity: string)
    requires l.Valid() && forall c :: c in calls ==> c.event.at >= -l.duration
    ensures Agree(DeliverAll(l, calls), entity)
    ensures var s := DeliverAll(l, calls);
            forall now :: entity in s.window.watermark && now <= s.window.Mark(entity) ==>
              Snapshot(l, s.window, entity, now) == Some(s.sink[entity])
  {
    AgreementStays(l, calls, entity);
    RunOk(l, calls);
    DeliverAllIsRun(l, calls);
    var s := DeliverAll(l, calls);
    forall now | entity in s.window.watermark && now <= s.window.Mark(entity)
      ensures Snapshot(l, s.window, entity, now) == Some(s.sink[entity])
    {
      SnapshotAgrees(l, s, entity, now);
    }
  }

  lemma SnapshotAgrees(l: Limits, s: World, entity: string, now: Time)
    requires TableOk(l, s.window) && Agree(s, entity)
    requires entity in s.window.watermark && now <= s.window.Mark(entity)
    ensures Snapshot(l, s.window, entity, now) == Some(s.sink[entity])
  {
    CurrentList(l, s.window, entity);
    ListIsWhole(l, s.window.Items(entity), s.window.Mark(entity));
  }

  lemma SortedSinceOrder(h: seq<Item>, a: Time, b: Time, s: seq<Item>)
    requires a <= b && s == StableSort(Since(h, a))
    ensures |Since(s, b)| == |Since(h, b)| && Total(Since(s, b)) == Total(Since(h, b))
            && Largest(Since(s, b)) == Largest(Since(h, b))
  {
    SinceCommutesWithSort(Since(h, a), b);
    SinceNarrows(h, a, b);
    StableSortFacts(Since(h, b));
    OrderDoesNotMatter(StableSort(Since(h, b)), Since(h, b));
  }

  lemma SnapshotOfList(entity: string, h: seq<Item>, a: Time, b: Time, end: Time, s: seq<Item>)
    requires a <= b && s == StableSort(Since(h, a))
    ensures s == [] <==> Since(h, a) == []
    ensures Aggregate(entity, Since(s, b), end) == Aggregate(entity, Since(h, b), end)
  {
    StableSortFacts(Since(h, a));
    SortedSinceOrder(h, a, b, s);
  }

  /** What a snapshot taken at `now` should show of a history. */
  function Expected(l: Limits, h: seq<Item>, entity: string, now: Time): Option<Features> {
    var end := Later(LatestTime(h), now);
    if Recomputed(l, h) == [] then None else Some(Aggregate(entity, Since(h, end - l.duration), end))
  }

  lemma SnapshotOf(l: Limits, w: Table, entity: string, now: Time, h: seq<Item>, was: Time, s: seq<Item>)
    requires w.Mark(entity) == was == LatestTime(h) && w.Items(entity) == s == StableSort(Since(h, was - l.duration))
    ensures Snapshot(l, w, entity, now) == Expected(l, h, entity, now)
  {
    var end := Later(was, now);
    SnapshotOfList(entity, h, was - l.duration, end - l.duration, end, s);
  }

  /** At any time at all, Snapshot is the aggregate of the accepted history inside its window. */
  lemma SnapshotIsRecomputed(l: Limits, calls: seq<Call>, entity: string, now: Time)
    requires l.Valid()
    ensures Snapshot(l, Run(l, calls), entity, now) == Expected(l, History(Journal(l, calls), entity), entity, now)
  {
    var w, h := Run(l, calls), History(Journal(l, calls), entity);
    RunRefinesHistory(l, calls, entity);
    SnapshotOf(l, w, entity, now, h, w.Mark(entity), w.Items(entity));
  }

  // ----- where the agreement ends ---------------------------------------------------------

  ghost predicate InStep(l: Limits, s: World) {
    TableOk(l, s.window) && forall entity {:trigger Agree(s, entity)} :: Agree(s, entity)
  }

  ghost predicate AlwaysKeepsInStep(l: Limits, e: Event) {
    forall s: World, ok: bool {:trigger Deliver(l, s, Call(e, ok))} :: InStep(l, s) ==> InStep(l, Deliver(l, s, Call(e, ok)))
  }

  /** A first event older than the zero time minus the window is tracked without being served. */
  lemma TooOldIsNotServed(l: Limits, e: Event)
    requires l.Valid() && ValidEvent(l, e) && e.at < -l.duration
    ensures var s := Deliver(l, World(EMPTY_TABLE, map[]), Call(e, true));
            e.entity in s.window.watermark && e.entity !in s.sink
  {
    var w := EMPTY_TABLE;
    assert NextItems(l, [], 0, e) == [];
    assert Victim(l, w, e) == None;
    assert Prepare(l, w, e).Accepted?;
  }

  /** The agreement survives an event from every state exactly when the event is not older than
      the zero time minus the window. */
  lemma AgreementIsExact(l: Limits, e: Event)
    requires l.Valid() && ValidEvent(l, e)
    ensures AlwaysKeepsInStep(l, e) <==> e.at >= -l.duration
  {
    if e.at >= -l.duration {
      forall s: World, ok: bool | InStep(l, s) ensures InStep(l, Deliver(l, s, Call(e, ok))) {
        DeliverIsApply(l, s, Call(e, ok));
        ApplyKeeps(l, s.window, e, ok);
        forall entity ensures Agree(Deliver(l, s, Call(e, ok)), entity) {
          assert Agree(s, entity);
          DeliverKeepsAgreement(l, s, Call(e, ok), entity);
        }
      }
    } else {
      TooOldIsNotServed(l, e);
      EmptyTableOk(l);
      var s := World(EMPTY_TABLE, map[]);
      assert InStep(l, s);
      assert !Agree(Deliver(l, s, Call(e, true)), e.entity);
    }
  }
}
