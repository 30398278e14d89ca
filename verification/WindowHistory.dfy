/** The window against its specification: recompute everything from the accepted history. */
module WindowHistory {
  import opened Common
  import opened WindowModel
  import opened WindowLists
  import opened WindowInvariant

  /** One call of Apply, or of ApplyAndMaterialize with a sink that succeeds or fails. */
  datatype Call = Call(event: Event, sinkOk: bool)

  /** An accepted event, with the entity that had to leave the table for it, if any. */
  datatype Entry = Entry(entity: string, item: Item, evicted: Option<string>)

  ghost predicate Commits(l: Limits, w: Table, c: Call) {
    var p := Prepare(l, w, c.event);
    p.Accepted? && (p.update.changed ==> c.sinkOk)
  }

  ghost function EntryOf(l: Limits, w: Table, e: Event): Entry {
    Entry(e.entity, ItemOf(e), Victim(l, w, e))
  }

  ghost function Run(l: Limits, calls: seq<Call>): Table {
    if calls == [] then EMPTY_TABLE
    else Apply(l, Run(l, calls[..|calls| - 1]), calls[|calls| - 1].event, calls[|calls| - 1].sinkOk)
  }

  ghost function Journal(l: Limits, calls: seq<Call>): seq<Entry> {
    if calls == [] then []
    else
      var w, c := Run(l, calls[..|calls| - 1]), calls[|calls| - 1];
      Journal(l, calls[..|calls| - 1]) + if Commits(l, w, c) then [EntryOf(l, w, c.event)] else []
  }

  /** What was accepted for an entity since it last entered the table, in order of acceptance. */
  function History(log: seq<Entry>, entity: string): seq<Item> {
    if log == [] then []
    else
      var last := log[|log| - 1];
      if last.evicted == Some(entity) then []
      else if last.entity == entity then History(log[..|log| - 1], entity) + [last.item]
      else History(log[..|log| - 1], entity)
  }

  /** The latest time in a list, or the zero time. */
  function LatestTime(s: seq<Item>): Time {
    if s == [] then 0 else Later(LatestTime(s[..|s| - 1]), s[|s| - 1].at)
  }

  /** The window content recomputed from a history. */
  function Recomputed(l: Limits, h: seq<Item>): seq<Item> {
    Since(h, LatestTime(h) - l.duration)
  }

  ghost predicate Refines(l: Limits, w: Table, entity: string, h: seq<Item>) {
    && (entity in w.watermark <==> h != [])
    && w.Mark(entity) == LatestTime(h)
    && w.Items(entity) == StableSort(Recomputed(l, h))
  }

  /** Cutting the stored list is the same as recomputing with the later cutoff. */
  lemma CutRecomputes(h: seq<Item>, a: Time, b: Time, s: seq<Item>)
    requires a <= b && s == StableSort(Since(h, a))
    ensures Since(s, b) == StableSort(Since(h, b))
  {
    SinceCommutesWithSort(Since(h, a), b);
    SinceNarrows(h, a, b);
  }

  lemma LatestAppend(h: seq<Item>, x: Item)
    ensures LatestTime(h + [x]) == Later(LatestTime(h), x.at)
  {
    assert (h + [x])[..|h|] == h;
  }

  lemma SortSinceAppend(h: seq<Item>, x: Item, c: Time, longer: seq<Item>, kept: seq<Item>)
    requires longer == h + [x] && kept == StableSort(Since(h, c))
    ensures x.at >= c ==> StableSort(Since(longer, c)) == StableSort(kept + [x])
    ensures x.at < c ==> StableSort(Since(longer, c)) == kept
  {
    SinceAppend(h, x, c);
    SortAppend(Since(h, c), x);
  }

  lemma PlaceRecomputes(l: Limits, h: seq<Item>, mark: Time, e: Event, longer: seq<Item>, kept: seq<Item>)
    requires kept == StableSort(Since(h, mark - l.duration)) && longer == h + [ItemOf(e)]
    ensures Place(l, kept, mark, e) == StableSort(Since(longer, mark - l.duration))
  {
    SortSinceAppend(h, ItemOf(e), mark - l.duration, longer, kept);
  }

  /** The heart of the refinement: cutting, appending and sorting the stored list is the same as
      recomputing from the longer history. */
  lemma NextItemsRecomputes(l: Limits, h: seq<Item>, s: seq<Item>, was: Time, mark: Time, e: Event, longer: seq<Item>)
    requires s == StableSort(Since(h, was - l.duration)) && longer == h + [ItemOf(e)] && was <= mark
    ensures NextItems(l, s, mark, e) == StableSort(Since(longer, mark - l.duration))
  {
    CutRecomputes(h, was - l.duration, mark - l.duration, s);
    PlaceRecomputes(l, h, mark, e, longer, Since(s, mark - l.duration));
  }

  lemma RefinesInitially(l: Limits, entity: string)
    ensures Refines(l, EMPTY_TABLE, entity, [])
  {
  }

  lemma HistoryStep(log: seq<Entry>, n: Entry, entity: string)
    ensures History(log + [n], entity) ==
            if n.evicted == Some(entity) then []
            else if n.entity == entity then History(log, entity) + [n.item] else History(log, entity)
  {
    assert (log + [n])[..|log|] == log;
  }

  /** What a commit does to one entity's rows. */
  lemma CommitRows(l: Limits, w: Table, e: Event, entity: string)
    requires TableOk(l, w) && Prepare(l, w, e).Accepted?
    ensures var u := Prepare(l, w, e).update;
            var v := Commit(l, w, e, u);
            && (entity == e.entity ==> entity in v.watermark && v.Mark(entity) == u.mark && v.Items(entity) == u.items)
            && (entity != e.entity && Victim(l, w, e) == Some(entity) ==>
                  entity !in v.watermark && v.Mark(entity) == 0 && v.Items(entity) == [])
            && (entity != e.entity && Victim(l, w, e) != Some(entity) ==>
                  (entity in v.watermark <==> entity in w.watermark) && v.Mark(entity) == w.Mark(entity)
                  && v.Items(entity) == w.Items(entity))
            && Victim(l, w, e) != Some(e.entity)
  {
    AcceptedFacts(l, w, e);
  }

  /** The history of an entity after an accepted event. */
  function Longer(h: seq<Item>, e: Event, victim: Option<string>, entity: string): seq<Item> {
    if victim == Some(entity) then [] else if e.entity == entity then h + [ItemOf(e)] else h
  }

  lemma OwnRefines(l: Limits, w: Table, e: Event, h: seq<Item>, longer: seq<Item>)
    requires Prepare(l, w, e).Accepted? && Refines(l, w, e.entity, h) && longer == h + [ItemOf(e)]
    ensures var u := Prepare(l, w, e).update;
            u.mark == LatestTime(longer) && u.items == StableSort(Since(longer, u.mark - l.duration))
  {
    AcceptedFacts(l, w, e);
    LatestAppend(h, ItemOf(e));
    NextItemsRecomputes(l, h, w.Items(e.entity), w.Mark(e.entity), Prepare(l, w, e).update.mark, e, longer);
  }

  lemma CommitRefines(l: Limits, w: Table, e: Event, entity: string, h: seq<Item>)
    requires TableOk(l, w) && Prepare(l, w, e).Accepted? && Refines(l, w, entity, h)
    ensures Refines(l, Commit(l, w, e, Prepare(l, w, e).update), entity, Longer(h, e, Victim(l, w, e), entity))
  {
    CommitRows(l, w, e, entity);
    if entity == e.entity {
      OwnRowRefines(l, w, e, h, h + [ItemOf(e)], Commit(l, w, e, Prepare(l, w, e).update), Prepare(l, w, e).update);
    }
  }

  lemma OwnRowRefines(l: Limits, w: Table, e: Event, h: seq<Item>, longer: seq<Item>, v: Table, u: Update)
    requires Prepare(l, w, e) == Accepted(u) && Refines(l, w, e.entity, h) && longer == h + [ItemOf(e)]
    requires e.entity in v.watermark && v.Mark(e.entity) == u.mark && v.Items(e.entity) == u.items
    ensures Refines(l, v, e.entity, longer)
  {
    OwnRefines(l, w, e, h, longer);
  }

  /** Window refinement, one call. */
  lemma StepRefines(l: Limits, w: Table, c: Call, log: seq<Entry>, entity: string)
    requires TableOk(l, w) && Refines(l, w, entity, History(log, entity))
    ensures Refines(l, Apply(l, w, c.event, c.sinkOk), entity,
                    History(if Commits(l, w, c) then log + [EntryOf(l, w, c.event)] else log, entity))
  {
    if Commits(l, w, c) {
      CommitRefines(l, w, c.event, entity, History(log, entity));
      HistoryStep(log, EntryOf(l, w, c.event), entity);
    }
  }

  lemma {:induction false} RunOk(l: Limits, calls: seq<Call>)
    requires l.Valid()
    ensures TableOk(l, Run(l, calls))
  {
    if calls == [] {
      EmptyTableOk(l);
    } else {
      var init, c := calls[..|calls| - 1], calls[|calls| - 1];
      RunOk(l, init);
      ApplyKeeps(l, Run(l, init), c.event, c.sinkOk);
    }
  }

  /** Window refinement: after any calls, whatever they carry and whatever the sink answers, every
      entity is tracked exactly when it has a history, its watermark is the latest accepted time,
      and its list is the accepted history cut at that watermark, in time order, ties in order of
      acceptance. */
  lemma {:induction false} RunRefinesHistory(l: Limits, calls: seq<Call>, entity: string)
    requires l.Valid()
    ensures Refines(l, Run(l, calls), entity, History(Journal(l, calls), entity))
  {
    if calls == [] {
      RefinesInitially(l, entity);
    } else {
      var init, c := calls[..|calls| - 1], calls[|calls| - 1];
      RunOk(l, init);
      RunRefinesHistory(l, init, entity);
      StepRefines(l, Run(l, init), c, Journal(l, init), entity);
      if !Commits(l, Run(l, init), c) { assert Journal(l, calls) == Journal(l, init); }
    }
  }

  /** The returned feature vector is the aggregate recomputed from scratch, without any sorting. */
  lemma ReturnedFeaturesAreRecomputed(l: Limits, calls: seq<Call>, e: Event)
    requires l.Valid() && Prepare(l, Run(l, calls), e).Accepted?
    ensures var h := History(Journal(l, calls), e.entity) + [ItemOf(e)];
            Prepare(l, Run(l, calls), e).update.features == Aggregate(e.entity, Recomputed(l, h), LatestTime(h))
  {
    var h := History(Journal(l, calls), e.entity);
    RunOk(l, calls);
    RunRefinesHistory(l, calls, e.entity);
    FeaturesAreRecomputed(l, Run(l, calls), e, h, h + [ItemOf(e)], Prepare(l, Run(l, calls), e).update);
  }

  lemma FeaturesAreRecomputed(l: Limits, w: Table, e: Event, h: seq<Item>, longer: seq<Item>, u: Update)
    requires Prepare(l, w, e) == Accepted(u) && Refines(l, w, e.entity, h) && longer == h + [ItemOf(e)]
    ensures u.features == Aggregate(e.entity, Recomputed(l, longer), LatestTime(longer))
  {
    OwnRefines(l, w, e, h, longer);
    FeaturesOfUpdate(l, w, e, u);
    FeaturesOfItems(l, e.entity, longer, u);
  }

  lemma FeaturesOfItems(l: Limits, entity: string, h: seq<Item>, u: Update)
    requires u.mark == LatestTime(h) && u.items == StableSort(Since(h, u.mark - l.duration))
    requires u.features == Aggregate(entity, u.items, u.mark)
    ensures u.features == Aggregate(entity, Recomputed(l, h), LatestTime(h))
  {
    AggregateOfSorted(entity, Since(h, u.mark - l.duration), u.items, u.mark);
  }

  lemma FeaturesOfUpdate(l: Limits, w: Table, e: Event, u: Update)
    requires Prepare(l, w, e) == Accepted(u)
    ensures u.features == Aggregate(e.entity, u.items, u.mark)
  {
    AcceptedFacts(l, w, e);
  }

  lemma AggregateOfSorted(entity: string, s: seq<Item>, sorted: seq<Item>, mark: Time)
    requires sorted == StableSort(s)
    ensures Aggregate(entity, sorted, mark) == Aggregate(entity, s, mark)
  {
    StableSortFacts(s);
    OrderDoesNotMatter(s, sorted);
  }

  lemma {:induction false} LatestConcat(a: seq<Item>, b: seq<Item>)
    ensures LatestTime(a) <= LatestTime(a + b)
    decreases |b|
  {
    if b == [] {
      assert a + b == a;
    } else {
      var init := b[..|b| - 1];
      LatestConcat(a, init);
      assert a + b == a + init + [b[|b| - 1]];
      LatestAppend(a + init, b[|b| - 1]);
    }
  }

  /** What has been dropped, as late or as expired, is never needed again: every later window can be
      recomputed from the retained items and what arrives afterwards. */
  lemma DroppedIsNeverNeeded(l: Limits, h: seq<Item>, more: seq<Item>)
    ensures Recomputed(l, h + more) == Since(Recomputed(l, h) + more, LatestTime(h + more) - l.duration)
  {
    var a, b := LatestTime(h) - l.duration, LatestTime(h + more) - l.duration;
    LatestConcat(h, more);
    SinceConcat(h, more, b);
    SinceConcat(Since(h, a), more, b);
    SinceNarrows(h, a, b);
  }
}
