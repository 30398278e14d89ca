/** The aggregator as it runs: fields updated in place, lists searched and summed by loops. */
module WindowProcess {
  import opened Common
  import opened Strings
  import opened WindowModel
  import opened WindowLists
  import opened WindowInvariant
  import opened WindowAdmission
  import opened WindowHistory
  import opened WindowSink

  datatype Answer = Failed(error: Error) | NoOp | Done(features: Features, changed: bool)

  /** The answer a prepared update leads to when nothing else goes wrong. */
  function AnswerOf(p: Prepared): Answer {
    match p
    case Rejected(error) => Failed(error)
    case Ignored => NoOp
    case Accepted(u) => Done(u.features, u.changed)
  }

  class MemoryMaterializer {
    var values: map<string, Features>

    constructor ()
      ensures values == map[]
    {
      values := map[];
    }

    /** `ok` is false when the context is done. */
    method Put(l: Limits, ok: bool, f: Features) returns (stored: bool)
      modifies this
      ensures stored <==> WindowSink.Put(l, old(values), ok, f).Some?
      ensures values == if stored then WindowSink.Put(l, old(values), ok, f).value else old(values)
    {
      stored := ok && ValidFeatures(l, f);
      if stored { values := values[f.entity := f]; }
    }
  }

  /** sort.Search for the first item not before the cutoff. */
  method FirstSince(s: seq<Item>, cutoff: Time) returns (n: nat)
    requires Sorted(s)
    ensures n == Lead(s, cutoff)
  {
    var lo, hi := 0, |s|;
    while lo < hi
      invariant 0 <= lo <= hi <= |s|
      invariant forall i :: 0 <= i < lo ==> s[i].at < cutoff
      invariant forall i :: hi <= i < |s| ==> s[i].at >= cutoff
    {
      var mid := (lo + hi) / 2;
      forall i | 0 <= i < |s| ensures (i <= mid ==> s[i].at <= s[mid].at) && (i >= mid ==> s[mid].at <= s[i].at) {
        assert InOrder(s, i, mid) && InOrder(s, mid, i);
      }
      if s[mid].at >= cutoff { hi := mid; } else { lo := mid + 1; }
    }
    n := lo;
    LeadIs(s, cutoff, n);
  }

  lemma LeadIs(s: seq<Item>, cutoff: Time, n: nat)
    requires IsLead(s, cutoff, n)
    ensures n == Lead(s, cutoff)
  {
    var m := Lead(s, cutoff);
    assert m < n ==> Expires(s, m, cutoff);
    assert n < m ==> Expires(s, n, cutoff);
  }

  /** The summing loop, which stops where the running total would leave the range. */
  method Accumulate(entity: string, s: seq<Item>, end: Time, maxAmount: real) returns (f: Option<Features>)
    requires maxAmount >= 0.0 && forall i :: 0 <= i < |s| ==> s[i].amount >= 0.0
    ensures f.None? <==> Total(s) > maxAmount
    ensures f.Some? ==> f.value == Aggregate(entity, s, end)
  {
    var total, largest := 0.0, 0.0;
    for i := 0 to |s|
      invariant total == Total(s[..i]) <= maxAmount && largest == Largest(s[..i])
    {
      assert s[..i + 1][..i] == s[..i];
      if total > maxAmount - s[i].amount {
        PrefixTotal(s, i + 1);
        return None;
      }
      total := total + s[i].amount;
      if s[i].amount > largest { largest := s[i].amount; }
    }
    assert s[..|s|] == s;
    return Some(Features(entity, |s|, total, largest, end));
  }

  lemma NextAmounts(l: Limits, s: seq<Item>, was: Time, e: Event)
    requires ListOk(l, s, was) && e.amount >= 0.0
    ensures forall y :: y in NextItems(l, s, Later(was, e.at), e) ==> y.amount >= 0.0
  {
    var mark := Later(was, e.at);
    var kept := Since(s, mark - l.duration);
    SinceMembers(s, mark - l.duration);
    NextItemsIsInsert(l, s, mark, e);
    InsertedMembers(kept, ItemOf(e));
    forall y | y in kept ensures y.amount >= 0.0 { assert InWindow(l, y, was); }
  }

  class Window {
    const limits: Limits
    var byEntity: map<string, seq<Item>>
    var seen: set<string>
    var offsets: map<int, int>
    var watermark: map<string, Time>
    var lastActive: map<string, Time>
    var eventCount: int

    function Value(): Table
      reads this
    {
      Table(byEntity, seen, offsets, watermark, lastActive, eventCount)
    }

    ghost predicate Valid()
      reads this
    {
      TableOk(limits, Value())
    }

    /** NewWithLimits: unusable settings fall back to the least usable ones. */
    constructor (duration: int, maxEntities: int, maxEvents: int, maxAmount: real)
      requires maxAmount > 0.0
      ensures Valid() && Value() == EMPTY_TABLE
      ensures limits.duration == if duration <= 0 then 300_000_000_000 else duration
      ensures limits.maxEntities == (if maxEntities < 1 then 1 else maxEntities) && limits.maxEvents == (if maxEvents < 1 then 1 else maxEvents)
    {
      limits := Limits(if duration <= 0 then 300_000_000_000 else duration,
                       if maxEntities < 1 then 1 else maxEntities,
                       if maxEvents < 1 then 1 else maxEvents, maxAmount);
      byEntity, seen, offsets, watermark, lastActive, eventCount := map[], {}, map[], map[], map[], 0;
      new;
      EmptyTableOk(limits);
    }

    /** oldestEntityLocked: the keys come in whatever order the map yields them, and the answer is
        the same for every such order. */
    method OldestEntity() returns (entity: string)
      requires "" !in lastActive
      ensures lastActive == map[] ==> entity == ""
      ensures lastActive != map[] ==> IsOldest(lastActive, entity) && entity == Oldest(lastActive)
    {
      entity := "";
      var oldest: Time := 0;
      var rest := lastActive.Keys;
      while rest != {}
        invariant rest <= lastActive.Keys
        invariant entity == "" ==> rest == lastActive.Keys
        invariant entity != "" ==> entity in lastActive && oldest == lastActive[entity]
        invariant entity != "" ==> forall d :: d in lastActive && d !in rest ==> NotAfter(lastActive, entity, d)
        decreases |rest|
      {
        var candidate :| candidate in rest;
        var active := lastActive[candidate];
        rest := rest - {candidate};
        if entity == "" || active < oldest || (active == oldest && Before(candidate, entity)) {
          if entity != "" { Supersedes(lastActive, entity, candidate, lastActive.Keys - rest - {candidate}); }
          entity, oldest := candidate, active;
        } else {
          BeforeIsTotal(candidate, entity);
        }
      }
      if lastActive != map[] {
        assert lastActive.Keys != {};
        OldestIsUnique(lastActive, entity, Oldest(lastActive));
      }
    }

    /** prepareLocked: builds the update without touching the table. */
    method PrepareUpdate(e: Event) returns (p: Prepared)
      requires Valid()
      ensures p == Prepare(limits, Value(), e)
      ensures p == Rejected(InvalidEvent) <==> !ValidEvent(limits, e)
      ensures p == Ignored <==> ValidEvent(limits, e) && Stale(Value(), e)
      ensures var held, sum := |WouldHold(limits, Value(), e)|, WouldSum(limits, Value(), e);
              ValidEvent(limits, e) && !Stale(Value(), e) ==>
                && (p == Rejected(StateCapacity) <==> held > limits.maxEvents)
                && (p == Rejected(NumericRange) <==> held <= limits.maxEvents && sum > limits.maxAmount)
                && (p.Accepted? <==> held <= limits.maxEvents && sum <= limits.maxAmount)
    {
      AdmissionIsExact(limits, Value(), e);
      if !ValidEvent(limits, e) { return Rejected(InvalidEvent); }
      if e.id in seen { return Ignored; }
      if e.partition in offsets && e.offset <= offsets[e.partition] { return Ignored; }
      CurrentList(limits, Value(), e.entity);
      p := PrepareFresh(e);
    }

    /** The part of prepareLocked behind the gates. */
    method PrepareFresh(e: Event) returns (p: Prepared)
      requires ValidEvent(limits, e) && !Stale(Value(), e) && limits.Valid() && "" !in lastActive
      requires ListOk(limits, Value().Items(e.entity), Value().Mark(e.entity))
      ensures p == Prepare(limits, Value(), e)
    {
      var victim := FindVictim(e);
      var others := eventCount;
      if victim.Some? { others := others - |Value().Items(victim.value)|; }
      var mark := if e.entity in watermark then watermark[e.entity] else 0;
      var current := if e.entity in byEntity then byEntity[e.entity] else [];
      p := BuildUpdate(e, current, mark, others, victim);
    }

    /** The same on the entity's own list and watermark. */
    method BuildUpdate(e: Event, current: seq<Item>, was: Time, others: int, victim: Option<string>) returns (p: Prepared)
      requires limits.Valid() && ListOk(limits, current, was) && e.amount >= 0.0
      ensures p == Checked(limits, e, Draft(limits, e, current, was, victim), others)
    {
      var mark := was;
      if e.at > mark { mark := e.at; }
      var first, items := NextList(e, current, mark);
      NextAmounts(limits, current, was, e);
      var arrives := e.at >= mark - limits.duration;
      var projected := others - first;
      if arrives { projected := projected + 1; }
      if projected > limits.maxEvents { return Rejected(StateCapacity); }
      var features := Accumulate(e.entity, items, mark, limits.maxAmount);
      if features.None? { return Rejected(NumericRange); }
      return Accepted(Update(arrives || first > 0, features.value, items, mark, current[..first], victim));
    }

    method NextList(e: Event, current: seq<Item>, mark: Time) returns (first: nat, items: seq<Item>)
      requires Sorted(current)
      ensures first == Lead(current, mark - limits.duration) && items == NextItems(limits, current, mark, e)
    {
      first := FirstSince(current, mark - limits.duration);
      items := current[first..];
      CutIsSince(current, mark - limits.duration);
      if e.at >= mark - limits.duration { items := StableSort(items + [ItemOf(e)]); }
    }

    method FindVictim(e: Event) returns (victim: Option<string>)
      requires "" !in lastActive
      ensures victim == Victim(limits, Value(), e)
    {
      if e.entity in watermark || |watermark| < limits.maxEntities { return None; }
      var entity := OldestEntity();
      if entity == "" { return None; }
      return Some(entity);
    }

    /** evictEntityLocked. */
    method EvictEntity(entity: string)
      modifies this
      ensures Value() == Evict(old(Value()), Some(entity))
    {
      var items := Value().Items(entity);
      Forget(items);
      eventCount := eventCount - |items|;
      byEntity, watermark, lastActive := byEntity - {entity}, watermark - {entity}, lastActive - {entity};
    }

    /** The loops that delete ids one by one. */
    method Forget(items: seq<Item>)
      modifies this`seen
      ensures seen == old(seen) - Ids(items)
    {
      for i := 0 to |items|
        invariant seen == old(seen) - Ids(items[..i])
      {
        assert items[..i + 1] == items[..i] + [items[i]];
        IdsAppend(items[..i], items[i]);
        seen := seen - {items[i].id};
      }
      assert items[..|items|] == items;
    }

    /** commitLocked. */
    method CommitUpdate(e: Event, u: Update)
      modifies this
      ensures Value() == Commit(limits, old(Value()), e, u)
    {
      if u.evict.Some? { EvictEntity(u.evict.value); }
      Forget(u.expired);
      if e.at >= u.mark - limits.duration { seen := seen + {e.id}; }
      offsets := offsets[e.partition := e.offset];
      watermark := watermark[e.entity := u.mark];
      eventCount := eventCount + |u.items| - |Value().Items(e.entity)|;
      byEntity := byEntity[e.entity := u.items];
      lastActive := lastActive[e.entity := u.mark];
    }

    /** Window.Apply. */
    method ApplyEvent(e: Event) returns (answer: Answer)
      requires Valid()
      modifies this
      ensures Valid()
      ensures Value() == Apply(limits, old(Value()), e, true)
      ensures answer == AnswerOf(Prepare(limits, old(Value()), e))
      ensures !answer.Done? ==> Value() == old(Value())
    {
      var p := PrepareUpdate(e);
      if p.Accepted? {
        ApplyKeeps(limits, Value(), e, true);
        CommitUpdate(e, p.update);
      }
      return AnswerOf(p);
    }

    /** Window.ApplyAndMaterialize: the table moves only after the sink has stored the vector. */
    method ApplyAndMaterialize(e: Event, sink: MemoryMaterializer?, sinkOk: bool) returns (answer: Answer)
      requires Valid()
      modifies this, sink
      ensures Valid()
      ensures sink == null ==> Value() == old(Value()) && answer == Failed(SinkMissing)
      ensures sink != null ==>
                World(Value(), sink.values) == Deliver(limits, World(old(Value()), old(sink.values)), Call(e, sinkOk))
      ensures sink != null ==>
                answer == if !Prepare(limits, old(Value()), e).Accepted? || Commits(limits, old(Value()), Call(e, sinkOk))
                          then AnswerOf(Prepare(limits, old(Value()), e)) else Failed(SinkFailed)
      ensures !answer.Done? ==> Value() == old(Value()) && (sink != null ==> sink.values == old(sink.values))
    {
      if sink == null { return Failed(SinkMissing); }
      var p := PrepareUpdate(e);
      if !p.Accepted? { return AnswerOf(p); }
      DeliverIsApply(limits, World(Value(), sink.values), Call(e, sinkOk));
      FeaturesAreValid(limits, Value(), e);
      ApplyKeeps(limits, Value(), e, sinkOk);
      if p.update.changed {
        var stored := sink.Put(limits, sinkOk, p.update.features);
        if !stored { return Failed(SinkFailed); }
      }
      CommitUpdate(e, p.update);
      return AnswerOf(p);
    }

    /** Window.Snapshot. */
    method TakeSnapshot(entity: string, now: Time) returns (f: Option<Features>)
      ensures f == Snapshot(limits, Value(), entity, now)
    {
      var mark := Value().Mark(entity);
      if now > mark { mark := now; }
      var items := Value().Items(entity);
      if |items| == 0 { return None; }
      var cutoff := mark - limits.duration;
      var count, total, largest := 0, 0.0, 0.0;
      for i := 0 to |items|
        invariant count == |Since(items[..i], cutoff)|
        invariant total == Total(Since(items[..i], cutoff))
        invariant largest == Largest(Since(items[..i], cutoff))
      {
        assert items[..i + 1][..i] == items[..i];
        if items[i].at >= cutoff {
          ghost var kept := Since(items[..i], cutoff);
          assert (kept + [items[i]])[..|kept|] == kept;
          count := count + 1;
          total := total + items[i].amount;
          if items[i].amount > largest { largest := items[i].amount; }
        }
      }
      assert items[..|items|] == items;
      return Some(Features(entity, count, total, largest, mark));
    }

    /** DedupeSize and EntityCount stay within the configured limits. */
    method Sizes() returns (ids: nat, entities: nat)
      requires Valid()
      ensures ids == |seen| == eventCount && ids <= limits.maxEvents
      ensures entities == |watermark| && entities <= limits.maxEntities
    {
      SeenIsCounted(byEntity, seen);
      return |seen|, |watermark|;
    }
  }

  predicate NotAfter(active: map<string, Time>, e: string, d: string)
    requires e in active && d in active
  {
    active[e] < active[d] || (active[e] == active[d] && (e == d || Before(e, d)))
  }

  lemma Supersedes(active: map<string, Time>, was: string, now: string, past: set<string>)
    requires was in active && now in active && past <= active.Keys
    requires active[now] < active[was] || (active[now] == active[was] && Before(now, was))
    requires forall d :: d in past ==> NotAfter(active, was, d)
    ensures forall d :: d in past ==> NotAfter(active, now, d)
  {
    forall d | d in past ensures NotAfter(active, now, d) {
      assert NotAfter(active, was, d);
      if active[now] == active[d] && was != d { BeforeIsTransitive(now, was, d); }
    }
  }
}
