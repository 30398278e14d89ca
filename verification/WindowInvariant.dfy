/** The bookkeeping of the window table: six collections that must agree with each other. */
module WindowInvariant {
  import opened Common
  import opened WindowModel
  import opened WindowLists

  /** Total number of stored items. */
  ghost function SumLengths(m: map<string, seq<Item>>): nat
    decreases |m|
  {
    if m == map[] then 0
    else
      var k :| k in m;
      FewerKeys(m, k);
      |m[k]| + SumLengths(m - {k})
  }

  lemma FewerKeys(m: map<string, seq<Item>>, k: string)
    requires k in m
    ensures |m - {k}| == |m| - 1
  {
    var rest := m - {k};
    assert m.Keys == rest.Keys + {k};
    assert |m.Keys| == |rest.Keys| + 1;
  }

  lemma {:induction false} SumRemove(m: map<string, seq<Item>>, k: string)
    requires k in m
    ensures SumLengths(m) == |m[k]| + SumLengths(m - {k})
    decreases |m|
  {
    var d :| d in m && SumLengths(m) == |m[d]| + SumLengths(m - {d});
    if d != k {
      FewerKeys(m, d);
      FewerKeys(m, k);
      SumRemove(m - {d}, k);
      SumRemove(m - {k}, d);
      assert m - {d} - {k} == m - {k} - {d};
    }
  }

  lemma SumPut(m: map<string, seq<Item>>, k: string, s: seq<Item>)
    ensures SumLengths(m[k := s]) == SumLengths(m - {k}) + |s|
  {
    var m' := m[k := s];
    SumRemove(m', k);
    assert m' - {k} == m - {k};
  }

  lemma SumWithout(m: map<string, seq<Item>>, k: string)
    ensures SumLengths(m) == SumLengths(m - {k}) + (if k in m then |m[k]| else 0)
  {
    if k in m { SumRemove(m, k); } else { assert m - {k} == m; }
  }

  predicate InWindow(l: Limits, y: Item, mark: Time) {
    mark - l.duration <= y.at <= mark && y.amount >= 0.0
  }

  ghost predicate ListOk(l: Limits, s: seq<Item>, mark: Time) {
    && Sorted(s)
    && (forall y {:trigger y in s} :: y in s ==> InWindow(l, y, mark))
    && Total(s) <= l.maxAmount
  }

  ghost predicate UniqueIds(s: seq<Item>) {
    forall i, j :: 0 <= i < j < |s| ==> s[i].id != s[j].id
  }

  /** Two entities have no id in common. */
  ghost predicate Apart(byEntity: map<string, seq<Item>>, d: string, e: string)
    requires d in byEntity && e in byEntity
  {
    d != e ==> Ids(byEntity[d]) !! Ids(byEntity[e])
  }

  ghost predicate Own(s: seq<Item>, seen: set<string>) {
    UniqueIds(s) && Ids(s) <= seen
  }

  ghost predicate Retained(byEntity: map<string, seq<Item>>, id: string) {
    exists e {:trigger Ids(byEntity[e])} :: e in byEntity && id in Ids(byEntity[e])
  }

  /** Every retained id is retained in one place, and `seen` holds exactly the retained ids. */
  ghost predicate IdsOk(byEntity: map<string, seq<Item>>, seen: set<string>) {
    && (forall e {:trigger Own(byEntity[e], seen)} :: e in byEntity ==> Own(byEntity[e], seen))
    && (forall d, e {:trigger Apart(byEntity, d, e)} :: d in byEntity && e in byEntity ==> Apart(byEntity, d, e))
    && (forall id {:trigger Retained(byEntity, id)} :: id in seen ==> Retained(byEntity, id))
  }

  ghost predicate KeysOk(l: Limits, w: Table) {
    && w.byEntity.Keys == w.watermark.Keys
    && w.lastActive == w.watermark
    && |w.watermark| <= l.maxEntities
    && "" !in w.watermark
    && forall e :: e in w.watermark ==> w.watermark[e] >= 0
  }

  ghost predicate ListsOk(l: Limits, byEntity: map<string, seq<Item>>, watermark: map<string, Time>) {
    && byEntity.Keys == watermark.Keys
    && forall e {:trigger ListOk(l, byEntity[e], watermark[e])} :: e in byEntity ==> ListOk(l, byEntity[e], watermark[e])
  }

  ghost predicate TableOk(l: Limits, w: Table) {
    && l.Valid()
    && KeysOk(l, w)
    && ListsOk(l, w.byEntity, w.watermark)
    && IdsOk(w.byEntity, w.seen)
    && w.eventCount == SumLengths(w.byEntity) <= l.maxEvents
  }

  lemma EmptyTableOk(l: Limits)
    requires l.Valid()
    ensures TableOk(l, EMPTY_TABLE)
  {
  }

  // ----- eviction -------------------------------------------------------------------------

  lemma EvictIds(byEntity: map<string, seq<Item>>, seen: set<string>, v: string)
    requires IdsOk(byEntity, seen) && v in byEntity
    ensures IdsOk(byEntity - {v}, seen - Ids(byEntity[v]))
  {
    var byEntity': map<string, seq<Item>> := byEntity - {v};
    var seen' := seen - Ids(byEntity[v]);
    forall e | e in byEntity' ensures Own(byEntity'[e], seen') {
      assert Own(byEntity[e], seen) && Apart(byEntity, e, v);
    }
    forall id | id in seen' ensures Retained(byEntity', id) {
      assert Retained(byEntity, id);
      var e :| e in byEntity && id in Ids(byEntity[e]);
      assert e in byEntity' && id in Ids(byEntity'[e]);
    }
    forall d, e | d in byEntity' && e in byEntity' ensures Apart(byEntity', d, e) {
      assert Apart(byEntity, d, e);
    }
  }

  lemma EvictKeys(l: Limits, w: Table, v: string)
    requires KeysOk(l, w) && v in w.watermark
    ensures KeysOk(l, Evict(w, Some(v))) && |Evict(w, Some(v)).watermark| == |w.watermark| - 1
  {
    var w' := Evict(w, Some(v));
    assert w.watermark.Keys == w'.watermark.Keys + {v};
    assert |w.watermark.Keys| == |w'.watermark.Keys| + 1;
  }

  lemma EvictKeeps(l: Limits, w: Table, v: string)
    requires TableOk(l, w) && v in w.watermark
    ensures TableOk(l, Evict(w, Some(v))) && |Evict(w, Some(v)).watermark| == |w.watermark| - 1
  {
    var w' := Evict(w, Some(v));
    EvictKeys(l, w, v);
    SumRemove(w.byEntity, v);
    EvictIds(w.byEntity, w.seen, v);
    forall e | e in w'.byEntity ensures ListOk(l, w'.byEntity[e], w'.watermark[e]) {
      assert ListOk(l, w.byEntity[e], w.watermark[e]);
    }
  }

  // ----- the entity's own list ------------------------------------------------------------

  lemma {:induction false} InsertedMembers(s: seq<Item>, x: Item)
    ensures forall y :: y in InsertAfter(s, x) <==> y in s || y == x
  {
    if s != [] && s[|s| - 1].at > x.at {
      InsertedMembers(s[..|s| - 1], x);
      assert s == s[..|s| - 1] + [s[|s| - 1]];
    }
  }

  /** The list after an event: the items kept and, when in the window, the arrival in its place. */
  lemma NextItemsIsInsert(l: Limits, s: seq<Item>, mark: Time, e: Event)
    requires Sorted(s)
    ensures var kept := Since(s, mark - l.duration);
            NextItems(l, s, mark, e) == if e.at >= mark - l.duration then InsertAfter(kept, ItemOf(e)) else kept
  {
    var kept := Since(s, mark - l.duration);
    SinceSorted(s, mark - l.duration);
    SortOfSorted(kept);
    SortAppend(kept, ItemOf(e));
  }

  lemma InsertedInWindow(l: Limits, kept: seq<Item>, x: Item, mark: Time)
    requires forall y {:trigger y in kept} :: y in kept ==> InWindow(l, y, mark)
    requires InWindow(l, x, mark)
    ensures forall y {:trigger y in InsertAfter(kept, x)} :: y in InsertAfter(kept, x) ==> InWindow(l, y, mark)
  {
    InsertedMembers(kept, x);
  }

  lemma InsertedSorted(kept: seq<Item>, x: Item)
    requires Sorted(kept)
    ensures Sorted(InsertAfter(kept, x))
  {
    InsertAfterFacts(kept, x);
  }

  lemma KeptOk(l: Limits, s: seq<Item>, was: Time, mark: Time)
    requires ListOk(l, s, was) && was <= mark
    ensures Sorted(Since(s, mark - l.duration))
    ensures forall y {:trigger InWindow(l, y, mark)} :: y in Since(s, mark - l.duration) ==> InWindow(l, y, mark)
  {
    SinceSorted(s, mark - l.duration);
    SinceMembers(s, mark - l.duration);
    assert forall y :: y in s ==> InWindow(l, y, was);
  }

  lemma NextItemsOk(l: Limits, s: seq<Item>, was: Time, e: Event)
    requires l.Valid() && ListOk(l, s, was) && e.amount >= 0.0
    requires Total(NextItems(l, s, Later(was, e.at), e)) <= l.maxAmount
    ensures ListOk(l, NextItems(l, s, Later(was, e.at), e), Later(was, e.at))
  {
    var mark := Later(was, e.at);
    var kept := Since(s, mark - l.duration);
    KeptOk(l, s, was, mark);
    NextItemsIsInsert(l, s, mark, e);
    InsertedSorted(kept, ItemOf(e));
    if e.at >= mark - l.duration { InsertedInWindow(l, kept, ItemOf(e), mark); }
  }

  /** Nothing in a list in order lies before its window. */
  lemma ListIsWhole(l: Limits, items: seq<Item>, mark: Time)
    requires ListOk(l, items, mark)
    ensures Since(items, mark - l.duration) == items
  {
    forall i | 0 <= i < |items| ensures items[i].at >= mark - l.duration {
      assert items[i] in items;
      assert InWindow(l, items[i], mark);
    }
    SinceAll(items, mark - l.duration);
  }

  /** Expiry happens only together with an in-window arrival: a late event leaves the list alone. */
  lemma LateEventChangesNothing(l: Limits, s: seq<Item>, was: Time, e: Event)
    requires l.Valid() && ListOk(l, s, was) && e.at < Later(was, e.at) - l.duration
    ensures Later(was, e.at) == was && Lead(s, was - l.duration) == 0 && NextItems(l, s, was, e) == s
  {
    assert s != [] ==> s[0] in s && InWindow(l, s[0], was);
    assert Lead(s, was - l.duration) > 0 ==> Expires(s, 0, was - l.duration);
    ListIsWhole(l, s, was);
  }

  /** The length of the new list: what was there, minus what expired, plus the arrival. */
  lemma NextItemsLength(l: Limits, s: seq<Item>, mark: Time, e: Event)
    requires Sorted(s)
    ensures |NextItems(l, s, mark, e)| == |s| - Lead(s, mark - l.duration) + (if e.at >= mark - l.duration then 1 else 0)
  {
    NextItemsIsInsert(l, s, mark, e);
    SinceSorted(s, mark - l.duration);
    InsertAfterFacts(Since(s, mark - l.duration), ItemOf(e));
  }

  // ----- ids of one list ------------------------------------------------------------------

  lemma IdsAppend(s: seq<Item>, x: Item)
    ensures Ids(s + [x]) == Ids(s) + {x.id}
    ensures UniqueIds(s) && x.id !in Ids(s) ==> UniqueIds(s + [x])
  {
    var r := s + [x];
    assert r[|s|].id in Ids(r);
    forall i | 0 <= i < |s| ensures s[i].id in Ids(r) { assert r[i].id in Ids(r); }
  }

  lemma {:induction false} InsertedUnique(s: seq<Item>, x: Item)
    requires UniqueIds(s) && x.id !in Ids(s)
    ensures UniqueIds(InsertAfter(s, x)) && Ids(InsertAfter(s, x)) == Ids(s) + {x.id}
  {
    if s == [] || s[|s| - 1].at <= x.at {
      IdsAppend(s, x);
    } else {
      var init, last := s[..|s| - 1], s[|s| - 1];
      assert s == init + [last];
      IdsAppend(init, last);
      InsertedUnique(init, x);
      IdsAppend(InsertAfter(init, x), last);
    }
  }

  lemma IdsCut(s: seq<Item>, n: nat)
    requires UniqueIds(s) && n <= |s|
    ensures UniqueIds(s[..n]) && UniqueIds(s[n..])
    ensures Ids(s[..n]) !! Ids(s[n..]) && Ids(s) == Ids(s[..n]) + Ids(s[n..])
  {
    var a, b := s[..n], s[n..];
    forall id | id in Ids(s) ensures id in Ids(a) + Ids(b) {
      var i :| 0 <= i < |s| && s[i].id == id;
      if i < n { assert a[i].id == id; } else { assert b[i - n].id == id; }
    }
    forall id | id in Ids(a) ensures id in Ids(s) && id !in Ids(b) {
      var i :| 0 <= i < |a| && a[i].id == id;
      assert s[i].id == id;
      forall j | 0 <= j < |b| ensures b[j].id != id { assert s[n + j].id != s[i].id; }
    }
    forall id | id in Ids(b) ensures id in Ids(s) {
      var i :| 0 <= i < |b| && b[i].id == id;
      assert s[n + i].id == id;
    }
  }

  /** The entity's new list has unique ids: the old ones without the expired, plus the arrival's. */
  lemma NextItemsIds(l: Limits, s: seq<Item>, mark: Time, e: Event)
    requires Sorted(s) && UniqueIds(s) && e.id !in Ids(s)
    ensures UniqueIds(NextItems(l, s, mark, e))
    ensures Ids(s[..Lead(s, mark - l.duration)]) <= Ids(s)
    ensures Ids(NextItems(l, s, mark, e)) ==
      Ids(s) - Ids(s[..Lead(s, mark - l.duration)]) + (if e.at >= mark - l.duration then {e.id} else {})
  {
    var n := Lead(s, mark - l.duration);
    NextItemsIsInsert(l, s, mark, e);
    CutIsSince(s, mark - l.duration);
    IdsCut(s, n);
    InsertedUnique(Since(s, mark - l.duration), ItemOf(e));
  }

  /** Replacing one entity's list, when it loses `gone` and gains `new`. */
  lemma PutIds(byEntity: map<string, seq<Item>>, seen: set<string>, entity: string, items: seq<Item>, gone: set<string>, gained: set<string>)
    requires IdsOk(byEntity, seen) && UniqueIds(items) && gained !! seen
    requires var was := if entity in byEntity then Ids(byEntity[entity]) else {};
             gone <= was && Ids(items) == was - gone + gained
    ensures IdsOk(byEntity[entity := items], seen - gone + gained)
  {
    var m: map<string, seq<Item>> := byEntity[entity := items];
    var seen' := seen - gone + gained;
    if entity in byEntity { assert Own(byEntity[entity], seen); }
    forall e | e in m && e != entity ensures Own(m[e], seen') && Ids(m[e]) !! Ids(items) {
      assert Own(byEntity[e], seen);
      assert entity in byEntity ==> Apart(byEntity, e, entity);
    }
    assert Own(items, seen');
    forall d, e | d in m && e in m ensures Apart(m, d, e) {
      if d != entity && e != entity { assert Apart(byEntity, d, e); }
    }
    forall id | id in seen' ensures Retained(m, id) {
      if id in Ids(items) {
        assert entity in m && id in Ids(m[entity]);
      } else {
        assert Retained(byEntity, id);
        var e :| e in byEntity && id in Ids(byEntity[e]);
        assert e in m && id in Ids(m[e]);
      }
    }
  }

  // ----- the commit -----------------------------------------------------------------------

  /** What acceptance says about the prepared update. */
  lemma AcceptedFacts(l: Limits, w: Table, e: Event)
    requires Prepare(l, w, e).Accepted?
    ensures e.entity != "" && e.amount >= 0.0 && e.id !in w.seen
    ensures var u := Prepare(l, w, e).update;
            && u == Draft(l, e, w.Items(e.entity), w.Mark(e.entity), Victim(l, w, e))
            && u.evict == Victim(l, w, e)
            && Total(u.items) <= l.maxAmount
            && Projected(l, e, u, w.eventCount - EvictedCount(w, u.evict)) <= l.maxEvents
  {
  }

  /** The table after the eviction, if any. */
  lemma VictimKeeps(l: Limits, w: Table, e: Event)
    requires TableOk(l, w)
    ensures TableOk(l, Evict(w, Victim(l, w, e)))
    ensures var v := Evict(w, Victim(l, w, e));
            && v.Items(e.entity) == w.Items(e.entity) && v.Mark(e.entity) == w.Mark(e.entity)
            && (e.entity !in v.watermark ==> |v.watermark| < l.maxEntities)
            && v.seen <= w.seen && v.offsets == w.offsets && v.eventCount == w.eventCount - EvictedCount(w, Victim(l, w, e))
  {
    if Victim(l, w, e).Some? {
      EvictKeeps(l, w, Victim(l, w, e).value);
    } else {
      assert |w.watermark| >= 1 ==> w.lastActive != map[];
    }
  }

  lemma PutKeys(l: Limits, v: Table, entity: string, mark: Time, w: Table)
    requires l.Valid() && KeysOk(l, v) && entity != "" && mark >= 0
    requires entity !in v.watermark ==> |v.watermark| < l.maxEntities
    requires w.byEntity.Keys == v.byEntity.Keys + {entity}
    requires w.watermark == v.watermark[entity := mark] && w.lastActive == v.lastActive[entity := mark]
    ensures KeysOk(l, w)
  {
    assert w.watermark.Keys == v.watermark.Keys + {entity};
    assert |w.watermark| == |w.watermark.Keys| && |v.watermark| == |v.watermark.Keys|;
    if entity in v.watermark { assert w.watermark.Keys == v.watermark.Keys; }
  }

  lemma PutList(l: Limits, byEntity: map<string, seq<Item>>, watermark: map<string, Time>, entity: string, mark: Time, items: seq<Item>)
    requires ListsOk(l, byEntity, watermark) && ListOk(l, items, mark)
    ensures ListsOk(l, byEntity[entity := items], watermark[entity := mark])
  {
    var m: map<string, seq<Item>> := byEntity[entity := items];
    var marks := watermark[entity := mark];
    forall e | e in m ensures ListOk(l, m[e], marks[e]) {
      if e != entity { assert ListOk(l, byEntity[e], watermark[e]); }
    }
  }

  /** The list an entity has now, tracked or not, is in order. */
  lemma CurrentList(l: Limits, w: Table, entity: string)
    requires TableOk(l, w)
    ensures ListOk(l, w.Items(entity), w.Mark(entity)) && UniqueIds(w.Items(entity)) && Ids(w.Items(entity)) <= w.seen
    ensures w.Mark(entity) >= 0
  {
    if entity in w.byEntity {
      assert ListOk(l, w.byEntity[entity], w.watermark[entity]);
      assert Own(w.byEntity[entity], w.seen);
    }
  }

  /** The part of the commit after the eviction, on the components. */
  ghost predicate Follows(l: Limits, v: Table, e: Event, u: Update) {
    && e.entity != "" && e.amount >= 0.0 && e.id !in v.seen
    && (e.entity !in v.watermark ==> |v.watermark| < l.maxEntities)
    && u == Draft(l, e, v.Items(e.entity), v.Mark(e.entity), None)
    && Total(u.items) <= l.maxAmount
    && Projected(l, e, u, v.eventCount) <= l.maxEvents
  }

  lemma CommitIds(l: Limits, byEntity: map<string, seq<Item>>, seen: set<string>, s: seq<Item>, mark: Time, e: Event)
    requires IdsOk(byEntity, seen) && s == (if e.entity in byEntity then byEntity[e.entity] else [])
    requires Sorted(s) && UniqueIds(s) && e.id !in Ids(s) && e.id !in seen
    ensures var kept := seen - Ids(s[..Lead(s, mark - l.duration)]);
            IdsOk(byEntity[e.entity := NextItems(l, s, mark, e)], if e.at >= mark - l.duration then kept + {e.id} else kept)
  {
    var gone := Ids(s[..Lead(s, mark - l.duration)]);
    var items := NextItems(l, s, mark, e);
    NextItemsIds(l, s, mark, e);
    if e.at >= mark - l.duration {
      PutIds(byEntity, seen, e.entity, items, gone, {e.id});
    } else {
      assert seen - gone + {} == seen - gone;
      PutIds(byEntity, seen, e.entity, items, gone, {});
    }
  }

  lemma CommitSeen(l: Limits, v: Table, e: Event, u: Update)
    requires TableOk(l, v) && Follows(l, v, e, u)
    ensures IdsOk(Commit(l, v, e, u).byEntity, Commit(l, v, e, u).seen)
  {
    CurrentList(l, v, e.entity);
    CommitIds(l, v.byEntity, v.seen, v.Items(e.entity), u.mark, e);
  }

  lemma CommitKeys(l: Limits, v: Table, e: Event, u: Update)
    requires TableOk(l, v) && Follows(l, v, e, u)
    ensures KeysOk(l, Commit(l, v, e, u))
  {
    CurrentList(l, v, e.entity);
    PutKeys(l, v, e.entity, u.mark, Commit(l, v, e, u));
  }

  lemma CommitLists(l: Limits, v: Table, e: Event, u: Update)
    requires TableOk(l, v) && Follows(l, v, e, u)
    ensures ListsOk(l, Commit(l, v, e, u).byEntity, Commit(l, v, e, u).watermark)
  {
    CurrentList(l, v, e.entity);
    NextItemsOk(l, v.Items(e.entity), v.Mark(e.entity), e);
    PutList(l, v.byEntity, v.watermark, e.entity, u.mark, u.items);
  }

  lemma CommitCount(l: Limits, v: Table, e: Event, u: Update)
    requires TableOk(l, v) && Follows(l, v, e, u)
    ensures Commit(l, v, e, u).eventCount == SumLengths(Commit(l, v, e, u).byEntity) <= l.maxEvents
  {
    CurrentList(l, v, e.entity);
    NextItemsLength(l, v.Items(e.entity), u.mark, e);
    SumPut(v.byEntity, e.entity, u.items);
    SumWithout(v.byEntity, e.entity);
  }

  lemma CommitAfterEviction(l: Limits, v: Table, e: Event, u: Update)
    requires TableOk(l, v) && Follows(l, v, e, u)
    ensures TableOk(l, Commit(l, v, e, u))
  {
    CommitSeen(l, v, e, u);
    CommitLists(l, v, e, u);
    CommitCount(l, v, e, u);
    CommitKeys(l, v, e, u);
  }

  lemma CommitEvictsFirst(l: Limits, w: Table, e: Event, u: Update)
    ensures Commit(l, w, e, u) == Commit(l, Evict(w, u.evict), e, u.(evict := None))
  {
  }

  lemma AcceptedFollows(l: Limits, w: Table, e: Event)
    requires TableOk(l, w) && Prepare(l, w, e).Accepted?
    ensures var u := Prepare(l, w, e).update;
            TableOk(l, Evict(w, u.evict)) && Follows(l, Evict(w, u.evict), e, u.(evict := None))
  {
    AcceptedFacts(l, w, e);
    VictimKeeps(l, w, e);
  }

  /** Every accepted event leaves the six collections in agreement. */
  lemma CommitKeeps(l: Limits, w: Table, e: Event)
    requires TableOk(l, w) && Prepare(l, w, e).Accepted?
    ensures TableOk(l, Commit(l, w, e, Prepare(l, w, e).update))
  {
    var u := Prepare(l, w, e).update;
    AcceptedFollows(l, w, e);
    CommitAfterEviction(l, Evict(w, u.evict), e, u.(evict := None));
    CommitEvictsFirst(l, w, e, u);
  }

  /** A call of Apply or ApplyAndMaterialize keeps the table in order whatever the event and the
      sink do. */
  lemma ApplyKeeps(l: Limits, w: Table, e: Event, sinkOk: bool)
    requires TableOk(l, w)
    ensures TableOk(l, Apply(l, w, e, sinkOk))
  {
    if Prepare(l, w, e).Accepted? { CommitKeeps(l, w, e); }
  }

  lemma {:induction false} UniqueIdsCount(s: seq<Item>)
    requires UniqueIds(s)
    ensures |Ids(s)| == |s|
  {
    if s != [] {
      var init, last := s[..|s| - 1], s[|s| - 1];
      assert s == init + [last];
      UniqueIdsCount(init);
      IdsAppend(init, last);
      assert last.id !in Ids(init);
    }
  }

  /** The deduplication set and the event counter are the same size, so one limit bounds both. */
  lemma {:induction false} SeenIsCounted(byEntity: map<string, seq<Item>>, seen: set<string>)
    requires IdsOk(byEntity, seen)
    ensures |seen| == SumLengths(byEntity)
    decreases |byEntity|
  {
    if byEntity == map[] {
      assert forall id {:trigger Retained(byEntity, id)} :: id in seen ==> Retained(byEntity, id);
      assert forall id {:trigger id in seen} :: id in seen ==> Retained(byEntity, id);
      assert seen == {};
    } else {
      var v :| v in byEntity;
      var gone := Ids(byEntity[v]);
      assert Own(byEntity[v], seen);
      EvictIds(byEntity, seen, v);
      FewerKeys(byEntity, v);
      SeenIsCounted(byEntity - {v}, seen - gone);
      SumRemove(byEntity, v);
      UniqueIdsCount(byEntity[v]);
      assert seen == (seen - gone) + gone;
    }
  }
}
