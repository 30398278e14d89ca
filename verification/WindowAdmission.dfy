/** When an event is accepted, and what an accepted event leaves behind, in terms of the stored rows
    alone: no counters, no prepared update. */
module WindowAdmission {
  import opened Common
  import opened WindowModel
  import opened WindowLists
  import opened WindowInvariant

  /** The entity's watermark after the event, and the first moment still inside its window. */
  function MarkAfter(w: Table, e: Event): Time {
    if e.at > w.Mark(e.entity) then e.at else w.Mark(e.entity)
  }

  function Cutoff(l: Limits, w: Table, e: Event): Time {
    MarkAfter(w, e) - l.duration
  }

  predicate Arrives(l: Limits, w: Table, e: Event) {
    e.at >= Cutoff(l, w, e)
  }

  /** A new entity at a full table costs the least active entity its place. */
  predicate Displaces(l: Limits, w: Table, e: Event, d: string) {
    e.entity !in w.watermark && |w.watermark| >= l.maxEntities && IsOldest(w.lastActive, d)
  }

  /** Item `y` of entity `d` is still held after the event. */
  predicate Survives(l: Limits, w: Table, e: Event, d: string, y: Item) {
    !Displaces(l, w, e, d) && (d == e.entity ==> y.at >= Cutoff(l, w, e))
  }

  /** The ids the table would hold after the event. */
  ghost function WouldHold(l: Limits, w: Table, e: Event): set<string> {
    (set d, i | d in w.byEntity && 0 <= i < |w.byEntity[d]| && Survives(l, w, e, d, w.byEntity[d][i]) :: w.byEntity[d][i].id)
    + (if Arrives(l, w, e) then {e.id} else {})
  }

  /** The sum of amounts the entity's window would have. */
  function WouldSum(l: Limits, w: Table, e: Event): real {
    Total(Since(w.Items(e.entity), Cutoff(l, w, e))) + if Arrives(l, w, e) then e.amount else 0.0
  }

  lemma VictimIsDisplaced(l: Limits, w: Table, e: Event, d: string)
    requires TableOk(l, w) && d in w.byEntity
    ensures Displaces(l, w, e, d) <==> Victim(l, w, e) == Some(d)
  {
    if Displaces(l, w, e, d) {
      OldestIsUnique(w.lastActive, d, Oldest(w.lastActive));
    }
  }

  /** The entity's part: its surviving items are what is left without the expired ones. */
  lemma OwnSurvivors(s: seq<Item>, cutoff: Time, id: string)
    requires Sorted(s) && UniqueIds(s)
    ensures id in Ids(s) - Ids(s[..Lead(s, cutoff)]) <==> exists i :: 0 <= i < |s| && s[i].at >= cutoff && s[i].id == id
  {
    var n := Lead(s, cutoff);
    IdsCut(s, n);
    if id in Ids(s) - Ids(s[..n]) {
      var j :| 0 <= j < |s[n..]| && s[n..][j].id == id;
      assert InOrder(s, n, n + j);
      assert s[n + j].at >= cutoff && s[n + j].id == id;
    }
    if i :| 0 <= i < |s| && s[i].at >= cutoff && s[i].id == id {
      assert i < n ==> Expires(s, i, cutoff);
      assert s[n..][i - n].id == id;
    }
  }

  /** The ids behind the counter: what `seen` becomes once the victim and the expired are gone. */
  function SeenAfter(l: Limits, w: Table, e: Event, victim: Option<string>): set<string> {
    var s := w.Items(e.entity);
    Evict(w, victim).seen - Ids(s[..Lead(s, Cutoff(l, w, e))]) + if Arrives(l, w, e) then {e.id} else {}
  }

  lemma WouldHoldIsSeen(l: Limits, w: Table, e: Event)
    requires TableOk(l, w)
    ensures WouldHold(l, w, e) == SeenAfter(l, w, e, Victim(l, w, e))
  {
    var victim, cutoff, s := Victim(l, w, e), Cutoff(l, w, e), w.Items(e.entity);
    var gone := Ids(s[..Lead(s, cutoff)]);
    var held := set d, i | d in w.byEntity && 0 <= i < |w.byEntity[d]| && Survives(l, w, e, d, w.byEntity[d][i]) :: w.byEntity[d][i].id;
    VictimKeeps(l, w, e);
    CurrentList(l, w, e.entity);
    forall id | id in held ensures id in Evict(w, victim).seen - gone {
      var d, i :| d in w.byEntity && 0 <= i < |w.byEntity[d]| && Survives(l, w, e, d, w.byEntity[d][i]) && w.byEntity[d][i].id == id;
      HeldIsSeen(l, w, e, d, i);
    }
    forall id | id in Evict(w, victim).seen - gone ensures id in held {
      var d, i := SeenIsHeld(l, w, e, id);
      assert w.byEntity[d][i].id in held;
    }
    assert held == Evict(w, victim).seen - gone;
  }

  lemma HeldIsSeen(l: Limits, w: Table, e: Event, d: string, i: nat)
    requires TableOk(l, w) && d in w.byEntity && i < |w.byEntity[d]| && Survives(l, w, e, d, w.byEntity[d][i])
    ensures var s := w.Items(e.entity);
            w.byEntity[d][i].id in Evict(w, Victim(l, w, e)).seen - Ids(s[..Lead(s, Cutoff(l, w, e))])
  {
    var id, s, cutoff := w.byEntity[d][i].id, w.Items(e.entity), Cutoff(l, w, e);
    assert Own(w.byEntity[d], w.seen) && id in Ids(w.byEntity[d]);
    VictimIsDisplaced(l, w, e, d);
    var victim := Victim(l, w, e);
    if victim.Some? {
      assert Apart(w.byEntity, d, victim.value);
    }
    CurrentList(l, w, e.entity);
    IdsCut(s, Lead(s, cutoff));
    if d == e.entity {
      OwnSurvivors(s, cutoff, id);
    } else if e.entity in w.byEntity {
      assert Apart(w.byEntity, d, e.entity);
    }
  }

  lemma SeenIsHeld(l: Limits, w: Table, e: Event, id: string) returns (d: string, i: nat)
    requires TableOk(l, w)
    requires var s := w.Items(e.entity);
             id in Evict(w, Victim(l, w, e)).seen - Ids(s[..Lead(s, Cutoff(l, w, e))])
    ensures d in w.byEntity && i < |w.byEntity[d]| && Survives(l, w, e, d, w.byEntity[d][i]) && w.byEntity[d][i].id == id
  {
    var s, cutoff, victim := w.Items(e.entity), Cutoff(l, w, e), Victim(l, w, e);
    assert Retained(w.byEntity, id);
    d :| d in w.byEntity && id in Ids(w.byEntity[d]);
    VictimIsDisplaced(l, w, e, d);
    if d == e.entity {
      CurrentList(l, w, e.entity);
      OwnSurvivors(s, cutoff, id);
      i :| 0 <= i < |s| && s[i].at >= cutoff && s[i].id == id;
    } else {
      i :| 0 <= i < |w.byEntity[d]| && w.byEntity[d][i].id == id;
    }
  }

  /** The projected counter is the number of ids the table would hold. */
  lemma WouldHoldIsCounted(l: Limits, w: Table, e: Event)
    requires TableOk(l, w) && e.id !in w.seen
    ensures var victim, s := Victim(l, w, e), w.Items(e.entity);
            |WouldHold(l, w, e)| == w.eventCount - EvictedCount(w, victim) - Lead(s, Cutoff(l, w, e)) + (if Arrives(l, w, e) then 1 else 0)
  {
    var victim := Victim(l, w, e);
    var v, s, mark := Evict(w, victim), w.Items(e.entity), MarkAfter(w, e);
    WouldHoldIsSeen(l, w, e);
    VictimKeeps(l, w, e);
    CurrentList(l, v, e.entity);
    CommitIds(l, v.byEntity, v.seen, s, mark, e);
    SeenIsCounted(v.byEntity[e.entity := NextItems(l, s, mark, e)], WouldHold(l, w, e));
    NextItemsLength(l, s, mark, e);
    SumPut(v.byEntity, e.entity, NextItems(l, s, mark, e));
    SumWithout(v.byEntity, e.entity);
  }

  /** The new list's sum is that of the survivors plus the arrival's amount. */
  lemma WouldSumIsTotal(l: Limits, s: seq<Item>, mark: Time, e: Event)
    requires Sorted(s)
    ensures Total(NextItems(l, s, mark, e)) == Total(Since(s, mark - l.duration)) + if e.at >= mark - l.duration then e.amount else 0.0
  {
    var kept := Since(s, mark - l.duration);
    NextItemsIsInsert(l, s, mark, e);
    InsertAfterFacts(kept, ItemOf(e));
    TotalConcat(kept, [ItemOf(e)]);
    OrderDoesNotMatter(InsertAfter(kept, ItemOf(e)), kept + [ItemOf(e)]);
    assert [ItemOf(e)][..0] == [];
  }

  /** When an event is accepted. An invalid event is refused as such, a repeated id or offset is
      ignored; any other event is refused for capacity exactly when the ids the table would hold exceed
      the limit, for range exactly when they do not and the entity's window would sum to more than the
      largest amount, and accepted otherwise. A full table alone is never a reason to refuse. */
  lemma AdmissionIsExact(l: Limits, w: Table, e: Event)
    requires TableOk(l, w)
    ensures Prepare(l, w, e) == Rejected(InvalidEvent) <==> !ValidEvent(l, e)
    ensures Prepare(l, w, e) == Ignored <==> ValidEvent(l, e) && Stale(w, e)
    ensures ValidEvent(l, e) && !Stale(w, e) ==>
      && (Prepare(l, w, e) == Rejected(StateCapacity) <==> |WouldHold(l, w, e)| > l.maxEvents)
      && (Prepare(l, w, e) == Rejected(NumericRange) <==> |WouldHold(l, w, e)| <= l.maxEvents && WouldSum(l, w, e) > l.maxAmount)
      && (Prepare(l, w, e).Accepted? <==> |WouldHold(l, w, e)| <= l.maxEvents && WouldSum(l, w, e) <= l.maxAmount)
  {
    if ValidEvent(l, e) && !Stale(w, e) {
      WouldHoldIsCounted(l, w, e);
      CurrentList(l, w, e.entity);
      WouldSumIsTotal(l, w.Items(e.entity), MarkAfter(w, e), e);
    }
  }

  // ----- what an accepted event leaves behind ---------------------------------------------

  /** Entity `d` has the same rows in both tables. */
  predicate SameRows(w: Table, w': Table, d: string) {
    && (d in w'.byEntity <==> d in w.byEntity) && (d in w.byEntity ==> w'.byEntity[d] == w.byEntity[d])
    && (d in w'.watermark <==> d in w.watermark) && (d in w.watermark ==> w'.watermark[d] == w.watermark[d])
    && (d in w'.lastActive <==> d in w.lastActive) && (d in w.lastActive ==> w'.lastActive[d] == w.lastActive[d])
  }

  /** The event's own row after the update: the survivors and the arrival in time order, under the new
      watermark, and the returned vector is their aggregate. */
  ghost predicate OwnRowMoved(l: Limits, w: Table, e: Event, u: Update, w': Table) {
    && e.entity in w'.byEntity && e.entity in w'.watermark && e.entity in w'.lastActive
    && w'.watermark[e.entity] == w'.lastActive[e.entity] == MarkAfter(w, e)
    && RowIs(w'.byEntity[e.entity], Since(w.Items(e.entity), Cutoff(l, w, e)), Arrives(l, w, e), e)
    && (u.changed <==> Arrives(l, w, e))
    && u.features == Aggregate(e.entity, w'.byEntity[e.entity], MarkAfter(w, e))
  }

  ghost predicate RowIs(items: seq<Item>, survivors: seq<Item>, arrives: bool, e: Event) {
    && Sorted(items)
    && multiset(items) == multiset(survivors) + (if arrives then multiset{Item(e.id, e.at, e.amount)} else multiset{})
  }

  /** The rest of the table: the displaced entity is gone, nobody else has noticed. */
  ghost predicate OthersKept(l: Limits, w: Table, e: Event, w': Table) {
    && (forall d :: d != e.entity && !Displaces(l, w, e, d) ==> SameRows(w, w', d))
    && (forall d :: Displaces(l, w, e, d) ==> d != e.entity && d in w.watermark && d !in w'.byEntity && d !in w'.watermark && d !in w'.lastActive)
    && (forall d :: Displaces(l, w, e, d) ==> |w'.watermark| == |w.watermark|)
    && ((forall d :: !Displaces(l, w, e, d)) ==> |w'.watermark| == |w.watermark| + if e.entity in w.watermark then 0 else 1)
  }

  /** An accepted event leaves its entity tracked with the survivors and the arrival in time order,
      drops exactly the displaced entity, leaves every other entity alone, remembers exactly the ids
      the table now holds and its own offset. The table grows by the new entity only when nobody was
      displaced. It reports a change exactly when it arrives inside the window. */
  lemma AcceptedEventMovesOneRow(l: Limits, w: Table, e: Event, u: Update, w': Table)
    requires TableOk(l, w) && Prepare(l, w, e) == Accepted(u) && w' == Commit(l, w, e, u)
    ensures OwnRowMoved(l, w, e, u, w') && OthersKept(l, w, e, w')
    ensures w'.seen == WouldHold(l, w, e) && w'.eventCount == |WouldHold(l, w, e)|
    ensures w'.offsets == w.offsets[e.partition := e.offset]
  {
    AcceptedFacts(l, w, e);
    CurrentList(l, w, e.entity);
    CommitKeeps(l, w, e);
    SeenIsCounted(w'.byEntity, w'.seen);
    DraftedRow(l, w, e, u, w');
    DraftedOthers(l, w, e, u, w');
    DraftedIds(l, w, e, u);
  }

  lemma DraftedRow(l: Limits, w: Table, e: Event, u: Update, w': Table)
    requires l.Valid() && ListOk(l, w.Items(e.entity), w.Mark(e.entity)) && e.amount >= 0.0
    requires u == Draft(l, e, w.Items(e.entity), w.Mark(e.entity), u.evict) && w' == Commit(l, w, e, u)
    ensures OwnRowMoved(l, w, e, u, w') && w'.offsets == w.offsets[e.partition := e.offset]
  {
    OwnRowAfter(l, w.Items(e.entity), w.Mark(e.entity), e, u.evict, u);
  }

  lemma DraftedOthers(l: Limits, w: Table, e: Event, u: Update, w': Table)
    requires TableOk(l, w) && u.evict == Victim(l, w, e) && w' == Commit(l, w, e, u)
    ensures OthersKept(l, w, e, w')
  {
    OtherRowsAfter(l, w, e, u, w');
    SizeAfter(l, w, e, u, w');
  }

  lemma DraftedIds(l: Limits, w: Table, e: Event, u: Update)
    requires TableOk(l, w) && u == Draft(l, e, w.Items(e.entity), w.Mark(e.entity), Victim(l, w, e))
    ensures Commit(l, w, e, u).seen == WouldHold(l, w, e)
  {
    WouldHoldIsSeen(l, w, e);
    SeenAfterCommit(l, w, e, u);
  }

  lemma OwnRowAfter(l: Limits, s: seq<Item>, was: Time, e: Event, victim: Option<string>, u: Update)
    requires l.Valid() && ListOk(l, s, was) && e.amount >= 0.0 && u == Draft(l, e, s, was, victim)
    ensures var mark := if e.at > was then e.at else was;
            var arrives := e.at >= mark - l.duration;
            && RowIs(u.items, Since(s, mark - l.duration), arrives, e)
            && u.mark == mark && (u.changed <==> arrives)
            && u.features == Aggregate(e.entity, u.items, mark)
  {
    var mark := Later(was, e.at);
    NextRow(l, s, mark, e);
    if e.at < mark - l.duration {
      LateEventChangesNothing(l, s, was, e);
    }
  }

  lemma NextRow(l: Limits, s: seq<Item>, mark: Time, e: Event)
    requires Sorted(s)
    ensures RowIs(NextItems(l, s, mark, e), Since(s, mark - l.duration), e.at >= mark - l.duration, e)
  {
    var kept := Since(s, mark - l.duration);
    NextItemsIsInsert(l, s, mark, e);
    SinceSorted(s, mark - l.duration);
    InsertAfterFacts(kept, ItemOf(e));
  }

  lemma OtherRowsAfter(l: Limits, w: Table, e: Event, u: Update, w': Table)
    requires TableOk(l, w) && u.evict == Victim(l, w, e) && w' == Commit(l, w, e, u)
    ensures forall d :: d != e.entity && !Displaces(l, w, e, d) ==> SameRows(w, w', d)
    ensures forall d :: Displaces(l, w, e, d) ==>
      d != e.entity && d in w.watermark && d !in w'.byEntity && d !in w'.watermark && d !in w'.lastActive
  {
    forall d | d != e.entity && !Displaces(l, w, e, d) ensures SameRows(w, w', d) {
      if d in w.byEntity { VictimIsDisplaced(l, w, e, d); }
    }
    forall d | Displaces(l, w, e, d)
      ensures d != e.entity && d in w.watermark && d !in w'.byEntity && d !in w'.watermark && d !in w'.lastActive
    {
      VictimIsDisplaced(l, w, e, d);
    }
  }

  lemma SeenAfterCommit(l: Limits, w: Table, e: Event, u: Update)
    requires u == Draft(l, e, w.Items(e.entity), w.Mark(e.entity), u.evict)
    ensures Commit(l, w, e, u).seen == SeenAfter(l, w, e, u.evict)
  {
  }

  lemma SizeAfter(l: Limits, w: Table, e: Event, u: Update, w': Table)
    requires TableOk(l, w) && u.evict == Victim(l, w, e) && w' == Commit(l, w, e, u)
    ensures forall d :: Displaces(l, w, e, d) ==> |w'.watermark| == |w.watermark|
    ensures (forall d :: !Displaces(l, w, e, d)) ==> |w'.watermark| == |w.watermark| + if e.entity in w.watermark then 0 else 1
  {
    var v := Evict(w, u.evict);
    assert w'.watermark.Keys == v.watermark.Keys + {e.entity};
    assert |w'.watermark| == |w'.watermark.Keys| && |v.watermark| == |v.watermark.Keys|;
    if u.evict.Some? {
      EvictKeys(l, w, u.evict.value);
      VictimIsDisplaced(l, w, e, u.evict.value);
    } else {
      assert v == w;
      if d :| Displaces(l, w, e, d) { VictimIsDisplaced(l, w, e, d); }
      if e.entity in w.watermark { assert w'.watermark.Keys == w.watermark.Keys; }
    }
  }
}
