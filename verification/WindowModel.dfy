/** The sliding-window aggregator on values: what one event does to the table. Times are integers
    with 0 as Go's zero time; amounts are exact reals. */
module WindowModel {
  import opened Common
  import opened Strings

  type Time = int

  const MAX_PARTITIONS: int := 100_000

  datatype Event = Event(id: string, entity: string, amount: real, at: Time, partition: int, offset: int)

  datatype Item = Item(id: string, at: Time, amount: real)

  datatype Features = Features(entity: string, count: nat, total: real, largest: real, end: Time)

  /** Configuration. `maxAmount` stands for the largest finite amount. */
  datatype Limits = Limits(duration: int, maxEntities: int, maxEvents: int, maxAmount: real) {
    predicate Valid() {
      duration > 0 && maxEntities >= 1 && maxEvents >= 1 && maxAmount > 0.0
    }
  }

  datatype Table = Table(
    byEntity: map<string, seq<Item>>,
    seen: set<string>,
    offsets: map<int, int>,
    watermark: map<string, Time>,
    lastActive: map<string, Time>,
    eventCount: int)
  {
    function Items(entity: string): seq<Item> {
      if entity in byEntity then byEntity[entity] else []
    }

    function Mark(entity: string): Time {
      if entity in watermark then watermark[entity] else 0
    }
  }

  const EMPTY_TABLE := Table(map[], {}, map[], map[], map[], 0)

  predicate ValidEvent(l: Limits, e: Event) {
    && e.id != "" && ByteLength(e.id) <= 256 && NoControl(e.id)
    && e.entity != "" && ByteLength(e.entity) <= 256 && Trimmed(e.entity) && NoControl(e.entity)
    && 0.0 <= e.amount <= l.maxAmount && e.at != 0
    && 0 <= e.partition < MAX_PARTITIONS && e.offset >= 0
  }

  function ItemOf(e: Event): Item {
    Item(e.id, e.at, e.amount)
  }

  // ----- lists of items -------------------------------------------------------------------

  ghost predicate InOrder(s: seq<Item>, i: int, j: int) {
    0 <= i < j < |s| ==> s[i].at <= s[j].at
  }

  ghost predicate Sorted(s: seq<Item>) {
    forall i, j {:trigger InOrder(s, i, j)} :: InOrder(s, i, j)
  }

  /** Insert behind every item that is not later. */
  function InsertAfter(s: seq<Item>, x: Item): seq<Item> {
    if s == [] || s[|s| - 1].at <= x.at then s + [x]
    else InsertAfter(s[..|s| - 1], x) + [s[|s| - 1]]
  }

  /** sort.SliceStable by time. */
  function StableSort(s: seq<Item>): seq<Item> {
    if s == [] then [] else InsertAfter(StableSort(s[..|s| - 1]), s[|s| - 1])
  }

  /** The items not before the cutoff. */
  function Since(s: seq<Item>, cutoff: Time): seq<Item> {
    if s == [] then []
    else if s[|s| - 1].at >= cutoff then Since(s[..|s| - 1], cutoff) + [s[|s| - 1]]
    else Since(s[..|s| - 1], cutoff)
  }

  /** How many leading items lie before the cutoff. */
  function Lead(s: seq<Item>, cutoff: Time): (n: nat)
    ensures IsLead(s, cutoff, n)
  {
    LeadFrom(s, cutoff, 0)
  }

  function LeadFrom(s: seq<Item>, cutoff: Time, k: nat): (n: nat)
    requires k <= |s|
    ensures k <= n <= |s| && (n < |s| ==> s[n].at >= cutoff)
    ensures forall i {:trigger Expires(s, i, cutoff)} :: k <= i < n ==> Expires(s, i, cutoff)
    decreases |s| - k
  {
    if k == |s| || s[k].at >= cutoff then k else LeadFrom(s, cutoff, k + 1)
  }

  ghost predicate IsLead(s: seq<Item>, cutoff: Time, n: nat) {
    && n <= |s|
    && (forall i {:trigger Expires(s, i, cutoff)} :: 0 <= i < n ==> Expires(s, i, cutoff))
    && (n < |s| ==> s[n].at >= cutoff)
  }

  ghost predicate Expires(s: seq<Item>, i: int, cutoff: Time) {
    0 <= i < |s| && s[i].at < cutoff
  }

  function Total(s: seq<Item>): real {
    if s == [] then 0.0 else Total(s[..|s| - 1]) + s[|s| - 1].amount
  }

  function Largest(s: seq<Item>): real {
    if s == [] then 0.0
    else if s[|s| - 1].amount > Largest(s[..|s| - 1]) then s[|s| - 1].amount else Largest(s[..|s| - 1])
  }

  function Ids(s: seq<Item>): set<string> {
    set i | 0 <= i < |s| :: s[i].id
  }

  function Aggregate(entity: string, s: seq<Item>, end: Time): Features {
    Features(entity, |s|, Total(s), Largest(s), end)
  }

  // ----- eviction -------------------------------------------------------------------------

  /** The earliest activity, and among equals the first name. */
  predicate IsOldest(active: map<string, Time>, e: string) {
    && e in active
    && forall d :: d in active ==>
         active[e] < active[d] || (active[e] == active[d] && (e == d || Before(e, d)))
  }

  lemma OldestIsUnique(active: map<string, Time>, a: string, b: string)
    requires IsOldest(active, a) && IsOldest(active, b)
    ensures a == b
  {
    if a != b {
      BeforeIsAsymmetric(a, b);
    }
  }

  lemma {:induction false} OldestExists(active: map<string, Time>)
    requires active != map[]
    ensures exists e :: IsOldest(active, e)
    decreases |active|
  {
    var d :| d in active;
    var rest := active - {d};
    assert active.Keys == rest.Keys + {d};
    if rest == map[] {
      assert rest.Keys == {};
      assert IsOldest(active, d);
    } else {
      OldestExists(rest);
      var e :| IsOldest(rest, e);
      assert forall c :: c in active ==> c == d || c in rest;
      if active[d] < active[e] || (active[d] == active[e] && Before(d, e)) {
        forall c | c in active ensures active[d] < active[c] || (active[d] == active[c] && (d == c || Before(d, c))) {
          if c != d && c != e && active[d] == active[c] { BeforeIsTransitive(d, e, c); }
        }
        assert IsOldest(active, d);
      } else {
        BeforeIsTotal(d, e);
        assert IsOldest(active, e);
      }
    }
  }

  ghost function Oldest(active: map<string, Time>): (e: string)
    requires active != map[]
    ensures IsOldest(active, e)
  {
    OldestExists(active);
    var e :| IsOldest(active, e);
    e
  }

  // ----- one event ------------------------------------------------------------------------

  datatype Error = InvalidEvent | StateCapacity | NumericRange | SinkMissing | SinkFailed

  datatype Update = Update(
    changed: bool,
    features: Features,
    items: seq<Item>,
    mark: Time,
    expired: seq<Item>,
    evict: Option<string>)

  datatype Prepared = Rejected(error: Error) | Ignored | Accepted(update: Update)

  predicate Stale(w: Table, e: Event) {
    e.id in w.seen || (e.partition in w.offsets && e.offset <= w.offsets[e.partition])
  }

  ghost function Victim(l: Limits, w: Table, e: Event): Option<string> {
    if e.entity !in w.watermark && |w.watermark| >= l.maxEntities && w.lastActive != map[]
    then Some(Oldest(w.lastActive)) else None
  }

  function Later(a: Time, b: Time): Time {
    if b > a then b else a
  }

  /** An arrival inside the window joins the kept items in its place. */
  function Place(l: Limits, kept: seq<Item>, mark: Time, e: Event): seq<Item> {
    if e.at >= mark - l.duration then StableSort(kept + [ItemOf(e)]) else kept
  }

  /** The entity's list after the event, with its new watermark. */
  function NextItems(l: Limits, current: seq<Item>, mark: Time, e: Event): seq<Item> {
    Place(l, Since(current, mark - l.duration), mark, e)
  }

  function EvictedCount(w: Table, victim: Option<string>): nat {
    if victim.Some? then |w.Items(victim.value)| else 0
  }

  /** The update for an event that is neither invalid nor stale, from its entity's own rows. */
  function Draft(l: Limits, e: Event, current: seq<Item>, was: Time, victim: Option<string>): Update {
    var mark := Later(was, e.at);
    var first := Lead(current, mark - l.duration);
    var items := NextItems(l, current, mark, e);
    Update(e.at >= mark - l.duration || first > 0, Aggregate(e.entity, items, mark), items, mark, current[..first], victim)
  }

  /** How many events the table will hold; `others` leaves out those of an evicted entity. */
  function Projected(l: Limits, e: Event, u: Update, others: int): int {
    others - |u.expired| + (if e.at >= u.mark - l.duration then 1 else 0)
  }

  /** The two limits. */
  function Checked(l: Limits, e: Event, u: Update, others: int): Prepared {
    if Projected(l, e, u, others) > l.maxEvents then Rejected(StateCapacity)
    else if Total(u.items) > l.maxAmount then Rejected(NumericRange)
    else Accepted(u)
  }

  ghost function Prepare(l: Limits, w: Table, e: Event): Prepared {
    if !ValidEvent(l, e) then Rejected(InvalidEvent)
    else if Stale(w, e) then Ignored
    else
      var victim := Victim(l, w, e);
      Checked(l, e, Draft(l, e, w.Items(e.entity), w.Mark(e.entity), victim), w.eventCount - EvictedCount(w, victim))
  }

  function Evict(w: Table, victim: Option<string>): Table {
    match victim
    case None => w
    case Some(v) =>
      Table(w.byEntity - {v}, w.seen - Ids(w.Items(v)), w.offsets, w.watermark - {v}, w.lastActive - {v},
            w.eventCount - |w.Items(v)|)
  }

  function Commit(l: Limits, w: Table, e: Event, u: Update): Table {
    var v := Evict(w, u.evict);
    var kept := v.seen - Ids(u.expired);
    Table(v.byEntity[e.entity := u.items],
          if e.at >= u.mark - l.duration then kept + {e.id} else kept,
          v.offsets[e.partition := e.offset],
          v.watermark[e.entity := u.mark],
          v.lastActive[e.entity := u.mark],
          v.eventCount + |u.items| - |v.Items(e.entity)|)
  }

  /** Window.Apply, and Window.ApplyAndMaterialize with a sink that answers `sinkOk`. */
  ghost function Apply(l: Limits, w: Table, e: Event, sinkOk: bool): Table {
    match Prepare(l, w, e)
    case Accepted(u) => if u.changed && !sinkOk then w else Commit(l, w, e, u)
    case _ => w
  }
}
