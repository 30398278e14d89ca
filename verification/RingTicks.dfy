/** One tick of the reclaimer: from the swap of its two lists to the end of the scan. Everyone else
    may move in between. */
module RingTicks {
  import opened Common
  import opened RingSystem
  import opened RingInvariant
  import opened RingGateways
  import opened RingTheorems

  /** The execution is one tick of gateway `g`. */
  ghost predicate Tick(s0: State, tick: Execution, g: nat) {
    && tick.From(s0) && |tick.acts| >= 2
    && tick.acts[0] == ByGateway(g, Swap)
    && tick.acts[|tick.acts| - 1] == ByGateway(g, ScanEnd)
    && forall i {:trigger tick.acts[i]} :: 0 <= i < |tick.acts| - 1 ==> tick.acts[i] != ByGateway(g, ScanEnd)
  }

  /** The reclaimer of `g` loads the sequence word of position `p`. */
  predicate Loads(s: State, a: Action, g: nat, p: nat) {
    && a == ByGateway(g, ScanLoad) && g in s.gateways && s.gateways[g].scan.Scanning?
    && s.gateways[g].scan.index < |s.gateways[g].outstanding| && s.gateways[g].outstanding[s.gateways[g].scan.index] == p
  }

  /** It loads it and finds it answered. */
  predicate Finds(s: State, a: Action, g: nat, p: nat) {
    Loads(s, a, g, p) && s.mem.Count() > 0 && s.mem.At(p).sequence == p + 2
  }

  /** It releases it. */
  predicate Frees(s: State, a: Action, g: nat, p: nat) {
    && a == ByGateway(g, ScanStore) && g in s.gateways && s.gateways[g].scan.SawAnswer?
    && s.gateways[g].scan.index < |s.gateways[g].outstanding| && s.gateways[g].outstanding[s.gateways[g].scan.index] == p
  }

  datatype Tally = Tally(loads: nat, finds: nat, frees: nat)

  /** One more step on the tally of position `p`. */
  function Bump(t: Tally, s: State, a: Action, g: nat, p: nat): Tally {
    Tally(t.loads + Once(Loads(s, a, g, p)), t.finds + Once(Finds(s, a, g, p)), t.frees + Once(Frees(s, a, g, p)))
  }

  /** How often the first `n` steps load, find answered and release position `p`. */
  function Count(ex: Execution, n: nat, g: nat, p: nat): Tally
    requires n <= |ex.acts| <= |ex.states|
  {
    if n == 0 then Tally(0, 0, 0)
    else Bump(Count(ex, n - 1, g, p), ex.states[n - 1], ex.acts[n - 1], g, p)
  }

  // ----- inside the tick ------------------------------------------------------------------

  function ScanIndex(gw: Gateway): nat {
    match gw.scan
    case Resting => 0
    case Scanning(i) => i
    case SawAnswer(i) => i + 1
  }

  ghost predicate Ahead(v: seq<nat>, i: nat, p: nat) {
    exists k {:trigger v[k]} :: i <= k < |v| && v[k] == p
  }

  /** Where the scan stands: what is still to be loaded, and what was found and is to be released.
      `start` is the list that the swap brought forward, `held` the one it put back. */
  ghost predicate Midway(gw: Gateway, start: seq<nat>, held: seq<nat>, p: nat, t: Tally) {
    && !gw.scan.Resting? && NoDuplicates(gw.outstanding) && ScanIndex(gw) <= |gw.outstanding|
    && t.loads + Once(Ahead(gw.outstanding, ScanIndex(gw), p)) == Once(p in start)
    && t.finds == t.frees + Once(gw.scan.SawAnswer? && gw.outstanding[gw.scan.index] == p)
    && (p in held ==> p in gw.pending)
  }

  lemma AheadSplits(v: seq<nat>, i: nat, p: nat)
    requires NoDuplicates(v) && i < |v|
    ensures Ahead(v, i, p) <==> v[i] == p || Ahead(v, i + 1, p)
    ensures !Ahead(v, i + 1, v[i])
  {
  }

  /** What swap_remove leaves from the index on is what lay behind it. */
  lemma SwapRemoveAhead(v: seq<nat>, i: nat, p: nat)
    requires NoDuplicates(v) && i < |v|
    ensures Ahead(SwapRemove(v, i), i, p) <==> Ahead(v, i + 1, p)
  {
    var w := SwapRemove(v, i);
    if Ahead(w, i, p) {
      var k :| i <= k < |w| && w[k] == p;
      assert v[if k == i then |v| - 1 else k] == p;
    }
    if Ahead(v, i + 1, p) {
      var k :| i + 1 <= k < |v| && v[k] == p;
      assert w[if k == |v| - 1 then i else k] == p;
    }
  }

  /** A step of the scan itself. */
  lemma ScanKeepsMidway(s: State, g: nat, e: GatewayEvent, s': State, start: seq<nat>, held: seq<nat>, p: nat, t: Tally)
    requires s.mem.Count() > 0 && g in s.gateways && GatewayStep(s, g, e) == Some(s') && !e.ScanEnd?
    requires Midway(s.gateways[g], start, held, p, t)
    ensures Midway(s'.gateways[g], start, held, p, Bump(t, s, ByGateway(g, e), g, p))
  {
    var gw := s.gateways[g];
    var i := gw.scan.index;
    AheadSplits(gw.outstanding, i, p);
    if e.ScanStore? {
      SwapRemoved(gw.outstanding, i);
      SwapRemoveAhead(gw.outstanding, i, p);
    }
  }

  /** Nobody else touches the list being scanned or the place of the scan; hand-offs only append to
      the other list. */
  lemma OthersLeaveScan(s: State, a: Action, s': State, g: nat)
    requires Step(s, a) == Some(s') && g in s.gateways && (a.ByGateway? ==> a.g != g)
    ensures g in s'.gateways
    ensures s'.gateways[g].outstanding == s.gateways[g].outstanding && s'.gateways[g].scan == s.gateways[g].scan
    ensures s.gateways[g].pending <= s'.gateways[g].pending
  {
    match a
    case Submit(_, _) =>
    case ByProducer(t, e) => ProducerLeavesScan(s, t, e, s', g);
    case ByGateway(_, _) =>
    case ByConsumer(c, e) => ConsumerLeavesScan(s, c, e, s');
  }

  lemma ProducerLeavesScan(s: State, t: nat, e: ProducerEvent, s': State, g: nat)
    requires s.mem.Count() > 0 && t in s.producers && ProducerStep(s, t, e) == Some(s') && g in s.gateways
    ensures g in s'.gateways
    ensures s'.gateways[g].outstanding == s.gateways[g].outstanding && s'.gateways[g].scan == s.gateways[g].scan
    ensures s.gateways[g].pending <= s'.gateways[g].pending
  {
  }

  lemma ConsumerLeavesScan(s: State, c: nat, e: ConsumerEvent, s': State)
    requires s.mem.Count() > 0 && c in s.consumers && ConsumerStep(s, c, e) == Some(s')
    ensures s'.gateways == s.gateways
  {
  }

  lemma StepKeepsMidway(s: State, a: Action, s': State, g: nat, start: seq<nat>, held: seq<nat>, p: nat, t: Tally)
    requires Step(s, a) == Some(s') && g in s.gateways && a != ByGateway(g, ScanEnd)
    requires Midway(s.gateways[g], start, held, p, t)
    ensures g in s'.gateways && Midway(s'.gateways[g], start, held, p, Bump(t, s, a, g, p))
  {
    if a.ByGateway? && a.g == g {
      ScanKeepsMidway(s, g, a.r, s', start, held, p, t);
    } else {
      OthersLeaveScan(s, a, s', g);
      assert Bump(t, s, a, g, p) == t;
    }
  }

  lemma AfterSwap(s: State, g: nat, s': State, p: nat)
    requires g in s.gateways && Step(s, ByGateway(g, Swap)) == Some(s') && NoDuplicates(s.gateways[g].pending)
    ensures g in s'.gateways
    ensures Midway(s'.gateways[g], s.gateways[g].pending, s.gateways[g].outstanding, p, Bump(Tally(0, 0, 0), s, ByGateway(g, Swap), g, p))
  {
  }

  /** The scan ends when nothing is left to load or to release. */
  lemma AtScanEnd(s: State, g: nat, s': State, start: seq<nat>, held: seq<nat>, p: nat, t: Tally)
    requires g in s.gateways && Step(s, ByGateway(g, ScanEnd)) == Some(s') && Midway(s.gateways[g], start, held, p, t)
    ensures var end := Bump(t, s, ByGateway(g, ScanEnd), g, p);
            end.loads == Once(p in start) && end.finds == end.frees
    ensures g in s'.gateways && (p in held ==> p in s'.gateways[g].pending)
  {
  }

  lemma StepAt(s0: State, ex: Execution, n: nat)
    requires ex.From(s0) && n < |ex.acts|
    ensures Step(ex.states[n], ex.acts[n]) == Some(ex.states[n + 1])
  {
    assert ex.LinkAt(n);
  }

  /** The scan of the tick stands midway after `n` steps. */
  ghost predicate MidwayAfter(s0: State, tick: Execution, g: nat, n: nat, p: nat)
    requires g in s0.gateways && n <= |tick.acts| < |tick.states|
  {
    && g in tick.states[n].gateways
    && Midway(tick.states[n].gateways[g], s0.gateways[g].pending, s0.gateways[g].outstanding, p, Count(tick, n, g, p))
  }

  lemma MidwayFirst(s0: State, tick: Execution, g: nat, p: nat)
    requires tick.From(s0) && g in s0.gateways && NoDuplicates(s0.gateways[g].pending)
    requires |tick.acts| >= 1 && tick.acts[0] == ByGateway(g, Swap)
    ensures MidwayAfter(s0, tick, g, 1, p)
  {
    StepAt(s0, tick, 0);
    AfterSwap(s0, g, tick.states[1], p);
    assert Count(tick, 0, g, p) == Tally(0, 0, 0);
  }

  /** Step `n` carries the scan on. */
  ghost predicate Carried(s0: State, tick: Execution, g: nat, n: nat, p: nat)
    requires g in s0.gateways && n < |tick.acts| < |tick.states|
  {
    MidwayAfter(s0, tick, g, n, p) ==> MidwayAfter(s0, tick, g, n + 1, p)
  }

  lemma MidwayNext(s0: State, tick: Execution, g: nat, n: nat, p: nat)
    requires tick.From(s0) && g in s0.gateways && n < |tick.acts| && tick.acts[n] != ByGateway(g, ScanEnd)
    ensures Carried(s0, tick, g, n, p)
  {
    if MidwayAfter(s0, tick, g, n, p) {
      StepAt(s0, tick, n);
      StepKeepsMidway(tick.states[n], tick.acts[n], tick.states[n + 1], g, s0.gateways[g].pending, s0.gateways[g].outstanding, p,
                      Count(tick, n, g, p));
    }
  }

  lemma {:induction false} MidwayAt(s0: State, tick: Execution, g: nat, n: nat, p: nat)
    requires g in s0.gateways && 1 <= n < |tick.acts| < |tick.states| && MidwayAfter(s0, tick, g, 1, p)
    requires forall i: nat {:trigger Carried(s0, tick, g, i, p)} :: 1 <= i < |tick.acts| - 1 ==> Carried(s0, tick, g, i, p)
    ensures MidwayAfter(s0, tick, g, n, p)
  {
    if n > 1 {
      MidwayAt(s0, tick, g, n - 1, p);
      assert Carried(s0, tick, g, n - 1, p);
    }
  }

  lemma CountNext(ex: Execution, n: nat, g: nat, p: nat)
    requires n < |ex.acts| < |ex.states|
    ensures Count(ex, n + 1, g, p) == Bump(Count(ex, n, g, p), ex.states[n], ex.acts[n], g, p)
  {
  }

  lemma MidwayLast(s0: State, tick: Execution, g: nat, p: nat, n: nat)
    requires tick.From(s0) && g in s0.gateways && n < |tick.acts| && tick.acts[n] == ByGateway(g, ScanEnd)
    requires MidwayAfter(s0, tick, g, n, p)
    ensures var t := Count(tick, n + 1, g, p);
            t.loads == Once(p in s0.gateways[g].pending) && t.frees == t.finds
    ensures p in s0.gateways[g].outstanding ==> g in tick.states[n + 1].gateways && p in tick.states[n + 1].gateways[g].pending
  {
    StepAt(s0, tick, n);
    CountNext(tick, n, g, p);
    AtScanEnd(tick.states[n], g, tick.states[n + 1], s0.gateways[g].pending, s0.gateways[g].outstanding, p, Count(tick, n, g, p));
  }

  lemma TickIsScan(s0: State, tick: Execution, g: nat, p: nat, n: nat)
    requires Tick(s0, tick, g) && g in s0.gateways && NoDuplicates(s0.gateways[g].pending) && n + 1 == |tick.acts|
    ensures MidwayAfter(s0, tick, g, n, p)
  {
    MidwayFirst(s0, tick, g, p);
    forall i: nat | 1 <= i < n ensures Carried(s0, tick, g, i, p) {
      MidwayNext(s0, tick, g, i, p);
    }
    MidwayAt(s0, tick, g, n, p);
  }

  /** What a tick that began with the lists `before` has done to position `p`. */
  ghost predicate Scanned(before: Gateway, after: map<nat, Gateway>, g: nat, p: nat, t: Tally) {
    && t.loads == Once(p in before.pending)
    && t.frees == t.finds
    && (p in before.outstanding ==> g in after && p in after[g].pending)
  }

  lemma TickIsScanned(s0: State, tick: Execution, g: nat, p: nat, n: nat)
    requires Tick(s0, tick, g) && g in s0.gateways && NoDuplicates(s0.gateways[g].pending) && n + 1 == |tick.acts|
    ensures Scanned(s0.gateways[g], tick.states[n + 1].gateways, g, p, Count(tick, n + 1, g, p))
  {
    TickIsScan(s0, tick, g, p, n);
    MidwayLast(s0, tick, g, p, n);
  }

  // ----- what a tick does -----------------------------------------------------------------

  lemma ListsAreDistinct(s: State, x: Aux, g: nat)
    requires Inv(s, x) && g in s.gateways
    ensures NoDuplicates(s.gateways[g].pending)
    ensures forall p :: p in s.gateways[g].outstanding ==> p !in s.gateways[g].pending
  {
    var gw := s.gateways[g];
    var all, n := gw.pending + gw.outstanding, |gw.pending|;
    assert GatewayOk(x.flights, g, gw);
    assert forall i :: 0 <= i < n ==> all[i] == gw.pending[i];
    assert forall i :: 0 <= i < |gw.outstanding| ==> all[n + i] == gw.outstanding[i];
  }

  /** In every run, a tick loads a position if and only if it was in the pending list when the tick
      swapped the lists, and then exactly once although swap_remove moves entries about; it releases
      exactly what it finds answered. What was in the other list is not looked at, answered or not,
      and waits in the pending list for the next tick. */
  lemma TickScansThePendingList(k: Config, ex: Execution, tick: Execution, g: nat, p: nat)
    requires k.count >= 3 && ex.Valid(k) && g in ex.End().gateways && Tick(ex.End(), tick, g)
    ensures Scanned(ex.End().gateways[g], tick.End().gateways, g, p, Count(tick, |tick.acts|, g, p))
    ensures p in ex.End().gateways[g].outstanding ==> Count(tick, |tick.acts|, g, p).loads == 0
  {
    ReachableLists(k, ex, g);
    TickIsScanned(ex.End(), tick, g, p, |tick.acts| - 1);
  }

  lemma ReachableLists(k: Config, ex: Execution, g: nat)
    requires k.count >= 3 && ex.Valid(k) && g in ex.End().gateways
    ensures NoDuplicates(ex.End().gateways[g].pending)
    ensures forall p :: p in ex.End().gateways[g].outstanding ==> p !in ex.End().gateways[g].pending
  {
    var x := EveryRunKeepsInv(k, ex);
    ListsAreDistinct(ex.End(), x, g);
  }

  /** The input on which "every tick" fails: an answered position left over from the last tick is
      passed over by the next one, which changes nothing in the segment. */
  lemma LeftoverIsPassedOver(s: State, g: nat, p: nat) returns (s1: State, s2: State)
    requires s.mem.Count() > 0 && g in s.gateways && s.gateways[g] == Gateway([], [p], Resting)
    requires s.mem.At(p).sequence == p + 2
    ensures Step(s, ByGateway(g, Swap)) == Some(s1) && Step(s1, ByGateway(g, ScanEnd)) == Some(s2)
    ensures s2.mem == s.mem && s2.gateways[g] == Gateway([p], [], Resting)
  {
    s1 := Step(s, ByGateway(g, Swap)).value;
    s2 := Step(s1, ByGateway(g, ScanEnd)).value;
  }
}
