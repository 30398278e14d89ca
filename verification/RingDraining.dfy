/** Progress in every run: as long as nothing new is claimed, every position in flight only ever
    advances, whoever moves and in whatever order, and only a bounded number of times. */
module RingDraining {
  import opened Common
  import opened RingSystem
  import opened RingInvariant
  import opened RingTheorems
  import opened RingGuarantees
  import opened RingProgress

  /** The position that a step advances: publishes, takes off the queue, answers, hands off to the
      reclaimer or releases. */
  function Advanced(s: State, a: Action, s': State): Option<nat>
    requires Step(s, a) == Some(s')
  {
    match a
    case Submit(_, _) => None
    case ByProducer(t, e) =>
      if e.StoreSequence? || e.StoreRelease? || (e.Push? && s'.gateways != s.gateways) then Some(s.producers[t].pos) else None
    case ByGateway(g, e) =>
      if e.ScanStore? then Some(s.gateways[g].outstanding[s.gateways[g].scan.index]) else None
    case ByConsumer(c, e) =>
      var pc := s.consumers[c].pc;
      if e.CasDequeue? && s'.mem.dequeue != s.mem.dequeue then Some(pc.pos)
      else if e.StoreReply? then Some(pc.replies[pc.done].position)
      else None
  }

  // ----- how far a position still has to go ------------------------------------------------

  /** Some reclaimer has the position on its lists. */
  ghost predicate Listed(gateways: map<nat, Gateway>, p: nat) {
    exists g {:trigger gateways[g]} :: g in gateways && (p in gateways[g].pending || p in gateways[g].outstanding)
  }

  /** The advances a position can still make, read off the shared memory and the reclaimers' lists:
      publication, consumption, answer, hand-off and release. */
  ghost function Remaining(s: State, p: nat): (n: nat)
    requires s.mem.Count() > 0
    ensures n <= 5
  {
    var sequence := s.mem.At(p).sequence;
    if p >= s.mem.enqueue || sequence > p + 2 then 0
    else
      (if sequence == p then 3 else if sequence == p + 1 then (if p >= s.mem.dequeue then 2 else 1) else 0)
      + (if Listed(s.gateways, p) then 0 else 1) + 1
  }

  /** The same, read off the flights of the invariant. */
  ghost function Rank(flights: Flights, p: nat): nat {
    if p in flights then StageRank(flights[p].stage) + HolderRank(flights[p].holder) + 1 else 0
  }

  lemma ListedIsReclaimed(s: State, x: Aux, p: nat)
    requires Inv(s, x) && p in x.flights
    ensures Listed(s.gateways, p) <==> x.flights[p].holder.HeldByGateway?
  {
    assert HolderOk(s.producers, s.gateways, p, x.flights[p].holder);
    forall g | g in s.gateways && (p in s.gateways[g].pending || p in s.gateways[g].outstanding)
      ensures x.flights[p].holder.HeldByGateway?
    {
      assert GatewayOk(x.flights, g, s.gateways[g]);
      assert Reclaims(x.flights, p, g);
    }
  }

  lemma RemainingIsRank(s: State, x: Aux, p: nat)
    requires Inv(s, x)
    ensures Remaining(s, p) == Rank(x.flights, p)
  {
    if p in x.flights {
      assert CellOk(s.mem, p, x.flights[p]);
      ListedIsReclaimed(s, x, p);
    } else if p < s.mem.enqueue && s.mem.At(p).sequence <= p + 2 {
      FlightsFromMemory(s.mem, x.flights, p);
    }
  }

  // ----- one step -------------------------------------------------------------------------

  /** No position comes further from its release, and the advanced one comes closer. */
  ghost predicate Lowers(flights: Flights, flights': Flights, advanced: Option<nat>) {
    forall p: nat {:trigger Rank(flights', p)} :: Rank(flights', p) + Once(advanced == Some(p)) <= Rank(flights, p)
  }

  lemma ProducerLowers(s: State, x: Aux, t: nat, e: ProducerEvent, s': State)
    requires Inv(s, x) && Step(s, ByProducer(t, e)) == Some(s') && NoteOf(s, ByProducer(t, e), s').claim == None
    ensures Lowers(x.flights, ProducerFlights(s, x.flights, t, e, s'), Advanced(s, ByProducer(t, e), s'))
  {
    assert ProducerOk(s.mem, s.gateways.Keys, x.flights, t, s.producers[t]);
  }

  lemma GatewayLowers(s: State, x: Aux, g: nat, e: GatewayEvent, s': State)
    requires Inv(s, x) && Step(s, ByGateway(g, e)) == Some(s')
    ensures Lowers(x.flights, GatewayFlights(s, x.flights, g, e), Advanced(s, ByGateway(g, e), s'))
  {
    assert GatewayOk(x.flights, g, s.gateways[g]);
  }

  lemma ConsumerLowers(s: State, x: Aux, c: nat, e: ConsumerEvent, s': State)
    requires Inv(s, x) && Step(s, ByConsumer(c, e)) == Some(s')
    ensures Lowers(x.flights, ConsumerFlights(s, x, c, e, s'), Advanced(s, ByConsumer(c, e), s'))
  {
    var co, ts := s.consumers[c], x.takes[c];
    assert ConsumerOk(s.mem, s.maxBatch, x.flights, c, co, ts);
    if e.WriteReply? || e.StoreReply? {
      assert Drains(x.flights, ts[co.pc.done], c);
      assert ReplyOk(x.flights, s.mem.slotBytes, s.mem.cuda, co.pc.replies[co.pc.done], ts[co.pc.done]);
    }
  }

  lemma StepLowers(s: State, x: Aux, a: Action, s': State)
    requires Inv(s, x) && Step(s, a) == Some(s') && NoteOf(s, a, s').claim == None
    ensures Lowers(x.flights, NextAux(s, x, a, s').flights, Advanced(s, a, s'))
  {
    match a
    case Submit(_, _) =>
    case ByProducer(t, e) => ProducerLowers(s, x, t, e, s');
    case ByGateway(g, e) => GatewayLowers(s, x, g, e, s');
    case ByConsumer(c, e) => ConsumerLowers(s, x, c, e, s');
  }

  // ----- sums over positions --------------------------------------------------------------

  ghost function SumRank(flights: Flights, lo: nat, hi: nat): nat
    decreases hi
  {
    if hi <= lo then 0 else SumRank(flights, lo, hi - 1) + Rank(flights, hi - 1)
  }

  lemma {:induction false} SumLowers(flights: Flights, flights': Flights, advanced: Option<nat>, lo: nat, hi: nat)
    requires Lowers(flights, flights', advanced)
    ensures SumRank(flights', lo, hi) + Once(advanced.Some? && lo <= advanced.value < hi) <= SumRank(flights, lo, hi)
    decreases hi
  {
    if lo < hi {
      SumLowers(flights, flights', advanced, lo, hi - 1);
      assert Rank(flights', hi - 1) + Once(advanced == Some(hi - 1)) <= Rank(flights, hi - 1);
    }
  }

  /** The oldest position that may still be in flight. */
  function Horizon(m: Memory): nat {
    if m.enqueue >= m.Count() then m.enqueue - m.Count() else 0
  }

  lemma AdvancedIsNear(s: State, x: Aux, a: Action, s': State)
    requires Inv(s, x) && Step(s, a) == Some(s') && NoteOf(s, a, s').claim == None && Advanced(s, a, s').Some?
    ensures Horizon(s.mem) <= Advanced(s, a, s').value < s.mem.enqueue
  {
    var p := Advanced(s, a, s').value;
    StepLowers(s, x, a, s');
    assert Rank(NextAux(s, x, a, s').flights, p) + Once(Advanced(s, a, s') == Some(p)) <= Rank(x.flights, p);
    assert CellOk(s.mem, p, x.flights[p]);
  }

  /** How many positions are in flight. */
  ghost function InFlight(s: State, lo: nat, hi: nat): (n: nat)
    requires s.mem.Count() > 0
    ensures n <= if lo < hi then hi - lo else 0
    decreases hi
  {
    if hi <= lo then 0 else InFlight(s, lo, hi - 1) + Once(Remaining(s, hi - 1) > 0)
  }

  lemma {:induction false} SumIsBounded(s: State, x: Aux, lo: nat, hi: nat)
    requires Inv(s, x)
    ensures SumRank(x.flights, lo, hi) <= 5 * InFlight(s, lo, hi)
    decreases hi
  {
    if lo < hi {
      SumIsBounded(s, x, lo, hi - 1);
      RemainingIsRank(s, x, hi - 1);
    }
  }

  // ----- whole continuations --------------------------------------------------------------

  /** A run from `s0` in which nobody claims a position; submissions are allowed. */
  ghost predicate ClaimFree(s0: State, ex: Execution) {
    ex.From(s0) && forall i {:trigger ex.notes[i]} :: 0 <= i < |ex.notes| ==> ex.notes[i].claim == None
  }

  /** How often the first `n` steps advance position `p`. */
  ghost function Advances(s0: State, ex: Execution, n: nat, p: nat): nat
    requires ex.From(s0) && n <= |ex.acts|
  {
    if n == 0 then 0
    else
      assert ex.LinkAt(n - 1);
      Advances(s0, ex, n - 1, p) + Once(Advanced(ex.states[n - 1], ex.acts[n - 1], ex.states[n]) == Some(p))
  }

  /** How many of the first `n` steps advance a position. */
  ghost function AllAdvances(s0: State, ex: Execution, n: nat): nat
    requires ex.From(s0) && n <= |ex.acts|
  {
    if n == 0 then 0
    else
      assert ex.LinkAt(n - 1);
      AllAdvances(s0, ex, n - 1) + Once(Advanced(ex.states[n - 1], ex.acts[n - 1], ex.states[n]).Some?)
  }

  /** What one step of the continuation adds to the account. */
  lemma AccountStep(s: State, x: Aux, a: Action, s': State, lo: nat, p: nat)
    requires Inv(s, x) && Step(s, a) == Some(s') && NoteOf(s, a, s').claim == None && lo <= Horizon(s.mem)
    ensures var x', adv := NextAux(s, x, a, s'), Advanced(s, a, s');
            && Inv(s', x') && s'.mem.enqueue == s.mem.enqueue && s'.mem.Count() == s.mem.Count()
            && Rank(x'.flights, p) + Once(adv == Some(p)) <= Rank(x.flights, p)
            && SumRank(x'.flights, lo, s.mem.enqueue) + Once(adv.Some?) <= SumRank(x.flights, lo, s.mem.enqueue)
  {
    StepKeepsInv(s, x, a, s');
    StepMoves(s, x, a, s');
    ShapeStays(s, a, s');
    StepLowers(s, x, a, s');
    if Advanced(s, a, s').Some? { AdvancedIsNear(s, x, a, s'); }
    SumLowers(x.flights, NextAux(s, x, a, s').flights, Advanced(s, a, s'), lo, s.mem.enqueue);
  }

  lemma {:induction false} Account(s0: State, x0: Aux, ex: Execution, n: nat, p: nat) returns (x: Aux)
    requires Inv(s0, x0) && ClaimFree(s0, ex) && n <= |ex.acts|
    ensures Inv(ex.states[n], x) && ex.states[n].mem.enqueue == s0.mem.enqueue && ex.states[n].mem.Count() == s0.mem.Count()
    ensures Advances(s0, ex, n, p) + Rank(x.flights, p) <= Rank(x0.flights, p)
    ensures AllAdvances(s0, ex, n) + SumRank(x.flights, Horizon(s0.mem), s0.mem.enqueue)
              <= SumRank(x0.flights, Horizon(s0.mem), s0.mem.enqueue)
  {
    if n == 0 {
      x := x0;
    } else {
      var before := Account(s0, x0, ex, n - 1, p);
      assert ex.LinkAt(n - 1);
      AccountStep(ex.states[n - 1], before, ex.acts[n - 1], ex.states[n], Horizon(s0.mem), p);
      x := NextAux(ex.states[n - 1], before, ex.acts[n - 1], ex.states[n]);
    }
  }

  /** What remains is what a run has not released: a position has advances left exactly when it was
      claimed and not yet released, and only positions behind the enqueue cursor by at most C are. */
  lemma RemainingIsUnreleased(k: Config, ex: Execution, p: nat)
    requires k.count >= 3 && ex.Valid(k)
    ensures ex.End().mem.Count() == k.count
    ensures Remaining(ex.End(), p) > 0 <==> Occurrences(ex.notes, Claim, p) == 1 && Occurrences(ex.notes, Release, p) == 0
    ensures Remaining(ex.End(), p) > 0 ==> Horizon(ex.End().mem) <= p < ex.End().mem.enqueue
  {
    var x := EveryRunKeepsInv(k, ex);
    ConfigStays(k, ex, ex.End());
    assert Balanced(ex.notes, ex.End().mem, x.flights, p);
    RemainingIsRank(ex.End(), x, p);
    assert p in x.flights ==> CellOk(ex.End().mem, p, x.flights[p]);
  }

  /** Progress in every run: whatever continuation follows a reachable state, with any parties
      moving in any order but nobody claiming, the advances of each position, together with those it
      can still make at the end, are at most those it could make at the start, and these are at most
      five. So no step of anyone ever undoes an advance. */
  lemma ClaimFreeRunsOnlyAdvance(k: Config, ex: Execution, more: Execution, p: nat)
    requires k.count >= 3 && ex.Valid(k) && ClaimFree(ex.End(), more)
    ensures ex.End().mem.Count() > 0 && more.End().mem.Count() > 0
    ensures Advances(ex.End(), more, |more.acts|, p) + Remaining(more.End(), p) <= Remaining(ex.End(), p) <= 5
  {
    var x0 := EveryRunKeepsInv(k, ex);
    var x := Account(ex.End(), x0, more, |more.acts|, p);
    RemainingIsRank(ex.End(), x0, p);
    RemainingIsRank(more.End(), x, p);
  }

  /** All advances of such a continuation together are at most five for each position in flight at
      its start, and there are at most C of those. */
  lemma ClaimFreeRunsAreBounded(k: Config, ex: Execution, more: Execution)
    requires k.count >= 3 && ex.Valid(k) && ClaimFree(ex.End(), more)
    ensures var s := ex.End();
            && s.mem.Count() == k.count
            && AllAdvances(s, more, |more.acts|) <= 5 * InFlight(s, Horizon(s.mem), s.mem.enqueue)
            && InFlight(s, Horizon(s.mem), s.mem.enqueue) <= k.count
  {
    var s := ex.End();
    var x0 := EveryRunKeepsInv(k, ex);
    ConfigStays(k, ex, s);
    var x := Account(s, x0, more, |more.acts|, 0);
    SumIsBounded(s, x0, Horizon(s.mem), s.mem.enqueue);
  }
}
