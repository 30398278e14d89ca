/** The ready counter: a 64-bit word that lags behind publication and consumption, and may be
    "negative" for a moment, but always accounts exactly for what is published. */
module RingReady {
  import opened Common
  import opened RingSystem
  import opened RingInvariant
  import opened RingProducers
  import opened RingTheorems
  import opened RingGuarantees

  /** Threads that stored p + 1 and have not yet added to ready_count. */
  function OweIncrement(producers: map<nat, Producer>): set<nat> {
    set t | t in producers && producers[t].Stored?
  }

  /** Consumers that won a position and have not yet subtracted from ready_count. */
  function OweDecrement(consumers: map<nat, Consumer>): set<nat> {
    set c | c in consumers && consumers[c].pc.Taken?
  }

  function Backlog(flights: Flights): set<nat> {
    set q | q in flights && flights[q].stage.Published?
  }

  /** What ready_count would be if it were an unbounded integer. */
  function Expected(backlog: set<nat>, s: State): int {
    |backlog| + |OweDecrement(s.consumers)| - |OweIncrement(s.producers)|
  }

  function Net(s: State, x: Aux): int {
    Expected(Backlog(x.flights), s)
  }

  /** The value of a 64-bit word that holds an integer. */
  function Word(n: int): nat {
    n % Words.WORD
  }

  ghost predicate ReadyOk(s: State, x: Aux) {
    s.readyCount == Word(Net(s, x))
  }

  lemma IncrementSet(producers: map<nat, Producer>, t: nat, pr: Producer)
    requires t in producers
    ensures |OweIncrement(producers[t := pr])| ==
      |OweIncrement(producers)| + Once(pr.Stored?) - Once(producers[t].Stored?)
  {
    var was, now := OweIncrement(producers), OweIncrement(producers[t := pr]);
    if pr.Stored? && !producers[t].Stored? {
      assert now == was + {t};
    } else if !pr.Stored? && producers[t].Stored? {
      assert now == was - {t};
      SetMinusOne(was, t);
    } else {
      assert now == was;
    }
  }

  lemma DecrementSet(consumers: map<nat, Consumer>, c: nat, co: Consumer)
    requires c in consumers
    ensures |OweDecrement(consumers[c := co])| ==
      |OweDecrement(consumers)| + Once(co.pc.Taken?) - Once(consumers[c].pc.Taken?)
  {
    var was, now := OweDecrement(consumers), OweDecrement(consumers[c := co]);
    if co.pc.Taken? && !consumers[c].pc.Taken? {
      assert now == was + {c};
    } else if !co.pc.Taken? && consumers[c].pc.Taken? {
      assert now == was - {c};
      SetMinusOne(was, c);
    } else {
      assert now == was;
    }
  }

  lemma BacklogUpdate(flights: Flights, q: nat, f: Flight)
    ensures |Backlog(flights[q := f])| ==
      |Backlog(flights)| + Once(f.stage.Published?) - Once(q in flights && flights[q].stage.Published?)
  {
    var was, now := Backlog(flights), Backlog(flights[q := f]);
    if f.stage.Published? && q !in was {
      assert now == was + {q};
    } else if !f.stage.Published? && q in was {
      assert now == was - {q};
      SetMinusOne(was, q);
    } else {
      assert now == was;
    }
  }

  lemma BacklogRelease(flights: Flights, q: nat)
    requires q in flights ==> !flights[q].stage.Published?
    ensures Backlog(flights - {q}) == Backlog(flights)
  {
  }

  lemma WordStep(word: nat, net: int, delta: int)
    requires word == Word(net)
    ensures Word(word + delta) == Word(net + delta)
  {
  }

  /** The change of ready_count that an event makes. */
  function ProducerDelta(e: ProducerEvent): int {
    if e.AddReady? then 1 else 0
  }

  function ConsumerDelta(e: ConsumerEvent): int {
    if e.StageTaken? then -1 else 0
  }

  lemma ProducerOwes(s: State, t: nat, e: ProducerEvent, s': State)
    requires s.mem.Count() > 0 && t in s.producers && ProducerStep(s, t, e) == Some(s')
    ensures |OweIncrement(s'.producers)| == |OweIncrement(s.producers)| + Once(e.StoreSequence?) - Once(e.AddReady?)
  {
    if s' != s { IncrementSet(s.producers, t, s'.producers[t]); }
  }

  lemma SubmitterBacklog(s: State, x: Aux, t: nat, e: ProducerEvent, s': State)
    requires Inv(s, x) && t in s.producers && ProducerStep(s, t, e) == Some(s')
    ensures |Backlog(ProducerFlights(s, x.flights, t, e, s'))| == |Backlog(x.flights)| + Once(e.StoreSequence?)
  {
    var pr := s.producers[t];
    assert ProducerOk(s.mem, s.gateways.Keys, x.flights, t, pr);
    var flights' := ProducerFlights(s, x.flights, t, e, s');
    if e.StoreRelease? {
      BacklogRelease(x.flights, pr.pos);
    } else if e.CasEnqueue? && s'.mem.enqueue != s.mem.enqueue {
      ClaimStep(s, x, t, pr.req);
      BacklogUpdate(x.flights, pr.pos, flights'[pr.pos]);
    } else if e.Serialize? || e.FailSerialize? || e.WriteMetadata? || e.StoreSequence? || e.Push? {
      BacklogUpdate(x.flights, pr.pos, flights'[pr.pos]);
      assert flights' == x.flights[pr.pos := flights'[pr.pos]];
    }
  }

  lemma SubmitterNet(s: State, x: Aux, t: nat, e: ProducerEvent, s': State)
    requires Inv(s, x) && t in s.producers && ProducerStep(s, t, e) == Some(s')
    ensures Net(s', x.(flights := ProducerFlights(s, x.flights, t, e, s'))) == Net(s, x) + ProducerDelta(e)
  {
    ProducerOwes(s, t, e, s');
    SubmitterBacklog(s, x, t, e, s');
    SubmitterConsumers(s, t, e, s');
  }

  lemma SubmitterConsumers(s: State, t: nat, e: ProducerEvent, s': State)
    requires s.mem.Count() > 0 && t in s.producers && ProducerStep(s, t, e) == Some(s')
    ensures s'.consumers == s.consumers && s'.readyCount == if e.AddReady? then (s.readyCount + 1) % Words.WORD else s.readyCount
  {
  }

  lemma WorkerOwes(s: State, c: nat, e: ConsumerEvent, s': State)
    requires s.mem.Count() > 0 && c in s.consumers && ConsumerStep(s, c, e) == Some(s')
    ensures |OweDecrement(s'.consumers)| ==
      |OweDecrement(s.consumers)| + Once(s'.mem.dequeue != s.mem.dequeue) - Once(e.StageTaken?)
    ensures s'.producers == s.producers
  {
    DecrementSet(s.consumers, c, s'.consumers[c]);
  }

  lemma WorkerBacklog(s: State, x: Aux, c: nat, e: ConsumerEvent, s': State)
    requires Inv(s, x) && c in s.consumers && ConsumerStep(s, c, e) == Some(s')
    ensures |Backlog(ConsumerFlights(s, x, c, e, s'))| == |Backlog(x.flights)| - Once(s'.mem.dequeue != s.mem.dequeue)
  {
    var pc := s.consumers[c].pc;
    assert ConsumerOk(s.mem, s.maxBatch, x.flights, c, s.consumers[c], x.takes[c]);
    var flights' := ConsumerFlights(s, x, c, e, s');
    if e.CasDequeue? {
      if s'.mem.dequeue != s.mem.dequeue { BacklogUpdate(x.flights, pc.pos, flights'[pc.pos]); }
    } else if e.WriteReply? || e.StoreReply? {
      var q := x.takes[c][pc.done];
      assert Drains(x.flights, q, c);
      BacklogUpdate(x.flights, q, flights'[q]);
    }
  }

  lemma WorkerNet(s: State, x: Aux, c: nat, e: ConsumerEvent, s': State)
    requires Inv(s, x) && c in s.consumers && ConsumerStep(s, c, e) == Some(s')
    ensures Net(s', Aux(ConsumerFlights(s, x, c, e, s'), ConsumerTakes(s, x, c, e))) == Net(s, x) + ConsumerDelta(e)
  {
    WorkerOwes(s, c, e, s');
    WorkerBacklog(s, x, c, e, s');
  }

  function Delta(a: Action): int {
    match a
    case ByProducer(_, e) => ProducerDelta(e)
    case ByConsumer(_, e) => ConsumerDelta(e)
    case _ => 0
  }

  lemma StepNet(s: State, x: Aux, a: Action, s': State)
    requires Inv(s, x) && Step(s, a) == Some(s')
    ensures Net(s', NextAux(s, x, a, s')) == Net(s, x) + Delta(a)
  {
    match a
    case Submit(t, req) =>
      assert OweIncrement(s'.producers) == OweIncrement(s.producers);
    case ByProducer(t, e) => SubmitterNet(s, x, t, e, s');
    case ByGateway(g, e) =>
      assert GatewayOk(x.flights, g, s.gateways[g]);
      if e.ScanStore? { BacklogRelease(x.flights, s.gateways[g].outstanding[s.gateways[g].scan.index]); }
    case ByConsumer(c, e) => WorkerNet(s, x, c, e, s');
  }

  lemma JanitorWord(s: State, g: nat, e: GatewayEvent, s': State)
    requires s.mem.Count() > 0 && g in s.gateways && GatewayStep(s, g, e) == Some(s')
    ensures s'.readyCount == s.readyCount && s'.consumers == s.consumers && s'.producers == s.producers
  {
  }

  lemma WorkerWord(s: State, c: nat, e: ConsumerEvent, s': State)
    requires s.mem.Count() > 0 && c in s.consumers && ConsumerStep(s, c, e) == Some(s')
    ensures s'.readyCount == if e.StageTaken? then (s.readyCount - 1) % Words.WORD else s.readyCount
  {
  }

  lemma StepWord(s: State, a: Action, s': State)
    requires Step(s, a) == Some(s') && s.readyCount < Words.WORD
    ensures s'.readyCount == Word(s.readyCount + Delta(a))
  {
    match a
    case Submit(_, _) =>
    case ByProducer(t, e) => SubmitterConsumers(s, t, e, s');
    case ByGateway(g, e) => JanitorWord(s, g, e, s');
    case ByConsumer(c, e) => WorkerWord(s, c, e, s');
  }

  lemma ReadyStep(s: State, x: Aux, a: Action, s': State)
    requires Inv(s, x) && ReadyOk(s, x) && Step(s, a) == Some(s')
    ensures Inv(s', NextAux(s, x, a, s')) && ReadyOk(s', NextAux(s, x, a, s'))
  {
    StepKeepsInv(s, x, a, s');
    StepNet(s, x, a, s');
    StepWord(s, a, s');
    WordStep(s.readyCount, Net(s, x), Delta(a));
  }

  lemma StartReady(k: Config)
    requires k.count >= 3
    ensures Inv(k.Start(), InitAux(k.consumers)) && ReadyOk(k.Start(), InitAux(k.consumers))
  {
    InitEstablishesInv(k);
    assert OweDecrement(k.Start().consumers) == {};
  }

  lemma {:induction false} EveryRunBalancesReady(k: Config, ex: Execution) returns (x: Aux)
    requires k.count >= 3 && ex.Valid(k)
    ensures Inv(ex.End(), x) && ReadyOk(ex.End(), x)
    decreases |ex.acts|
  {
    if ex.acts == [] {
      StartReady(k);
      x := InitAux(k.consumers);
    } else {
      ShorterIsValid(k, ex);
      var s, a := ex.Shorter().End(), ex.acts[|ex.acts| - 1];
      var x1 := EveryRunBalancesReady(k, ex.Shorter());
      ReadyStep(s, x1, a, ex.End());
      x := NextAux(s, x1, a, ex.End());
    }
  }

  /** Positions published and not yet taken, read off the segment itself. */
  ghost predicate IsBacklog(m: Memory, p: nat)
    requires m.Count() > 0
  {
    m.dequeue <= p < m.enqueue && m.At(p).sequence == p + 1
  }

  /** In every reachable state the 64-bit word equals backlog plus pending decrements minus pending
      increments, modulo 2^64; when nothing is pending it is exactly the backlog. */
  lemma ReadyCountIsBacklog(k: Config, ex: Execution, s: State) returns (backlog: set<nat>)
    requires 3 <= k.count < Words.WORD && ex.Valid(k) && ex.End() == s
    ensures s.mem.Count() == k.count
    ensures forall p: nat :: p in backlog <==> IsBacklog(s.mem, p)
    ensures s.readyCount == Word(Expected(backlog, s))
    ensures OweDecrement(s.consumers) == {} && OweIncrement(s.producers) == {} ==> s.readyCount == |backlog|
  {
    var flights := ReadyFacts(k, ex, s);
    backlog := Backlog(flights);
    BacklogMembers(s.mem, flights);
    BacklogBound(s.mem, flights);
    if OweDecrement(s.consumers) == {} && OweIncrement(s.producers) == {} {
      Settled(|backlog|);
      assert Expected(backlog, s) == |backlog|;
    }
  }

  lemma Settled(n: nat)
    requires n < Words.WORD
    ensures Word(n) == n
  {
  }

  lemma ReadyFacts(k: Config, ex: Execution, s: State) returns (flights: Flights)
    requires k.count >= 3 && ex.Valid(k) && ex.End() == s
    ensures s.mem.Count() == k.count && MemoryOk(s.mem, flights)
    ensures s.readyCount == Word(Expected(Backlog(flights), s))
  {
    var x := EveryRunBalancesReady(k, ex);
    ConfigStays(k, ex, s);
    flights := x.flights;
  }

  lemma BacklogMembers(m: Memory, flights: Flights)
    requires MemoryOk(m, flights)
    ensures forall p: nat :: p in Backlog(flights) <==> IsBacklog(m, p)
  {
    forall p: nat ensures p in Backlog(flights) <==> IsBacklog(m, p) {
      assert p in flights ==> CellOk(m, p, flights[p]);
    }
  }

  lemma BacklogBound(m: Memory, flights: Flights)
    requires MemoryOk(m, flights)
    ensures |Backlog(flights)| <= m.Count()
  {
    forall p | p in Backlog(flights) ensures m.enqueue - m.Count() <= p < m.enqueue {
      assert CellOk(m, p, flights[p]);
    }
    WindowBoundsCardinality(Backlog(flights), m.enqueue - m.Count(), m.enqueue);
  }
}
