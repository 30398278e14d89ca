/** What each party may rely on while another party takes a step. */
module RingFrames {
  import opened Common
  import opened RingSlots
  import opened RingSystem
  import opened RingInvariant

  predicate SameShape(m: Memory, m': Memory) {
    && m'.Count() == m.Count() && m.Count() > 0
    && m'.slotBytes == m.slotBytes && m'.cuda == m.cuda
    && m.enqueue <= m'.enqueue && m.dequeue <= m'.dequeue
  }

  /** The submitter's half of a cell, which the daemon only reads. */
  predicate SamePayload(a: Slot, b: Slot) {
    && a.area == b.area && a.payloadOffset == b.payloadOffset && a.payloadSize == b.payloadSize
    && a.requestId == b.requestId && a.enqueueNs == b.enqueueNs
  }

  /** What a submitter can see of its own flight while others work on it. */
  predicate Advances(f: Flight, f': Flight) {
    && f'.holder == f.holder
    && (f.stage.Filling? || f.stage.Answered? ==> f' == f)
    && (!f.stage.Filling? ==> !f'.stage.Filling?)
    && SamePayload(f.cell, f'.cell)
  }

  /** Nothing but the position at the enqueue cursor may appear. */
  ghost predicate NoNewFlights(m: Memory, m': Memory, flights: Flights, flights': Flights) {
    forall q {:trigger q in flights'} :: q in flights' ==> q in flights || (q == m.enqueue && m.enqueue < m'.enqueue)
  }

  lemma ProducerFrame(m: Memory, m': Memory, gateways: set<nat>, flights: Flights, flights': Flights, u: nat, pr: Producer)
    requires SameShape(m, m') && NoNewFlights(m, m', flights, flights')
    requires ProducerOk(m, gateways, flights, u, pr)
    requires HeldPosition(pr).Some? ==> pr.pos in flights' && Advances(flights[pr.pos], flights'[pr.pos])
    ensures ProducerOk(m', gateways, flights', u, pr)
  {
  }

  /** All submitters but `t` keep their part when `t` (or no submitter) takes the step. */
  lemma OthersFrame(m: Memory, m': Memory, gateways: set<nat>, flights: Flights, flights': Flights,
                    producers: map<nat, Producer>, t: Option<nat>)
    requires SameShape(m, m') && NoNewFlights(m, m', flights, flights')
    requires ProducersOk(m, gateways, flights, producers)
    requires forall q: nat, u: nat {:trigger Owns(flights, q, u)} ::
      Owns(flights, q, u) && Some(u) != t ==> q in flights' && Advances(flights[q], flights'[q])
    ensures forall u {:trigger producers[u]} :: u in producers && Some(u) != t ==>
      ProducerOk(m', gateways, flights', u, producers[u])
  {
    forall u | u in producers && Some(u) != t ensures ProducerOk(m', gateways, flights', u, producers[u]) {
      assert ProducerOk(m, gateways, flights, u, producers[u]);
      ProducerFrame(m, m', gateways, flights, flights', u, producers[u]);
    }
  }

  /** The submitters' part after `t` moved to `pr`. */
  lemma ProducersUpdate(m: Memory, m': Memory, gateways: set<nat>, flights: Flights, flights': Flights,
                        producers: map<nat, Producer>, t: nat, pr: Producer)
    requires SameShape(m, m') && NoNewFlights(m, m', flights, flights')
    requires ProducersOk(m, gateways, flights, producers)
    requires forall q: nat, u: nat {:trigger Owns(flights, q, u)} ::
      Owns(flights, q, u) && u != t ==> q in flights' && Advances(flights[q], flights'[q])
    requires ProducerOk(m', gateways, flights', t, pr)
    ensures ProducersOk(m', gateways, flights', producers[t := pr])
  {
    OthersFrame(m, m', gateways, flights, flights', producers, Some(t));
  }

  /** A reclaimer's lists survive any step that leaves its positions in place. */
  lemma GatewayFrame(flights: Flights, flights': Flights, g: nat, gw: Gateway)
    requires GatewayOk(flights, g, gw)
    requires forall q {:trigger q in flights'} :: q in flights && Reclaims(flights, q, g) ==>
      q in flights' && Advances(flights[q], flights'[q])
    ensures GatewayOk(flights', g, gw)
  {
    forall q | q in gw.pending || q in gw.outstanding ensures Reclaims(flights', q, g) {
      assert Reclaims(flights, q, g);
      assert q in flights';
    }
  }

  lemma GatewaysFrame(flights: Flights, flights': Flights, gateways: map<nat, Gateway>, g: Option<nat>)
    requires GatewaysOk(flights, gateways)
    requires forall q {:trigger q in flights'} :: q in flights && flights[q].holder.HeldByGateway? && Some(flights[q].holder.g) != g ==>
      q in flights' && Advances(flights[q], flights'[q])
    ensures forall h {:trigger gateways[h]} :: h in gateways && Some(h) != g ==> GatewayOk(flights', h, gateways[h])
  {
    forall h | h in gateways && Some(h) != g ensures GatewayOk(flights', h, gateways[h]) {
      assert GatewayOk(flights, h, gateways[h]);
      GatewayFrame(flights, flights', h, gateways[h]);
    }
  }

  lemma GatewaysUpdate(flights: Flights, flights': Flights, gateways: map<nat, Gateway>, g: nat, gw: Gateway)
    requires GatewaysOk(flights, gateways)
    requires forall q {:trigger q in flights'} :: q in flights && flights[q].holder.HeldByGateway? && flights[q].holder.g != g ==>
      q in flights' && Advances(flights[q], flights'[q])
    requires GatewayOk(flights', g, gw)
    ensures GatewaysOk(flights', gateways[g := gw])
  {
    GatewaysFrame(flights, flights', gateways, Some(g));
  }

  /** What consumer `c` relies on: its own drained positions, and the published position at the
      head as long as the head has not moved. */
  ghost predicate KeptFor(m: Memory, m': Memory, flights: Flights, flights': Flights, c: nat) {
    && (forall q {:trigger q in flights} :: q in flights && Drains(flights, q, c) ==>
          q in flights' && flights'[q] == flights[q].(holder := flights'[q].holder))
    && (m'.dequeue == m.dequeue && m.dequeue in flights && flights[m.dequeue].stage.Published? ==>
          m.dequeue in flights' && flights'[m.dequeue].stage.Published?)
  }

  lemma StagedFrame(m: Memory, m': Memory, flights: Flights, flights': Flights, c: nat, co: Consumer, ts: seq<nat>)
    requires SameShape(m, m') && KeptFor(m, m', flights, flights', c) && StagedOk(m.Count(), flights, c, co, ts)
    ensures StagedOk(m'.Count(), flights', c, co, ts)
  {
    forall i | DoneCount(co.pc) <= i < |ts| ensures Drains(flights', ts[i], c) {
      assert Drains(flights, ts[i], c);
    }
  }

  lemma PcFrame(m: Memory, m': Memory, maxBatch: nat, flights: Flights, flights': Flights, c: nat, co: Consumer, ts: seq<nat>)
    requires SameShape(m, m') && KeptFor(m, m', flights, flights', c)
    requires StagedOk(m.Count(), flights, c, co, ts) && PcOk(m, maxBatch, flights, c, co.pc, ts)
    ensures PcOk(m', maxBatch, flights', c, co.pc, ts)
  {
    forall i | DoneCount(co.pc) <= i < |ts|
      ensures Drains(flights', ts[i], c) && flights'[ts[i]].cell == flights[ts[i]].cell
    {
      assert Drains(flights, ts[i], c);
    }
  }

  /** All consumers but `c` keep their part when `c` (or no consumer) takes the step. */
  lemma OtherConsumersFrame(m: Memory, m': Memory, maxBatch: nat, flights: Flights, flights': Flights,
                            consumers: map<nat, Consumer>, takes: map<nat, seq<nat>>, c: Option<nat>)
    requires SameShape(m, m') && ConsumersOk(m, maxBatch, flights, consumers, takes)
    requires forall d: nat {:trigger KeptFor(m, m', flights, flights', d)} :: Some(d) != c ==> KeptFor(m, m', flights, flights', d)
    ensures forall d {:trigger consumers[d]} :: d in consumers && Some(d) != c ==>
      ConsumerOk(m', maxBatch, flights', d, consumers[d], takes[d])
  {
    forall d | d in consumers && Some(d) != c ensures ConsumerOk(m', maxBatch, flights', d, consumers[d], takes[d]) {
      assert ConsumerOk(m, maxBatch, flights, d, consumers[d], takes[d]);
      assert KeptFor(m, m', flights, flights', d);
      StagedFrame(m, m', flights, flights', d, consumers[d], takes[d]);
      PcFrame(m, m', maxBatch, flights, flights', d, consumers[d], takes[d]);
    }
  }

  lemma ConsumersUpdate(m: Memory, m': Memory, maxBatch: nat, flights: Flights, flights': Flights,
                        consumers: map<nat, Consumer>, takes: map<nat, seq<nat>>, c: nat, co: Consumer, ts: seq<nat>)
    requires SameShape(m, m') && ConsumersOk(m, maxBatch, flights, consumers, takes) && c in consumers
    requires forall d: nat {:trigger KeptFor(m, m', flights, flights', d)} :: d != c ==> KeptFor(m, m', flights, flights', d)
    requires ConsumerOk(m', maxBatch, flights', c, co, ts)
    ensures ConsumersOk(m', maxBatch, flights', consumers[c := co], takes[c := ts])
  {
    OtherConsumersFrame(m, m', maxBatch, flights, flights', consumers, takes, Some(c));
  }

  /** Drained positions, and the published position at the head, look the same to every consumer. */
  ghost predicate DrainedKept(dequeue: nat, flights: Flights, flights': Flights) {
    && (forall q {:trigger q in flights} :: q in flights && flights[q].stage.Drained? ==>
          q in flights' && flights'[q] == flights[q].(holder := flights'[q].holder))
    && (dequeue in flights && flights[dequeue].stage.Published? ==>
          dequeue in flights' && flights'[dequeue].stage.Published?)
  }

  lemma ConsumersFrame(m: Memory, m': Memory, maxBatch: nat, flights: Flights, flights': Flights,
                       consumers: map<nat, Consumer>, takes: map<nat, seq<nat>>)
    requires SameShape(m, m') && m'.dequeue == m.dequeue && DrainedKept(m.dequeue, flights, flights')
    requires ConsumersOk(m, maxBatch, flights, consumers, takes)
    ensures ConsumersOk(m', maxBatch, flights', consumers, takes)
  {
    OtherConsumersFrame(m, m', maxBatch, flights, flights', consumers, takes, None);
  }

  lemma TakersFrame(flights: Flights, flights': Flights, consumers: map<nat, Consumer>, takes: map<nat, seq<nat>>)
    requires TakersOk(flights, consumers, takes)
    requires forall q {:trigger q in flights'} :: q in flights' && flights'[q].stage.Drained? ==>
      q in flights && flights[q].stage.Drained? && flights'[q].taker == flights[q].taker
    ensures TakersOk(flights', consumers, takes)
  {
    forall q | q in flights' && flights'[q].stage.Drained? ensures TakerOk(consumers, takes, q, flights'[q].taker) {
      assert TakerOk(consumers, takes, q, flights[q].taker);
    }
  }

  /** Both daemon parts at once, for steps of submitters and reclaimers. */
  lemma DaemonFrame(m: Memory, m': Memory, maxBatch: nat, flights: Flights, flights': Flights,
                    consumers: map<nat, Consumer>, takes: map<nat, seq<nat>>)
    requires SameShape(m, m') && m'.dequeue == m.dequeue && DrainedKept(m.dequeue, flights, flights')
    requires ConsumersOk(m, maxBatch, flights, consumers, takes) && TakersOk(flights, consumers, takes)
    requires forall q {:trigger q in flights'} :: q in flights' && flights'[q].stage.Drained? ==>
      q in flights && flights[q].stage.Drained? && flights'[q].taker == flights[q].taker
    ensures ConsumersOk(m', maxBatch, flights', consumers, takes) && TakersOk(flights', consumers, takes)
  {
    ConsumersFrame(m, m', maxBatch, flights, flights', consumers, takes);
    TakersFrame(flights, flights', consumers, takes);
  }

  /** A thread holds no position besides the one in its program counter. */
  lemma OnlyHeld(producers: map<nat, Producer>, gateways: map<nat, Gateway>, flights: Flights, t: nat)
    requires HoldersOk(producers, gateways, flights)
    ensures forall q: nat {:trigger flights[q]} :: q in flights && flights[q].holder == HeldByProducer(t) ==>
      t in producers && HeldPosition(producers[t]) == Some(q)
  {
    forall q: nat | q in flights && flights[q].holder == HeldByProducer(t)
      ensures t in producers && HeldPosition(producers[t]) == Some(q)
    {
      assert HolderOk(producers, gateways, q, flights[q].holder);
    }
  }

  /** Holders after thread `t` moved to `pr`, where `flights'` gives `t` what `pr` holds. */
  lemma HoldersUpdate(producers: map<nat, Producer>, gateways: map<nat, Gateway>, flights: Flights, flights': Flights, t: nat, pr: Producer)
    requires HoldersOk(producers, gateways, flights)
    requires forall q {:trigger q in flights'} :: q in flights' && flights'[q].holder != HeldByProducer(t) ==>
      q in flights && flights'[q].holder == flights[q].holder
    requires forall q {:trigger q in flights'} :: q in flights' && flights'[q].holder == HeldByProducer(t) ==> HeldPosition(pr) == Some(q)
    ensures HoldersOk(producers[t := pr], gateways, flights')
  {
    var producers' := producers[t := pr];
    forall q | q in flights' ensures HolderOk(producers', gateways, q, flights'[q].holder) {
      if flights'[q].holder != HeldByProducer(t) {
        assert HolderOk(producers, gateways, q, flights[q].holder);
      }
    }
  }
}
