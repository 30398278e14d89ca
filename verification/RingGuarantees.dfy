/** The promises of the ring, stated on runs and states alone. */
module RingGuarantees {
  import opened Common
  import opened RingSlots
  import opened Addressing
  import opened RingSystem
  import opened RingInvariant
  import opened RingMemory
  import opened RingProducers
  import opened RingTheorems

  /** The header fields never change. */
  lemma {:induction false} ConfigStays(k: Config, ex: Execution, s: State)
    requires ex.Valid(k) && ex.End() == s
    ensures s.mem.Count() == k.count && s.mem.slotBytes == k.slotBytes && s.mem.cuda == k.cuda && s.maxBatch == k.maxBatch
    ensures s.gateways.Keys == k.gateways && s.consumers.Keys == k.consumers
    decreases |ex.acts|
  {
    if ex.acts == [] {
      assert s.gateways.Keys == k.gateways && s.consumers.Keys == k.consumers;
    } else {
      ShorterIsValid(k, ex);
      ConfigStays(k, ex.Shorter(), ex.Shorter().End());
      ShapeStays(ex.Shorter().End(), ex.acts[|ex.acts| - 1], s);
    }
  }

  predicate SameConfig(s: State, s': State) {
    && s'.mem.Count() == s.mem.Count() && s'.mem.slotBytes == s.mem.slotBytes && s'.mem.cuda == s.mem.cuda
    && s'.maxBatch == s.maxBatch
    && s'.gateways.Keys == s.gateways.Keys && s'.consumers.Keys == s.consumers.Keys
  }

  lemma ProducerShape(s: State, t: nat, e: ProducerEvent, s': State)
    requires s.mem.Count() > 0 && t in s.producers && ProducerStep(s, t, e) == Some(s')
    ensures SameConfig(s, s')
  {
  }

  lemma GatewayShape(s: State, g: nat, e: GatewayEvent, s': State)
    requires s.mem.Count() > 0 && g in s.gateways && GatewayStep(s, g, e) == Some(s')
    ensures SameConfig(s, s')
  {
  }

  lemma ConsumerShape(s: State, c: nat, e: ConsumerEvent, s': State)
    requires s.mem.Count() > 0 && c in s.consumers && ConsumerStep(s, c, e) == Some(s')
    ensures SameConfig(s, s')
  {
  }

  lemma ShapeStays(s: State, a: Action, s': State)
    requires Step(s, a) == Some(s')
    ensures SameConfig(s, s')
  {
    match a
    case Submit(_, _) =>
    case ByProducer(t, e) => ProducerShape(s, t, e, s');
    case ByGateway(g, e) => GatewayShape(s, g, e, s');
    case ByConsumer(c, e) => ConsumerShape(s, c, e, s');
  }

  // ----- mutual exclusion on slots --------------------------------------------------------

  datatype Party = ProducerParty(t: nat) | GatewayParty(g: nat) | ConsumerParty(c: nat, index: nat)

  /** The party is at a point of its program where its next store goes to slot `i`, or, for a
      batch, where it still owes slot `i` a response. */
  predicate MayWrite(s: State, party: Party, i: nat) {
    && s.mem.Count() > 0
    && match party
       case ProducerParty(t) =>
         && t in s.producers
         && var pr := s.producers[t];
         && (pr.Held? || pr.Serialized? || pr.Cancelling? || pr.Filled? || pr.Releasing?)
         && i == SlotIndex(pr.pos, s.mem.Count())
       case GatewayParty(g) =>
         && g in s.gateways && s.gateways[g].scan.SawAnswer?
         && s.gateways[g].scan.index < |s.gateways[g].outstanding|
         && i == SlotIndex(s.gateways[g].outstanding[s.gateways[g].scan.index], s.mem.Count())
       case ConsumerParty(c, index) =>
         && c in s.consumers
         && DoneCount(s.consumers[c].pc) <= index < |s.consumers[c].staged|
         && i == s.consumers[c].staged[index]
  }

  function Writer(s: State, a: Action): Party {
    match a
    case Submit(t, _) => ProducerParty(t)
    case ByProducer(t, _) => ProducerParty(t)
    case ByGateway(g, _) => GatewayParty(g)
    case ByConsumer(c, _) => ConsumerParty(c, if c in s.consumers then DoneCount(s.consumers[c].pc) else 0)
  }

  /** The position a writing party works for, and the stage it must be in. */
  ghost predicate WritesFor(x: Aux, party: Party, q: nat) {
    && q in x.flights
    && match party
       case ProducerParty(t) => x.flights[q].holder == HeldByProducer(t) && (x.flights[q].stage.Filling? || x.flights[q].stage.Answered?)
       case GatewayParty(g) => x.flights[q].holder == HeldByGateway(g) && x.flights[q].stage.Answered?
       case ConsumerParty(c, index) => Drains(x.flights, q, c) && c in x.takes && index < |x.takes[c]| && x.takes[c][index] == q
  }

  lemma WriterPosition(s: State, x: Aux, party: Party, i: nat) returns (q: nat)
    requires Inv(s, x) && MayWrite(s, party, i)
    ensures WritesFor(x, party, q) && SlotIndex(q, s.mem.Count()) == i
  {
    match party
    case ProducerParty(t) =>
      assert ProducerOk(s.mem, s.gateways.Keys, x.flights, t, s.producers[t]);
      q := s.producers[t].pos;
    case GatewayParty(g) =>
      assert GatewayOk(x.flights, g, s.gateways[g]);
      q := s.gateways[g].outstanding[s.gateways[g].scan.index];
    case ConsumerParty(c, index) =>
      assert ConsumerOk(s.mem, s.maxBatch, x.flights, c, s.consumers[c], x.takes[c]);
      q := x.takes[c][index];
      assert Drains(x.flights, q, c);
  }

  /** No two parties ever have the right to write the same slot. */
  lemma OneWriterPerSlot(k: Config, ex: Execution, s: State, a: Party, b: Party, i: nat)
    requires k.count >= 3 && ex.Valid(k) && ex.End() == s
    requires MayWrite(s, a, i) && MayWrite(s, b, i)
    ensures a == b
  {
    var x := EveryRunKeepsInv(k, ex);
    var p := WriterPosition(s, x, a, i);
    var q := WriterPosition(s, x, b, i);
    SlotIsPrivate(s.mem, x.flights, p);
    if a.ConsumerParty? && b.ConsumerParty? {
      assert ConsumerOk(s.mem, s.maxBatch, x.flights, a.c, s.consumers[a.c], x.takes[a.c]);
    }
  }

  /** What a store for position `q` does to the sequence word of its slot: a submitter's moves it
      from q to q + 1 when it publishes, a consumer's from q + 1 to q + 2 when it answers, a release
      from q + 2 to q + C; every other store is a plain one that leaves the word alone. */
  predicate Orderly(a: Action, q: nat, was: nat, now: nat, count: nat) {
    || (a.ByProducer? && was == q && (now == q || now == q + 1))
    || (a.ByConsumer? && was == q + 1 && (now == q + 1 || now == q + 2))
    || (!a.ByConsumer? && was == q + 2 && now == q + count)
  }

  /** Every store goes through that right, for one claimed position whose slot it is, and moves the
      sequence word in order. */
  lemma StoresAreOrderly(k: Config, ex: Execution, s: State, a: Action, s': State, i: nat) returns (q: nat)
    requires k.count >= 3 && ex.Valid(k) && ex.End() == s && Step(s, a) == Some(s')
    requires i < s.mem.Count() && s'.mem.Count() == s.mem.Count() && s'.mem.slots[i] != s.mem.slots[i]
    ensures MayWrite(s, Writer(s, a), i)
    ensures q < s.mem.enqueue && SlotIndex(q, s.mem.Count()) == i
    ensures Orderly(a, q, s.mem.slots[i].sequence, s'.mem.slots[i].sequence, s.mem.Count())
  {
    var x := EveryRunKeepsInv(k, ex);
    q := 0;
    match a
    case Submit(_, _) =>
    case ByProducer(t, e) => ProducerStores(s, x, t, e, s', i); q := s.producers[t].pos;
    case ByGateway(g, e) => GatewayStores(s, x, g, e, s', i); q := s.gateways[g].outstanding[s.gateways[g].scan.index];
    case ByConsumer(c, e) => q := ConsumerStores(s, x, c, e, s', i);
  }

  lemma ProducerStores(s: State, x: Aux, t: nat, e: ProducerEvent, s': State, i: nat)
    requires Inv(s, x) && t in s.producers && ProducerStep(s, t, e) == Some(s')
    requires i < s.mem.Count() == s'.mem.Count() && s'.mem.slots[i] != s.mem.slots[i]
    ensures MayWrite(s, ProducerParty(t), i)
    ensures var q := s.producers[t].pos;
            && q < s.mem.enqueue && SlotIndex(q, s.mem.Count()) == i
            && Orderly(ByProducer(t, e), q, s.mem.slots[i].sequence, s'.mem.slots[i].sequence, s.mem.Count())
  {
    assert ProducerOk(s.mem, s.gateways.Keys, x.flights, t, s.producers[t]);
    assert CellOk(s.mem, s.producers[t].pos, x.flights[s.producers[t].pos]);
  }

  lemma GatewayStores(s: State, x: Aux, g: nat, e: GatewayEvent, s': State, i: nat)
    requires Inv(s, x) && g in s.gateways && GatewayStep(s, g, e) == Some(s')
    requires i < s.mem.Count() == s'.mem.Count() && s'.mem.slots[i] != s.mem.slots[i]
    ensures MayWrite(s, GatewayParty(g), i)
    ensures var q := s.gateways[g].outstanding[s.gateways[g].scan.index];
            && q < s.mem.enqueue && SlotIndex(q, s.mem.Count()) == i
            && Orderly(ByGateway(g, e), q, s.mem.slots[i].sequence, s'.mem.slots[i].sequence, s.mem.Count())
  {
    var gw := s.gateways[g];
    assert GatewayOk(x.flights, g, gw);
    var q := gw.outstanding[gw.scan.index];
    assert CellOk(s.mem, q, x.flights[q]);
  }

  lemma ConsumerStores(s: State, x: Aux, c: nat, e: ConsumerEvent, s': State, i: nat) returns (q: nat)
    requires Inv(s, x) && c in s.consumers && ConsumerStep(s, c, e) == Some(s')
    requires i < s.mem.Count() == s'.mem.Count() && s'.mem.slots[i] != s.mem.slots[i]
    ensures MayWrite(s, ConsumerParty(c, DoneCount(s.consumers[c].pc)), i)
    ensures q < s.mem.enqueue && SlotIndex(q, s.mem.Count()) == i
    ensures Orderly(ByConsumer(c, e), q, s.mem.slots[i].sequence, s'.mem.slots[i].sequence, s.mem.Count())
  {
    var co, ts := s.consumers[c], x.takes[c];
    assert ConsumerOk(s.mem, s.maxBatch, x.flights, c, co, ts);
    q := ts[co.pc.done];
    assert Drains(x.flights, q, c) && CellOk(s.mem, q, x.flights[q]);
    assert ReplyOk(x.flights, s.mem.slotBytes, s.mem.cuda, co.pc.replies[co.pc.done], q);
  }

  // ----- positions ------------------------------------------------------------------------

  /** What a run leaves behind for one position, with the flights that explain it. */
  lemma LedgerRow(k: Config, ex: Execution, s: State, p: nat) returns (flights: Flights)
    requires k.count >= 3 && ex.Valid(k) && ex.End() == s
    ensures s.mem.Count() == k.count && MemoryOk(s.mem, flights)
    ensures Occurrences(ex.notes, Claim, p) == Once(p < s.mem.enqueue)
    ensures Occurrences(ex.notes, Publish, p) == Once(p < s.mem.enqueue && !(p in flights && flights[p].stage.Filling?))
    ensures Occurrences(ex.notes, Consume, p) == Once(p < s.mem.dequeue)
    ensures Occurrences(ex.notes, Release, p) == Once(p < s.mem.enqueue && p !in flights)
    ensures forall t :: t in s.producers && s.producers[t].LoadedEnqueue? ==> s.producers[t].pos <= s.mem.enqueue
    ensures forall c :: c in s.consumers && s.consumers[c].pc.LoadedDequeue? ==> s.consumers[c].pc.pos <= s.mem.dequeue
  {
    var x := EveryRunKeepsInv(k, ex);
    ConfigStays(k, ex, s);
    flights := x.flights;
    assert Balanced(ex.notes, s.mem, x.flights, p);
    LoadedPositions(s, x);
  }

  lemma LoadedPositions(s: State, x: Aux)
    requires Inv(s, x)
    ensures forall t :: t in s.producers && s.producers[t].LoadedEnqueue? ==> s.producers[t].pos <= s.mem.enqueue
    ensures forall c :: c in s.consumers && s.consumers[c].pc.LoadedDequeue? ==> s.consumers[c].pc.pos <= s.mem.dequeue
  {
    forall t | t in s.producers && s.producers[t].LoadedEnqueue? ensures s.producers[t].pos <= s.mem.enqueue {
      assert ProducerOk(s.mem, s.gateways.Keys, x.flights, t, s.producers[t]);
    }
    forall c | c in s.consumers && s.consumers[c].pc.LoadedDequeue? ensures s.consumers[c].pc.pos <= s.mem.dequeue {
      assert ConsumerOk(s.mem, s.maxBatch, x.flights, c, s.consumers[c], x.takes[c]);
    }
  }

  /** Each position is claimed at most once and in order, taken at most once and in order, and
      released at most once; whatever lies more than C behind the enqueue cursor, such as the
      predecessor in the slot of any claimed position, has been released. */
  lemma PositionsAreUsedOnce(k: Config, ex: Execution, s: State, p: nat)
    requires k.count >= 3 && ex.Valid(k) && ex.End() == s
    ensures Occurrences(ex.notes, Claim, p) == Once(p < s.mem.enqueue)
    ensures Occurrences(ex.notes, Publish, p) <= 1
    ensures Occurrences(ex.notes, Consume, p) == Once(p < s.mem.dequeue)
    ensures Occurrences(ex.notes, Consume, p) == 1 ==> Occurrences(ex.notes, Publish, p) == 1
    ensures Occurrences(ex.notes, Release, p) <= 1
    ensures p + k.count < s.mem.enqueue ==> Occurrences(ex.notes, Release, p) == 1
    ensures Occurrences(ex.notes, Release, p) == 1 ==> p < s.mem.dequeue
    ensures s.mem.dequeue <= s.mem.enqueue
  {
    var flights := LedgerRow(k, ex, s, p);
    assert p in flights ==> CellOk(s.mem, p, flights[p]);
  }

  lemma ClaimsFollowReleases(k: Config, ex: Execution, s: State, a: Action, s': State, p: nat)
    requires k.count >= 3 && ex.Valid(k) && ex.End() == s && Step(s, a) == Some(s') && NoteOf(s, a, s').claim == Some(p)
    ensures p == s.mem.enqueue
    ensures p >= k.count ==> Occurrences(ex.notes, Release, p - k.count) == 1
  {
    var x := EveryRunKeepsInv(k, ex);
    ConfigStays(k, ex, s);
    ClaimedIsFree(s, x, a, s', p);
    if p >= k.count {
      assert Balanced(ex.notes, s.mem, x.flights, p - k.count);
    }
  }

  lemma ClaimedIsFree(s: State, x: Aux, a: Action, s': State, p: nat)
    requires Inv(s, x) && Step(s, a) == Some(s') && NoteOf(s, a, s').claim == Some(p)
    ensures p == s.mem.enqueue && (p >= s.mem.Count() ==> p - s.mem.Count() !in x.flights)
  {
    assert ProducerOk(s.mem, s.gateways.Keys, x.flights, a.t, s.producers[a.t]);
  }

  /** A release happens only from p + 2, leaves p + C, and is never repeated by the other party. */
  lemma ReleasesComeFromAnswers(k: Config, ex: Execution, s: State, a: Action, s': State, p: nat)
    requires k.count >= 3 && ex.Valid(k) && ex.End() == s && Step(s, a) == Some(s') && NoteOf(s, a, s').release == Some(p)
    ensures s.mem.Count() == k.count && s.mem.At(p).sequence == p + 2
    ensures s'.mem == s.mem.With(p, s.mem.At(p).(sequence := p + k.count))
    ensures Occurrences(ex.notes, Release, p) == 0
  {
    ReleaseAt(k, ex, s, a, s', p);
    var flights := LedgerRow(k, ex, s, p);
    FlightsFromMemory(s.mem, flights, p);
  }

  /** A claimed position whose slot still shows one of its own sequence values is in flight. */
  lemma FlightsFromMemory(m: Memory, flights: Flights, p: nat)
    requires MemoryOk(m, flights) && p < m.enqueue && m.At(p).sequence <= p + 2
    ensures p in flights
  {
    if p !in flights {
      var r := LaterGeneration(p, m.enqueue, m.Count());
      UnclaimedSequence(m, flights, r);
      var l := r - m.Count();
      if l in flights {
        assert CellOk(m, l, flights[l]);
        if l < p + m.Count() { IndexInjective(p, l, m.Count()); }
      }
    }
  }

  lemma ReleaseAt(k: Config, ex: Execution, s: State, a: Action, s': State, p: nat)
    requires k.count >= 3 && ex.Valid(k) && ex.End() == s && Step(s, a) == Some(s') && NoteOf(s, a, s').release == Some(p)
    ensures s.mem.Count() == k.count && s.mem.At(p).sequence == p + 2 && p < s.mem.enqueue
    ensures s'.mem == s.mem.With(p, s.mem.At(p).(sequence := p + k.count))
  {
    var x := EveryRunKeepsInv(k, ex);
    ConfigStays(k, ex, s);
    ReleaseEffect(s, x, a, s', p);
  }

  lemma ReleaseEffect(s: State, x: Aux, a: Action, s': State, p: nat)
    requires Inv(s, x) && Step(s, a) == Some(s') && NoteOf(s, a, s').release == Some(p)
    ensures p in x.flights && s.mem.At(p).sequence == p + 2 && p < s.mem.enqueue
    ensures s'.mem == s.mem.With(p, s.mem.At(p).(sequence := p + s.mem.Count()))
  {
    if a.ByProducer? {
      assert ProducerOk(s.mem, s.gateways.Keys, x.flights, a.t, s.producers[a.t]);
    } else {
      assert GatewayOk(x.flights, a.g, s.gateways[a.g]);
    }
    SequenceShowsStage(s.mem, x.flights, p);
    assert CellOk(s.mem, p, x.flights[p]);
  }

  /** The reclaimer's lists together never exceed the slot count, and a push neither finds its
      position already queued nor has to retry. */
  lemma ReclaimQueueIsBounded(k: Config, ex: Execution, s: State, g: nat)
    requires k.count >= 3 && ex.Valid(k) && ex.End() == s && g in s.gateways
    ensures |s.gateways[g].pending| + |s.gateways[g].outstanding| <= k.count
    ensures forall t :: t in s.producers && s.producers[t].Pushing? && s.producers[t].req.gateway == g ==>
      s.producers[t].pos !in s.gateways[g].pending && |s.gateways[g].pending| < k.count
  {
    var x := EveryRunKeepsInv(k, ex);
    ConfigStays(k, ex, s);
    assert GatewayOk(x.flights, g, s.gateways[g]);
    ReclaimListHasRoom(s.mem, x.flights, g, s.gateways[g]);
    forall t | t in s.producers && s.producers[t].Pushing? && s.producers[t].req.gateway == g
      ensures s.producers[t].pos !in s.gateways[g].pending && |s.gateways[g].pending| < k.count
    {
      PushStep(s, x, t);
    }
  }

  /** The ring has no room for `pos`: it is the next position, and the one a generation back was
      claimed and not yet released. */
  ghost predicate RingFull(count: nat, notes: seq<Note>, m: Memory, pos: nat) {
    && pos == m.enqueue && pos >= count
    && Occurrences(notes, Claim, pos - count) == 1
    && Occurrences(notes, Release, pos - count) == 0
  }

  /** "Queue full" is honest, and so is going on: the sequence load makes a submitter report Full
      exactly when the ring is full at that instant, try the CAS exactly when the ring is not full
      and nobody has published the loaded position, and start over exactly when somebody has. */
  lemma FullIsHonest(k: Config, ex: Execution, s: State, t: nat, s': State)
    requires k.count >= 3 && ex.Valid(k) && ex.End() == s
    requires Step(s, ByProducer(t, LoadSequence)) == Some(s')
    ensures t in s.producers && s.producers[t].LoadedEnqueue? && t in s'.producers && s'.mem == s.mem
    ensures var req, pos, after := s.producers[t].req, s.producers[t].pos, s'.producers[t];
            var full, published := RingFull(k.count, ex.notes, s.mem, pos), Occurrences(ex.notes, Publish, pos) == 1;
            && (after == Done(req, Failed(Full)) <==> full)
            && (after == SawFree(req, pos) <==> !full && !published)
            && (after == Claiming(req) <==> published)
  {
    var x := EveryRunKeepsInv(k, ex);
    ConfigStays(k, ex, s);
    ReserveLoad(s, x, t, s');
    var pos := s.producers[t].pos;
    assert Balanced(ex.notes, s.mem, x.flights, pos);
    assert pos >= k.count ==> Balanced(ex.notes, s.mem, x.flights, pos - k.count);
  }

  /** The same in terms of the positions in flight. */
  lemma ReserveLoad(s: State, x: Aux, t: nat, s': State)
    requires Inv(s, x) && Step(s, ByProducer(t, LoadSequence)) == Some(s')
    ensures t in s.producers && s.producers[t].LoadedEnqueue? && t in s'.producers && s'.mem == s.mem
    ensures var req, pos, after := s.producers[t].req, s.producers[t].pos, s'.producers[t];
            var full := pos == s.mem.enqueue && pos >= s.mem.Count() && pos - s.mem.Count() in x.flights;
            var published := pos < s.mem.enqueue && !(pos in x.flights && x.flights[pos].stage.Filling?);
            && pos <= s.mem.enqueue
            && after == if full then Done(req, Failed(Full)) else if published then Claiming(req) else SawFree(req, pos)
  {
    var pos := s.producers[t].pos;
    LoadedPositions(s, x);
    LoadedSequence(s.mem, x.flights, pos);
    FullSequence(s.mem, x.flights, pos);
  }

  /** What the sequence word at a loaded enqueue position says about that position. */
  lemma LoadedSequence(m: Memory, flights: Flights, pos: nat)
    requires MemoryOk(m, flights) && pos <= m.enqueue
    ensures m.At(pos).sequence > pos <==> pos < m.enqueue && !(pos in flights && flights[pos].stage.Filling?)
  {
    if pos < m.enqueue {
      ClaimedSequence(m, flights, pos);
      assert pos in flights ==> CellOk(m, pos, flights[pos]);
    } else {
      UnclaimedSequence(m, flights, pos);
    }
  }

  lemma FullSequence(m: Memory, flights: Flights, pos: nat)
    requires MemoryOk(m, flights) && pos <= m.enqueue
    ensures m.At(pos).sequence < pos <==> pos == m.enqueue && pos >= m.Count() && pos - m.Count() in flights
  {
    if pos < m.enqueue {
      ClaimedSequence(m, flights, pos);
    } else {
      UnclaimedSequence(m, flights, pos);
    }
  }

  /** "Queue empty" is honest, and so is not saying so: the sequence load sends a consumer away
      exactly when the loaded position is still the dequeue cursor and nobody has published it; at a
      published cursor it goes on to its CAS, and behind the cursor it looks again or loses the CAS. */
  lemma EmptyIsHonest(k: Config, ex: Execution, s: State, c: nat, s': State)
    requires k.count >= 3 && ex.Valid(k) && ex.End() == s
    requires Step(s, ByConsumer(c, LoadReadySequence)) == Some(s')
    ensures c in s.consumers && s.consumers[c].pc.LoadedDequeue? && c in s'.consumers && s'.mem == s.mem
    ensures var pos, after := s.consumers[c].pc.pos, s'.consumers[c];
            var head, published := pos == s.mem.dequeue, Occurrences(ex.notes, Publish, pos) == 1;
            && after.staged == s.consumers[c].staged
            && (after.pc == Polling <==> head && !published)
            && (head && published ==> after.pc == SawReady(pos))
            && (!head ==> after.pc == SawReady(pos) || after.pc == LoadedDequeue(s.mem.dequeue))
  {
    var pos := s.consumers[c].pc.pos;
    var flights := LedgerRow(k, ex, s, pos);
    EmptySequence(s.mem, flights, pos);
    if pos == s.mem.dequeue {
      HeadSequence(s.mem, flights);
    }
  }

  /** The head of the queue never shows a sequence past p + 1. */
  lemma HeadSequence(m: Memory, flights: Flights)
    requires MemoryOk(m, flights)
    ensures m.At(m.dequeue).sequence <= m.dequeue + 1
    ensures m.dequeue in flights && flights[m.dequeue].stage.Published? ==> m.At(m.dequeue).sequence == m.dequeue + 1
  {
    if m.dequeue in flights {
      assert CellOk(m, m.dequeue, flights[m.dequeue]);
    } else {
      UnclaimedSequence(m, flights, m.dequeue);
    }
  }

  lemma EmptySequence(m: Memory, flights: Flights, pos: nat)
    requires MemoryOk(m, flights) && pos <= m.dequeue
    ensures m.At(pos).sequence < pos + 1 <==>
      pos == m.dequeue && (pos == m.enqueue || (pos in flights && flights[pos].stage.Filling?))
  {
    if pos < m.enqueue {
      ClaimedSequence(m, flights, pos);
      assert pos in flights ==> CellOk(m, pos, flights[pos]);
    } else {
      UnclaimedSequence(m, flights, pos);
    }
  }
}
