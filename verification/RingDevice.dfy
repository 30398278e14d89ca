/** What the device has to do with the answers: a batch is traced from its dispatch through the
    launch and the synchronisation to the stored responses, and a response back to the batch that
    produced it and the publication it answers. */
module RingDevice {
  import opened Common
  import opened RingSlots
  import opened Addressing
  import opened RingSystem
  import opened RingInvariant
  import opened RingFrames
  import opened RingMemory
  import opened RingTheorems
  import opened RingGuarantees

  /** The status table of process_batch: `ok` when the graph of the batch was launched and synchronised. */
  function Graded(view: Option<Transaction>, ok: bool): Answer {
    match view
    case None => Answer(422, 0, 0.0)
    case Some(tx) =>
      if !ok then Answer(503, 0, 0.0)
      else if tx.amountMicros >= 10_000_000 then Answer(200, 1, 0.9)
      else Answer(200, 0, 0.1)
  }

  // ----- what a step leaves of the cells in flight ----------------------------------------

  /** Whatever is published stays as it is, but for its holder. */
  ghost predicate CellsKept(flights: Flights, flights': Flights, except: Option<nat>) {
    && (forall q {:trigger q in flights'} :: q in flights' && !flights'[q].stage.Filling? && except != Some(q) ==>
          q in flights && flights'[q] == flights[q].(holder := flights'[q].holder))
    && (forall q {:trigger q in flights} :: q in flights && flights[q].stage.Drained? ==>
          q in flights' && !flights'[q].stage.Filling?)
  }

  /** The steps by which a submitter fills and publishes its slot. */
  predicate Fills(e: ProducerEvent) {
    e.CasEnqueue? || e.Serialize? || e.FailSerialize? || e.WriteMetadata? || e.StoreSequence?
  }

  function Publishing(s: State, t: nat, e: ProducerEvent): Option<nat>
    requires t in s.producers
  {
    if e.StoreSequence? && s.producers[t].Filled? then Some(s.producers[t].pos) else None
  }

  lemma FillCells(s: State, x: Aux, t: nat, e: ProducerEvent, s': State)
    requires Inv(s, x) && t in s.producers && ProducerStep(s, t, e) == Some(s') && Fills(e)
    ensures CellsKept(x.flights, ProducerFlights(s, x.flights, t, e, s'), Publishing(s, t, e))
  {
    var pr := s.producers[t];
    assert ProducerOk(s.mem, s.gateways.Keys, x.flights, t, pr);
    assert e.CasEnqueue? && pr.pos in x.flights ==> CellOk(s.mem, pr.pos, x.flights[pr.pos]);
  }

  lemma ProducerCells(s: State, x: Aux, t: nat, e: ProducerEvent, s': State)
    requires Inv(s, x) && t in s.producers && ProducerStep(s, t, e) == Some(s')
    ensures var q := Publishing(s, t, e); q.Some? ==> Owns(x.flights, q.value, t) && x.flights[q.value].stage.Filling?
    ensures CellsKept(x.flights, ProducerFlights(s, x.flights, t, e, s'), Publishing(s, t, e))
  {
    assert ProducerOk(s.mem, s.gateways.Keys, x.flights, t, s.producers[t]);
    if Fills(e) {
      FillCells(s, x, t, e, s');
    }
  }

  lemma GatewayCells(s: State, x: Aux, g: nat, e: GatewayEvent, s': State)
    requires Inv(s, x) && g in s.gateways && GatewayStep(s, g, e) == Some(s')
    ensures CellsKept(x.flights, GatewayFlights(s, x.flights, g, e), None)
  {
    assert GatewayOk(x.flights, g, s.gateways[g]);
  }

  /** The one position whose cell or stage a consumer's step may touch. */
  function Handled(s: State, x: Aux, c: nat, e: ConsumerEvent): Option<nat>
    requires c in s.consumers
  {
    var pc := s.consumers[c].pc;
    if e.CasDequeue? && pc.SawReady? && pc.pos == s.mem.dequeue && !e.spurious then Some(pc.pos)
    else if (e.WriteReply? || e.StoreReply?) && pc.Completing? && c in x.takes && pc.done < |x.takes[c]| then Some(x.takes[c][pc.done])
    else None
  }

  /** The handled position keeps its record; only a stored response answers it. */
  ghost predicate HandledKept(flights: Flights, flights': Flights, q: nat, c: nat, stored: bool) {
    q in flights' ==>
      && q in flights && SamePayload(flights[q].cell, flights'[q].cell)
      && flights'[q].stage.Filling? == flights[q].stage.Filling?
      && (flights'[q].stage.Answered? ==> stored)
      && (flights[q].stage.Drained? ==> flights[q].taker == c)
  }

  lemma ReplyCells(s: State, x: Aux, c: nat, e: ConsumerEvent, s': State)
    requires Inv(s, x) && c in s.consumers && ConsumerStep(s, c, e) == Some(s') && (e.WriteReply? || e.StoreReply?)
    ensures CellsKept(x.flights, ConsumerFlights(s, x, c, e, s'), Handled(s, x, c, e))
    ensures Handled(s, x, c, e).Some?
    ensures HandledKept(x.flights, ConsumerFlights(s, x, c, e, s'), Handled(s, x, c, e).value, c, e.StoreReply?)
  {
    var co, ts := s.consumers[c], x.takes[c];
    assert ConsumerOk(s.mem, s.maxBatch, x.flights, c, co, ts);
    var q := ts[co.pc.done];
    assert Drains(x.flights, q, c) && CellOk(s.mem, q, x.flights[q]);
  }

  lemma ConsumerCells(s: State, x: Aux, c: nat, e: ConsumerEvent, s': State)
    requires Inv(s, x) && c in s.consumers && ConsumerStep(s, c, e) == Some(s')
    ensures CellsKept(x.flights, ConsumerFlights(s, x, c, e, s'), Handled(s, x, c, e))
    ensures Handled(s, x, c, e).Some? ==>
      HandledKept(x.flights, ConsumerFlights(s, x, c, e, s'), Handled(s, x, c, e).value, c, e.StoreReply?)
  {
    if e.WriteReply? || e.StoreReply? {
      ReplyCells(s, x, c, e, s');
    } else {
      assert ConsumerOk(s.mem, s.maxBatch, x.flights, c, s.consumers[c], x.takes[c]);
    }
  }

  /** A slot a consumer has drained is written by nobody else. */
  lemma DrainedSlotStays(s: State, x: Aux, a: Action, s': State, c: nat, q: nat)
    requires Inv(s, x) && Step(s, a) == Some(s') && Drains(x.flights, q, c) && !(a.ByConsumer? && a.c == c)
    ensures s'.mem.Count() == s.mem.Count() > 0 && s'.mem.slotBytes == s.mem.slotBytes && s'.mem.At(q) == s.mem.At(q)
  {
    ShapeStays(s, a, s');
    StepKeepsInv(s, x, a, s');
    var flights' := NextAux(s, x, a, s').flights;
    match a {
      case Submit(_, _) =>
      case ByProducer(t, e) => ProducerCells(s, x, t, e, s');
      case ByGateway(g, e) => GatewayCells(s, x, g, e, s');
      case ByConsumer(d, e) => ConsumerCells(s, x, d, e, s');
    }
    assert q in flights' && flights'[q].cell == x.flights[q].cell;
    assert CellOk(s.mem, q, x.flights[q]) && CellOk(s'.mem, q, flights'[q]);
  }

  lemma OthersLeaveConsumer(s: State, a: Action, s': State, c: nat)
    requires Step(s, a) == Some(s') && c in s.consumers && !(a.ByConsumer? && a.c == c)
    ensures c in s'.consumers && s'.consumers[c] == s.consumers[c]
  {
    match a
    case Submit(_, _) =>
    case ByProducer(t, e) => SameConsumers(s, t, e, s');
    case ByGateway(g, e) =>
    case ByConsumer(d, e) => OtherConsumer(s, d, e, s', c);
  }

  lemma SameConsumers(s: State, t: nat, e: ProducerEvent, s': State)
    requires Step(s, ByProducer(t, e)) == Some(s')
    ensures s'.consumers == s.consumers
  {
  }

  lemma OtherConsumer(s: State, d: nat, e: ConsumerEvent, s': State, c: nat)
    requires Step(s, ByConsumer(d, e)) == Some(s') && c in s.consumers && c != d
    ensures c in s'.consumers && s'.consumers[c] == s.consumers[c]
  {
  }

  // ----- one batch ------------------------------------------------------------------------

  predicate OwedAt(m: Memory, slot: nat, reply: Reply, ok: bool) {
    slot < |m.slots| && reply.answer == Graded(Decode(m.slots[slot], m.slotBytes), ok)
  }

  predicate WrittenAt(m: Memory, slot: nat, reply: Reply, nowNs: nat) {
    slot < |m.slots| && AnswerOf(m.slots[slot]) == reply.answer && m.slots[slot].completeNs == nowNs
  }

  /** Every response the batch still owes is what the table says of its slot, and the one already
      written is there with the time of the batch. */
  ghost predicate Owed(m: Memory, co: Consumer, ok: bool) {
    && co.pc.Completing? && co.pc.done < |co.staged| == |co.pc.replies|
    && (forall i {:trigger co.staged[i]} :: co.pc.done <= i < |co.staged| ==> OwedAt(m, co.staged[i], co.pc.replies[i], ok))
    && (co.pc.written ==> WrittenAt(m, co.staged[co.pc.done], co.pc.replies[co.pc.done], co.pc.nowNs))
  }

  lemma OwedStays(s: State, x: Aux, a: Action, s': State, c: nat, ok: bool)
    requires Inv(s, x) && Step(s, a) == Some(s') && c in s.consumers && Owed(s.mem, s.consumers[c], ok) && !(a.ByConsumer? && a.c == c)
    ensures Owed(s'.mem, s.consumers[c], ok)
  {
    var co, ts := s.consumers[c], x.takes[c];
    assert ConsumerOk(s.mem, s.maxBatch, x.flights, c, co, ts);
    ShapeStays(s, a, s');
    forall i | co.pc.done <= i < |co.staged|
      ensures co.staged[i] < |s'.mem.slots| && s'.mem.slots[co.staged[i]] == s.mem.slots[co.staged[i]]
    {
      assert Drains(x.flights, ts[i], c) && co.staged[i] == SlotIndex(ts[i], s.mem.Count());
      DrainedSlotStays(s, x, a, s', c, ts[i]);
    }
  }

  /** After the synchronisation the batch owes what the launch and the synchronisation allow. */
  lemma OwedAfterSync(s: State, x: Aux, c: nat, synced: bool, nowNs: nat, s': State)
    requires Inv(s, x) && Step(s, ByConsumer(c, Synchronize(synced, nowNs))) == Some(s')
    ensures s.consumers[c].pc.Preparing? && c in s'.consumers && s'.consumers[c].pc.Completing?
    ensures s'.consumers[c].pc.nowNs == nowNs && !s'.consumers[c].pc.written
    ensures synced || s.mem.cuda
    ensures Owed(s'.mem, s'.consumers[c], s.consumers[c].pc.graphOk && synced)
  {
    var co, ts, pc := s.consumers[c], x.takes[c], s.consumers[c].pc;
    assert ConsumerOk(s.mem, s.maxBatch, x.flights, c, co, ts);
    var co' := s'.consumers[c];
    forall i | 0 <= i < |co'.staged| ensures OwedAt(s'.mem, co'.staged[i], co'.pc.replies[i], pc.graphOk && synced) {
      assert Drains(x.flights, ts[i], c) && CellOk(s.mem, ts[i], x.flights[ts[i]]);
      assert pc.views[i] == Decode(s.mem.slots[co.staged[i]], s.mem.slotBytes);
      assert pc.replies[i].answer == Verdict(pc.views[i], pc.graphOk);
    }
  }

  /** Distinct places of a batch are distinct slots. */
  lemma StagedDistinct(s: State, x: Aux, c: nat, i: nat, j: nat)
    requires Inv(s, x) && c in s.consumers && DoneCount(s.consumers[c].pc) <= i < j < |s.consumers[c].staged|
    ensures s.consumers[c].staged[i] != s.consumers[c].staged[j]
  {
    var co, ts := s.consumers[c], x.takes[c];
    assert ConsumerOk(s.mem, s.maxBatch, x.flights, c, co, ts);
    assert Drains(x.flights, ts[i], c) && Drains(x.flights, ts[j], c);
    SlotIsPrivate(s.mem, x.flights, ts[i]);
  }

  lemma OwedAfterWrite(s: State, x: Aux, c: nat, s': State, ok: bool)
    requires Inv(s, x) && Step(s, ByConsumer(c, WriteReply)) == Some(s') && Owed(s.mem, s.consumers[c], ok)
    ensures c in s'.consumers && Owed(s'.mem, s'.consumers[c], ok) && s'.consumers[c].pc.nowNs == s.consumers[c].pc.nowNs
  {
    var co, co' := s.consumers[c], s'.consumers[c];
    forall i | co'.pc.done <= i < |co'.staged| ensures OwedAt(s'.mem, co'.staged[i], co'.pc.replies[i], ok) {
      assert OwedAt(s.mem, co.staged[i], co.pc.replies[i], ok);
      if i != co.pc.done { StagedDistinct(s, x, c, co.pc.done, i); }
    }
  }

  lemma OwedAfterStore(s: State, x: Aux, c: nat, s': State, ok: bool)
    requires Inv(s, x) && Step(s, ByConsumer(c, StoreReply)) == Some(s') && Owed(s.mem, s.consumers[c], ok)
    ensures c in s'.consumers
    ensures s'.consumers[c].pc.Completing? ==> Owed(s'.mem, s'.consumers[c], ok) && s'.consumers[c].pc.nowNs == s.consumers[c].pc.nowNs
    ensures s'.consumers[c].pc.Completing? || s'.consumers[c] == Consumer([], Polling)
    ensures var i, pc := s.consumers[c].staged[s.consumers[c].pc.done], s.consumers[c].pc;
            && i < |s'.mem.slots| && s'.mem.slotBytes == s.mem.slotBytes
            && AnswerOf(s'.mem.slots[i]) == Graded(Decode(s'.mem.slots[i], s.mem.slotBytes), ok)
            && s'.mem.slots[i].completeNs == pc.nowNs
  {
    var co, co' := s.consumers[c], s'.consumers[c];
    assert OwedAt(s.mem, co.staged[co.pc.done], co.pc.replies[co.pc.done], ok);
    if co'.pc.Completing? {
      forall i | co'.pc.done <= i < |co'.staged| ensures OwedAt(s'.mem, co'.staged[i], co'.pc.replies[i], ok) {
        assert OwedAt(s.mem, co.staged[i], co.pc.replies[i], ok);
        StagedDistinct(s, x, c, co.pc.done, i);
      }
    }
  }

  // ----- the actions behind a batch -------------------------------------------------------

  predicate Handling(pc: ConsumerPc) {
    pc.Decoding? || pc.Preparing? || pc.Completing?
  }

  /** The steps of process_batch that consult the device, or begin the batch. */
  predicate DeviceStep(a: Action, c: nat) {
    a.ByConsumer? && a.c == c && (a.e.Dispatch? || a.e.Launch? || a.e.Synchronize?)
  }

  /** Consumer `c` dispatched its current batch at step `d`, launched it at `l` and synchronised it at
      `y`, as far as it has come, and consulted the device at no other step since. */
  ghost predicate BatchSteps(acts: seq<Action>, pc: ConsumerPc, c: nat, d: nat, l: nat, y: nat) {
    && (Handling(pc) ==>
          && d < |acts| && acts[d] == ByConsumer(c, Dispatch)
          && forall j {:trigger acts[j]} :: d < j < |acts| && DeviceStep(acts[j], c) ==>
               (j == l && !pc.Decoding?) || (j == y && pc.Completing?))
    && (pc.Preparing? || pc.Completing? ==> d < l < |acts| && acts[l].ByConsumer? && acts[l].c == c && acts[l].e.Launch?)
    && (pc.Preparing? ==> pc.graphOk == acts[l].e.launched)
    && (pc.Completing? ==> l < y < |acts| && acts[y].ByConsumer? && acts[y].c == c && acts[y].e.Synchronize?
                           && pc.nowNs == acts[y].e.nowNs)
  }

  /** Both device calls of the batch succeeded. */
  predicate DeviceOk(acts: seq<Action>, l: nat, y: nat) {
    && l < |acts| && acts[l].ByConsumer? && acts[l].e.Launch? && acts[l].e.launched
    && y < |acts| && acts[y].ByConsumer? && acts[y].e.Synchronize? && acts[y].e.synced
  }

  /** What is known of consumer `c` after some steps. */
  ghost predicate Traced(acts: seq<Action>, s: State, c: nat, d: nat, l: nat, y: nat) {
    && c in s.consumers
    && BatchSteps(acts, s.consumers[c].pc, c, d, l, y)
    && (s.consumers[c].pc.Completing? ==> Owed(s.mem, s.consumers[c], DeviceOk(acts, l, y)))
    && (s.consumers[c].pc.Preparing? && !s.mem.cuda ==> acts[l].e.launched)
    && (s.consumers[c].pc.Completing? && !s.mem.cuda ==> DeviceOk(acts, l, y))
  }

  lemma {:induction false} TraceBatch(k: Config, ex: Execution, c: nat) returns (d: nat, l: nat, y: nat)
    requires k.count >= 3 && ex.Valid(k) && c in k.consumers
    ensures Traced(ex.acts, ex.End(), c, d, l, y)
    decreases |ex.acts|
  {
    d, l, y := 0, 0, 0;
    if ex.acts != [] {
      ShorterIsValid(k, ex);
      var before, n := ex.Shorter(), |ex.acts| - 1;
      var a := ex.acts[n];
      d, l, y := TraceBatch(k, before, c);
      var x := EveryRunKeepsInv(k, before);
      assert ex.acts == before.acts + [a];
      if a.ByConsumer? && a.c == c {
        d, l, y := TraceOwn(before.acts, before.End(), x, c, a.e, ex.End(), d, l, y);
      } else {
        TraceOther(before.acts, before.End(), x, c, a, ex.End(), d, l, y);
      }
    }
  }

  lemma TraceOther(acts: seq<Action>, s: State, x: Aux, c: nat, a: Action, s': State, d: nat, l: nat, y: nat)
    requires Inv(s, x) && Traced(acts, s, c, d, l, y) && Step(s, a) == Some(s') && !(a.ByConsumer? && a.c == c)
    ensures Traced(acts + [a], s', c, d, l, y)
  {
    OthersLeaveConsumer(s, a, s', c);
    ShapeStays(s, a, s');
    if s.consumers[c].pc.Completing? {
      OwedStays(s, x, a, s', c, DeviceOk(acts, l, y));
      assert DeviceOk(acts + [a], l, y) == DeviceOk(acts, l, y);
    }
  }

  lemma TraceOwn(acts: seq<Action>, s: State, x: Aux, c: nat, e: ConsumerEvent, s': State, d: nat, l: nat, y: nat)
    returns (d': nat, l': nat, y': nat)
    requires Inv(s, x) && Traced(acts, s, c, d, l, y) && Step(s, ByConsumer(c, e)) == Some(s')
    ensures Traced(acts + [ByConsumer(c, e)], s', c, d', l', y')
  {
    d', l', y' := d, l, y;
    if e.Synchronize? || e.WriteReply? || e.StoreReply? {
      y' := if e.Synchronize? then |acts| else y;
      TraceLate(acts, s, x, c, e, s', d, l, y);
    } else {
      d' := if e.Dispatch? then |acts| else d;
      l' := if e.Launch? then |acts| else l;
      TraceEarly(acts, s, c, e, s', d, l, y);
    }
  }

  lemma TraceEarly(acts: seq<Action>, s: State, c: nat, e: ConsumerEvent, s': State, d: nat, l: nat, y: nat)
    requires Traced(acts, s, c, d, l, y) && Step(s, ByConsumer(c, e)) == Some(s')
    requires !e.Synchronize? && !e.WriteReply? && !e.StoreReply?
    ensures Traced(acts + [ByConsumer(c, e)], s', c, if e.Dispatch? then |acts| else d, if e.Launch? then |acts| else l, y)
  {
  }

  lemma TraceLate(acts: seq<Action>, s: State, x: Aux, c: nat, e: ConsumerEvent, s': State, d: nat, l: nat, y: nat)
    requires Inv(s, x) && Traced(acts, s, c, d, l, y) && Step(s, ByConsumer(c, e)) == Some(s')
    requires e.Synchronize? || e.WriteReply? || e.StoreReply?
    ensures Traced(acts + [ByConsumer(c, e)], s', c, d, l, if e.Synchronize? then |acts| else y)
  {
    var acts' := acts + [ByConsumer(c, e)];
    match e
    case Synchronize(synced, nowNs) =>
      OwedAfterSync(s, x, c, synced, nowNs, s');
      assert DeviceOk(acts', l, |acts|) == (s.consumers[c].pc.graphOk && synced);
    case WriteReply =>
      OwedAfterWrite(s, x, c, s', DeviceOk(acts, l, y));
      assert DeviceOk(acts', l, y) == DeviceOk(acts, l, y);
    case StoreReply =>
      OwedAfterStore(s, x, c, s', DeviceOk(acts, l, y));
      assert DeviceOk(acts', l, y) == DeviceOk(acts, l, y);
  }

  /** The answers of a batch tell what the device did. The batch whose response consumer `c` is about
      to store was dispatched at step `d`, launched at `l`, synchronised at `y` and consulted the device
      at no other step. A decodable slot ends with 200 and its own decision and score if the launch and
      the synchronisation both succeeded, and with 503, 0 and 0.0 otherwise; a slot that cannot be
      decoded ends with 422, 0 and 0.0. Without a device both succeed. */
  lemma AnswersTellTheDevice(k: Config, ex: Execution, s: State, c: nat, s': State) returns (d: nat, l: nat, y: nat)
    requires k.count >= 3 && ex.Valid(k) && ex.End() == s && Step(s, ByConsumer(c, StoreReply)) == Some(s')
    ensures d < l < y < |ex.acts|
    ensures ex.acts[d] == ByConsumer(c, Dispatch)
    ensures ex.acts[l].ByConsumer? && ex.acts[l].c == c && ex.acts[l].e.Launch?
    ensures ex.acts[y].ByConsumer? && ex.acts[y].c == c && ex.acts[y].e.Synchronize?
    ensures forall j :: d < j < |ex.acts| && DeviceStep(ex.acts[j], c) ==> j == l || j == y
    ensures s.consumers[c].pc.Completing? && s.consumers[c].pc.done < |s.consumers[c].staged|
    ensures var i, launched, synced := s.consumers[c].staged[s.consumers[c].pc.done], ex.acts[l].e.launched, ex.acts[y].e.synced;
            && i < |s'.mem.slots|
            && var slot := s'.mem.slots[i];
            && slot.completeNs == ex.acts[y].e.nowNs
            && (match Decode(slot, k.slotBytes)
                case None => AnswerOf(slot) == Answer(422, 0, 0.0)
                case Some(tx) =>
                  AnswerOf(slot) == if !(launched && synced) then Answer(503, 0, 0.0)
                                    else if tx.amountMicros >= 10_000_000 then Answer(200, 1, 0.9) else Answer(200, 0, 0.1))
            && (!k.cuda ==> launched && synced)
  {
    ConfigStays(k, ex, s);
    d, l, y := TraceBatch(k, ex, c);
    var x := EveryRunKeepsInv(k, ex);
    OwedAfterStore(s, x, c, s', DeviceOk(ex.acts, l, y));
  }
}
