/** Every step of a daemon consumer keeps the ring invariant. */
module RingConsumers {
  import opened Common
  import opened RingSlots
  import opened RingSystem
  import opened RingInvariant
  import opened RingMemory
  import opened RingFrames
  import opened RingProducers

  /** What a consumer has on its hands. */
  ghost predicate InHand(co: Consumer, ts: seq<nat>, q: nat) {
    co.pc == Taken(q) || exists i {:trigger ts[i]} :: DoneCount(co.pc) <= i < |ts| && ts[i] == q
  }

  lemma TakersUpdate(flights: Flights, flights': Flights, consumers: map<nat, Consumer>, takes: map<nat, seq<nat>>,
                     c: nat, co: Consumer, ts: seq<nat>)
    requires TakersOk(flights, consumers, takes)
    requires forall q {:trigger q in flights'} :: q in flights' && flights'[q].stage.Drained? && flights'[q].taker != c ==>
      q in flights && flights[q].stage.Drained? && flights[q].taker == flights'[q].taker
    requires forall q {:trigger q in flights'} :: q in flights' && Drains(flights', q, c) ==> InHand(co, ts, q)
    ensures TakersOk(flights', consumers[c := co], takes[c := ts])
  {
    var consumers', takes' := consumers[c := co], takes[c := ts];
    forall q | q in flights' && flights'[q].stage.Drained? ensures TakerOk(consumers', takes', q, flights'[q].taker) {
      if flights'[q].taker == c {
        assert InHand(co, ts, q);
      } else {
        assert TakerOk(consumers, takes, q, flights[q].taker);
      }
    }
  }

  /** The consumer's own drained positions are in its hands. */
  lemma MineInHand(s: State, x: Aux, c: nat)
    requires Inv(s, x) && c in s.consumers
    ensures forall q {:trigger q in x.flights} :: q in x.flights && Drains(x.flights, q, c) ==>
      InHand(s.consumers[c], x.takes[c], q)
  {
    forall q | q in x.flights && Drains(x.flights, q, c) ensures InHand(s.consumers[c], x.takes[c], q) {
      assert TakerOk(s.consumers, x.takes, q, x.flights[q].taker);
    }
  }

  /** A consumer moves on without touching shared memory. */
  lemma ConsumerMove(s: State, x: Aux, c: nat, co: Consumer, ts: seq<nat>)
    requires Inv(s, x) && c in s.consumers
    requires ConsumerOk(s.mem, s.maxBatch, x.flights, c, co, ts)
    requires forall q: nat {:trigger InHand(co, ts, q)} :: InHand(s.consumers[c], x.takes[c], q) ==> InHand(co, ts, q)
    ensures Inv(s.WithConsumer(c, co), x.(takes := x.takes[c := ts]))
  {
    ConsumersUpdate(s.mem, s.mem, s.maxBatch, x.flights, x.flights, s.consumers, x.takes, c, co, ts);
    MineInHand(s, x, c);
    forall q | q in x.flights && Drains(x.flights, q, c) ensures InHand(co, ts, q) {
      assert InHand(s.consumers[c], x.takes[c], q);
    }
    TakersUpdate(x.flights, x.flights, s.consumers, x.takes, c, co, ts);
  }

  /** A program-counter move that leaves the staged slots alone. */
  lemma PcMove(s: State, x: Aux, c: nat, pc: ConsumerPc)
    requires Inv(s, x) && c in s.consumers
    requires !s.consumers[c].pc.Taken? && DoneCount(s.consumers[c].pc) == 0 == DoneCount(pc)
    requires PcOk(s.mem, s.maxBatch, x.flights, c, pc, x.takes[c])
    ensures Inv(s.WithConsumer(c, s.consumers[c].(pc := pc)), x)
  {
    var co, ts := s.consumers[c].(pc := pc), x.takes[c];
    assert ConsumerOk(s.mem, s.maxBatch, x.flights, c, s.consumers[c], ts);
    forall q: nat | InHand(s.consumers[c], ts, q) ensures InHand(co, ts, q) {
      var i :| DoneCount(s.consumers[c].pc) <= i < |ts| && ts[i] == q;
      assert ts[i] == q;
    }
    ConsumerMove(s, x, c, co, ts);
    assert x.(takes := x.takes[c := ts]) == x;
  }

  /** A slot seen at pos + 1 while pos is the head is the published head. */
  lemma ReadySequence(m: Memory, flights: Flights, pos: nat)
    requires MemoryOk(m, flights) && pos <= m.dequeue && m.At(pos).sequence == pos + 1
    ensures pos == m.dequeue ==> pos in flights && flights[pos].stage.Published?
  {
    if pos == m.dequeue {
      UnclaimedSequence(m, flights, m.enqueue);
      assert pos in flights ==> CellOk(m, pos, flights[pos]);
    }
  }

  lemma PollStep(s: State, x: Aux, c: nat, e: ConsumerEvent, s': State)
    requires Inv(s, x) && c in s.consumers && ConsumerStep(s, c, e) == Some(s')
    requires e.LoadDequeue? || e.LoadReadySequence? || (e.CasDequeue? && s'.mem == s.mem)
    ensures Inv(s', x)
  {
    var co := s.consumers[c];
    assert ConsumerOk(s.mem, s.maxBatch, x.flights, c, co, x.takes[c]);
    if e.LoadReadySequence? && s.mem.At(co.pc.pos).sequence == co.pc.pos + 1 {
      ReadySequence(s.mem, x.flights, co.pc.pos);
    }
    PcMove(s, x, c, s'.consumers[c].pc);
  }

  /** Who must release a position does not depend on what the daemon does to it. */
  lemma HoldersFrame(producers: map<nat, Producer>, gateways: map<nat, Gateway>, flights: Flights, flights': Flights)
    requires HoldersOk(producers, gateways, flights) && flights'.Keys == flights.Keys
    requires forall q {:trigger flights'[q]} :: q in flights' ==> flights'[q].holder == flights[q].holder
    ensures HoldersOk(producers, gateways, flights')
  {
    forall q | q in flights' ensures HolderOk(producers, gateways, q, flights'[q].holder) {
      assert HolderOk(producers, gateways, q, flights[q].holder);
    }
  }

  /** The winning CAS on `dequeue`. */
  lemma DrainStep(s: State, x: Aux, c: nat)
    requires Inv(s, x) && c in s.consumers && s.consumers[c].pc == SawReady(s.mem.dequeue)
    ensures Inv(s.WithMemory(s.mem.(dequeue := s.mem.dequeue + 1))
                 .WithConsumer(c, s.consumers[c].(pc := Taken(s.mem.dequeue))),
                x.(flights := DrainedBy(x.flights, s.mem.dequeue, c)))
  {
    var d, co, ts := s.mem.dequeue, s.consumers[c], x.takes[c];
    var m, flights', co' := s.mem.(dequeue := d + 1), DrainedBy(x.flights, d, c), co.(pc := Taken(d));
    assert ConsumerOk(s.mem, s.maxBatch, x.flights, c, co, ts);
    DrainKeepsMemory(s.mem, x.flights, c);
    OthersFrame(s.mem, m, s.gateways.Keys, x.flights, flights', s.producers, None);
    GatewaysFrame(x.flights, flights', s.gateways, None);
    HoldersFrame(s.producers, s.gateways, x.flights, flights');
    DrainedConsumer(s.mem, s.maxBatch, x.flights, c, co, ts);
    ConsumersUpdate(s.mem, m, s.maxBatch, x.flights, flights', s.consumers, x.takes, c, co', ts);
    DrainedTakers(s, x, c);
    assert x.takes[c := ts] == x.takes;
  }

  lemma DrainedTakers(s: State, x: Aux, c: nat)
    requires Inv(s, x) && c in s.consumers && s.consumers[c].pc == SawReady(s.mem.dequeue)
    ensures TakersOk(DrainedBy(x.flights, s.mem.dequeue, c),
                     s.consumers[c := s.consumers[c].(pc := Taken(s.mem.dequeue))], x.takes[c := x.takes[c]])
  {
    var d, co, ts := s.mem.dequeue, s.consumers[c], x.takes[c];
    var flights', co' := DrainedBy(x.flights, d, c), co.(pc := Taken(d));
    MineInHand(s, x, c);
    forall q | q in flights' && Drains(flights', q, c) ensures InHand(co', ts, q) {
      if q != d {
        assert q in x.flights && Drains(x.flights, q, c);
        assert InHand(co, ts, q);
        var i :| DoneCount(co.pc) <= i < |ts| && ts[i] == q;
        assert ts[i] == q;
      }
    }
    TakersUpdate(x.flights, flights', s.consumers, x.takes, c, co', ts);
  }

  lemma DrainedConsumer(m: Memory, maxBatch: nat, flights: Flights, c: nat, co: Consumer, ts: seq<nat>)
    requires m.Count() > 0 && ConsumerOk(m, maxBatch, flights, c, co, ts) && co.pc == SawReady(m.dequeue)
    ensures ConsumerOk(m.(dequeue := m.dequeue + 1), maxBatch, DrainedBy(flights, m.dequeue, c), c, co.(pc := Taken(m.dequeue)), ts)
  {
    var flights' := DrainedBy(flights, m.dequeue, c);
    forall i | 0 <= i < |ts| ensures Drains(flights', ts[i], c) && ts[i] != m.dequeue {
      assert Drains(flights, ts[i], c);
    }
  }

  lemma StageStep(s: State, x: Aux, c: nat, s': State)
    requires Inv(s, x) && c in s.consumers && ConsumerStep(s, c, StageTaken) == Some(s')
    ensures Inv(s', x.(takes := ConsumerTakes(s, x, c, StageTaken)))
  {
    var co, ts := s.consumers[c], x.takes[c];
    assert ConsumerOk(s.mem, s.maxBatch, x.flights, c, co, ts);
    var co', ts' := s'.consumers[c], ts + [co.pc.pos];
    assert forall i :: 0 <= i < |ts| ==> ts'[i] == ts[i] && co'.staged[i] == co.staged[i];
    assert NoDuplicates(ts');
    assert ConsumerOk(s.mem, s.maxBatch, x.flights, c, co', ts');
    forall q: nat | InHand(co, ts, q) ensures InHand(co', ts', q) {
      if co.pc == Taken(q) {
        assert ts'[|ts|] == q;
      } else {
        var i :| DoneCount(co.pc) <= i < |ts| && ts[i] == q;
        assert ts'[i] == q;
      }
    }
    ConsumerMove(s, x, c, co', ts');
    assert s' == s.WithConsumer(c, co').(readyCount := s'.readyCount);
  }

  lemma HandlerStep(s: State, x: Aux, c: nat, e: ConsumerEvent, s': State)
    requires Inv(s, x) && c in s.consumers && ConsumerStep(s, c, e) == Some(s')
    requires e.Dispatch? || e.DecodeNext? || e.Launch?
    ensures Inv(s', x)
  {
    var co, ts := s.consumers[c], x.takes[c];
    assert ConsumerOk(s.mem, s.maxBatch, x.flights, c, co, ts);
    if e.DecodeNext? {
      var i := |co.pc.views|;
      assert Drains(x.flights, ts[i], c);
      SequenceShowsStage(s.mem, x.flights, ts[i]);
    }
    PcMove(s, x, c, s'.consumers[c].pc);
  }

  /** The handler recovers the right position from the slot's own sequence word. */
  lemma RecoveredPosition(m: Memory, flights: Flights, q: nat, c: nat)
    requires MemoryOk(m, flights) && Drains(flights, q, c)
    ensures m.At(q).sequence - 1 == q
  {
    assert CellOk(m, q, flights[q]);
  }

  lemma PrepareStep(s: State, x: Aux, c: nat, s': State)
    requires Inv(s, x) && c in s.consumers && ConsumerStep(s, c, PrepareNext) == Some(s')
    ensures Inv(s', x)
  {
    var co, ts := s.consumers[c], x.takes[c];
    assert ConsumerOk(s.mem, s.maxBatch, x.flights, c, co, ts);
    var i, pc := |co.pc.replies|, co.pc;
    assert Drains(x.flights, ts[i], c);
    RecoveredPosition(s.mem, x.flights, ts[i], c);
    var replies' := s'.consumers[c].pc.replies;
    assert pc.views[i] == Decode(x.flights[ts[i]].cell, s.mem.slotBytes);
    forall k | 0 <= k < |replies'|
      ensures ReplyOk(x.flights, s.mem.slotBytes, s.mem.cuda, replies'[k], ts[k])
      ensures replies'[k].answer == Verdict(pc.views[k], pc.graphOk)
    {
      if k < i { assert replies'[k] == pc.replies[k]; }
    }
    PcMove(s, x, c, s'.consumers[c].pc);
  }

  lemma SynchronizeStep(s: State, x: Aux, c: nat, e: ConsumerEvent, s': State)
    requires Inv(s, x) && c in s.consumers && e.Synchronize? && ConsumerStep(s, c, e) == Some(s')
    ensures Inv(s', x)
  {
    var co, ts := s.consumers[c], x.takes[c];
    assert ConsumerOk(s.mem, s.maxBatch, x.flights, c, co, ts);
    var pc, replies' := co.pc, s'.consumers[c].pc.replies;
    forall k | 0 <= k < |replies'| ensures ReplyOk(x.flights, s.mem.slotBytes, s.mem.cuda, replies'[k], ts[k]) {
      assert ReplyOk(x.flights, s.mem.slotBytes, s.mem.cuda, pc.replies[k], ts[k]);
      assert pc.views[k] == Decode(x.flights[ts[k]].cell, s.mem.slotBytes);
    }
    PcMove(s, x, c, s'.consumers[c].pc);
  }

  /** A consumer stores into the slot of a position it has drained. */
  lemma ConsumerWrite(s: State, x: Aux, c: nat, q: nat, stage: Stage, cell: Slot, co: Consumer, ts: seq<nat>)
    requires Inv(s, x) && c in s.consumers && Drains(x.flights, q, c)
    requires stage.Drained? || stage.Answered?
    requires cell.sequence == q + Lag(stage)
    requires SamePayload(x.flights[q].cell, cell)
    requires stage.Answered? ==> AnswerFits(AnswerOf(cell), Decode(cell, s.mem.slotBytes), s.mem.cuda)
    requires ConsumerOk(s.mem, s.maxBatch, Rewritten(x.flights, q, stage, cell), c, co, ts)
    requires forall r: nat {:trigger InHand(co, ts, r)} ::
      InHand(s.consumers[c], x.takes[c], r) && (r != q || stage.Drained?) ==> InHand(co, ts, r)
    ensures Inv(s.WithMemory(s.mem.With(q, cell)).WithConsumer(c, co),
                Aux(Rewritten(x.flights, q, stage, cell), x.takes[c := ts]))
  {
    var m, flights' := s.mem.With(q, cell), Rewritten(x.flights, q, stage, cell);
    assert CellOk(s.mem, q, x.flights[q]);
    WriteKeepsMemory(s.mem, x.flights, q, flights'[q]);
    OthersFrame(s.mem, m, s.gateways.Keys, x.flights, flights', s.producers, None);
    GatewaysFrame(x.flights, flights', s.gateways, None);
    HoldersFrame(s.producers, s.gateways, x.flights, flights');
    StagedFrame(s.mem, m, flights', flights', c, co, ts);
    PcFrame(s.mem, m, s.maxBatch, flights', flights', c, co, ts);
    ConsumersUpdate(s.mem, m, s.maxBatch, x.flights, flights', s.consumers, x.takes, c, co, ts);
    WrittenTakers(s, x, c, q, stage, cell, co, ts);
  }

  lemma WrittenTakers(s: State, x: Aux, c: nat, q: nat, stage: Stage, cell: Slot, co: Consumer, ts: seq<nat>)
    requires Inv(s, x) && c in s.consumers && Drains(x.flights, q, c)
    requires stage.Drained? || stage.Answered?
    requires forall r: nat {:trigger InHand(co, ts, r)} ::
      InHand(s.consumers[c], x.takes[c], r) && (r != q || stage.Drained?) ==> InHand(co, ts, r)
    ensures TakersOk(Rewritten(x.flights, q, stage, cell), s.consumers[c := co], x.takes[c := ts])
  {
    var flights' := Rewritten(x.flights, q, stage, cell);
    MineInHand(s, x, c);
    forall r | r in flights' && Drains(flights', r, c) ensures InHand(co, ts, r) {
      assert r in x.flights && Drains(x.flights, r, c);
      assert InHand(s.consumers[c], x.takes[c], r);
    }
    TakersUpdate(x.flights, flights', s.consumers, x.takes, c, co, ts);
  }

  lemma WriteReplyStep(s: State, x: Aux, c: nat, s': State)
    requires Inv(s, x) && c in s.consumers && ConsumerStep(s, c, WriteReply) == Some(s')
    ensures Inv(s', x.(flights := ConsumerFlights(s, x, c, WriteReply, s')))
  {
    var co, ts, pc := s.consumers[c], x.takes[c], s.consumers[c].pc;
    assert ConsumerOk(s.mem, s.maxBatch, x.flights, c, co, ts);
    var q := ts[pc.done];
    assert Drains(x.flights, q, c);
    SequenceShowsStage(s.mem, x.flights, q);
    assert CellOk(s.mem, q, x.flights[q]);
    var co', cell := s'.consumers[c], s'.mem.At(q);
    var flights' := Rewritten(x.flights, q, Drained, cell);
    WrittenConsumer(s.mem, s.maxBatch, x.flights, c, co, ts, cell);
    forall r: nat | InHand(co, ts, r) ensures InHand(co', ts, r) {
      var i :| DoneCount(co.pc) <= i < |ts| && ts[i] == r;
      assert ts[i] == r;
    }
    ConsumerWrite(s, x, c, q, Drained, cell, co', ts);
    assert x.takes[c := ts] == x.takes;
  }

  lemma WrittenConsumer(m: Memory, maxBatch: nat, flights: Flights, c: nat, co: Consumer, ts: seq<nat>, cell: Slot)
    requires m.Count() > 0 && ConsumerOk(m, maxBatch, flights, c, co, ts) && co.pc.Completing? && !co.pc.written
    requires SamePayload(flights[ts[co.pc.done]].cell, cell)
    requires AnswerOf(cell) == co.pc.replies[co.pc.done].answer
    ensures ConsumerOk(m, maxBatch, Rewritten(flights, ts[co.pc.done], Drained, cell), c, co.(pc := co.pc.(written := true)), ts)
  {
    var pc := co.pc;
    var flights' := Rewritten(flights, ts[pc.done], Drained, cell);
    forall i | pc.done <= i < |ts|
      ensures Drains(flights', ts[i], c) && ReplyOk(flights', m.slotBytes, m.cuda, pc.replies[i], ts[i])
    {
      assert Drains(flights, ts[i], c) && ReplyOk(flights, m.slotBytes, m.cuda, pc.replies[i], ts[i]);
    }
  }

  /** What StoreReply does: it stores q + 2 into the slot of the position q it owes a response. */
  lemma StoredSlot(s: State, x: Aux, c: nat, s': State)
    requires Inv(s, x) && c in s.consumers && ConsumerStep(s, c, StoreReply) == Some(s')
    ensures ConsumerOk(s.mem, s.maxBatch, x.flights, c, s.consumers[c], x.takes[c]) && s.consumers[c].pc.Completing?
    ensures var q := x.takes[c][s.consumers[c].pc.done];
            var cell := s'.mem.At(q);
            && Drains(x.flights, q, c) && cell.sequence == q + 2 && SamePayload(x.flights[q].cell, cell)
            && AnswerFits(AnswerOf(cell), Decode(cell, s.mem.slotBytes), s.mem.cuda)
            && s' == s.WithMemory(s.mem.With(q, cell)).WithConsumer(c, s'.consumers[c])
  {
    var co, ts, pc := s.consumers[c], x.takes[c], s.consumers[c].pc;
    assert ConsumerOk(s.mem, s.maxBatch, x.flights, c, co, ts);
    var q := ts[pc.done];
    assert Drains(x.flights, q, c) && ReplyOk(x.flights, s.mem.slotBytes, s.mem.cuda, pc.replies[pc.done], q);
    SequenceShowsStage(s.mem, x.flights, q);
    assert CellOk(s.mem, q, x.flights[q]);
  }

  /** The answered position leaves the consumer's hands, and no other does. */
  lemma StoredHand(co: Consumer, ts: seq<nat>, co': Consumer, ts': seq<nat>, q: nat)
    requires co.pc.Completing? && co.pc.done < |ts| && ts[co.pc.done] == q
    requires ts' == (if co.pc.done + 1 == |ts| then [] else ts)
    requires co'.pc == (if co.pc.done + 1 == |ts| then Polling else co.pc.(done := co.pc.done + 1, written := false))
    ensures forall r: nat {:trigger InHand(co', ts', r)} :: InHand(co, ts, r) && r != q ==> InHand(co', ts', r)
  {
    forall r: nat | InHand(co, ts, r) && r != q ensures InHand(co', ts', r) {
      var i :| DoneCount(co.pc) <= i < |ts| && ts[i] == r;
      assert ts'[i] == r;
    }
  }

  lemma StoreReplyStep(s: State, x: Aux, c: nat, s': State)
    requires Inv(s, x) && c in s.consumers && ConsumerStep(s, c, StoreReply) == Some(s')
    ensures Inv(s', Aux(ConsumerFlights(s, x, c, StoreReply, s'), ConsumerTakes(s, x, c, StoreReply)))
  {
    var co, ts, pc := s.consumers[c], x.takes[c], s.consumers[c].pc;
    StoredSlot(s, x, c, s');
    var q := ts[pc.done];
    var ts' := if pc.done + 1 == |ts| then [] else ts;
    StoredConsumer(s.mem, s.maxBatch, x.flights, c, co, ts, s'.mem.At(q));
    StoredHand(co, ts, s'.consumers[c], ts', q);
    ConsumerWrite(s, x, c, q, Answered, s'.mem.At(q), s'.consumers[c], ts');
    assert x.takes[c := ts] == x.takes;
  }

  lemma StoredConsumer(m: Memory, maxBatch: nat, flights: Flights, c: nat, co: Consumer, ts: seq<nat>, cell: Slot)
    requires m.Count() > 0 && ConsumerOk(m, maxBatch, flights, c, co, ts) && co.pc.Completing?
    ensures var pc := co.pc;
            var last := pc.done + 1 == |ts|;
            ConsumerOk(m, maxBatch, Rewritten(flights, ts[pc.done], Answered, cell), c,
                       if last then Consumer([], Polling) else co.(pc := pc.(done := pc.done + 1, written := false)),
                       if last then [] else ts)
  {
    var pc := co.pc;
    var flights' := Rewritten(flights, ts[pc.done], Answered, cell);
    forall i | pc.done + 1 <= i < |ts|
      ensures Drains(flights', ts[i], c) && ReplyOk(flights', m.slotBytes, m.cuda, pc.replies[i], ts[i])
    {
      assert Drains(flights, ts[i], c) && ReplyOk(flights, m.slotBytes, m.cuda, pc.replies[i], ts[i]);
    }
  }

  lemma BatchStep(s: State, x: Aux, c: nat, e: ConsumerEvent, s': State)
    requires Inv(s, x) && c in s.consumers && ConsumerStep(s, c, e) == Some(s')
    requires e.Dispatch? || e.DecodeNext? || e.Launch? || e.PrepareNext? || e.Synchronize?
    ensures Inv(s', x)
  {
    if e.PrepareNext? { PrepareStep(s, x, c, s'); }
    else if e.Synchronize? { SynchronizeStep(s, x, c, e, s'); }
    else { HandlerStep(s, x, c, e, s'); }
  }

  lemma ConsumerStepKeepsInv(s: State, x: Aux, c: nat, e: ConsumerEvent, s': State)
    requires Inv(s, x) && c in s.consumers && ConsumerStep(s, c, e) == Some(s')
    ensures Inv(s', Aux(ConsumerFlights(s, x, c, e, s'), ConsumerTakes(s, x, c, e)))
  {
    match e
    case LoadDequeue => PollStep(s, x, c, e, s');
    case LoadReadySequence => PollStep(s, x, c, e, s');
    case CasDequeue(_) => if s'.mem.dequeue == s.mem.dequeue { PollStep(s, x, c, e, s'); } else { DrainStep(s, x, c); }
    case StageTaken => StageStep(s, x, c, s');
    case WriteReply => WriteReplyStep(s, x, c, s');
    case StoreReply => StoreReplyStep(s, x, c, s');
    case _ => BatchStep(s, x, c, e, s');
  }
}
