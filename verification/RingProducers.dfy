/** Every step of a submitting thread keeps the ring invariant. */
module RingProducers {
  import opened Common
  import opened RingSlots
  import opened RingSystem
  import opened RingInvariant
  import opened RingMemory
  import opened RingFrames

  /** A thread moves on without touching shared memory. */
  lemma SilentMove(s: State, x: Aux, t: nat, pr: Producer)
    requires Inv(s, x)
    requires ProducerOk(s.mem, s.gateways.Keys, x.flights, t, pr)
    requires HeldPosition(pr) == if t in s.producers then HeldPosition(s.producers[t]) else None
    ensures Inv(s.WithProducer(t, pr), x)
  {
    ProducersUpdate(s.mem, s.mem, s.gateways.Keys, x.flights, x.flights, s.producers, t, pr);
    OnlyHeld(s.producers, s.gateways, x.flights, t);
    HoldersUpdate(s.producers, s.gateways, x.flights, x.flights, t, pr);
  }

  /** A thread stores into the slot of the position it is filling, possibly publishing it. */
  lemma OwnerWrite(s: State, x: Aux, t: nat, q: nat, stage: Stage, cell: Slot, pr: Producer)
    requires Inv(s, x) && t in s.producers
    requires HeldPosition(s.producers[t]) == Some(q) && HeldPosition(pr) == Some(q)
    requires Owns(x.flights, q, t) && x.flights[q].stage.Filling?
    requires stage.Filling? || stage.Published?
    requires cell.sequence == q + Lag(stage)
    requires ProducerOk(s.mem, s.gateways.Keys, Rewritten(x.flights, q, stage, cell), t, pr)
    ensures Inv(s.WithMemory(s.mem.With(q, cell)).WithProducer(t, pr), x.(flights := Rewritten(x.flights, q, stage, cell)))
  {
    var m, flights' := s.mem.With(q, cell), Rewritten(x.flights, q, stage, cell);
    assert CellOk(s.mem, q, x.flights[q]);
    WriteKeepsMemory(s.mem, x.flights, q, flights'[q]);
    ProducerFrame(s.mem, m, s.gateways.Keys, flights', flights', t, pr);
    ProducersUpdate(s.mem, m, s.gateways.Keys, x.flights, flights', s.producers, t, pr);
    GatewaysFrame(x.flights, flights', s.gateways, None);
    OnlyHeld(s.producers, s.gateways, x.flights, t);
    HoldersUpdate(s.producers, s.gateways, x.flights, flights', t, pr);
    DaemonFrame(s.mem, m, s.maxBatch, x.flights, flights', s.consumers, x.takes);
  }

  /** The winning CAS on `enqueue`. */
  lemma ClaimStep(s: State, x: Aux, t: nat, req: Request)
    requires Inv(s, x) && t in s.producers
    requires s.producers[t] == SawFree(req, s.mem.enqueue)
    ensures s.mem.enqueue !in x.flights && s.mem.At(s.mem.enqueue).sequence == s.mem.enqueue
    ensures Inv(s.WithMemory(s.mem.(enqueue := s.mem.enqueue + 1)).WithProducer(t, Held(req, s.mem.enqueue)),
                x.(flights := x.flights[s.mem.enqueue := Flight(HeldByProducer(t), Filling, 0, s.mem.At(s.mem.enqueue))]))
  {
    var e := s.mem.enqueue;
    var m, pr := s.mem.(enqueue := e + 1), Held(req, e);
    var flights' := x.flights[e := Flight(HeldByProducer(t), Filling, 0, s.mem.At(e))];
    assert ProducerOk(s.mem, s.gateways.Keys, x.flights, t, s.producers[t]);
    ClaimKeepsMemory(s.mem, x.flights, t);
    ProducersUpdate(s.mem, m, s.gateways.Keys, x.flights, flights', s.producers, t, pr);
    GatewaysFrame(x.flights, flights', s.gateways, None);
    OnlyHeld(s.producers, s.gateways, x.flights, t);
    HoldersUpdate(s.producers, s.gateways, x.flights, flights', t, pr);
    DaemonFrame(s.mem, m, s.maxBatch, x.flights, flights', s.consumers, x.takes);
  }

  /** The requester's own release. */
  lemma OwnerRelease(s: State, x: Aux, t: nat)
    requires Inv(s, x) && t in s.producers && s.producers[t].Releasing?
    ensures var pr := s.producers[t];
            && Owns(x.flights, pr.pos, t) && x.flights[pr.pos].stage.Answered?
            && Inv(s.WithMemory(s.mem.With(pr.pos, s.mem.At(pr.pos).(sequence := pr.pos + s.mem.Count())))
                    .WithProducer(t, Done(pr.req, pr.result)),
                   x.(flights := x.flights - {pr.pos}))
  {
    var pr := s.producers[t];
    var q, done := pr.pos, Done(pr.req, pr.result);
    assert ProducerOk(s.mem, s.gateways.Keys, x.flights, t, pr);
    var m, flights' := s.mem.With(q, s.mem.At(q).(sequence := q + s.mem.Count())), x.flights - {q};
    ReleaseKeepsMemory(s.mem, x.flights, q);
    ProducersUpdate(s.mem, m, s.gateways.Keys, x.flights, flights', s.producers, t, done);
    GatewaysFrame(x.flights, flights', s.gateways, None);
    OnlyHeld(s.producers, s.gateways, x.flights, t);
    HoldersUpdate(s.producers, s.gateways, x.flights, flights', t, done);
    assert CellOk(s.mem, q, x.flights[q]);
    DaemonFrame(s.mem, m, s.maxBatch, x.flights, flights', s.consumers, x.takes);
  }

  function Elements(v: seq<nat>): set<nat> {
    set e | e in v
  }

  lemma {:induction false} DistinctCount(v: seq<nat>)
    requires NoDuplicates(v)
    ensures |Elements(v)| == |v|
  {
    var members := Elements(v);
    if v == [] {
      assert members == {};
    } else {
      var rest, last := v[..|v| - 1], v[|v| - 1];
      assert v == rest + [last];
      assert last !in rest;
      DistinctCount(rest);
      assert Elements(rest) == members - {last};
      SetMinusOne(members, last);
    }
  }

  /** Positions waiting for one reclaimer are distinct positions in flight, so its lists have
      room for every position still held by a thread. */
  lemma ReclaimListHasRoom(m: Memory, flights: Flights, g: nat, gw: Gateway)
    requires MemoryOk(m, flights) && GatewayOk(flights, g, gw)
    ensures |gw.pending| + |gw.outstanding| <= m.Count()
    ensures (exists q :: q in flights && flights[q].holder.HeldByProducer?) ==> |gw.pending| + |gw.outstanding| < m.Count()
  {
    var all := gw.pending + gw.outstanding;
    var members := Elements(all);
    DistinctCount(all);
    var lo := m.enqueue - m.Count();
    forall q | q in flights ensures lo <= q < m.enqueue { assert CellOk(m, q, flights[q]); }
    forall q | q in members ensures q in flights && flights[q].holder == HeldByGateway(g) {
      assert Reclaims(flights, q, g);
    }
    WindowBoundsCardinality(members, lo, m.enqueue);
    if q :| q in flights && flights[q].holder.HeldByProducer? {
      WindowBoundsCardinality(members + {q}, lo, m.enqueue);
    }
  }

  /** Hand-off to the reclaimer: the position is never there already and the list is never full. */
  lemma PushStep(s: State, x: Aux, t: nat)
    requires Inv(s, x) && t in s.producers && s.producers[t].Pushing?
    ensures var pr := s.producers[t];
            && pr.req.gateway in s.gateways
            && var gw := s.gateways[pr.req.gateway];
            && pr.pos !in gw.pending && |gw.pending| < s.mem.Count()
            && Inv(s.WithGateway(pr.req.gateway, gw.(pending := gw.pending + [pr.pos]))
                    .WithProducer(t, Done(pr.req, pr.why)),
                   x.(flights := Rehomed(x.flights, pr.pos, pr.req.gateway)))
  {
    var pr := s.producers[t];
    var q, g, done := pr.pos, pr.req.gateway, Done(pr.req, pr.why);
    assert ProducerOk(s.mem, s.gateways.Keys, x.flights, t, pr);
    var gw := s.gateways[g];
    assert GatewayOk(x.flights, g, gw);
    ReclaimListHasRoom(s.mem, x.flights, g, gw);
    assert q !in gw.pending && q !in gw.outstanding by {
      assert !Reclaims(x.flights, q, g);
    }
    var gw' := gw.(pending := gw.pending + [q]);
    var gateways' := s.gateways[g := gw'];
    assert gateways'.Keys == s.gateways.Keys;
    var flights' := Rehomed(x.flights, q, g);
    RehomeKeepsMemory(s.mem, x.flights, q, g);
    ProducersUpdate(s.mem, s.mem, s.gateways.Keys, x.flights, flights', s.producers, t, done);
    PushedList(x.flights, g, gw, q);
    GatewaysUpdate(x.flights, flights', s.gateways, g, gw');
    PushedHolders(s.producers, s.gateways, x.flights, t, done, q, g);
    DaemonFrame(s.mem, s.mem, s.maxBatch, x.flights, flights', s.consumers, x.takes);
  }

  lemma PushedHolders(producers: map<nat, Producer>, gateways: map<nat, Gateway>, flights: Flights, t: nat, pr: Producer, q: nat, g: nat)
    requires HoldersOk(producers, gateways, flights) && t in producers && HeldPosition(producers[t]) == Some(q)
    requires Owns(flights, q, t) && g in gateways
    ensures HoldersOk(producers[t := pr], gateways[g := gateways[g].(pending := gateways[g].pending + [q])], Rehomed(flights, q, g))
  {
    var gw' := gateways[g].(pending := gateways[g].pending + [q]);
    var producers', gateways', flights' := producers[t := pr], gateways[g := gw'], Rehomed(flights, q, g);
    forall r | r in flights' ensures HolderOk(producers', gateways', r, flights'[r].holder) {
      assert HolderOk(producers, gateways, r, flights[r].holder);
      if r == q { assert gw'.pending[|gateways[g].pending|] == q; }
    }
  }

  lemma PushedList(flights: Flights, g: nat, gw: Gateway, q: nat)
    requires GatewayOk(flights, g, gw) && q !in gw.pending && q !in gw.outstanding
    requires q in flights && !flights[q].stage.Filling?
    ensures GatewayOk(Rehomed(flights, q, g), g, gw.(pending := gw.pending + [q]))
  {
    var flights' := Rehomed(flights, q, g);
    var before, after := gw.pending + gw.outstanding, gw.pending + [q] + gw.outstanding;
    var n := |gw.pending|;
    forall i, j | 0 <= i < j < |after| ensures after[i] != after[j] {
      if i == n {
        assert after[j] == gw.outstanding[j - n - 1];
      } else if j == n {
        assert after[i] == gw.pending[i];
      } else {
        assert after[i] == before[if i < n then i else i - 1];
        assert after[j] == before[if j < n then j else j - 1];
      }
    }
    forall r | r in gw.pending + [q] ensures Reclaims(flights', r, g) {
      if r != q { assert Reclaims(flights, r, g); }
    }
    forall r | r in gw.outstanding ensures Reclaims(flights', r, g) {
      assert Reclaims(flights, r, g);
    }
  }

  // ----- one lemma per program step -------------------------------------------------------

  /** The invariant tells a reader of a slot's sequence word which stage its position is in. */
  lemma SequenceShowsStage(m: Memory, flights: Flights, q: nat)
    requires MemoryOk(m, flights) && q in flights
    ensures m.At(q) == flights[q].cell
    ensures m.At(q).sequence == q + 2 <==> flights[q].stage.Answered?
    ensures m.At(q).sequence == q <==> flights[q].stage.Filling?
  {
    assert CellOk(m, q, flights[q]);
  }

  /** A loaded sequence equal to the loaded position means the previous generation is gone. */
  lemma FreeSequence(m: Memory, flights: Flights, pos: nat)
    requires MemoryOk(m, flights) && pos <= m.enqueue && m.At(pos).sequence == pos
    ensures pos == m.enqueue ==> pos < m.Count() || pos - m.Count() !in flights
  {
    if pos == m.enqueue {
      UnclaimedSequence(m, flights, pos);
    }
  }

  lemma ClaimLoopStep(s: State, x: Aux, t: nat, e: ProducerEvent, s': State)
    requires Inv(s, x) && t in s.producers && ProducerStep(s, t, e) == Some(s')
    requires e.LoadEnqueue? || e.GiveUp? || e.LoadSequence?
    ensures Inv(s', x)
  {
    var pr := s.producers[t];
    assert ProducerOk(s.mem, s.gateways.Keys, x.flights, t, pr);
    if e.LoadSequence? && s.mem.At(pr.pos).sequence == pr.pos {
      FreeSequence(s.mem, x.flights, pr.pos);
    }
    SilentMove(s, x, t, s'.producers[t]);
  }

  lemma CasStep(s: State, x: Aux, t: nat, e: ProducerEvent, s': State)
    requires Inv(s, x) && t in s.producers && e.CasEnqueue? && ProducerStep(s, t, e) == Some(s')
    ensures Inv(s', x.(flights := ProducerFlights(s, x.flights, t, e, s')))
  {
    var pr := s.producers[t];
    assert ProducerOk(s.mem, s.gateways.Keys, x.flights, t, pr);
    if s'.mem.enqueue != s.mem.enqueue {
      ClaimStep(s, x, t, pr.req);
    } else {
      SilentMove(s, x, t, s'.producers[t]);
    }
  }

  lemma SerializeStep(s: State, x: Aux, t: nat, e: ProducerEvent, s': State)
    requires Inv(s, x) && t in s.producers && ProducerStep(s, t, e) == Some(s')
    requires e.Serialize? || e.FailSerialize?
    ensures Inv(s', x.(flights := ProducerFlights(s, x.flights, t, e, s')))
  {
    var pr := s.producers[t];
    assert ProducerOk(s.mem, s.gateways.Keys, x.flights, t, pr);
    SequenceShowsStage(s.mem, x.flights, pr.pos);
    OwnerWrite(s, x, t, pr.pos, Filling, s'.mem.At(pr.pos), s'.producers[t]);
  }

  lemma MetadataStep(s: State, x: Aux, t: nat, s': State)
    requires Inv(s, x) && t in s.producers && ProducerStep(s, t, WriteMetadata) == Some(s')
    ensures Inv(s', x.(flights := ProducerFlights(s, x.flights, t, WriteMetadata, s')))
  {
    var pr := s.producers[t];
    assert ProducerOk(s.mem, s.gateways.Keys, x.flights, t, pr);
    SequenceShowsStage(s.mem, x.flights, pr.pos);
    OwnerWrite(s, x, t, pr.pos, Filling, s'.mem.At(pr.pos), s'.producers[t]);
  }

  lemma PublishStep(s: State, x: Aux, t: nat, s': State)
    requires Inv(s, x) && t in s.producers && ProducerStep(s, t, StoreSequence) == Some(s')
    ensures Inv(s', x.(flights := ProducerFlights(s, x.flights, t, StoreSequence, s')))
  {
    var pr := s.producers[t];
    assert ProducerOk(s.mem, s.gateways.Keys, x.flights, t, pr);
    SequenceShowsStage(s.mem, x.flights, pr.pos);
    OwnerWrite(s, x, t, pr.pos, Published, s'.mem.At(pr.pos), s'.producers[t]);
  }

  lemma WaitStep(s: State, x: Aux, t: nat, e: ProducerEvent, s': State)
    requires Inv(s, x) && t in s.producers && ProducerStep(s, t, e) == Some(s')
    requires e.ExpireBeforePublish? || e.PollSequence? || e.ExpireWaiting? || e.HandoffLoad?
    ensures Inv(s', x)
  {
    var pr := s.producers[t];
    assert ProducerOk(s.mem, s.gateways.Keys, x.flights, t, pr);
    SequenceShowsStage(s.mem, x.flights, pr.pos);
    SilentMove(s, x, t, s'.producers[t]);
  }

  /** Reading an answered slot of one's own request gives a good outcome. */
  lemma ResponseIsMine(cell: Slot, req: Request, slotBytes: nat, cuda: bool)
    requires Carries(cell, req, false, slotBytes)
    requires AnswerFits(AnswerOf(cell), Decode(cell, slotBytes), cuda)
    ensures Decode(cell, slotBytes) == Some(TransactionOf(req))
    ensures ReadResponse(cell, req.id).Response? && OutcomeOk(req, ReadResponse(cell, req.id), cuda)
  {
  }

  lemma FinishStep(s: State, x: Aux, t: nat, e: ProducerEvent, s': State)
    requires Inv(s, x) && t in s.producers && ProducerStep(s, t, e) == Some(s')
    requires e.Push? || e.ReadSlot? || e.StoreRelease?
    ensures Inv(s', x.(flights := ProducerFlights(s, x.flights, t, e, s')))
  {
    var pr := s.producers[t];
    assert ProducerOk(s.mem, s.gateways.Keys, x.flights, t, pr);
    if e.Push? {
      PushStep(s, x, t);
      var gw := s.gateways[pr.req.gateway];
      assert (gw.pending + [pr.pos])[|gw.pending|] == pr.pos;
      assert s'.gateways[pr.req.gateway] != gw;
    } else if e.StoreRelease? {
      OwnerRelease(s, x, t);
    } else {
      SequenceShowsStage(s.mem, x.flights, pr.pos);
      assert CellOk(s.mem, pr.pos, x.flights[pr.pos]);
      ResponseIsMine(x.flights[pr.pos].cell, pr.req, s.mem.slotBytes, s.mem.cuda);
      SilentMove(s, x, t, s'.producers[t]);
    }
  }

  lemma ProducerStepKeepsInv(s: State, x: Aux, t: nat, e: ProducerEvent, s': State)
    requires Inv(s, x) && t in s.producers && ProducerStep(s, t, e) == Some(s')
    ensures Inv(s', x.(flights := ProducerFlights(s, x.flights, t, e, s')))
  {
    match e
    case LoadEnqueue => ClaimLoopStep(s, x, t, e, s');
    case GiveUp(_) => ClaimLoopStep(s, x, t, e, s');
    case LoadSequence => ClaimLoopStep(s, x, t, e, s');
    case CasEnqueue(_, _) => CasStep(s, x, t, e, s');
    case Serialize(_, _) => SerializeStep(s, x, t, e, s');
    case FailSerialize(_) => SerializeStep(s, x, t, e, s');
    case WriteMetadata => MetadataStep(s, x, t, s');
    case StoreSequence => PublishStep(s, x, t, s');
    case ExpireBeforePublish => WaitStep(s, x, t, e, s');
    case AddReady => AddReadyStep(s, x, t, s');
    case PollSequence => WaitStep(s, x, t, e, s');
    case ExpireWaiting => WaitStep(s, x, t, e, s');
    case HandoffLoad => WaitStep(s, x, t, e, s');
    case Push => FinishStep(s, x, t, e, s');
    case ReadSlot => FinishStep(s, x, t, e, s');
    case StoreRelease => FinishStep(s, x, t, e, s');
  }

  /** ready_count is no part of the ring invariant. */
  lemma AddReadyStep(s: State, x: Aux, t: nat, s': State)
    requires Inv(s, x) && t in s.producers && ProducerStep(s, t, AddReady) == Some(s')
    ensures Inv(s', x)
  {
    assert ProducerOk(s.mem, s.gateways.Keys, x.flights, t, s.producers[t]);
    SilentMove(s, x, t, s'.producers[t]);
    assert s' == s.WithProducer(t, s'.producers[t]).(readyCount := s'.readyCount);
  }
}
