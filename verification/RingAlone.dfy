/** What one thread gets when it is left alone: a submitter a position or the report that the ring is
    full, a consumer the head of the queue or nothing, from every reachable state. */
module RingAlone {
  import opened Common
  import opened RingSlots
  import opened Addressing
  import opened RingSystem
  import opened RingInvariant
  import opened RingMemory
  import opened RingProducers
  import opened RingTheorems
  import opened RingRuns
  import opened RingGuarantees

  /** reserve_slot without interference: one pass through the loop claims the position at the enqueue
      cursor, unless the ring is full, and then it says so. */
  lemma ReserveAlone(k: Config, ex: Execution, s: State, t: nat) returns (ex': Execution)
    requires k.count >= 3 && ex.Valid(k) && ex.End() == s && t in s.producers && s.producers[t].Claiming?
    ensures ex'.From(s)
    ensures var req, full := s.producers[t].req, RingFull(k.count, ex.notes, s.mem, s.mem.enqueue);
            && ex'.acts == [ByProducer(t, LoadEnqueue), ByProducer(t, LoadSequence)]
                           + (if full then [] else [ByProducer(t, CasEnqueue(false, false))])
            && ex'.End() == if full then s.WithProducer(t, Done(req, Failed(Full)))
                            else s.WithMemory(s.mem.(enqueue := s.mem.enqueue + 1)).WithProducer(t, Held(req, s.mem.enqueue))
  {
    var x := EveryRunKeepsInv(k, ex);
    ConfigStays(k, ex, s);
    var req, e := s.producers[t].req, s.mem.enqueue;
    assert e >= k.count ==> Balanced(ex.notes, s.mem, x.flights, e - k.count);
    UnclaimedSequence(s.mem, x.flights, e);
    ex' := ReservePass(s, t);
  }

  /** What one pass of a submitter left alone comes to. */
  function Reserved(s: State, t: nat, req: Request): State
    requires s.mem.Count() > 0
  {
    var e := s.mem.enqueue;
    if s.mem.At(e).sequence < e then s.WithProducer(t, Done(req, Failed(Full)))
    else s.WithMemory(s.mem.(enqueue := e + 1)).WithProducer(t, Held(req, e))
  }

  lemma ReservePass(s: State, t: nat) returns (ex: Execution)
    requires s.mem.Count() > 0 && t in s.producers && s.producers[t].Claiming? && s.mem.At(s.mem.enqueue).sequence <= s.mem.enqueue
    ensures ex.From(s) && ex.End() == Reserved(s, t, s.producers[t].req)
    ensures ex.acts == [ByProducer(t, LoadEnqueue), ByProducer(t, LoadSequence)]
                       + (if s.mem.At(s.mem.enqueue).sequence < s.mem.enqueue then [] else [ByProducer(t, CasEnqueue(false, false))])
  {
    var req := s.producers[t].req;
    var s1 := s.WithProducer(t, LoadedEnqueue(req, s.mem.enqueue));
    ex := Extend(s, Stay(s), ByProducer(t, LoadEnqueue), s1);
    ex := LoadedPass(s, ex, t, req);
  }

  lemma LoadedPass(s: State, ex: Execution, t: nat, req: Request) returns (ex': Execution)
    requires s.mem.Count() > 0 && t in s.producers && s.mem.At(s.mem.enqueue).sequence <= s.mem.enqueue
    requires ex.From(s) && ex.End() == s.WithProducer(t, LoadedEnqueue(req, s.mem.enqueue))
    ensures ex'.From(s) && ex'.End() == Reserved(s, t, req)
    ensures ex'.acts == ex.acts + [ByProducer(t, LoadSequence)]
                        + (if s.mem.At(s.mem.enqueue).sequence < s.mem.enqueue then [] else [ByProducer(t, CasEnqueue(false, false))])
  {
    var e, s1 := s.mem.enqueue, ex.End();
    if s.mem.At(e).sequence < e {
      ex' := Extend(s, ex, ByProducer(t, LoadSequence), s1.WithProducer(t, Done(req, Failed(Full))));
      assert ex'.End().producers == s.producers[t := Done(req, Failed(Full))];
    } else {
      var s2 := s1.WithProducer(t, SawFree(req, e));
      var s3 := s2.WithMemory(s.mem.(enqueue := e + 1)).WithProducer(t, Held(req, e));
      ex' := Extend(s, ex, ByProducer(t, LoadSequence), s2);
      ex' := Extend(s, ex', ByProducer(t, CasEnqueue(false, false)), s3);
      assert s3.producers == s.producers[t := Held(req, e)];
    }
  }

  /** The same after a lost race: a submitter whose compare-and-swap fails because the cursor has moved
      on, and who is then left alone, gets the position now at the cursor, or the report that the ring
      is full, whether it retries with the value it just saw or starts over. */
  lemma RetryAlone(k: Config, ex: Execution, s: State, t: nat, retryInPlace: bool) returns (ex': Execution)
    requires k.count >= 3 && ex.Valid(k) && ex.End() == s
    requires t in s.producers && s.producers[t].SawFree? && s.producers[t].pos != s.mem.enqueue
    ensures ex'.From(s)
    ensures var req, full := s.producers[t].req, RingFull(k.count, ex.notes, s.mem, s.mem.enqueue);
            && ex'.acts == [ByProducer(t, CasEnqueue(false, retryInPlace))] + (if retryInPlace then [] else [ByProducer(t, LoadEnqueue)])
                           + [ByProducer(t, LoadSequence)] + (if full then [] else [ByProducer(t, CasEnqueue(false, false))])
            && ex'.End() == if full then s.WithProducer(t, Done(req, Failed(Full)))
                            else s.WithMemory(s.mem.(enqueue := s.mem.enqueue + 1)).WithProducer(t, Held(req, s.mem.enqueue))
  {
    var x := EveryRunKeepsInv(k, ex);
    ConfigStays(k, ex, s);
    var req, e := s.producers[t].req, s.mem.enqueue;
    assert e >= k.count ==> Balanced(ex.notes, s.mem, x.flights, e - k.count);
    UnclaimedSequence(s.mem, x.flights, e);
    ex' := LosePass(s, t, retryInPlace);
    ex' := LoadedPass(s, ex', t, req);
  }

  lemma LosePass(s: State, t: nat, retryInPlace: bool) returns (ex: Execution)
    requires s.mem.Count() > 0 && t in s.producers && s.producers[t].SawFree? && s.producers[t].pos != s.mem.enqueue
    ensures ex.From(s) && ex.End() == s.WithProducer(t, LoadedEnqueue(s.producers[t].req, s.mem.enqueue))
    ensures ex.acts == [ByProducer(t, CasEnqueue(false, retryInPlace))] + (if retryInPlace then [] else [ByProducer(t, LoadEnqueue)])
  {
    var req := s.producers[t].req;
    var loaded := s.WithProducer(t, LoadedEnqueue(req, s.mem.enqueue));
    if retryInPlace {
      ex := Extend(s, Stay(s), ByProducer(t, CasEnqueue(false, true)), loaded);
    } else {
      var s1 := s.WithProducer(t, Claiming(req));
      ex := Extend(s, Stay(s), ByProducer(t, CasEnqueue(false, false)), s1);
      ex := Extend(s, ex, ByProducer(t, LoadEnqueue), s1.WithProducer(t, LoadedEnqueue(req, s.mem.enqueue)));
      assert ex.End().producers == loaded.producers;
    }
  }

  /** try_consume without interference: one pass stages the slot at the dequeue cursor and counts it
      off, unless nobody has published it yet, and then nothing changes. */
  lemma ConsumeAlone(k: Config, ex: Execution, s: State, c: nat) returns (ex': Execution)
    requires k.count >= 3 && ex.Valid(k) && ex.End() == s
    requires c in s.consumers && s.consumers[c].pc.Polling? && |s.consumers[c].staged| < k.maxBatch
    ensures ex'.From(s)
    ensures var co, empty := s.consumers[c], Occurrences(ex.notes, Publish, s.mem.dequeue) == 0;
            && ex'.acts == [ByConsumer(c, LoadDequeue), ByConsumer(c, LoadReadySequence)]
                           + (if empty then [] else [ByConsumer(c, CasDequeue(false)), ByConsumer(c, StageTaken)])
            && ex'.End() == if empty then s
                            else s.WithMemory(s.mem.(dequeue := s.mem.dequeue + 1)).WithReady(-1)
                                  .WithConsumer(c, Consumer(co.staged + [SlotIndex(s.mem.dequeue, k.count)], Polling))
  {
    var x := EveryRunKeepsInv(k, ex);
    ConfigStays(k, ex, s);
    var d := s.mem.dequeue;
    assert Balanced(ex.notes, s.mem, x.flights, d);
    EmptySequence(s.mem, x.flights, d);
    HeadSequence(s.mem, x.flights);
    ex' := ConsumePass(s, c);
  }

  lemma ConsumePass(s: State, c: nat) returns (ex: Execution)
    requires s.mem.Count() > 0 && c in s.consumers && s.consumers[c].pc.Polling? && |s.consumers[c].staged| < s.maxBatch
    requires s.mem.At(s.mem.dequeue).sequence <= s.mem.dequeue + 1
    ensures ex.From(s)
    ensures var co, empty := s.consumers[c], s.mem.At(s.mem.dequeue).sequence < s.mem.dequeue + 1;
            && ex.acts == [ByConsumer(c, LoadDequeue), ByConsumer(c, LoadReadySequence)]
                          + (if empty then [] else [ByConsumer(c, CasDequeue(false)), ByConsumer(c, StageTaken)])
            && ex.End() == if empty then s
                           else s.WithMemory(s.mem.(dequeue := s.mem.dequeue + 1)).WithReady(-1)
                                 .WithConsumer(c, Consumer(co.staged + [SlotIndex(s.mem.dequeue, s.mem.Count())], Polling))
  {
    var co, d := s.consumers[c], s.mem.dequeue;
    var s1 := s.WithConsumer(c, co.(pc := LoadedDequeue(d)));
    ex := Extend(s, Stay(s), ByConsumer(c, LoadDequeue), s1);
    if s.mem.At(d).sequence < d + 1 {
      var s2 := s1.WithConsumer(c, co);
      ex := Extend(s, ex, ByConsumer(c, LoadReadySequence), s2);
      assert s2.consumers == s.consumers;
    } else {
      var s2 := s1.WithConsumer(c, co.(pc := SawReady(d)));
      ex := Extend(s, ex, ByConsumer(c, LoadReadySequence), s2);
      ex := TakePass(s, ex, c, d);
    }
  }

  lemma TakePass(s: State, ex: Execution, c: nat, d: nat) returns (ex': Execution)
    requires s.mem.Count() > 0 && c in s.consumers && d == s.mem.dequeue
    requires ex.From(s) && ex.End().mem == s.mem && ex.End().readyCount == s.readyCount && ex.End().maxBatch == s.maxBatch
    requires ex.End().producers == s.producers && ex.End().gateways == s.gateways
    requires ex.End().consumers == s.consumers[c := s.consumers[c].(pc := SawReady(d))]
    ensures ex'.From(s) && ex'.acts == ex.acts + [ByConsumer(c, CasDequeue(false)), ByConsumer(c, StageTaken)]
    ensures ex'.End() == s.WithMemory(s.mem.(dequeue := d + 1)).WithReady(-1)
                          .WithConsumer(c, Consumer(s.consumers[c].staged + [SlotIndex(d, s.mem.Count())], Polling))
  {
    var co := s.consumers[c];
    var s3 := s.WithMemory(s.mem.(dequeue := d + 1)).WithConsumer(c, co.(pc := Taken(d)));
    var s4 := s3.WithReady(-1).WithConsumer(c, Consumer(co.staged + [SlotIndex(d, s.mem.Count())], Polling));
    assert ex.End().consumers[c := co.(pc := Taken(d))] == s3.consumers;
    ex' := Extend(s, ex, ByConsumer(c, CasDequeue(false)), s3);
    ex' := Extend(s, ex', ByConsumer(c, StageTaken), s4);
    assert s4.consumers == s.consumers[c := Consumer(co.staged + [SlotIndex(d, s.mem.Count())], Polling)];
  }

  /** The rest of submit without interference and before the deadline: any frame that fits the slot is
      published as it is, and the submitter goes on to wait for its response. */
  lemma PublishAlone(s: State, t: nat, start: nat, size: nat) returns (ex: Execution)
    requires s.mem.Count() > 0 && t in s.producers && s.producers[t].Held? && 0 < size && 64 + start + size <= s.mem.slotBytes
    ensures ex.From(s)
    ensures ex.acts == [ByProducer(t, Serialize(start, size)), ByProducer(t, WriteMetadata),
                        ByProducer(t, StoreSequence), ByProducer(t, AddReady)]
    ensures var req, pos, after := s.producers[t].req, s.producers[t].pos, ex.End();
            && after.producers == s.producers[t := Waiting(req, pos)]
            && after.readyCount == (s.readyCount + 1) % 0x1_0000_0000_0000_0000
            && after.mem.Count() == s.mem.Count()
            && var slot := after.mem.At(pos);
            && slot.sequence == pos + 1 && slot.payloadOffset == 64 + start && slot.payloadSize == size
            && slot.enqueueNs == req.enqueueNs
            && Decode(slot, s.mem.slotBytes) == Some(Transaction(req.id, req.amountMicros))
  {
    var pr := s.producers[t];
    var frame := Frame(64 + start, size, TransactionOf(pr.req));
    var slot1 := s.mem.At(pr.pos).(area := frame);
    var slot2 := FillSlot(slot1, pr.req, 64 + start, size, STATUS_INCOMPLETE);
    var s1 := s.WithMemory(s.mem.With(pr.pos, slot1)).WithProducer(t, Serialized(pr.req, pr.pos, 64 + start, size));
    var s2 := s1.WithMemory(s1.mem.With(pr.pos, slot2)).WithProducer(t, Filled(pr.req, pr.pos, None));
    ex := Extend(s, Stay(s), ByProducer(t, Serialize(start, size)), s1);
    ex := Extend(s, ex, ByProducer(t, WriteMetadata), s2);
    ex := StorePass(s, ex, t, pr.req, pr.pos);
    assert ex.End().producers == s.producers[t := Waiting(pr.req, pr.pos)];
  }

  lemma StorePass(s0: State, ex: Execution, t: nat, req: Request, pos: nat) returns (ex': Execution)
    requires ex.From(s0) && ex.End().mem.Count() > 0 && t in ex.End().producers && ex.End().producers[t] == Filled(req, pos, None)
    ensures ex'.From(s0) && ex'.acts == ex.acts + [ByProducer(t, StoreSequence), ByProducer(t, AddReady)]
    ensures var s, s' := ex.End(), ex'.End();
            && s'.producers == s.producers[t := Waiting(req, pos)]
            && s'.mem == s.mem.With(pos, s.mem.At(pos).(sequence := pos + 1))
            && s'.readyCount == (s.readyCount + 1) % 0x1_0000_0000_0000_0000
  {
    var s := ex.End();
    var s1 := s.WithMemory(s.mem.With(pos, s.mem.At(pos).(sequence := pos + 1))).WithProducer(t, Stored(req, pos, None));
    var s2 := s1.WithReady(1).WithProducer(t, Waiting(req, pos));
    ex' := Extend(s0, ex, ByProducer(t, StoreSequence), s1);
    ex' := Extend(s0, ex', ByProducer(t, AddReady), s2);
    assert s2.producers == s.producers[t := Waiting(req, pos)];
  }

  /** handoff without interference: a submitter that has given up releases its slot itself when the
      response is already there, and otherwise leaves the position, once, with its gateway's reclaimer. */
  lemma HandoffAlone(k: Config, ex: Execution, s: State, t: nat) returns (ex': Execution)
    requires k.count >= 3 && ex.Valid(k) && ex.End() == s && t in s.producers && s.producers[t].HandingOff?
    ensures ex'.From(s) && s.mem.Count() == k.count && s.producers[t].req.gateway in s.gateways
    ensures var pr := s.producers[t];
            var gw, after := s.gateways[pr.req.gateway], s.WithProducer(t, Done(pr.req, pr.why));
            && pr.pos !in gw.pending
            && ex'.acts == [ByProducer(t, HandoffLoad), ByProducer(t, if s.mem.At(pr.pos).sequence == pr.pos + 2 then StoreRelease else Push)]
            && ex'.End() == if s.mem.At(pr.pos).sequence == pr.pos + 2
                            then after.WithMemory(s.mem.With(pr.pos, s.mem.At(pr.pos).(sequence := pr.pos + k.count)))
                            else after.WithGateway(pr.req.gateway, gw.(pending := gw.pending + [pr.pos]))
  {
    var pr := s.producers[t];
    ConfigStays(k, ex, s);
    var x := EveryRunKeepsInv(k, ex);
    assert ProducerOk(s.mem, s.gateways.Keys, x.flights, t, pr);
    ReclaimerIsFresh(s, x, t);
    if s.mem.At(pr.pos).sequence == pr.pos + 2 {
      ex' := ReleasePass(s, t);
    } else {
      ex' := PushPass(s, t);
    }
  }

  lemma ReleasePass(s: State, t: nat) returns (ex: Execution)
    requires s.mem.Count() > 0 && t in s.producers && s.producers[t].HandingOff?
    requires s.mem.At(s.producers[t].pos).sequence == s.producers[t].pos + 2
    ensures var pr := s.producers[t];
            && ex.From(s) && ex.acts == [ByProducer(t, HandoffLoad), ByProducer(t, StoreRelease)]
            && ex.End() == s.WithProducer(t, Done(pr.req, pr.why))
                            .WithMemory(s.mem.With(pr.pos, s.mem.At(pr.pos).(sequence := pr.pos + s.mem.Count())))
  {
    var pr := s.producers[t];
    var s1 := s.WithProducer(t, Releasing(pr.req, pr.pos, pr.why));
    ex := Extend(s, Stay(s), ByProducer(t, HandoffLoad), s1);
    var s2 := s1.WithMemory(s.mem.With(pr.pos, s.mem.At(pr.pos).(sequence := pr.pos + s.mem.Count()))).WithProducer(t, Done(pr.req, pr.why));
    ex := Extend(s, ex, ByProducer(t, StoreRelease), s2);
    assert s2.producers == s.producers[t := Done(pr.req, pr.why)];
  }

  /** A position still held by its submitter is in no reclaimer's list, and there is room for it. */
  lemma ReclaimerIsFresh(s: State, x: Aux, t: nat)
    requires Inv(s, x) && t in s.producers && s.producers[t].HandingOff? && s.producers[t].req.gateway in s.gateways
    ensures var gw := s.gateways[s.producers[t].req.gateway]; s.producers[t].pos !in gw.pending && |gw.pending| < s.mem.Count()
  {
    var pr := s.producers[t];
    assert ProducerOk(s.mem, s.gateways.Keys, x.flights, t, pr);
    assert GatewayOk(x.flights, pr.req.gateway, s.gateways[pr.req.gateway]);
    ReclaimListHasRoom(s.mem, x.flights, pr.req.gateway, s.gateways[pr.req.gateway]);
  }

  lemma PushPass(s: State, t: nat) returns (ex: Execution)
    requires s.mem.Count() > 0 && t in s.producers && s.producers[t].HandingOff? && s.producers[t].req.gateway in s.gateways
    requires s.mem.At(s.producers[t].pos).sequence != s.producers[t].pos + 2
    requires var gw := s.gateways[s.producers[t].req.gateway]; s.producers[t].pos !in gw.pending && |gw.pending| < s.mem.Count()
    ensures var pr := s.producers[t];
            && ex.From(s) && ex.acts == [ByProducer(t, HandoffLoad), ByProducer(t, Push)]
            && ex.End() == s.WithProducer(t, Done(pr.req, pr.why))
                            .WithGateway(pr.req.gateway, s.gateways[pr.req.gateway].(pending := s.gateways[pr.req.gateway].pending + [pr.pos]))
  {
    var pr := s.producers[t];
    var gw := s.gateways[pr.req.gateway];
    var s1 := s.WithProducer(t, Pushing(pr.req, pr.pos, pr.why));
    ex := Extend(s, Stay(s), ByProducer(t, HandoffLoad), s1);
    var s2 := s1.WithGateway(pr.req.gateway, gw.(pending := gw.pending + [pr.pos])).WithProducer(t, Done(pr.req, pr.why));
    ex := Extend(s, ex, ByProducer(t, Push), s2);
    assert s2.producers == s.producers[t := Done(pr.req, pr.why)];
  }
}
