/** Why the layout check asks for at least four slots: with a power-of-two count, the end-to-end
    promise holds in every run exactly when there are three slots or more. With one or two slots
    the sequence values p + 1 or p + 2 coincide with p + C and a live slot looks free. */
module RingCapacity {
  import opened Common
  import opened RingSlots
  import opened Addressing
  import opened RingSystem
  import opened RingInvariant
  import opened RingTheorems
  import opened RingRuns
  import opened RingGuarantees

  /** A new submitter claims the position at the enqueue cursor. */
  lemma ClaimPhase(s: State, t: nat, req: Request) returns (ex: Execution, s': State)
    requires s.mem.Count() > 0 && t !in s.producers && req.gateway in s.gateways
    requires s.mem.At(s.mem.enqueue).sequence == s.mem.enqueue
    ensures ex.From(s) && ex.End() == s'
    ensures s' == s.WithMemory(s.mem.(enqueue := s.mem.enqueue + 1)).WithProducer(t, Held(req, s.mem.enqueue))
  {
    var e := s.mem.enqueue;
    var a0, a1, a2, a3 := Submit(t, req), ByProducer(t, LoadEnqueue), ByProducer(t, LoadSequence), ByProducer(t, CasEnqueue(false, false));
    var s1 := s.WithProducer(t, Claiming(req));
    var s2 := s1.WithProducer(t, LoadedEnqueue(req, e));
    var s3 := s2.WithProducer(t, SawFree(req, e));
    s' := s3.WithMemory(s.mem.(enqueue := e + 1)).WithProducer(t, Held(req, e));
    assert s'.producers == s.producers[t := Held(req, e)];
    ex := Stay(s);
    ex := Extend(s, ex, a0, s1);
    ex := Extend(s, ex, a1, s2);
    ex := Extend(s, ex, a2, s3);
    ex := Extend(s, ex, a3, s');
  }

  function FilledSlot(slot: Slot, req: Request): Slot {
    FillSlot(slot.(area := Frame(SLOT_PREFIX_BYTES, 8, TransactionOf(req))), req, SLOT_PREFIX_BYTES, 8, STATUS_INCOMPLETE)
  }

  /** The submitter writes its payload and metadata. */
  lemma FillPhase(s: State, t: nat) returns (ex: Execution, s': State)
    requires s.mem.Count() > 0 && t in s.producers && s.producers[t].Held? && s.mem.slotBytes >= 72
    ensures ex.From(s) && ex.End() == s'
    ensures var pr := s.producers[t];
            s' == s.WithMemory(s.mem.With(pr.pos, FilledSlot(s.mem.At(pr.pos), pr.req))).WithProducer(t, Filled(pr.req, pr.pos, None))
  {
    var pr := s.producers[t];
    var frame := Frame(SLOT_PREFIX_BYTES, 8, TransactionOf(pr.req));
    var a0, a1 := ByProducer(t, Serialize(0, 8)), ByProducer(t, WriteMetadata);
    var s1 := s.WithMemory(s.mem.With(pr.pos, s.mem.At(pr.pos).(area := frame))).WithProducer(t, Serialized(pr.req, pr.pos, SLOT_PREFIX_BYTES, 8));
    s' := s1.WithMemory(s1.mem.With(pr.pos, FilledSlot(s.mem.At(pr.pos), pr.req))).WithProducer(t, Filled(pr.req, pr.pos, None));
    assert s'.mem.slots == s.mem.With(pr.pos, FilledSlot(s.mem.At(pr.pos), pr.req)).slots;
    assert s'.producers == s.producers[t := Filled(pr.req, pr.pos, None)];
    ex := Stay(s);
    ex := Extend(s, ex, a0, s1);
    ex := Extend(s, ex, a1, s');
  }

  /** The submitter publishes and starts waiting. */
  lemma PublishPhase(s: State, t: nat) returns (ex: Execution, s': State)
    requires s.mem.Count() > 0 && t in s.producers && s.producers[t].Filled? && s.producers[t].cancel.None?
    ensures ex.From(s) && ex.End() == s'
    ensures var pr := s.producers[t];
            s' == s.WithMemory(s.mem.With(pr.pos, s.mem.At(pr.pos).(sequence := pr.pos + 1)))
                   .WithReady(1).WithProducer(t, Waiting(pr.req, pr.pos))
  {
    var pr := s.producers[t];
    var a0, a1 := ByProducer(t, StoreSequence), ByProducer(t, AddReady);
    var s1 := s.WithMemory(s.mem.With(pr.pos, s.mem.At(pr.pos).(sequence := pr.pos + 1))).WithProducer(t, Stored(pr.req, pr.pos, None));
    s' := s1.WithReady(1).WithProducer(t, Waiting(pr.req, pr.pos));
    assert s'.producers == s.producers[t := Waiting(pr.req, pr.pos)];
    ex := Stay(s);
    ex := Extend(s, ex, a0, s1);
    ex := Extend(s, ex, a1, s');
  }

  /** An idle consumer finds the head published. */
  lemma FindPhase(s: State, c: nat) returns (ex: Execution, s': State)
    requires s.mem.Count() > 0 && c in s.consumers && s.consumers[c] == Consumer([], Polling) && s.maxBatch > 0
    requires s.mem.At(s.mem.dequeue).sequence == s.mem.dequeue + 1
    ensures ex.From(s) && ex.End() == s'
    ensures s' == s.WithConsumer(c, Consumer([], SawReady(s.mem.dequeue)))
  {
    var d := s.mem.dequeue;
    var a0, a1 := ByConsumer(c, LoadDequeue), ByConsumer(c, LoadReadySequence);
    var s1 := s.WithConsumer(c, Consumer([], LoadedDequeue(d)));
    s' := s1.WithConsumer(c, Consumer([], SawReady(d)));
    assert s'.consumers == s.consumers[c := Consumer([], SawReady(d))];
    ex := Stay(s);
    ex := Extend(s, ex, a0, s1);
    ex := Extend(s, ex, a1, s');
  }

  /** It takes and stages the head. */
  lemma StagePhase(s: State, c: nat) returns (ex: Execution, s': State)
    requires s.mem.Count() > 0 && c in s.consumers && s.consumers[c] == Consumer([], SawReady(s.mem.dequeue))
    ensures ex.From(s) && ex.End() == s'
    ensures s' == s.WithMemory(s.mem.(dequeue := s.mem.dequeue + 1)).WithReady(-1)
                   .WithConsumer(c, Consumer([SlotIndex(s.mem.dequeue, s.mem.Count())], Polling))
  {
    var d := s.mem.dequeue;
    var i := SlotIndex(d, s.mem.Count());
    var a0, a1 := ByConsumer(c, CasDequeue(false)), ByConsumer(c, StageTaken);
    var s1 := s.WithMemory(s.mem.(dequeue := d + 1)).WithConsumer(c, Consumer([], Taken(d)));
    assert [] + [i] == [i];
    s' := s1.WithReady(-1).WithConsumer(c, Consumer([i], Polling));
    assert s'.consumers == s.consumers[c := Consumer([i], Polling)];
    ex := Stay(s);
    ex := Extend(s, ex, a0, s1);
    ex := Extend(s, ex, a1, s');
  }

  function ReplyTo(s: State, i: nat): Reply
    requires i < s.mem.Count()
  {
    Reply(s.mem.slots[i].sequence - 1, Verdict(Decode(s.mem.slots[i], s.mem.slotBytes), true))
  }

  /** The consumer decodes its one slot and launches. */
  lemma DecodePhase(s: State, c: nat, i: nat) returns (ex: Execution, s': State)
    requires i < s.mem.Count() && c in s.consumers && s.consumers[c] == Consumer([i], Polling)
    ensures ex.From(s) && ex.End() == s'
    ensures s' == s.WithConsumer(c, Consumer([i], Preparing([Decode(s.mem.slots[i], s.mem.slotBytes)], true, [])))
  {
    var view := Decode(s.mem.slots[i], s.mem.slotBytes);
    var a0, a1, a2 := ByConsumer(c, Dispatch), ByConsumer(c, DecodeNext), ByConsumer(c, Launch(true));
    var s1 := s.WithConsumer(c, Consumer([i], Decoding([])));
    var s2 := s1.WithConsumer(c, Consumer([i], Decoding([view])));
    assert [] + [view] == [view];
    s' := s2.WithConsumer(c, Consumer([i], Preparing([view], true, [])));
    assert s'.consumers == s.consumers[c := Consumer([i], Preparing([view], true, []))];
    ex := Stay(s);
    ex := Extend(s, ex, a0, s1);
    ex := Extend(s, ex, a1, s2);
    ex := Extend(s, ex, a2, s');
  }

  /** The consumer recovers the position, prepares the response and synchronises. */
  lemma PreparePhase(s: State, c: nat, i: nat) returns (ex: Execution, s': State)
    requires i < s.mem.Count() && c in s.consumers
    requires s.consumers[c] == Consumer([i], Preparing([Decode(s.mem.slots[i], s.mem.slotBytes)], true, []))
    ensures ex.From(s) && ex.End() == s'
    ensures s' == s.WithConsumer(c, Consumer([i], Completing([ReplyTo(s, i)], 0, false, 0)))
  {
    var views, reply := [Decode(s.mem.slots[i], s.mem.slotBytes)], ReplyTo(s, i);
    var a0, a1 := ByConsumer(c, PrepareNext), ByConsumer(c, Synchronize(true, 0));
    var s1 := s.WithConsumer(c, Consumer([i], Preparing(views, true, [reply])));
    assert [] + [reply] == [reply];
    s' := s1.WithConsumer(c, Consumer([i], Completing([reply], 0, false, 0)));
    assert s'.consumers == s.consumers[c := Consumer([i], Completing([reply], 0, false, 0))];
    ex := Stay(s);
    ex := Extend(s, ex, a0, s1);
    ex := Extend(s, ex, a1, s');
  }

  /** The consumer writes its one response. */
  lemma WritePhase(s: State, c: nat, i: nat, reply: Reply) returns (a: Action, s': State)
    requires i < s.mem.Count() && c in s.consumers
    requires s.consumers[c] == Consumer([i], Completing([reply], 0, false, 0))
    ensures Step(s, a) == Some(s') && s'.mem.Count() == s.mem.Count()
    ensures s' == s.WithMemory(s.mem.(slots := s.mem.slots[i := s'.mem.slots[i]]))
                   .WithConsumer(c, Consumer([i], Completing([reply], 0, true, 0)))
    ensures s'.mem.slots[i].requestId == s.mem.slots[i].requestId
  {
    a := ByConsumer(c, WriteReply);
    var slot := s.mem.slots[i].(status := reply.answer.status, decision := reply.answer.decision, score := reply.answer.score, completeNs := 0);
    s' := s.WithMemory(s.mem.(slots := s.mem.slots[i := slot])).WithConsumer(c, Consumer([i], Completing([reply], 0, true, 0)));
  }

  /** The consumer stores p + 2 and is idle again. */
  lemma StorePhase(s: State, c: nat, i: nat, reply: Reply) returns (a: Action, s': State)
    requires i < s.mem.Count() && c in s.consumers && reply.position >= 0
    requires s.consumers[c] == Consumer([i], Completing([reply], 0, true, 0))
    ensures Step(s, a) == Some(s')
    ensures s' == s.WithMemory(s.mem.(slots := s.mem.slots[i := s.mem.slots[i].(sequence := reply.position + 2)]))
                   .WithConsumer(c, Consumer([], Polling))
  {
    a := ByConsumer(c, StoreReply);
    s' := s.WithMemory(s.mem.(slots := s.mem.slots[i := s.mem.slots[i].(sequence := reply.position + 2)]))
           .WithConsumer(c, Consumer([], Polling));
  }

  /** The consumer's answer to its one slot. */
  lemma AnswerPhase(s: State, c: nat, i: nat, reply: Reply) returns (ex: Execution, s': State)
    requires i < s.mem.Count() && c in s.consumers && reply.position >= 0
    requires s.consumers[c] == Consumer([i], Completing([reply], 0, false, 0))
    ensures ex.From(s) && ex.End() == s'
    ensures s'.mem.Count() == s.mem.Count()
    ensures s' == s.WithMemory(s.mem.(slots := s.mem.slots[i := s'.mem.slots[i]])).WithConsumer(c, Consumer([], Polling))
    ensures s'.mem.slots[i].sequence == reply.position + 2 && s'.mem.slots[i].requestId == s.mem.slots[i].requestId
  {
    var a0, s1 := WritePhase(s, c, i, reply);
    var a1;
    a1, s' := StorePhase(s1, c, i, reply);
    assert s'.mem.slots == s.mem.slots[i := s'.mem.slots[i]];
    assert s'.consumers == s.consumers[c := Consumer([], Polling)];
    ex := Stay(s);
    ex := Extend(s, ex, a0, s1);
    ex := Extend(s, ex, a1, s');
  }

  /** A waiting submitter sees pos + 2, reads the slot and returns. */
  lemma CollectPhase(s: State, t: nat) returns (ex: Execution, s': State)
    requires s.mem.Count() > 0 && t in s.producers && s.producers[t].Waiting?
    requires s.mem.At(s.producers[t].pos).sequence == s.producers[t].pos + 2
    ensures ex.From(s) && ex.End() == s'
    ensures t in s'.producers && s'.producers[t] ==
      Done(s.producers[t].req, ReadResponse(s.mem.At(s.producers[t].pos), s.producers[t].req.id))
  {
    var pr := s.producers[t];
    var result := ReadResponse(s.mem.At(pr.pos), pr.req.id);
    var a0, a1, a2 := ByProducer(t, PollSequence), ByProducer(t, ReadSlot), ByProducer(t, StoreRelease);
    var s1 := s.WithProducer(t, Responding(pr.req, pr.pos));
    var s2 := s1.WithProducer(t, Releasing(pr.req, pr.pos, result));
    s' := s2.WithMemory(s.mem.With(pr.pos, s.mem.At(pr.pos).(sequence := pr.pos + s.mem.Count()))).WithProducer(t, Done(pr.req, result));
    ex := Stay(s);
    ex := Extend(s, ex, a0, s1);
    ex := Extend(s, ex, a1, s2);
    ex := Extend(s, ex, a2, s');
  }

  /** One full service of the head of the queue by an idle consumer. */
  lemma ServePhase(s: State, c: nat) returns (ex: Execution, s': State)
    requires s.mem.Count() > 0 && c in s.consumers && s.consumers[c] == Consumer([], Polling) && s.maxBatch > 0
    requires s.mem.At(s.mem.dequeue).sequence == s.mem.dequeue + 1
    ensures ex.From(s) && ex.End() == s' && s'.mem.Count() == s.mem.Count()
    ensures s'.producers == s.producers && s'.gateways == s.gateways
    ensures s'.mem == s.mem.(dequeue := s.mem.dequeue + 1).With(s.mem.dequeue, s'.mem.At(s.mem.dequeue))
    ensures s'.mem.At(s.mem.dequeue).sequence == s.mem.dequeue + 2
    ensures s'.mem.At(s.mem.dequeue).requestId == s.mem.At(s.mem.dequeue).requestId
  {
    var i := SlotIndex(s.mem.dequeue, s.mem.Count());
    var find, s0 := FindPhase(s, c);
    var stage, s1 := StagePhase(s0, c);
    ex := Join(s, find, stage);
    assert s1.consumers == s.consumers[c := Consumer([i], Polling)];
    var decode, s2 := DecodePhase(s1, c, i);
    var prepare, s3 := PreparePhase(s2, c, i);
    var answer, s4 := AnswerPhase(s3, c, i, ReplyTo(s2, i));
    ex := Join(s, ex, decode);
    ex := Join(s, ex, prepare);
    ex := Join(s, ex, answer);
    s' := s4;
  }

  /** A submitter's whole way to a published request. */
  lemma SubmitPhase(s: State, t: nat, req: Request) returns (ex: Execution, s': State)
    requires s.mem.Count() > 0 && t !in s.producers && req.gateway in s.gateways && s.mem.slotBytes >= 72
    requires s.mem.At(s.mem.enqueue).sequence == s.mem.enqueue
    ensures ex.From(s) && ex.End() == s' && s'.mem.Count() == s.mem.Count()
    ensures s'.producers == s.producers[t := Waiting(req, s.mem.enqueue)]
    ensures s'.consumers == s.consumers && s'.gateways == s.gateways && s'.maxBatch == s.maxBatch
    ensures s'.mem == s.mem.(enqueue := s.mem.enqueue + 1).With(s.mem.enqueue, s'.mem.At(s.mem.enqueue))
    ensures s'.mem.At(s.mem.enqueue).sequence == s.mem.enqueue + 1 && s'.mem.At(s.mem.enqueue).requestId == req.id
  {
    var e := s.mem.enqueue;
    var claim, s1 := ClaimPhase(s, t, req);
    var fill, s2 := FillPhase(s1, t);
    var publish, s3 := PublishPhase(s2, t);
    ex := Join(s, claim, fill);
    ex := Join(s, ex, publish);
    s' := s3;
    assert s'.mem.slots == s.mem.(enqueue := e + 1).With(e, s'.mem.At(e)).slots;
    assert s'.producers == s.producers[t := Waiting(req, e)];
  }

  /** A submitter overwrites the slot at the enqueue cursor without publishing. */
  lemma OverwritePhase(s: State, t: nat, req: Request) returns (ex: Execution, s': State)
    requires s.mem.Count() > 0 && t !in s.producers && req.gateway in s.gateways && s.mem.slotBytes >= 72
    requires s.mem.At(s.mem.enqueue).sequence == s.mem.enqueue
    ensures ex.From(s) && ex.End() == s' && s'.mem.Count() == s.mem.Count()
    ensures s'.producers == s.producers[t := Filled(req, s.mem.enqueue, None)]
    ensures s'.consumers == s.consumers && s'.gateways == s.gateways && s'.maxBatch == s.maxBatch
    ensures s'.mem == s.mem.(enqueue := s.mem.enqueue + 1).With(s.mem.enqueue, s'.mem.At(s.mem.enqueue))
    ensures s'.mem.At(s.mem.enqueue).sequence == s.mem.enqueue && s'.mem.At(s.mem.enqueue).requestId == req.id
  {
    var e := s.mem.enqueue;
    var claim, s1 := ClaimPhase(s, t, req);
    var fill, s2 := FillPhase(s1, t);
    ex := Join(s, claim, fill);
    s' := s2;
    assert s'.producers == s.producers[t := Filled(req, e, None)];
  }

  /** With two slots an answered position p + 2 looks like the free slot of position p + C: a
      third submitter overwrites the first one's response before it is read. */
  lemma TwoSlotsMixResponses(k: Config, g: nat, c: nat) returns (ex: Execution)
    requires k.count == 2 && k.slotBytes >= 72 && k.maxBatch > 0 && g in k.gateways && c in k.consumers
    ensures ex.Valid(k)
    ensures 0 in ex.End().producers && ex.End().producers[0] == Done(Request(7, 0, 0, g), Failed(IdMismatch))
  {
    var s0 := k.Start();
    var first, s1 := SubmitPhase(s0, 0, Request(7, 0, 0, g));
    assert SlotIndex(0, 2) == 0 && SlotIndex(1, 2) == 1 && SlotIndex(2, 2) == 0;
    var serve, s2 := ServePhase(s1, c);
    var second, s3 := ClaimPhase(s2, 1, Request(8, 0, 0, g));
    var third, s4 := OverwritePhase(s3, 2, Request(9, 0, 0, g));
    var collect, s5 := CollectPhase(s4, 0);
    ex := Join(s0, first, serve);
    ex := Join(s0, ex, second);
    ex := Join(s0, ex, third);
    ex := Join(s0, ex, collect);
  }

  /** With one slot already a published position p + 1 looks free for p + C. */
  lemma OneSlotMixesRequests(k: Config, g: nat, c: nat) returns (ex: Execution)
    requires k.count == 1 && k.slotBytes >= 72 && k.maxBatch > 0 && g in k.gateways && c in k.consumers
    ensures ex.Valid(k)
    ensures 0 in ex.End().producers && ex.End().producers[0] == Done(Request(7, 0, 0, g), Failed(IdMismatch))
  {
    var s0 := k.Start();
    var first, s1 := SubmitPhase(s0, 0, Request(7, 0, 0, g));
    assert SlotIndex(0, 1) == 0 && SlotIndex(1, 1) == 0;
    var second, s2 := OverwritePhase(s1, 1, Request(8, 0, 0, g));
    var serve, s3 := ServePhase(s2, c);
    var collect, s4 := CollectPhase(s3, 0);
    ex := Join(s0, first, second);
    ex := Join(s0, ex, serve);
    ex := Join(s0, ex, collect);
  }

  /** Every submitter that returns has a good outcome, in every execution. */
  ghost predicate AlwaysTrustworthy(k: Config) {
    forall ex: Execution, t {:trigger ex.End().producers[t]} ::
      ex.Valid(k) && t in ex.End().producers && ex.End().producers[t].Done? ==>
        OutcomeOk(ex.End().producers[t].req, ex.End().producers[t].result, k.cuda)
  }

  lemma OutcomesAreTrustworthy(k: Config, ex: Execution, t: nat)
    requires k.count >= 3 && ex.Valid(k) && t in ex.End().producers && ex.End().producers[t].Done?
    ensures OutcomeOk(ex.End().producers[t].req, ex.End().producers[t].result, k.cuda)
  {
    var x := EveryRunKeepsInv(k, ex);
    ConfigStays(k, ex, ex.End());
    assert ProducerOk(ex.End().mem, ex.End().gateways.Keys, x.flights, t, ex.End().producers[t]);
  }

  /** The exact capacity condition. The layout check demands a power of two of at least four,
      which among powers of two is the same condition. */
  lemma CapacityIsExact(k: Config)
    requires k.slotBytes >= 72 && k.maxBatch > 0 && k.gateways != {} && k.consumers != {} && k.count > 0
    ensures AlwaysTrustworthy(k) <==> k.count >= 3
  {
    if k.count >= 3 {
      forall ex: Execution, t | ex.Valid(k) && t in ex.End().producers && ex.End().producers[t].Done?
        ensures OutcomeOk(ex.End().producers[t].req, ex.End().producers[t].result, k.cuda)
      {
        OutcomesAreTrustworthy(k, ex, t);
      }
    } else {
      var g :| g in k.gateways;
      var c :| c in k.consumers;
      var ex;
      if k.count == 2 {
        ex := TwoSlotsMixResponses(k, g, c);
      } else {
        ex := OneSlotMixesRequests(k, g, c);
      }
      assert !OutcomeOk(ex.End().producers[0].req, ex.End().producers[0].result, k.cuda);
    }
  }
}
