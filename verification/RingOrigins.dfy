/** Where a submitter's answer comes from: the step of the run that decided it. */
module RingOrigins {
  import opened Common
  import opened RingSlots
  import opened RingSystem
  import opened RingInvariant
  import opened RingProducers
  import opened RingTheorems
  import opened RingGuarantees

  /** The answer a submitter is already bound to give. */
  function Settled(pr: Producer): Option<Outcome> {
    match pr
    case Cancelling(_, _, why) => Some(why)
    case Filled(_, _, cancel) => cancel
    case Stored(_, _, cancel) => cancel
    case HandingOff(_, _, why) => Some(why)
    case Pushing(_, _, why) => Some(why)
    case Releasing(_, _, result) => Some(result)
    case Done(_, result) => Some(result)
    case _ => None
  }

  /** Action `a`, taken in `s` after the noted steps, is the reason why submitter `t` answers request
      `req` with `result`. */
  ghost predicate Decides(s: State, a: Action, notes: seq<Note>, t: nat, req: Request, result: Outcome) {
    && s.mem.Count() > 0 && a.ByProducer? && a.t == t && t in s.producers
    && var pr := s.producers[t];
    && !pr.Idle? && pr.req == req
    && match result
       case Response(_, _, _) =>
         && a.p.ReadSlot? && pr.Responding? && s.mem.At(pr.pos).sequence == pr.pos + 2
         && result == Response(req.id, AnswerOf(s.mem.At(pr.pos)), s.mem.At(pr.pos).completeNs)
       case Failed(failure) =>
         match failure
         case Full =>
           || (pr.Claiming? && a.p == GiveUp(Full))
           || (pr.LoadedEnqueue? && a.p == LoadSequence && RingFull(s.mem.Count(), notes, s.mem, pr.pos))
         case Stopped => pr.Claiming? && a.p == GiveUp(Stopped)
         case Timeout =>
           || (pr.Serialized? && a.p == ExpireBeforePublish)
           || (pr.Waiting? && a.p == ExpireWaiting && s.mem.At(pr.pos).sequence != pr.pos + 2)
         case SerializationFailed => pr.Held? && a.p.FailSerialize?
         case _ => false
  }

  /** A submitter that is not yet bound to an answer becomes bound to `result` exactly at a step that
      decides `result`. */
  lemma DecidingStep(k: Config, ex: Execution, s: State, t: nat, e: ProducerEvent, s': State, result: Outcome)
    requires k.count >= 3 && ex.Valid(k) && ex.End() == s && Step(s, ByProducer(t, e)) == Some(s')
    requires Settled(s.producers[t]) == None
    ensures !s.producers[t].Idle? && t in s'.producers && s'.producers[t].req == s.producers[t].req
    ensures Settled(s'.producers[t]) == Some(result) <==> Decides(s, ByProducer(t, e), ex.notes, t, s.producers[t].req, result)
  {
    if e.LoadSequence? {
      FullIsHonest(k, ex, s, t, s');
      ConfigStays(k, ex, s);
    } else if e.ReadSlot? {
      var x := EveryRunKeepsInv(k, ex);
      ReadStep(s, x, t, s');
    } else {
      PlainStep(s, t, e, s', ex.notes, result);
    }
  }

  /** A read response carries the submitter's own id and what the slot shows. */
  lemma ReadStep(s: State, x: Aux, t: nat, s': State)
    requires Inv(s, x) && Step(s, ByProducer(t, ReadSlot)) == Some(s')
    ensures var pr := s.producers[t];
            && pr.Responding? && s.mem.At(pr.pos).sequence == pr.pos + 2
            && t in s'.producers
            && s'.producers[t] == Releasing(pr.req, pr.pos, Response(pr.req.id, AnswerOf(s.mem.At(pr.pos)), s.mem.At(pr.pos).completeNs))
  {
    var pr := s.producers[t];
    assert ProducerOk(s.mem, s.gateways.Keys, x.flights, t, pr);
    assert CellOk(s.mem, pr.pos, x.flights[pr.pos]);
    ResponseIsMine(x.flights[pr.pos].cell, pr.req, s.mem.slotBytes, s.mem.cuda);
  }

  lemma PlainStep(s: State, t: nat, e: ProducerEvent, s': State, notes: seq<Note>, result: Outcome)
    requires Step(s, ByProducer(t, e)) == Some(s') && Settled(s.producers[t]) == None
    requires !e.LoadSequence? && !e.ReadSlot?
    ensures !s.producers[t].Idle? && t in s'.producers && s'.producers[t].req == s.producers[t].req
    ensures Settled(s'.producers[t]) == Some(result) <==> Decides(s, ByProducer(t, e), notes, t, s.producers[t].req, result)
  {
  }

  /** From then on nothing changes the answer until the submitter reports it. */
  lemma SettledStays(s: State, t: nat, e: ProducerEvent, s': State)
    requires Step(s, ByProducer(t, e)) == Some(s') && Settled(s.producers[t]).Some?
    ensures t in s'.producers && !s'.producers[t].Idle? && s'.producers[t].req == s.producers[t].req
    ensures Settled(s'.producers[t]) == Settled(s.producers[t])
  {
  }

  /** Only a submitter's own steps move it. */
  predicate Untouched(s: State, s': State, t: nat) {
    (t in s'.producers <==> t in s.producers) && (t in s.producers ==> s'.producers[t] == s.producers[t])
  }

  lemma OtherProducerLeavesMe(s: State, u: nat, e: ProducerEvent, s': State, t: nat)
    requires Step(s, ByProducer(u, e)) == Some(s') && u != t
    ensures Untouched(s, s', t)
  {
  }

  lemma GatewayLeavesMe(s: State, g: nat, e: GatewayEvent, s': State, t: nat)
    requires Step(s, ByGateway(g, e)) == Some(s')
    ensures Untouched(s, s', t)
  {
  }

  lemma ConsumerLeavesMe(s: State, c: nat, e: ConsumerEvent, s': State, t: nat)
    requires Step(s, ByConsumer(c, e)) == Some(s')
    ensures Untouched(s, s', t)
  {
  }

  lemma OthersLeaveMe(s: State, a: Action, s': State, t: nat)
    requires Step(s, a) == Some(s') && !(a.ByProducer? && a.t == t) && !(a.Submit? && a.t == t)
    ensures Untouched(s, s', t)
  {
    match a
    case Submit(_, _) =>
    case ByProducer(u, e) => OtherProducerLeavesMe(s, u, e, s', t);
    case ByGateway(g, e) => GatewayLeavesMe(s, g, e, s', t);
    case ByConsumer(c, e) => ConsumerLeavesMe(s, c, e, s', t);
  }

  /** Step `h` submitted the request `t` is working on. */
  ghost predicate SubmittedAt(acts: seq<Action>, h: nat, t: nat, req: Request) {
    && h < |acts| && acts[h] == Submit(t, req)
    && forall j :: h < j < |acts| ==> !(acts[j].Submit? && acts[j].t == t)
  }

  ghost predicate DecidedAt(ex: Execution, i: nat, t: nat, req: Request, result: Outcome) {
    && i < |ex.acts| && i < |ex.states| && i <= |ex.notes|
    && Decides(ex.states[i], ex.acts[i], ex.notes[..i], t, req, result)
  }

  /** Every answer a submitter gives was decided by one step of its own, later than the submission
      of that very request: Full by a sequence load in a full ring or by giving up at the deadline,
      Stopped by seeing the shutdown flag, Timeout by the deadline before publication or while the
      response was missing, a serialisation failure by the serialiser, and a response by reading the
      slot that shows the answered sequence. */
  lemma {:induction false} OutcomesHaveOrigins(k: Config, ex: Execution, t: nat) returns (h: nat, i: nat)
    requires k.count >= 3 && ex.Valid(k) && t in ex.End().producers && !ex.End().producers[t].Idle?
    ensures SubmittedAt(ex.acts, h, t, ex.End().producers[t].req)
    ensures Settled(ex.End().producers[t]).Some? ==>
      h < i && DecidedAt(ex, i, t, ex.End().producers[t].req, Settled(ex.End().producers[t]).value)
    decreases |ex.acts|
  {
    h, i := 0, 0;
    if ex.acts != [] {
      ShorterIsValid(k, ex);
      var before, n := ex.Shorter(), |ex.acts| - 1;
      var s, a, s' := before.End(), ex.acts[n], ex.End();
      if a.Submit? && a.t == t {
        h := n;
      } else {
        KeepsRequest(k, before, s, a, s', t);
        h, i := OutcomesHaveOrigins(k, before, t);
        if Settled(s'.producers[t]).Some? {
          i := ExtendOrigin(k, ex, before, a, t, i);
        }
      }
    }
  }

  lemma ExtendOrigin(k: Config, ex: Execution, before: Execution, a: Action, t: nat, i: nat) returns (i': nat)
    requires k.count >= 3 && ex.Valid(k) && |ex.acts| > 0 && before == ex.Shorter() && before.Valid(k) && a == ex.acts[|ex.acts| - 1]
    requires Step(before.End(), a) == Some(ex.End()) && !(a.Submit? && a.t == t)
    requires t in before.End().producers && t in ex.End().producers && !ex.End().producers[t].Idle?
    requires Settled(ex.End().producers[t]).Some?
    requires Settled(before.End().producers[t]).Some? ==>
      DecidedAt(before, i, t, before.End().producers[t].req, Settled(before.End().producers[t]).value)
    ensures DecidedAt(ex, i', t, ex.End().producers[t].req, Settled(ex.End().producers[t]).value)
    ensures i' == if Settled(before.End().producers[t]).Some? then i else |before.acts|
  {
    var s, s', n := before.End(), ex.End(), |before.acts|;
    KeepsRequest(k, before, s, a, s', t);
    if Settled(s.producers[t]).Some? {
      i' := i;
      assert ex.notes[..i] == before.notes[..i];
    } else {
      i' := n;
      DecidingStep(k, before, s, t, a.p, s', Settled(s'.producers[t]).value);
      assert ex.notes[..n] == before.notes;
    }
  }

  /** No step but a submission of its own changes what a submitter works on, or an answer it is bound to. */
  lemma KeepsRequest(k: Config, ex: Execution, s: State, a: Action, s': State, t: nat)
    requires k.count >= 3 && ex.Valid(k) && ex.End() == s && Step(s, a) == Some(s') && !(a.Submit? && a.t == t)
    requires t in s'.producers && !s'.producers[t].Idle?
    ensures t in s.producers && !s.producers[t].Idle? && s'.producers[t].req == s.producers[t].req
    ensures Settled(s.producers[t]).Some? ==> Settled(s'.producers[t]) == Settled(s.producers[t])
    ensures Settled(s.producers[t]).None? && Settled(s'.producers[t]).Some? ==> a.ByProducer? && a.t == t
  {
    if a.ByProducer? && a.t == t {
      OwnStep(k, ex, s, t, a.p, s');
    } else {
      OthersLeaveMe(s, a, s', t);
    }
  }

  lemma OwnStep(k: Config, ex: Execution, s: State, t: nat, e: ProducerEvent, s': State)
    requires k.count >= 3 && ex.Valid(k) && ex.End() == s && Step(s, ByProducer(t, e)) == Some(s')
    ensures !s.producers[t].Idle? && t in s'.producers && s'.producers[t].req == s.producers[t].req
    ensures Settled(s.producers[t]).Some? ==> Settled(s'.producers[t]) == Settled(s.producers[t])
  {
    if Settled(s.producers[t]).Some? {
      SettledStays(s, t, e, s');
    } else {
      DecidingStep(k, ex, s, t, e, s', Failed(Full));
    }
  }
}
