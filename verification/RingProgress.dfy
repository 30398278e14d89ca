/** No permanent hole: from every reachable state, without any new claim, the ring can be driven
    to the state where every slot is free, whatever mixture of cancelled, timed-out, staged and
    half-scanned requests it holds. Each step of the drive strictly lowers a natural-number rank. */
module RingProgress {
  import opened Common
  import opened RingSlots
  import opened Addressing
  import opened RingSystem
  import opened RingInvariant
  import opened RingMemory
  import opened RingProducers
  import opened RingTheorems
  import opened RingGuarantees
  import opened RingRuns
  import opened RingOrigins

  function Monus(a: nat, b: nat): nat {
    if a >= b then a - b else 0
  }

  function StageRank(stage: Stage): nat {
    match stage
    case Filling => 3
    case Published => 2
    case Drained => 1
    case Answered => 0
  }

  function HolderRank(holder: Holder): nat {
    if holder.HeldByProducer? then 1 else 0
  }

  /** Steps a submitter still needs before it publishes. */
  function FillRank(pr: Producer): nat {
    if pr.Held? then 2 else if pr.Serialized? || pr.Cancelling? then 1 else 0
  }

  /** Steps a submitter still needs before it releases or hands off an answered position. */
  function ReleaseRank(pr: Producer): nat {
    if pr.Stored? then 4
    else if pr.Waiting? || pr.HandingOff? || pr.Pushing? then 3
    else if pr.Responding? then 2
    else 1
  }

  function BatchRank(pc: ConsumerPc, n: nat): nat {
    match pc
    case Decoding(views) => 3 * n + 2 + Monus(n, |views|)
    case Preparing(_, _, replies) => 2 * n + 1 + Monus(n, |replies|)
    case Completing(_, done, written, _) => if written then Monus(2 * Monus(n, done), 1) else 2 * Monus(n, done)
    case _ => 4 * n + 4
  }

  /** Steps before a consumer has taken the published head. */
  function TakeRank(co: Consumer, dequeue: nat, maxBatch: nat): nat {
    var n := |co.staged|;
    match co.pc
    case SawReady(pos) => if pos == dequeue then 0 else 2
    case LoadedDequeue(pos) => if pos == dequeue then 1 else 3
    case Polling => if n < maxBatch then 4 else 5 + BatchRank(co.pc, n)
    case Taken(_) => 6 + BatchRank(Polling, n + 1)
    case _ => 5 + BatchRank(co.pc, n)
  }

  /** Steps before a consumer has answered what it holds. */
  function ServeRank(co: Consumer, dequeue: nat): nat {
    var n := |co.staged|;
    match co.pc
    case Taken(_) => BatchRank(Polling, n + 1) + 1
    case SawReady(pos) => BatchRank(Polling, n + 1) + if pos == dequeue then 2 else 4
    case LoadedDequeue(pos) => BatchRank(Polling, n + 1) + if pos == dequeue then 3 else 5
    case _ => BatchRank(co.pc, n)
  }

  function IndexOf(v: seq<nat>, q: nat): (i: nat)
    ensures i <= |v| && (q in v ==> i < |v| && v[i] == q)
  {
    if v == [] then 0 else if v[0] == q then 0 else 1 + IndexOf(v[1..], q)
  }

  /** Steps before a reclaimer's scan reaches an answered position of its lists. */
  function ScanRank(gw: Gateway, q: nat): nat {
    var p, o := |gw.pending|, |gw.outstanding|;
    match gw.scan
    case SawAnswer(_) => 0
    case Scanning(i) =>
      if q in gw.outstanding && i <= IndexOf(gw.outstanding, q) then 1 + IndexOf(gw.outstanding, q) - i
      else if q in gw.pending then Monus(o, i) + 3 + p
      else Monus(o, i) + 5 + p + o
    case Resting => if q in gw.pending then 2 + p else p + o + 4
  }

  /** What is still missing before position `q` advances; `c` is the consumer chosen to take it. */
  function LocalRank(s: State, x: Aux, q: nat, c: nat): nat {
    if q !in x.flights then 0
    else
      var f := x.flights[q];
      match f.stage
      case Filling => if f.holder.HeldByProducer? && f.holder.t in s.producers then FillRank(s.producers[f.holder.t]) else 0
      case Published => if c in s.consumers then TakeRank(s.consumers[c], s.mem.dequeue, s.maxBatch) else 0
      case Drained => if f.taker in s.consumers then ServeRank(s.consumers[f.taker], s.mem.dequeue) else 0
      case Answered =>
        match f.holder
        case HeldByProducer(t) => if t in s.producers then ReleaseRank(s.producers[t]) else 0
        case HeldByGateway(g) => if g in s.gateways then ScanRank(s.gateways[g], q) else 0
  }

  /** Claims need both a submission and a CAS on the enqueue cursor; a quiet action is neither. */
  predicate Quiet(a: Action) {
    !a.Submit? && !(a.ByProducer? && a.p.CasEnqueue?)
  }

  /** Nobody reaches its deadline. */
  predicate Patient(a: Action) {
    !(a.ByProducer? && (a.p.ExpireBeforePublish? || a.p.ExpireWaiting?))
  }

  /** Either some position was released, or `q` (or the party working for it) came one step closer. */
  ghost predicate Closer(s: State, x: Aux, s': State, x': Aux, q: nat, c: nat) {
    || |x'.flights| < |x.flights|
    || (x'.flights.Keys == x.flights.Keys && q in x.flights
        && (StageRank(x'.flights[q].stage) < StageRank(x.flights[q].stage)
            || (x'.flights[q].stage == x.flights[q].stage
                && (HolderRank(x'.flights[q].holder) < HolderRank(x.flights[q].holder)
                    || (x'.flights[q].holder == x.flights[q].holder
                        && LocalRank(s', x', q, c) < LocalRank(s, x, q, c))))))
  }

  ghost predicate GoodMove(s: State, x: Aux, q: nat, c: nat, a: Action) {
    && Quiet(a) && Patient(a)
    && s.mem.Count() > 0 && Next(s, a).Some?
    && Closer(s, x, Next(s, a).value, NextAux(s, x, a, Next(s, a).value), q, c)
  }

  lemma ReclaimedIsNotFilling(s: State, x: Aux)
    requires HoldersOk(s.producers, s.gateways, x.flights) && GatewaysOk(x.flights, s.gateways)
    ensures forall q {:trigger x.flights[q]} :: q in x.flights && x.flights[q].holder.HeldByGateway? ==> !x.flights[q].stage.Filling?
  {
    forall q | q in x.flights && x.flights[q].holder.HeldByGateway? ensures !x.flights[q].stage.Filling? {
      assert HolderOk(s.producers, s.gateways, q, x.flights[q].holder);
      assert GatewayOk(x.flights, x.flights[q].holder.g, s.gateways[x.flights[q].holder.g]);
    }
  }

  lemma MoveWhileFilling(s: State, x: Aux, q: nat, c: nat) returns (a: Action)
    requires Inv(s, x) && q in x.flights && x.flights[q].stage.Filling?
    ensures GoodMove(s, x, q, c, a)
  {
    ReclaimedIsNotFilling(s, x);
    assert HolderOk(s.producers, s.gateways, q, x.flights[q].holder);
    var t := x.flights[q].holder.t;
    var pr := s.producers[t];
    assert ProducerOk(s.mem, s.gateways.Keys, x.flights, t, pr);
    if pr.Held? {
      a := ByProducer(t, FailSerialize(0));
      CancelMove(s, x, q, c, t);
    } else if pr.Filled? {
      a := ByProducer(t, StoreSequence);
      PublishMove(s, x, q, c, t);
    } else {
      a := ByProducer(t, WriteMetadata);
      MetadataMove(s, x, q, c, t);
    }
  }

  lemma CancelMove(s: State, x: Aux, q: nat, c: nat, t: nat)
    requires s.mem.Count() > 0 && Owns(x.flights, q, t) && x.flights[q].stage.Filling?
    requires t in s.producers && s.producers[t].Held? && s.producers[t].pos == q
    ensures GoodMove(s, x, q, c, ByProducer(t, FailSerialize(0)))
  {
    var a := ByProducer(t, FailSerialize(0));
    assert NextAux(s, x, a, Next(s, a).value).flights.Keys == x.flights.Keys;
  }

  lemma MetadataMove(s: State, x: Aux, q: nat, c: nat, t: nat)
    requires s.mem.Count() > 0 && Owns(x.flights, q, t) && x.flights[q].stage.Filling?
    requires t in s.producers && (s.producers[t].Serialized? || s.producers[t].Cancelling?) && s.producers[t].pos == q
    ensures GoodMove(s, x, q, c, ByProducer(t, WriteMetadata))
  {
    var a := ByProducer(t, WriteMetadata);
    assert NextAux(s, x, a, Next(s, a).value).flights.Keys == x.flights.Keys;
  }

  lemma PublishMove(s: State, x: Aux, q: nat, c: nat, t: nat)
    requires s.mem.Count() > 0 && Owns(x.flights, q, t) && x.flights[q].stage.Filling?
    requires t in s.producers && s.producers[t].Filled? && s.producers[t].pos == q
    ensures GoodMove(s, x, q, c, ByProducer(t, StoreSequence))
  {
    var a := ByProducer(t, StoreSequence);
    assert NextAux(s, x, a, Next(s, a).value).flights.Keys == x.flights.Keys;
  }

  lemma MoveProducerOn(s: State, x: Aux, q: nat, c: nat) returns (a: Action)
    requires Inv(s, x) && q in x.flights && x.flights[q].stage.Answered? && x.flights[q].holder.HeldByProducer?
    ensures GoodMove(s, x, q, c, a)
  {
    assert HolderOk(s.producers, s.gateways, q, x.flights[q].holder);
    var t := x.flights[q].holder.t;
    var pr := s.producers[t];
    assert ProducerOk(s.mem, s.gateways.Keys, x.flights, t, pr);
    SequenceShowsStage(s.mem, x.flights, q);
    if pr.Pushing? {
      a := ByProducer(t, Push);
      PushStep(s, x, t);
      PushIsClose(s, x, q, c, t);
    } else if pr.Releasing? {
      a := ByProducer(t, StoreRelease);
      ReleaseMove(s, x, q, c, t);
    } else {
      var e := if pr.Stored? then AddReady else if pr.Waiting? then PollSequence
               else if pr.HandingOff? then HandoffLoad else ReadSlot;
      a := ByProducer(t, e);
      WaitMove(s, x, q, c, t, e);
    }
  }

  lemma ReleaseMove(s: State, x: Aux, q: nat, c: nat, t: nat)
    requires s.mem.Count() > 0 && q in x.flights && t in s.producers && s.producers[t].Releasing? && s.producers[t].pos == q
    ensures GoodMove(s, x, q, c, ByProducer(t, StoreRelease))
  {
    FewerFlights(x.flights, q);
  }

  lemma WaitMove(s: State, x: Aux, q: nat, c: nat, t: nat, e: ProducerEvent)
    requires s.mem.Count() > 0 && Owns(x.flights, q, t) && x.flights[q].stage.Answered? && s.mem.At(q).sequence == q + 2
    requires t in s.producers && HeldPosition(s.producers[t]) == Some(q)
    requires var pr := s.producers[t];
             (pr.Stored? && e.AddReady?) || (pr.Waiting? && e.PollSequence?)
             || (pr.HandingOff? && e.HandoffLoad?) || (pr.Responding? && e.ReadSlot?)
    ensures GoodMove(s, x, q, c, ByProducer(t, e))
  {
  }

  lemma PushIsClose(s: State, x: Aux, q: nat, c: nat, t: nat)
    requires Inv(s, x) && Owns(x.flights, q, t) && t in s.producers && s.producers[t].Pushing? && s.producers[t].pos == q
    requires s.producers[t].req.gateway in s.gateways
    requires var gw := s.gateways[s.producers[t].req.gateway]; q !in gw.pending && |gw.pending| < s.mem.Count()
    ensures GoodMove(s, x, q, c, ByProducer(t, Push))
  {
    var pr, a := s.producers[t], ByProducer(t, Push);
    var gw := s.gateways[pr.req.gateway];
    var s' := Next(s, a).value;
    assert (gw.pending + [q])[|gw.pending|] == q;
    assert s'.gateways[pr.req.gateway] != gw;
    assert NextAux(s, x, a, s').flights.Keys == x.flights.Keys;
  }

  lemma FewerFlights(flights: Flights, q: nat)
    requires q in flights
    ensures |flights - {q}| < |flights|
  {
    var rest := flights - {q};
    assert flights.Keys == rest.Keys + {q};
    assert |flights.Keys| == |rest.Keys| + 1;
  }

  lemma MoveGatewayOn(s: State, x: Aux, q: nat, c: nat) returns (a: Action)
    requires Inv(s, x) && q in x.flights && x.flights[q].stage.Answered? && x.flights[q].holder.HeldByGateway?
    ensures GoodMove(s, x, q, c, a)
  {
    assert HolderOk(s.producers, s.gateways, q, x.flights[q].holder);
    var g := x.flights[q].holder.g;
    var gw := s.gateways[g];
    assert GatewayOk(x.flights, g, gw);
    SequenceShowsStage(s.mem, x.flights, q);
    if gw.scan.SawAnswer? {
      a := ByGateway(g, ScanStore);
      ReclaimMove(s, x, q, c, g);
    } else {
      var e := if gw.scan.Resting? then Swap else if gw.scan.index < |gw.outstanding| then ScanLoad else ScanEnd;
      a := ByGateway(g, e);
      ScanMove(s, x, q, c, g, e);
    }
  }

  lemma ReclaimMove(s: State, x: Aux, q: nat, c: nat, g: nat)
    requires s.mem.Count() > 0 && g in s.gateways && s.gateways[g].scan.SawAnswer?
    requires s.gateways[g].scan.index < |s.gateways[g].outstanding|
    requires s.gateways[g].outstanding[s.gateways[g].scan.index] in x.flights
    ensures GoodMove(s, x, q, c, ByGateway(g, ScanStore))
  {
    FewerFlights(x.flights, s.gateways[g].outstanding[s.gateways[g].scan.index]);
  }

  lemma ScanMove(s: State, x: Aux, q: nat, c: nat, g: nat, e: GatewayEvent)
    requires s.mem.Count() > 0 && q in x.flights && x.flights[q].stage.Answered? && x.flights[q].holder == HeldByGateway(g)
    requires s.mem.At(q).sequence == q + 2 && g in s.gateways
    requires q in s.gateways[g].pending || q in s.gateways[g].outstanding
    requires var gw := s.gateways[g];
             (gw.scan.Resting? && e.Swap?)
             || (gw.scan.Scanning? && e == if gw.scan.index < |gw.outstanding| then ScanLoad else ScanEnd)
    ensures GoodMove(s, x, q, c, ByGateway(g, e))
  {
    var gw := s.gateways[g];
    var a := ByGateway(g, e);
    var gw' := Next(s, a).value.gateways[g];
    assert gw.scan.Scanning? && gw.scan.index < |gw.outstanding| && gw.outstanding[gw.scan.index] == q ==> gw'.scan.SawAnswer?;
    ScanRankFalls(gw, gw', q);
    assert NextAux(s, x, a, Next(s, a).value) == x;
  }

  /** One step of a scan brings it closer to an answered position of its lists. */
  lemma ScanRankFalls(gw: Gateway, gw': Gateway, q: nat)
    requires q in gw.pending || q in gw.outstanding
    requires match gw.scan
             case Resting => gw' == Gateway(gw.outstanding, gw.pending, Scanning(0))
             case Scanning(i) =>
               if i >= |gw.outstanding| then gw' == gw.(scan := Resting)
               else gw' == gw.(scan := SawAnswer(i)) || (gw.outstanding[i] != q && gw' == gw.(scan := Scanning(i + 1)))
             case SawAnswer(_) => false
    ensures ScanRank(gw', q) < ScanRank(gw, q)
  {
  }

  // ----- the daemon side ------------------------------------------------------------------

  /** A position behind the dequeue cursor shows at least p + 1. */
  lemma PassedSequence(m: Memory, flights: Flights, pos: nat)
    requires MemoryOk(m, flights) && pos < m.dequeue
    ensures m.At(pos).sequence >= pos + 1
  {
    ClaimedSequence(m, flights, pos);
    assert pos in flights ==> CellOk(m, pos, flights[pos]);
  }

  /** The next step of a consumer that is polling for the head. */
  function PollEvent(pc: ConsumerPc): ConsumerEvent {
    if pc.LoadedDequeue? then LoadReadySequence else CasDequeue(false)
  }

  /** The next step of a consumer inside its handler. */
  function HandlerEvent(co: Consumer): ConsumerEvent {
    match co.pc
    case Decoding(views) => if |views| < |co.staged| then DecodeNext else Launch(true)
    case Preparing(_, _, replies) => if |replies| < |co.staged| then PrepareNext else Synchronize(true, 0)
    case Completing(_, _, written, _) => if written then StoreReply else WriteReply
    case _ => Dispatch
  }

  /** Handler steps always go forward; the last one leaves an idle consumer. */
  lemma HandlerAdvances(s: State, x: Aux, c: nat)
    requires Inv(s, x) && c in s.consumers
    requires var pc := s.consumers[c].pc; pc.Decoding? || pc.Preparing? || pc.Completing? || (pc.Polling? && s.consumers[c].staged != [])
    ensures ConsumerStep(s, c, HandlerEvent(s.consumers[c])).Some?
    ensures var co, co' := s.consumers[c], ConsumerStep(s, c, HandlerEvent(s.consumers[c])).value.consumers[c];
            || co' == Consumer([], Polling)
            || (&& co'.staged == co.staged && (co'.pc.Decoding? || co'.pc.Preparing? || co'.pc.Completing?)
                && BatchRank(co'.pc, |co'.staged|) < BatchRank(co.pc, |co.staged|))
  {
    var co, ts := s.consumers[c], x.takes[c];
    assert ConsumerOk(s.mem, s.maxBatch, x.flights, c, co, ts);
    forall i | 0 <= i < |co.staged| ensures co.staged[i] < s.mem.Count() {
      assert co.staged[i] == SlotIndex(ts[i], s.mem.Count());
    }
    if co.pc.Completing? {
      assert ReplyOk(x.flights, s.mem.slotBytes, s.mem.cuda, co.pc.replies[co.pc.done], ts[co.pc.done]);
    }
  }

  /** A consumer step releases nothing, re-homes nothing and never moves a position backwards. */
  lemma ConsumersOnlyAdvance(s: State, x: Aux, c: nat, e: ConsumerEvent, s': State)
    requires Inv(s, x) && c in s.consumers && ConsumerStep(s, c, e) == Some(s')
    ensures var flights' := ConsumerFlights(s, x, c, e, s');
            && flights'.Keys == x.flights.Keys
            && forall q {:trigger flights'[q]} :: q in x.flights ==>
                 && flights'[q].holder == x.flights[q].holder
                 && ((flights'[q].stage == x.flights[q].stage && flights'[q].taker == x.flights[q].taker)
                     || StageRank(flights'[q].stage) < StageRank(x.flights[q].stage))
  {
    var co, ts := s.consumers[c], x.takes[c];
    assert ConsumerOk(s.mem, s.maxBatch, x.flights, c, co, ts);
    if e.WriteReply? || e.StoreReply? {
      assert Drains(x.flights, ts[co.pc.done], c);
    }
  }

  /** A consumer step that lowers the consumer's own rank is a good move for `q`. */
  lemma ConsumerGoodMove(s: State, x: Aux, q: nat, c: nat, d: nat, e: ConsumerEvent)
    requires Inv(s, x) && d in s.consumers && ConsumerStep(s, d, e).Some? && q in x.flights
    requires var s' := ConsumerStep(s, d, e).value;
             var flights' := ConsumerFlights(s, x, d, e, s');
             q in flights' && flights'[q].stage == x.flights[q].stage ==>
               || (x.flights[q].stage.Published? && d == c
                   && TakeRank(s'.consumers[d], s'.mem.dequeue, s'.maxBatch) < TakeRank(s.consumers[d], s.mem.dequeue, s.maxBatch))
               || (x.flights[q].stage.Drained? && d == x.flights[q].taker
                   && ServeRank(s'.consumers[d], s'.mem.dequeue) < ServeRank(s.consumers[d], s.mem.dequeue))
    ensures GoodMove(s, x, q, c, ByConsumer(d, e))
  {
    ConsumersOnlyAdvance(s, x, d, e, ConsumerStep(s, d, e).value);
  }

  /** Polling steps go forward while the head is published. */
  lemma PollAdvancesTake(s: State, x: Aux, c: nat)
    requires Inv(s, x) && c in s.consumers && (s.consumers[c].pc.LoadedDequeue? || s.consumers[c].pc.SawReady?)
    requires s.mem.dequeue in x.flights && x.flights[s.mem.dequeue].stage.Published?
    ensures ConsumerStep(s, c, PollEvent(s.consumers[c].pc)).Some?
    ensures var s' := ConsumerStep(s, c, PollEvent(s.consumers[c].pc)).value;
            || TakeRank(s'.consumers[c], s'.mem.dequeue, s'.maxBatch) < TakeRank(s.consumers[c], s.mem.dequeue, s.maxBatch)
            || ConsumerFlights(s, x, c, PollEvent(s.consumers[c].pc), s') == DrainedBy(x.flights, s.mem.dequeue, c)
  {
    var co := s.consumers[c];
    assert ConsumerOk(s.mem, s.maxBatch, x.flights, c, co, x.takes[c]);
    HeadSequence(s.mem, x.flights);
    if co.pc.pos < s.mem.dequeue { PassedSequence(s.mem, x.flights, co.pc.pos); }
  }

  lemma PollAdvancesServe(s: State, x: Aux, c: nat)
    requires Inv(s, x) && c in s.consumers && (s.consumers[c].pc.LoadedDequeue? || s.consumers[c].pc.SawReady?)
    ensures ConsumerStep(s, c, PollEvent(s.consumers[c].pc)).Some?
    ensures var s' := ConsumerStep(s, c, PollEvent(s.consumers[c].pc)).value;
            ServeRank(s'.consumers[c], s'.mem.dequeue) < ServeRank(s.consumers[c], s.mem.dequeue)
  {
    var co := s.consumers[c];
    assert ConsumerOk(s.mem, s.maxBatch, x.flights, c, co, x.takes[c]);
    HeadSequence(s.mem, x.flights);
    if co.pc.pos < s.mem.dequeue { PassedSequence(s.mem, x.flights, co.pc.pos); }
  }

  lemma MoveHeadOn(s: State, x: Aux, q: nat, c: nat) returns (a: Action)
    requires Inv(s, x) && q in x.flights && x.flights[q].stage.Published? && q == s.mem.dequeue
    requires c in s.consumers && s.maxBatch > 0
    ensures GoodMove(s, x, q, c, a)
  {
    var co := s.consumers[c];
    assert ConsumerOk(s.mem, s.maxBatch, x.flights, c, co, x.takes[c]);
    var e;
    if co.pc.LoadedDequeue? || co.pc.SawReady? {
      e := PollEvent(co.pc);
      PollAdvancesTake(s, x, c);
    } else if co.pc.Taken? {
      e := StageTaken;
    } else if co.pc.Polling? && |co.staged| < s.maxBatch {
      e := LoadDequeue;
    } else {
      e := HandlerEvent(co);
      HandlerAdvances(s, x, c);
    }
    ConsumerGoodMove(s, x, q, c, c, e);
    a := ByConsumer(c, e);
  }

  lemma MoveTakerOn(s: State, x: Aux, q: nat, c: nat) returns (a: Action)
    requires Inv(s, x) && q in x.flights && x.flights[q].stage.Drained?
    ensures GoodMove(s, x, q, c, a)
  {
    var d := x.flights[q].taker;
    assert TakerOk(s.consumers, x.takes, q, d);
    var co, ts := s.consumers[d], x.takes[d];
    assert ConsumerOk(s.mem, s.maxBatch, x.flights, d, co, ts);
    var e;
    if co.pc.LoadedDequeue? || co.pc.SawReady? {
      e := PollEvent(co.pc);
      PollAdvancesServe(s, x, d);
    } else if co.pc.Taken? {
      e := StageTaken;
    } else {
      e := HandlerEvent(co);
      HandlerAdvances(s, x, d);
    }
    ConsumerGoodMove(s, x, q, c, d, e);
    a := ByConsumer(d, e);
  }

  // ----- draining -------------------------------------------------------------------------

  lemma {:induction false} SmallestExists(keys: set<nat>) returns (q: nat)
    requires keys != {}
    ensures q in keys && forall r :: r in keys ==> q <= r
  {
    var first :| first in keys;
    var rest := keys - {first};
    q := first;
    assert forall r :: r in keys ==> r == first || r in rest;
    if rest != {} {
      var r := SmallestExists(rest);
      if r < first { q := r; }
    }
  }

  ghost predicate IsOldest(flights: Flights, q: nat) {
    q in flights && forall r :: r in flights ==> q <= r
  }

  /** One good move for the oldest position in flight. */
  lemma MoveOldest(s: State, x: Aux, q: nat, c: nat) returns (a: Action)
    requires Inv(s, x) && IsOldest(x.flights, q) && c in s.consumers && s.maxBatch > 0
    ensures GoodMove(s, x, q, c, a)
  {
    match x.flights[q].stage
    case Filling => a := MoveWhileFilling(s, x, q, c);
    case Published =>
      assert CellOk(s.mem, q, x.flights[q]);
      assert s.mem.dequeue in x.flights;
      a := MoveHeadOn(s, x, q, c);
    case Drained => a := MoveTakerOn(s, x, q, c);
    case Answered =>
      if x.flights[q].holder.HeldByProducer? {
        a := MoveProducerOn(s, x, q, c);
      } else {
        a := MoveGatewayOn(s, x, q, c);
      }
  }

  lemma AfterMove(s: State, x: Aux, a: Action, c: nat) returns (s': State, x': Aux)
    requires Inv(s, x) && Quiet(a) && Step(s, a).Some? && c in s.consumers && s.maxBatch > 0
    ensures Step(s, a) == Some(s') && x' == NextAux(s, x, a, s') && Inv(s', x')
    ensures c in s'.consumers && s'.maxBatch > 0 && s'.mem.enqueue == s.mem.enqueue && s'.mem.Count() == s.mem.Count()
  {
    s' := Step(s, a).value;
    x' := NextAux(s, x, a, s');
    StepKeepsInv(s, x, a, s');
    StepMoves(s, x, a, s');
    ShapeStays(s, a, s');
    QuietDoesNotClaim(s, a, s');
  }

  lemma QuietDoesNotClaim(s: State, a: Action, s': State)
    requires Quiet(a) && Step(s, a) == Some(s')
    ensures NoteOf(s, a, s').claim == None
  {
  }

  /** Drive the oldest position until some position has been released. */
  lemma {:induction false} ReleaseOne(s: State, x: Aux, q: nat, c: nat) returns (ex: Execution, s': State, x': Aux)
    requires Inv(s, x) && IsOldest(x.flights, q) && c in s.consumers && s.maxBatch > 0
    ensures ex.From(s) && ex.End() == s' && Inv(s', x') && |x'.flights| < |x.flights|
    ensures c in s'.consumers && s'.maxBatch > 0 && s'.mem.enqueue == s.mem.enqueue && s'.mem.Count() == s.mem.Count()
    ensures forall a :: a in ex.acts ==> Quiet(a) && Patient(a)
    decreases StageRank(x.flights[q].stage), HolderRank(x.flights[q].holder), LocalRank(s, x, q, c)
  {
    var a := MoveOldest(s, x, q, c);
    var s1, x1 := AfterMove(s, x, a, c);
    ex := Extend(s, Stay(s), a, s1);
    if |x1.flights| < |x.flights| {
      s', x' := s1, x1;
    } else {
      assert IsOldest(x1.flights, q) by {
        assert forall r :: r in x1.flights <==> r in x1.flights.Keys;
      }
      assert |x1.flights.Keys| == |x.flights.Keys|;
      var rest;
      rest, s', x' := ReleaseOne(s1, x1, q, c);
      ex := Join(s, ex, rest);
    }
  }

  lemma {:induction false} DrainAll(s: State, x: Aux, c: nat) returns (ex: Execution, s': State, x': Aux)
    requires Inv(s, x) && c in s.consumers && s.maxBatch > 0
    ensures ex.From(s) && ex.End() == s' && Inv(s', x') && x'.flights == map[]
    ensures s'.mem.enqueue == s.mem.enqueue && s'.mem.Count() == s.mem.Count()
    ensures forall a :: a in ex.acts ==> Quiet(a) && Patient(a)
    decreases |x.flights|
  {
    if x.flights == map[] {
      ex, s', x' := Stay(s), s, x;
    } else {
      assert x.flights.Keys != {};
      var q := SmallestExists(x.flights.Keys);
      assert IsOldest(x.flights, q);
      var first, s1, x1 := ReleaseOne(s, x, q, c);
      var rest;
      rest, s', x' := DrainAll(s1, x1, c);
      ex := Join(s, first, rest);
    }
  }

  // ----- what becomes of the waiting submitters -------------------------------------------

  /** The submitter has published its transaction and has not given up. */
  predicate Awaits(pr: Producer) {
    (pr.Stored? && pr.cancel.None?) || pr.Waiting? || pr.Responding?
  }

  /** It is waiting for its response, or has it. */
  predicate Hopeful(pr: Producer, req: Request) {
    || (Awaits(pr) && pr.req == req)
    || (pr.Releasing? && pr.req == req && pr.result.Response?)
    || (pr.Done? && pr.req == req && pr.result.Response?)
  }

  lemma HopeStays(s: State, x: Aux, a: Action, s': State, t: nat, req: Request)
    requires Inv(s, x) && Step(s, a) == Some(s') && Quiet(a) && Patient(a)
    requires t in s.producers && Hopeful(s.producers[t], req)
    ensures t in s'.producers && Hopeful(s'.producers[t], req)
  {
    if a.ByProducer? && a.t == t {
      if a.p.ReadSlot? {
        ReadStep(s, x, t, s');
      }
    } else {
      OthersLeaveMe(s, a, s', t);
    }
  }

  lemma {:induction false} HopeLasts(k: Config, ex: Execution, from: nat, n: nat, t: nat, req: Request)
    requires k.count >= 3 && ex.Valid(k) && from <= n <= |ex.acts|
    requires forall i :: from <= i < |ex.acts| ==> Quiet(ex.acts[i]) && Patient(ex.acts[i])
    requires t in ex.states[from].producers && Hopeful(ex.states[from].producers[t], req)
    ensures t in ex.states[n].producers && Hopeful(ex.states[n].producers[t], req)
    decreases n
  {
    if from < n {
      HopeLasts(k, ex, from, n - 1, t, req);
      PrefixIsValid(k, ex, n - 1);
      var x := EveryRunKeepsInv(k, Prefix(ex, n - 1));
      HopeStays(ex.states[n - 1], x, ex.acts[n - 1], ex.states[n], t, req);
    }
  }

  /** When nothing is in flight any more, every hopeful submitter has its response. */
  lemma HopeIsMet(s: State, x: Aux, t: nat, req: Request)
    requires Inv(s, x) && x.flights == map[] && t in s.producers && Hopeful(s.producers[t], req)
    ensures s.producers[t].Done? && s.producers[t].req == req && s.producers[t].result.Response?
  {
    assert ProducerOk(s.mem, s.gateways.Keys, x.flights, t, s.producers[t]);
  }

  /** From every reachable state there is a continuation without submissions, without claims and
      without expired deadlines that releases every claimed position, leaves every slot free for the
      next generation, and gives every submitter that was waiting for a response its response. */
  lemma NoPermanentHole(k: Config, ex: Execution) returns (more: seq<Action>, ex': Execution)
    requires k.count >= 3 && k.maxBatch > 0 && k.consumers != {} && ex.Valid(k)
    ensures ex'.Valid(k) && ex'.acts == ex.acts + more && forall a :: a in more ==> Quiet(a) && Patient(a)
    ensures var e, m := ex.End().mem.enqueue, ex'.End().mem;
            && m.Count() == k.count && m.enqueue == e && m.dequeue == e
            && (forall p: nat :: p < e ==> Occurrences(ex'.notes, Release, p) == 1)
            && (forall p: nat :: e <= p < e + k.count ==> m.At(p).sequence == p)
    ensures forall t {:trigger ex.End().producers[t]} :: t in ex.End().producers && Awaits(ex.End().producers[t]) ==>
      && t in ex'.End().producers && ex'.End().producers[t].Done?
      && ex'.End().producers[t].req == ex.End().producers[t].req && ex'.End().producers[t].result.Response?
  {
    var s := ex.End();
    var x := EveryRunKeepsInv(k, ex);
    ConfigStays(k, ex, s);
    var c :| c in k.consumers;
    var rest, s', x' := DrainAll(s, x, c);
    more := rest.acts;
    ex' := Join(k.Start(), ex, rest);
    DrainedMemory(k, ex', x');
    forall t | t in s.producers && Awaits(s.producers[t])
      ensures t in s'.producers && s'.producers[t].Done? && s'.producers[t].req == s.producers[t].req && s'.producers[t].result.Response?
    {
      HopeLasts(k, ex', |ex.acts|, |ex'.acts|, t, s.producers[t].req);
      HopeIsMet(s', x', t, s.producers[t].req);
    }
  }

  lemma DrainedMemory(k: Config, ex: Execution, x: Aux)
    requires k.count >= 3 && ex.Valid(k) && Inv(ex.End(), x) && x.flights == map[]
    ensures var m := ex.End().mem;
            && m.Count() == k.count && m.dequeue == m.enqueue
            && (forall p: nat :: p < m.enqueue ==> Occurrences(ex.notes, Release, p) == 1)
            && (forall p: nat :: m.enqueue <= p < m.enqueue + k.count ==> m.At(p).sequence == p)
  {
    var m := ex.End().mem;
    ConfigStays(k, ex, ex.End());
    var y := EveryRunKeepsInv(k, ex);
    assert m.dequeue !in x.flights;
    forall p: nat | m.enqueue <= p < m.enqueue + k.count ensures m.At(p).sequence == p {
      UnclaimedSequence(m, x.flights, p);
    }
    forall p: nat | p < m.enqueue ensures Occurrences(ex.notes, Release, p) == 1 {
      assert Balanced(ex.notes, m, y.flights, p);
      SameFlights(m, x.flights, y.flights, p);
    }
  }

  /** Whether a position is in flight can be read off the memory, so all histories agree on it. */
  lemma SameFlights(m: Memory, flights: Flights, flights': Flights, p: nat)
    requires MemoryOk(m, flights) && MemoryOk(m, flights')
    ensures p in flights <==> p in flights'
  {
    if p in flights {
      assert CellOk(m, p, flights[p]);
      UnclaimedSequence(m, flights', p + m.Count());
      assert SlotIndex(p + m.Count(), m.Count()) == SlotIndex(p, m.Count());
    }
    if p in flights' {
      assert CellOk(m, p, flights'[p]);
      UnclaimedSequence(m, flights, p + m.Count());
      assert SlotIndex(p + m.Count(), m.Count()) == SlotIndex(p, m.Count());
    }
  }
}
