/** The invariant of the ring. `Aux` is history the system never reads: for every position in
    flight a private cell with its stage and its two responsible parties, and for every consumer
    the positions behind its staged slot pointers. The memory part says that the ring of reused
    slots looks, to every party, like one private cell per position. */
module RingInvariant {
  import opened Common
  import opened RingSlots
  import opened Addressing
  import opened RingSystem

  datatype Stage = Filling | Published | Drained | Answered

  /** Who must release the position. */
  datatype Holder = HeldByProducer(t: nat) | HeldByGateway(g: nat)

  datatype Flight = Flight(holder: Holder, stage: Stage, taker: nat, cell: Slot)

  type Flights = map<nat, Flight>

  datatype Aux = Aux(flights: Flights, takes: map<nat, seq<nat>>)

  function Lag(stage: Stage): nat {
    match stage
    case Filling => 0
    case Published => 1
    case Drained => 1
    case Answered => 2
  }

  /** An answer the daemon may give for what a cell holds. */
  predicate AnswerFits(answer: Answer, view: Option<Transaction>, cuda: bool) {
    answer == Verdict(view, true) || (cuda && answer == Verdict(view, false))
  }

  // ----- memory ---------------------------------------------------------------------------

  predicate CellOk(m: Memory, q: nat, f: Flight)
    requires m.Count() > 0
  {
    && q < m.enqueue <= q + m.Count()
    && m.At(q) == f.cell
    && f.cell.sequence == q + Lag(f.stage)
    && (m.dequeue <= q <==> f.stage.Filling? || f.stage.Published?)
    && (f.stage.Answered? ==> AnswerFits(AnswerOf(f.cell), Decode(f.cell, m.slotBytes), m.cuda))
  }

  /** The slot of a position not yet claimed is free once the previous generation was released. */
  predicate FreeOk(m: Memory, p: nat, flights: Flights)
    requires m.Count() > 0
  {
    p < m.Count() || p - m.Count() !in flights ==> m.At(p).sequence == p
  }

  ghost predicate MemoryOk(m: Memory, flights: Flights) {
    && m.Count() >= 3
    && m.dequeue <= m.enqueue
    && (forall q {:trigger CellOk(m, q, flights[q])} :: q in flights ==> CellOk(m, q, flights[q]))
    && (forall p: nat {:trigger FreeOk(m, p, flights)} ::
          m.enqueue <= p < m.enqueue + m.Count() ==> FreeOk(m, p, flights))
    && (forall q: nat {:trigger q in flights} :: m.dequeue <= q < m.enqueue ==> q in flights)
  }

  // ----- submitting threads ---------------------------------------------------------------

  function HeldPosition(pr: Producer): Option<nat> {
    if pr.Idle? || pr.Claiming? || pr.LoadedEnqueue? || pr.SawFree? || pr.Done? then None else Some(pr.pos)
  }

  predicate Owns(flights: Flights, q: nat, t: nat) {
    q in flights && flights[q].holder == HeldByProducer(t)
  }

  /** The record a submitter leaves for the daemon: its own frame, or a zero-length cancellation. */
  predicate Carries(cell: Slot, req: Request, cancelled: bool, slotBytes: nat) {
    && cell.requestId == req.id && cell.enqueueNs == req.enqueueNs
    && if cancelled then cell.payloadSize == 0
       else
         && cell.area == Frame(cell.payloadOffset, cell.payloadSize, TransactionOf(req))
         && SLOT_PREFIX_BYTES <= cell.payloadOffset
         && 0 < cell.payloadSize
         && cell.payloadOffset + cell.payloadSize <= slotBytes
  }

  /** A record before its publication: no response yet, and a status that says why not. */
  predicate Unanswered(cell: Slot, cancelled: bool) {
    && cell.status == (if cancelled then STATUS_CANCELLED else STATUS_INCOMPLETE)
    && cell.decision == 0 && cell.score == 0.0 && cell.completeNs == 0
    && (cancelled ==> cell.payloadOffset == SLOT_PREFIX_BYTES)
  }

  /** A response is the daemon's verdict on this very request; nothing the gateway would call a
      corrupted slot is ever reported. */
  predicate OutcomeOk(req: Request, result: Outcome, cuda: bool) {
    match result
    case Response(id, answer, _) =>
      id == req.id && AnswerFits(answer, Some(TransactionOf(req)), cuda)
    case Failed(f) => f.Full? || f.Timeout? || f.Stopped? || f.SerializationFailed?
  }

  predicate CancelOk(cancel: Option<Outcome>, req: Request, cuda: bool) {
    cancel.Some? ==> cancel.value.Failed? && OutcomeOk(req, cancel.value, cuda)
  }

  predicate ProducerOk(m: Memory, gateways: set<nat>, flights: Flights, t: nat, pr: Producer) {
    && (!pr.Idle? ==> pr.req.gateway in gateways)
    && (HeldPosition(pr).Some? ==> Owns(flights, pr.pos, t))
    && match pr
       case Idle => true
       case Claiming(_) => true
       case LoadedEnqueue(_, pos) => pos <= m.enqueue
       case SawFree(_, pos) =>
         pos <= m.enqueue && (pos == m.enqueue ==> pos < m.Count() || pos - m.Count() !in flights)
       case Held(_, pos) => flights[pos].stage.Filling?
       case Serialized(req, pos, offset, size) =>
         && flights[pos].stage.Filling?
         && flights[pos].cell.area == Frame(offset, size, TransactionOf(req))
         && SLOT_PREFIX_BYTES <= offset && 0 < size && offset + size <= m.slotBytes
       case Cancelling(req, pos, why) => flights[pos].stage.Filling? && CancelOk(Some(why), req, m.cuda)
       case Filled(req, pos, cancel) =>
         && flights[pos].stage.Filling? && Unanswered(flights[pos].cell, cancel.Some?)
         && Carries(flights[pos].cell, req, cancel.Some?, m.slotBytes) && CancelOk(cancel, req, m.cuda)
       case Stored(req, pos, cancel) =>
         && !flights[pos].stage.Filling?
         && Carries(flights[pos].cell, req, cancel.Some?, m.slotBytes) && CancelOk(cancel, req, m.cuda)
       case Waiting(req, pos) =>
         !flights[pos].stage.Filling? && Carries(flights[pos].cell, req, false, m.slotBytes)
       case HandingOff(req, pos, why) => !flights[pos].stage.Filling? && CancelOk(Some(why), req, m.cuda)
       case Pushing(req, pos, why) => !flights[pos].stage.Filling? && CancelOk(Some(why), req, m.cuda)
       case Responding(req, pos) =>
         flights[pos].stage.Answered? && Carries(flights[pos].cell, req, false, m.slotBytes)
       case Releasing(req, pos, result) => flights[pos].stage.Answered? && OutcomeOk(req, result, m.cuda)
       case Done(req, result) => OutcomeOk(req, result, m.cuda)
  }

  ghost predicate ProducersOk(m: Memory, gateways: set<nat>, flights: Flights, producers: map<nat, Producer>) {
    forall t {:trigger ProducerOk(m, gateways, flights, t, producers[t])} ::
      t in producers ==> ProducerOk(m, gateways, flights, t, producers[t])
  }

  // ----- reclaimers -----------------------------------------------------------------------

  ghost predicate NoDuplicates(v: seq<nat>) {
    forall i, j :: 0 <= i < j < |v| ==> v[i] != v[j]
  }

  predicate Reclaims(flights: Flights, q: nat, g: nat) {
    q in flights && flights[q].holder == HeldByGateway(g) && !flights[q].stage.Filling?
  }

  ghost predicate GatewayOk(flights: Flights, g: nat, gw: Gateway) {
    && NoDuplicates(gw.pending + gw.outstanding)
    && (forall q :: q in gw.pending ==> Reclaims(flights, q, g))
    && (forall q :: q in gw.outstanding ==> Reclaims(flights, q, g))
    && (gw.scan.SawAnswer? ==>
          && gw.scan.index < |gw.outstanding|
          && Reclaims(flights, gw.outstanding[gw.scan.index], g)
          && flights[gw.outstanding[gw.scan.index]].stage.Answered?)
  }

  ghost predicate GatewaysOk(flights: Flights, gateways: map<nat, Gateway>) {
    forall g {:trigger GatewayOk(flights, g, gateways[g])} :: g in gateways ==> GatewayOk(flights, g, gateways[g])
  }

  /** Every position in flight has exactly one party that will release it. */
  predicate HolderOk(producers: map<nat, Producer>, gateways: map<nat, Gateway>, q: nat, holder: Holder) {
    match holder
    case HeldByProducer(t) => t in producers && HeldPosition(producers[t]) == Some(q)
    case HeldByGateway(g) => g in gateways && (q in gateways[g].pending || q in gateways[g].outstanding)
  }

  ghost predicate HoldersOk(producers: map<nat, Producer>, gateways: map<nat, Gateway>, flights: Flights) {
    forall q {:trigger HolderOk(producers, gateways, q, flights[q].holder)} ::
      q in flights ==> HolderOk(producers, gateways, q, flights[q].holder)
  }

  // ----- daemon consumers -----------------------------------------------------------------

  predicate Drains(flights: Flights, q: nat, c: nat) {
    q in flights && flights[q].stage.Drained? && flights[q].taker == c
  }

  function DoneCount(pc: ConsumerPc): nat {
    if pc.Completing? then pc.done else 0
  }

  ghost predicate StagedOk(count: nat, flights: Flights, c: nat, co: Consumer, ts: seq<nat>)
    requires count > 0
  {
    && |ts| == |co.staged|
    && NoDuplicates(ts)
    && (forall i :: 0 <= i < |ts| ==> co.staged[i] == SlotIndex(ts[i], count))
    && (forall i {:trigger ts[i]} :: DoneCount(co.pc) <= i < |ts| ==> Drains(flights, ts[i], c))
  }

  ghost predicate ViewsOk(flights: Flights, slotBytes: nat, views: seq<Option<Transaction>>, ts: seq<nat>) {
    && |views| <= |ts|
    && forall i {:trigger views[i]} :: 0 <= i < |views| ==>
         ts[i] in flights && views[i] == Decode(flights[ts[i]].cell, slotBytes)
  }

  predicate ReplyOk(flights: Flights, slotBytes: nat, cuda: bool, reply: Reply, q: nat) {
    && q in flights
    && reply.position == q
    && AnswerFits(reply.answer, Decode(flights[q].cell, slotBytes), cuda)
  }

  ghost predicate RepliesOk(m: Memory, flights: Flights, replies: seq<Reply>, ts: seq<nat>, from: nat) {
    && |replies| <= |ts|
    && forall i {:trigger replies[i]} :: from <= i < |replies| ==>
         ReplyOk(flights, m.slotBytes, m.cuda, replies[i], ts[i])
  }

  ghost predicate PcOk(m: Memory, maxBatch: nat, flights: Flights, c: nat, pc: ConsumerPc, ts: seq<nat>) {
    match pc
    case Polling => true
    case LoadedDequeue(pos) => pos <= m.dequeue && |ts| < maxBatch
    case SawReady(pos) =>
      pos <= m.dequeue && |ts| < maxBatch && (pos == m.dequeue ==> pos in flights && flights[pos].stage.Published?)
    case Taken(pos) => Drains(flights, pos, c) && pos !in ts && |ts| < maxBatch
    case Decoding(views) => ts != [] && ViewsOk(flights, m.slotBytes, views, ts)
    case Preparing(views, graphOk, replies) =>
      && ts != [] && |views| == |ts| && ViewsOk(flights, m.slotBytes, views, ts)
      && (graphOk || m.cuda)
      && RepliesOk(m, flights, replies, ts, 0)
      && forall i {:trigger replies[i]} :: 0 <= i < |replies| ==> replies[i].answer == Verdict(views[i], graphOk)
    case Completing(replies, done, written, nowNs) =>
      && done < |ts| == |replies|
      && RepliesOk(m, flights, replies, ts, done)
      && (written ==> ts[done] in flights && AnswerOf(flights[ts[done]].cell) == replies[done].answer)
  }

  ghost predicate ConsumerOk(m: Memory, maxBatch: nat, flights: Flights, c: nat, co: Consumer, ts: seq<nat>)
    requires m.Count() > 0
  {
    && |ts| <= maxBatch
    && StagedOk(m.Count(), flights, c, co, ts)
    && PcOk(m, maxBatch, flights, c, co.pc, ts)
  }

  ghost predicate ConsumersOk(m: Memory, maxBatch: nat, flights: Flights, consumers: map<nat, Consumer>, takes: map<nat, seq<nat>>) {
    && m.Count() > 0
    && takes.Keys == consumers.Keys
    && forall c {:trigger ConsumerOk(m, maxBatch, flights, c, consumers[c], takes[c])} ::
         c in consumers ==> ConsumerOk(m, maxBatch, flights, c, consumers[c], takes[c])
  }

  /** Every drained position is on exactly one consumer's hands. */
  ghost predicate TakerOk(consumers: map<nat, Consumer>, takes: map<nat, seq<nat>>, q: nat, c: nat) {
    && c in consumers && c in takes
    && (consumers[c].pc == Taken(q)
        || exists i {:trigger takes[c][i]} :: DoneCount(consumers[c].pc) <= i < |takes[c]| && takes[c][i] == q)
  }

  ghost predicate TakersOk(flights: Flights, consumers: map<nat, Consumer>, takes: map<nat, seq<nat>>) {
    forall q {:trigger TakerOk(consumers, takes, q, flights[q].taker)} ::
      q in flights && flights[q].stage.Drained? ==> TakerOk(consumers, takes, q, flights[q].taker)
  }

  ghost predicate Inv(s: State, x: Aux) {
    && MemoryOk(s.mem, x.flights)
    && ProducersOk(s.mem, s.gateways.Keys, x.flights, s.producers)
    && GatewaysOk(x.flights, s.gateways)
    && HoldersOk(s.producers, s.gateways, x.flights)
    && ConsumersOk(s.mem, s.maxBatch, x.flights, s.consumers, x.takes)
    && TakersOk(x.flights, s.consumers, x.takes)
  }

  // ----- history --------------------------------------------------------------------------

  function InitAux(consumers: set<nat>): Aux {
    Aux(map[], map c | c in consumers :: [])
  }

  /** How the history follows a step that the system took from `s` to `s'`. */
  ghost function NextAux(s: State, x: Aux, a: Action, s': State): Aux
    requires s.mem.Count() > 0 && Next(s, a) == Some(s')
  {
    match a
    case Submit(_, _) => x
    case ByProducer(t, e) => x.(flights := ProducerFlights(s, x.flights, t, e, s'))
    case ByGateway(g, e) => x.(flights := GatewayFlights(s, x.flights, g, e))
    case ByConsumer(c, e) =>
      Aux(ConsumerFlights(s, x, c, e, s'), ConsumerTakes(s, x, c, e))
  }

  function Rewritten(flights: Flights, q: nat, stage: Stage, cell: Slot): Flights {
    if q in flights then flights[q := flights[q].(stage := stage, cell := cell)] else flights
  }

  function Rehomed(flights: Flights, q: nat, g: nat): Flights {
    if q in flights then flights[q := flights[q].(holder := HeldByGateway(g))] else flights
  }

  function DrainedBy(flights: Flights, q: nat, c: nat): Flights {
    if q in flights then flights[q := flights[q].(stage := Drained, taker := c)] else flights
  }

  ghost function ProducerFlights(s: State, flights: Flights, t: nat, e: ProducerEvent, s': State): Flights
    requires s.mem.Count() > 0 && t in s.producers && ProducerStep(s, t, e) == Some(s')
  {
    var pr := s.producers[t];
    match e
    case CasEnqueue(_, _) =>
      if s'.mem.enqueue == s.mem.enqueue then flights
      else flights[pr.pos := Flight(HeldByProducer(t), Filling, 0, s.mem.At(pr.pos))]
    case Serialize(_, _) => Rewritten(flights, pr.pos, Filling, s'.mem.At(pr.pos))
    case FailSerialize(_) => Rewritten(flights, pr.pos, Filling, s'.mem.At(pr.pos))
    case WriteMetadata => Rewritten(flights, pr.pos, Filling, s'.mem.At(pr.pos))
    case StoreSequence => Rewritten(flights, pr.pos, Published, s'.mem.At(pr.pos))
    case Push => if s'.gateways != s.gateways then Rehomed(flights, pr.pos, pr.req.gateway) else flights
    case StoreRelease => flights - {pr.pos}
    case _ => flights
  }

  ghost function GatewayFlights(s: State, flights: Flights, g: nat, e: GatewayEvent): Flights
    requires s.mem.Count() > 0 && g in s.gateways && GatewayStep(s, g, e).Some?
  {
    if e.ScanStore? then flights - {s.gateways[g].outstanding[s.gateways[g].scan.index]} else flights
  }

  ghost function ConsumerFlights(s: State, x: Aux, c: nat, e: ConsumerEvent, s': State): Flights
    requires s.mem.Count() > 0 && c in s.consumers && ConsumerStep(s, c, e) == Some(s')
  {
    var pc := s.consumers[c].pc;
    match e
    case CasDequeue(_) => if s'.mem.dequeue == s.mem.dequeue then x.flights else DrainedBy(x.flights, pc.pos, c)
    case WriteReply =>
      if c in x.takes && pc.done < |x.takes[c]|
      then Rewritten(x.flights, x.takes[c][pc.done], Drained, s'.mem.At(x.takes[c][pc.done])) else x.flights
    case StoreReply =>
      if c in x.takes && pc.done < |x.takes[c]|
      then Rewritten(x.flights, x.takes[c][pc.done], Answered, s'.mem.At(x.takes[c][pc.done])) else x.flights
    case _ => x.flights
  }

  ghost function ConsumerTakes(s: State, x: Aux, c: nat, e: ConsumerEvent): map<nat, seq<nat>>
    requires s.mem.Count() > 0 && c in s.consumers && ConsumerStep(s, c, e).Some?
  {
    var pc := s.consumers[c].pc;
    if e.StageTaken? && c in x.takes then x.takes[c := x.takes[c] + [pc.pos]]
    else if e.StoreReply? && c in x.takes && pc.done + 1 == |x.takes[c]| then x.takes[c := []]
    else x.takes
  }
}
