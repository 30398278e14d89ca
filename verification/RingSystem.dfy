/** The shared-memory request ring as a transition system: one step per atomic access, plain
    payload, metadata and response writes as steps of their own, any number of submitting
    threads, one reclaimer per gateway and any number of daemon consumers. */
module RingSystem {
  import opened Common
  import opened RingSlots
  import opened Addressing
  import Words

  /** Where a submitting thread is. From Held on it owns a reservation. */
  datatype Producer =
    | Idle
    | Claiming(req: Request)                                  // top of the reserve loop
    | LoadedEnqueue(req: Request, pos: nat)
    | SawFree(req: Request, pos: nat)                         // sequence == pos, about to CAS
    | Held(req: Request, pos: nat)                            // claimed, nothing written yet
    | Serialized(req: Request, pos: nat, offset: nat, size: nat)
    | Cancelling(req: Request, pos: nat, why: Outcome)
    | Filled(req: Request, pos: nat, cancel: Option<Outcome>) // metadata written
    | Stored(req: Request, pos: nat, cancel: Option<Outcome>) // pos + 1 stored, ready_count not yet added
    | Waiting(req: Request, pos: nat)
    | HandingOff(req: Request, pos: nat, why: Outcome)        // in handoff, before its load
    | Pushing(req: Request, pos: nat, why: Outcome)           // load missed pos + 2
    | Responding(req: Request, pos: nat)                      // saw pos + 2, response not yet read
    | Releasing(req: Request, pos: nat, result: Outcome)      // about to store pos + C
    | Done(req: Request, result: Outcome)

  datatype ProducerEvent =
    | LoadEnqueue
    | GiveUp(failure: Failure)          // deadline or shutdown seen at the top of the loop
    | LoadSequence
    | CasEnqueue(spurious: bool, retryInPlace: bool)
    | Serialize(start: nat, size: nat)  // a finished FlatBuffer is never empty
    | FailSerialize(tag: nat)
    | ExpireBeforePublish
    | WriteMetadata
    | StoreSequence
    | AddReady
    | PollSequence
    | ExpireWaiting
    | HandoffLoad
    | Push
    | ReadSlot
    | StoreRelease

  datatype Scan =
    | Resting
    | Scanning(index: nat)
    | SawAnswer(index: nat)             // loaded pos + 2, about to store pos + C

  datatype Gateway = Gateway(pending: seq<nat>, outstanding: seq<nat>, scan: Scan)

  datatype GatewayEvent = Swap | ScanLoad | ScanStore | ScanEnd

  datatype Reply = Reply(position: int, answer: Answer)

  datatype ConsumerPc =
    | Polling
    | LoadedDequeue(pos: nat)
    | SawReady(pos: nat)                // sequence == pos + 1, about to CAS
    | Taken(pos: nat)                   // CAS won, ready_count not yet decremented
    | Decoding(views: seq<Option<Transaction>>)
    | Preparing(views: seq<Option<Transaction>>, graphOk: bool, replies: seq<Reply>)
    | Completing(replies: seq<Reply>, done: nat, written: bool, nowNs: nat)

  /** `staged` holds slot pointers, as the batcher does; positions are recovered from them. */
  datatype Consumer = Consumer(staged: seq<nat>, pc: ConsumerPc)

  datatype ConsumerEvent =
    | LoadDequeue
    | LoadReadySequence
    | CasDequeue(spurious: bool)
    | StageTaken
    | Dispatch
    | DecodeNext
    | Launch(launched: bool)
    | PrepareNext
    | Synchronize(synced: bool, nowNs: nat)
    | WriteReply
    | StoreReply

  datatype Action =
    | Submit(t: nat, req: Request)
    | ByProducer(t: nat, p: ProducerEvent)
    | ByGateway(g: nat, r: GatewayEvent)
    | ByConsumer(c: nat, e: ConsumerEvent)

  /** The shared segment: slots, the two cursors and the immutable header fields in use. */
  datatype Memory = Memory(slots: seq<Slot>, enqueue: nat, dequeue: nat, slotBytes: nat, cuda: bool) {
    function Count(): nat { |slots| }

    function At(p: nat): Slot
      requires |slots| > 0
    {
      slots[SlotIndex(p, |slots|)]
    }

    function With(p: nat, slot: Slot): Memory
      requires |slots| > 0
    {
      this.(slots := slots[SlotIndex(p, |slots|) := slot])
    }
  }

  datatype State = State(
    mem: Memory,
    readyCount: nat,
    maxBatch: nat,
    producers: map<nat, Producer>,
    gateways: map<nat, Gateway>,
    consumers: map<nat, Consumer>)
  {
    function WithMemory(m: Memory): State {
      this.(mem := m)
    }

    function WithProducer(t: nat, pr: Producer): State {
      this.(producers := producers[t := pr])
    }

    function WithGateway(g: nat, gw: Gateway): State {
      this.(gateways := gateways[g := gw])
    }

    function WithConsumer(c: nat, co: Consumer): State {
      this.(consumers := consumers[c := co])
    }

    /** fetch_add on the 64-bit ready counter. */
    function WithReady(delta: int): State {
      this.(readyCount := (readyCount + delta) % Words.WORD)
    }
  }

  function Init(count: nat, slotBytes: nat, maxBatch: nat, cuda: bool, gateways: set<nat>, consumers: set<nat>): State {
    State(
      Memory(seq(count, i requires 0 <= i => FreshSlot(i)), 0, 0, slotBytes, cuda), 0, maxBatch, map[],
      map g | g in gateways :: Gateway([], [], Resting),
      map c | c in consumers :: Consumer([], Polling))
  }

  /** The metadata writes of publish_success (`cancel == None`) and publish_cancel. */
  function FillSlot(slot: Slot, req: Request, offset: nat, size: nat, status: nat): Slot {
    slot.(payloadOffset := offset, payloadSize := size, status := status, decision := 0,
          score := 0.0, requestId := req.id, enqueueNs := req.enqueueNs, completeNs := 0)
  }

  function ProducerStep(s: State, t: nat, e: ProducerEvent): Option<State>
    requires s.mem.Count() > 0 && t in s.producers
  {
    var pr := s.producers[t];
    match e
    case LoadEnqueue =>
      if pr.Claiming? then Some(s.WithProducer(t, LoadedEnqueue(pr.req, s.mem.enqueue))) else None
    case GiveUp(failure) =>
      if pr.Claiming? && (failure.Full? || failure.Stopped?)
      then Some(s.WithProducer(t, Done(pr.req, Failed(failure)))) else None
    case LoadSequence =>
      if pr.LoadedEnqueue? then
        var sequence := s.mem.At(pr.pos).sequence;
        if sequence == pr.pos then Some(s.WithProducer(t, SawFree(pr.req, pr.pos)))
        else if sequence < pr.pos then Some(s.WithProducer(t, Done(pr.req, Failed(Full))))
        else Some(s.WithProducer(t, Claiming(pr.req)))
      else None
    case CasEnqueue(spurious, retryInPlace) =>
      if pr.SawFree? then
        if s.mem.enqueue == pr.pos && !spurious then
          Some(s.WithMemory(s.mem.(enqueue := s.mem.enqueue + 1)).WithProducer(t, Held(pr.req, pr.pos)))
        else if retryInPlace then
          Some(s.WithProducer(t, LoadedEnqueue(pr.req, s.mem.enqueue)))
        else
          Some(s.WithProducer(t, Claiming(pr.req)))
      else None
    case Serialize(start, size) =>
      if pr.Held? && size > 0 && SLOT_PREFIX_BYTES + start + size <= s.mem.slotBytes then
        var offset := SLOT_PREFIX_BYTES + start;
        Some(s.WithMemory(s.mem.With(pr.pos, s.mem.At(pr.pos).(area := Frame(offset, size, TransactionOf(pr.req)))))
              .WithProducer(t, Serialized(pr.req, pr.pos, offset, size)))
      else None
    case FailSerialize(tag) =>
      if pr.Held? then
        Some(s.WithMemory(s.mem.With(pr.pos, s.mem.At(pr.pos).(area := Scratch(tag))))
              .WithProducer(t, Cancelling(pr.req, pr.pos, Failed(SerializationFailed))))
      else None
    case ExpireBeforePublish =>
      if pr.Serialized? then Some(s.WithProducer(t, Cancelling(pr.req, pr.pos, Failed(Timeout)))) else None
    case WriteMetadata =>
      if pr.Serialized? then
        Some(s.WithMemory(s.mem.With(pr.pos, FillSlot(s.mem.At(pr.pos), pr.req, pr.offset, pr.size, STATUS_INCOMPLETE)))
              .WithProducer(t, Filled(pr.req, pr.pos, None)))
      else if pr.Cancelling? then
        Some(s.WithMemory(s.mem.With(pr.pos, FillSlot(s.mem.At(pr.pos), pr.req, SLOT_PREFIX_BYTES, 0, STATUS_CANCELLED)))
              .WithProducer(t, Filled(pr.req, pr.pos, Some(pr.why))))
      else None
    case StoreSequence =>
      if pr.Filled? then
        Some(s.WithMemory(s.mem.With(pr.pos, s.mem.At(pr.pos).(sequence := pr.pos + 1)))
              .WithProducer(t, Stored(pr.req, pr.pos, pr.cancel)))
      else None
    case AddReady =>
      if pr.Stored? then
        Some(s.WithReady(1).WithProducer(t,
          match pr.cancel
          case None => Waiting(pr.req, pr.pos)
          case Some(why) => HandingOff(pr.req, pr.pos, why)))
      else None
    case PollSequence =>
      if pr.Waiting? && s.mem.At(pr.pos).sequence == pr.pos + 2
      then Some(s.WithProducer(t, Responding(pr.req, pr.pos))) else None
    case ExpireWaiting =>
      if pr.Waiting? && s.mem.At(pr.pos).sequence != pr.pos + 2
      then Some(s.WithProducer(t, HandingOff(pr.req, pr.pos, Failed(Timeout)))) else None
    case HandoffLoad =>
      if pr.HandingOff? then
        if s.mem.At(pr.pos).sequence == pr.pos + 2
        then Some(s.WithProducer(t, Releasing(pr.req, pr.pos, pr.why)))
        else Some(s.WithProducer(t, Pushing(pr.req, pr.pos, pr.why)))
      else None
    case Push =>
      if pr.Pushing? && pr.req.gateway in s.gateways then
        var gw := s.gateways[pr.req.gateway];
        if pr.pos in gw.pending then
          Some(s.WithProducer(t, Done(pr.req, pr.why)))
        else if |gw.pending| < |s.mem.slots| then
          Some(s.WithGateway(pr.req.gateway, gw.(pending := gw.pending + [pr.pos]))
                .WithProducer(t, Done(pr.req, pr.why)))
        else
          Some(s)
      else None
    case ReadSlot =>
      if pr.Responding?
      then Some(s.WithProducer(t, Releasing(pr.req, pr.pos, ReadResponse(s.mem.At(pr.pos), pr.req.id)))) else None
    case StoreRelease =>
      if pr.Releasing? then
        Some(s.WithMemory(s.mem.With(pr.pos, s.mem.At(pr.pos).(sequence := pr.pos + |s.mem.slots|)))
              .WithProducer(t, Done(pr.req, pr.result)))
      else None
  }

  /** Vec::swap_remove. */
  function SwapRemove(v: seq<nat>, i: nat): seq<nat>
    requires i < |v|
  {
    v[i := v[|v| - 1]][..|v| - 1]
  }

  function GatewayStep(s: State, g: nat, e: GatewayEvent): Option<State>
    requires s.mem.Count() > 0 && g in s.gateways
  {
    var gw := s.gateways[g];
    match e
    case Swap =>
      if gw.scan.Resting? then Some(s.WithGateway(g, Gateway(gw.outstanding, gw.pending, Scanning(0)))) else None
    case ScanLoad =>
      if gw.scan.Scanning? && gw.scan.index < |gw.outstanding| then
        var pos := gw.outstanding[gw.scan.index];
        if s.mem.At(pos).sequence == pos + 2
        then Some(s.WithGateway(g, gw.(scan := SawAnswer(gw.scan.index))))
        else Some(s.WithGateway(g, gw.(scan := Scanning(gw.scan.index + 1))))
      else None
    case ScanStore =>
      if gw.scan.SawAnswer? && gw.scan.index < |gw.outstanding| then
        var pos := gw.outstanding[gw.scan.index];
        Some(s.WithMemory(s.mem.With(pos, s.mem.At(pos).(sequence := pos + |s.mem.slots|)))
              .WithGateway(g, Gateway(gw.pending, SwapRemove(gw.outstanding, gw.scan.index), Scanning(gw.scan.index))))
      else None
    case ScanEnd =>
      if gw.scan.Scanning? && gw.scan.index >= |gw.outstanding|
      then Some(s.WithGateway(g, gw.(scan := Resting))) else None
  }

  function ConsumerStep(s: State, c: nat, e: ConsumerEvent): Option<State>
    requires s.mem.Count() > 0 && c in s.consumers
  {
    var co := s.consumers[c];
    var pc := co.pc;
    match e
    case LoadDequeue =>
      if pc.Polling? && |co.staged| < s.maxBatch
      then Some(s.WithConsumer(c, co.(pc := LoadedDequeue(s.mem.dequeue)))) else None
    case LoadReadySequence =>
      if pc.LoadedDequeue? then
        var sequence := s.mem.At(pc.pos).sequence;
        if sequence == pc.pos + 1 then Some(s.WithConsumer(c, co.(pc := SawReady(pc.pos))))
        else if sequence < pc.pos + 1 then Some(s.WithConsumer(c, co.(pc := Polling)))
        else Some(s.WithConsumer(c, co.(pc := LoadedDequeue(s.mem.dequeue))))
      else None
    case CasDequeue(spurious) =>
      if pc.SawReady? then
        if s.mem.dequeue == pc.pos && !spurious then
          Some(s.WithMemory(s.mem.(dequeue := s.mem.dequeue + 1)).WithConsumer(c, co.(pc := Taken(pc.pos))))
        else
          Some(s.WithConsumer(c, co.(pc := LoadedDequeue(s.mem.dequeue))))
      else None
    case StageTaken =>
      if pc.Taken? then
        Some(s.WithReady(-1).WithConsumer(c, Consumer(co.staged + [SlotIndex(pc.pos, |s.mem.slots|)], Polling)))
      else None
    case Dispatch =>
      if pc.Polling? && co.staged != [] then Some(s.WithConsumer(c, co.(pc := Decoding([])))) else None
    case DecodeNext =>
      if pc.Decoding? && |pc.views| < |co.staged| && co.staged[|pc.views|] < |s.mem.slots| then
        var view := Decode(s.mem.slots[co.staged[|pc.views|]], s.mem.slotBytes);
        Some(s.WithConsumer(c, co.(pc := Decoding(pc.views + [view]))))
      else None
    case Launch(launched) =>
      if pc.Decoding? && |pc.views| == |co.staged| && (s.mem.cuda || launched)
      then Some(s.WithConsumer(c, co.(pc := Preparing(pc.views, launched, [])))) else None
    case PrepareNext =>
      if pc.Preparing? && |pc.replies| < |co.staged| && |co.staged| == |pc.views|
         && co.staged[|pc.replies|] < |s.mem.slots| then
        var i := |pc.replies|;
        var position := s.mem.slots[co.staged[i]].sequence - 1;
        var reply := Reply(position, Verdict(pc.views[i], pc.graphOk));
        Some(s.WithConsumer(c, co.(pc := Preparing(pc.views, pc.graphOk, pc.replies + [reply]))))
      else None
    case Synchronize(synced, nowNs) =>
      if pc.Preparing? && |pc.replies| == |co.staged| && |co.staged| == |pc.views| && (synced || (s.mem.cuda && pc.graphOk)) then
        var replies := if synced then pc.replies else Degraded(pc.replies, pc.views);
        Some(s.WithConsumer(c, co.(pc := Completing(replies, 0, false, nowNs))))
      else None
    case WriteReply =>
      if pc.Completing? && pc.done < |co.staged| && |pc.replies| == |co.staged| && !pc.written
         && co.staged[pc.done] < |s.mem.slots| then
        var i := co.staged[pc.done];
        var answer := pc.replies[pc.done].answer;
        Some(s.WithMemory(s.mem.(slots := s.mem.slots[i := s.mem.slots[i].(status := answer.status, decision := answer.decision,
                                                    score := answer.score, completeNs := pc.nowNs)]))
              .WithConsumer(c, co.(pc := pc.(written := true))))
      else None
    case StoreReply =>
      if pc.Completing? && pc.done < |co.staged| && |pc.replies| == |co.staged| && pc.written
         && co.staged[pc.done] < |s.mem.slots| && pc.replies[pc.done].position >= 0 then
        var i := co.staged[pc.done];
        var s' := s.WithMemory(s.mem.(slots := s.mem.slots[i := s.mem.slots[i].(sequence := pc.replies[pc.done].position + 2)]));
        if pc.done + 1 == |co.staged| then Some(s'.WithConsumer(c, Consumer([], Polling)))
        else Some(s'.WithConsumer(c, co.(pc := pc.(done := pc.done + 1, written := false))))
      else None
  }

  /** A failed synchronisation turns every decoded transaction of the batch into 503. */
  function Degraded(replies: seq<Reply>, views: seq<Option<Transaction>>): seq<Reply>
    requires |replies| == |views|
  {
    seq(|replies|, i requires 0 <= i < |replies| =>
      if views[i].Some? then Reply(replies[i].position, Answer(STATUS_UNAVAILABLE, 0, 0.0)) else replies[i])
  }

  function Next(s: State, a: Action): Option<State>
    requires s.mem.Count() > 0
  {
    match a
    case Submit(t, req) =>
      if req.gateway in s.gateways && (t !in s.producers || s.producers[t].Idle? || s.producers[t].Done?)
      then Some(s.WithProducer(t, Claiming(req))) else None
    case ByProducer(t, e) => if t in s.producers then ProducerStep(s, t, e) else None
    case ByGateway(g, e) => if g in s.gateways then GatewayStep(s, g, e) else None
    case ByConsumer(c, e) => if c in s.consumers then ConsumerStep(s, c, e) else None
  }
}
