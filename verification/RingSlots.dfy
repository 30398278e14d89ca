/** The slot record of the shared segment, what the daemon computes from it, and what the
    gateway reads back. Byte layouts are abstracted: the payload area either holds a complete
    FlatBuffer frame at a known offset or arbitrary bytes. */
module RingSlots {
  import opened Common

  const SLOT_PREFIX_BYTES: nat := 64
  const STATUS_SCORED: nat := 200
  const STATUS_INVALID: nat := 422
  const STATUS_UNAVAILABLE: nat := 503
  const STATUS_INCOMPLETE: nat := 0xFFFF_FFFF
  const STATUS_CANCELLED: nat := 0xFFFF_FFFE

  datatype Transaction = Transaction(requestId: nat, amountMicros: int)

  datatype Area =
    | Scratch(tag: nat)
    | Frame(offset: nat, size: nat, tx: Transaction)

  datatype Slot = Slot(
    sequence: nat,
    payloadOffset: nat,
    payloadSize: nat,
    area: Area,
    status: nat,
    decision: nat,
    score: real,
    requestId: nat,
    enqueueNs: nat,
    completeNs: nat)

  /** A slot as initialize_segment leaves it. */
  function FreshSlot(i: nat): Slot {
    Slot(i, SLOT_PREFIX_BYTES, 0, Scratch(0), 0, 0, 0.0, 0, 0, 0)
  }

  /** What one submission carries through the ring. */
  datatype Request = Request(id: nat, enqueueNs: nat, amountMicros: int, gateway: nat)

  function TransactionOf(req: Request): Transaction {
    Transaction(req.id, req.amountMicros)
  }

  /** The range check, the verification and the id agreement test of decode_transaction. */
  function Decode(slot: Slot, slotBytes: nat): Option<Transaction> {
    if slot.payloadSize == 0 then None
    else if slot.payloadOffset < SLOT_PREFIX_BYTES || slot.payloadOffset > slotBytes then None
    else if slot.payloadSize > slotBytes - slot.payloadOffset then None
    else match slot.area
      case Scratch(_) => None
      case Frame(offset, size, tx) =>
        if offset == slot.payloadOffset && size == slot.payloadSize && tx.requestId == slot.requestId
        then Some(tx) else None
  }

  function ReferenceDecision(tx: Transaction): nat {
    if tx.amountMicros >= 10_000_000 then 1 else 0
  }

  function ReferenceScore(tx: Transaction): real {
    if ReferenceDecision(tx) == 0 then 0.1 else 0.9
  }

  datatype Answer = Answer(status: nat, decision: nat, score: real)

  /** The status and decision table: `graphOk` is false when the device launch or its
      synchronisation failed for the batch. */
  function Verdict(view: Option<Transaction>, graphOk: bool): Answer {
    match view
    case None => Answer(STATUS_INVALID, 0, 0.0)
    case Some(tx) =>
      if graphOk then Answer(STATUS_SCORED, ReferenceDecision(tx), ReferenceScore(tx))
      else Answer(STATUS_UNAVAILABLE, 0, 0.0)
  }

  function AnswerOf(slot: Slot): Answer {
    Answer(slot.status, slot.decision, slot.score)
  }

  datatype Failure =
    | Full
    | Timeout
    | Stopped
    | SerializationFailed
    | IdMismatch
    | IncompleteResponse
    | UnknownStatus

  datatype Outcome =
    | Response(requestId: nat, answer: Answer, completedNs: nat)
    | Failed(failure: Failure)

  /** read_response: the checks the gateway makes before it believes a slot. */
  function ReadResponse(slot: Slot, expected: nat): Outcome {
    if slot.requestId != expected then Failed(IdMismatch)
    else if slot.status == STATUS_INCOMPLETE then Failed(IncompleteResponse)
    else if slot.status != STATUS_SCORED && slot.status != STATUS_INVALID && slot.status != STATUS_UNAVAILABLE
    then Failed(UnknownStatus)
    else Response(slot.requestId, AnswerOf(slot), slot.completeNs)
  }

  /** The daemon believes a record exactly when a whole frame lies where the metadata says, inside the
      slot and behind its prefix, and carries the id the metadata names. */
  lemma DecodeIsExact(slot: Slot, slotBytes: nat, tx: Transaction)
    ensures Decode(slot, slotBytes) == Some(tx) <==>
      && slot.area == Frame(slot.payloadOffset, slot.payloadSize, tx) && tx.requestId == slot.requestId
      && 0 < slot.payloadSize && 64 <= slot.payloadOffset && slot.payloadOffset + slot.payloadSize <= slotBytes
  {
  }

  /** The gateway believes a response exactly when it carries the expected id and one of the three final
      statuses, and passes on what the slot shows; otherwise it says what is wrong. */
  lemma ResponseIsExact(slot: Slot, expected: nat)
    ensures ReadResponse(slot, expected) ==
      if slot.requestId == expected && slot.status in {200, 422, 503}
      then Response(expected, Answer(slot.status, slot.decision, slot.score), slot.completeNs)
      else Failed(if slot.requestId != expected then IdMismatch else if slot.status == 0xFFFF_FFFF then IncompleteResponse else UnknownStatus)
  {
  }
}
