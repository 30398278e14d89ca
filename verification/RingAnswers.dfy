/** Whom an answer is for: the cell of a position is traced back to the step that published its record
    and to the step that stored its response, so that a submitter's response is tied to the batch that
    produced it and a daemon's answer to the request that was published. */
module RingAnswers {
  import opened Common
  import opened RingSlots
  import opened Addressing
  import opened RingSystem
  import opened RingInvariant
  import opened RingFrames
  import opened RingTheorems
  import opened RingGuarantees
  import opened RingRuns
  import opened RingOrigins
  import opened RingDevice

  /** Step `j` published position `q` with the record that `cell` still carries. */
  ghost predicate PublishedAt(ex: Execution, j: nat, q: nat, cell: Slot) {
    && j < |ex.acts| && j + 1 < |ex.states| && ex.states[j + 1].mem.Count() > 0
    && ex.acts[j].ByProducer? && ex.acts[j].p.StoreSequence? && ex.acts[j].t in ex.states[j].producers
    && var pr := ex.states[j].producers[ex.acts[j].t];
    && pr.Filled? && pr.pos == q
    && SamePayload(ex.states[j + 1].mem.At(q), cell)
  }

  /** Step `j` stored the response that `cell` still shows for position `q`. */
  ghost predicate AnsweredAt(ex: Execution, j: nat, q: nat, cell: Slot) {
    && j < |ex.acts| && j + 1 < |ex.states| && ex.states[j + 1].mem.Count() > 0
    && ex.acts[j].ByConsumer? && ex.acts[j].e.StoreReply? && ex.acts[j].c in ex.states[j].consumers
    && var co := ex.states[j].consumers[ex.acts[j].c];
    && co.pc.Completing? && co.pc.done < |co.staged| && co.staged[co.pc.done] == SlotIndex(q, ex.states[j + 1].mem.Count())
    && ex.states[j + 1].mem.At(q) == cell
  }

  ghost predicate Explained(ex: Execution, flights: Flights, published: map<nat, nat>, answered: map<nat, nat>) {
    && (forall q {:trigger flights[q]} :: q in flights && !flights[q].stage.Filling? ==>
          q in published && PublishedAt(ex, published[q], q, flights[q].cell))
    && (forall q {:trigger flights[q]} :: q in flights && flights[q].stage.Answered? ==>
          q in answered && AnsweredAt(ex, answered[q], q, flights[q].cell))
  }

  /** Every record in flight past its filling was published by one step of the run, every response
      was stored by one. */
  lemma {:induction false} CellsHaveOrigins(k: Config, ex: Execution)
    returns (x: Aux, published: map<nat, nat>, answered: map<nat, nat>)
    requires k.count >= 3 && ex.Valid(k)
    ensures Inv(ex.End(), x) && Explained(ex, x.flights, published, answered)
    decreases |ex.acts|
  {
    published, answered := map[], map[];
    if ex.acts == [] {
      InitEstablishesInv(k);
      x := InitAux(k.consumers);
    } else {
      ShorterIsValid(k, ex);
      var before, n := ex.Shorter(), |ex.acts| - 1;
      var a := ex.acts[n];
      var x0;
      x0, published, answered := CellsHaveOrigins(k, before);
      StepKeepsInv(before.End(), x0, a, ex.End());
      x := NextAux(before.End(), x0, a, ex.End());
      StillExplained(ex, before, x0.flights, published, answered);
      published, answered := ExplainStep(ex, before.End(), x0, a, ex.End(), published, answered);
    }
  }

  lemma StillExplained(ex: Execution, before: Execution, flights: Flights, published: map<nat, nat>, answered: map<nat, nat>)
    requires |ex.acts| > 0 && |ex.states| == |ex.acts| + 1 == |ex.notes| + 1 && before == ex.Shorter()
    requires Explained(before, flights, published, answered)
    ensures Explained(ex, flights, published, answered)
  {
  }

  /** What a step does not touch stays explained. */
  lemma KeptExplained(ex: Execution, flights: Flights, flights': Flights, except: Option<nat>,
                      published: map<nat, nat>, answered: map<nat, nat>, published': map<nat, nat>, answered': map<nat, nat>)
    requires CellsKept(flights, flights', except) && Explained(ex, flights, published, answered)
    requires forall q :: q in published && except != Some(q) ==> q in published' && published'[q] == published[q]
    requires forall q :: q in answered && except != Some(q) ==> q in answered' && answered'[q] == answered[q]
    requires except.Some? && except.value in flights' ==>
      var q, f := except.value, flights'[except.value];
      && (!f.stage.Filling? ==> q in published' && PublishedAt(ex, published'[q], q, f.cell))
      && (f.stage.Answered? ==> q in answered' && AnsweredAt(ex, answered'[q], q, f.cell))
    ensures Explained(ex, flights', published', answered')
  {
  }

  ghost predicate LastStep(ex: Execution, s: State, a: Action, s': State) {
    && |ex.acts| > 0 && |ex.states| == |ex.acts| + 1
    && a == ex.acts[|ex.acts| - 1] && s == ex.states[|ex.acts| - 1] && s' == ex.End()
    && Step(s, a) == Some(s')
  }

  lemma ExplainStep(ex: Execution, s: State, x: Aux, a: Action, s': State, published: map<nat, nat>, answered: map<nat, nat>)
    returns (published': map<nat, nat>, answered': map<nat, nat>)
    requires LastStep(ex, s, a, s')
    requires Inv(s, x) && Inv(s', NextAux(s, x, a, s')) && Explained(ex, x.flights, published, answered)
    ensures Explained(ex, NextAux(s, x, a, s').flights, published', answered')
  {
    published', answered' := published, answered;
    match a
    case Submit(_, _) =>
    case ByProducer(t, e) => published' := ExplainProducer(ex, s, x, t, e, s', published, answered);
    case ByGateway(g, e) =>
      GatewayCells(s, x, g, e, s');
      KeptExplained(ex, x.flights, NextAux(s, x, a, s').flights, None, published, answered, published, answered);
    case ByConsumer(c, e) => answered' := ExplainConsumer(ex, s, x, c, e, s', published, answered);
  }

  lemma ExplainProducer(ex: Execution, s: State, x: Aux, t: nat, e: ProducerEvent, s': State,
                        published: map<nat, nat>, answered: map<nat, nat>) returns (published': map<nat, nat>)
    requires LastStep(ex, s, ByProducer(t, e), s')
    requires Inv(s, x) && Inv(s', NextAux(s, x, ByProducer(t, e), s')) && Explained(ex, x.flights, published, answered)
    ensures Explained(ex, NextAux(s, x, ByProducer(t, e), s').flights, published', answered)
  {
    ProducerCells(s, x, t, e, s');
    var q, flights', n := Publishing(s, t, e), NextAux(s, x, ByProducer(t, e), s').flights, |ex.acts| - 1;
    published' := if q.Some? then published[q.value := n] else published;
    if q.Some? {
      PublishedNow(ex, s, x, t, s');
    }
    KeptExplained(ex, x.flights, flights', q, published, answered, published', answered);
  }

  lemma PublishedNow(ex: Execution, s: State, x: Aux, t: nat, s': State)
    requires LastStep(ex, s, ByProducer(t, StoreSequence), s')
    requires Inv(s, x) && Inv(s', NextAux(s, x, ByProducer(t, StoreSequence), s'))
    ensures s.producers[t].Filled?
    ensures var q, flights' := s.producers[t].pos, NextAux(s, x, ByProducer(t, StoreSequence), s').flights;
            q in flights' && flights'[q].stage.Published? && PublishedAt(ex, |ex.acts| - 1, q, flights'[q].cell)
  {
    assert ProducerOk(s.mem, s.gateways.Keys, x.flights, t, s.producers[t]);
    var q, flights' := s.producers[t].pos, NextAux(s, x, ByProducer(t, StoreSequence), s').flights;
    assert CellOk(s'.mem, q, flights'[q]);
  }

  lemma ExplainConsumer(ex: Execution, s: State, x: Aux, c: nat, e: ConsumerEvent, s': State,
                        published: map<nat, nat>, answered: map<nat, nat>) returns (answered': map<nat, nat>)
    requires LastStep(ex, s, ByConsumer(c, e), s')
    requires Inv(s, x) && Inv(s', NextAux(s, x, ByConsumer(c, e), s')) && Explained(ex, x.flights, published, answered)
    ensures Explained(ex, NextAux(s, x, ByConsumer(c, e), s').flights, published, answered')
  {
    ConsumerCells(s, x, c, e, s');
    var q, flights', n := Handled(s, x, c, e), NextAux(s, x, ByConsumer(c, e), s').flights, |ex.acts| - 1;
    answered' := if e.StoreReply? && q.Some? then answered[q.value := n] else answered;
    if e.StoreReply? {
      AnsweredNow(ex, s, x, c, s');
    }
    KeptExplained(ex, x.flights, flights', q, published, answered, published, answered');
  }

  lemma AnsweredNow(ex: Execution, s: State, x: Aux, c: nat, s': State)
    requires LastStep(ex, s, ByConsumer(c, StoreReply), s')
    requires Inv(s, x) && Inv(s', NextAux(s, x, ByConsumer(c, StoreReply), s'))
    ensures var q, flights' := Handled(s, x, c, StoreReply), NextAux(s, x, ByConsumer(c, StoreReply), s').flights;
            && q.Some? && q.value in flights' && q.value in x.flights && !x.flights[q.value].stage.Filling?
            && AnsweredAt(ex, |ex.acts| - 1, q.value, flights'[q.value].cell)
  {
    var co, ts := s.consumers[c], x.takes[c];
    assert ConsumerOk(s.mem, s.maxBatch, x.flights, c, co, ts);
    var q := ts[co.pc.done];
    assert Drains(x.flights, q, c);
    assert CellOk(s'.mem, q, NextAux(s, x, ByConsumer(c, StoreReply), s').flights[q]);
  }

  // ----- the theorems ---------------------------------------------------------------------

  /** What a publication shows to the daemon: the submitter's own record, decodable to its own
      transaction unless it was cancelled, and no response. */
  ghost predicate ShowsRequest(slot: Slot, slotBytes: nat, req: Request, cancelled: bool) {
    && slot.requestId == req.id && slot.enqueueNs == req.enqueueNs
    && Decode(slot, slotBytes) == if cancelled then None else Some(Transaction(req.id, req.amountMicros))
  }

  lemma PublicationShowsRequest(k: Config, ex: Execution, s: State, t: nat, s': State)
    requires k.count >= 3 && ex.Valid(k) && ex.End() == s && Step(s, ByProducer(t, StoreSequence)) == Some(s')
    ensures s.producers[t].Filled? && s'.mem.Count() == k.count
    ensures var req, pos, cancelled, slot := s.producers[t].req, s.producers[t].pos, s.producers[t].cancel.Some?, s'.mem.At(s.producers[t].pos);
            && slot.sequence == pos + 1 && ShowsRequest(slot, k.slotBytes, req, cancelled)
            && slot.status == (if cancelled then 0xFFFF_FFFE else 0xFFFF_FFFF)
            && slot.decision == 0 && slot.score == 0.0 && slot.completeNs == 0
            && (cancelled ==> slot.payloadOffset == 64 && slot.payloadSize == 0)
  {
    var x := EveryRunKeepsInv(k, ex);
    ConfigStays(k, ex, s);
    PublishedSlot(s, x, t, s');
  }

  lemma PublishedSlot(s: State, x: Aux, t: nat, s': State)
    requires Inv(s, x) && Step(s, ByProducer(t, StoreSequence)) == Some(s')
    ensures s.producers[t].Filled? && s'.mem.Count() == s.mem.Count()
    ensures var pr := s.producers[t];
            var slot := s'.mem.At(pr.pos);
            && slot.sequence == pr.pos + 1 && ShowsRequest(slot, s.mem.slotBytes, pr.req, pr.cancel.Some?)
            && Unanswered(slot, pr.cancel.Some?) && (pr.cancel.Some? ==> slot.payloadSize == 0)
  {
    var pr := s.producers[t];
    assert ProducerOk(s.mem, s.gateways.Keys, x.flights, t, pr);
    assert CellOk(s.mem, pr.pos, x.flights[pr.pos]);
  }

  /** The record a position carries once published shows the request of the step that published it. */
  lemma OriginShowsRequest(k: Config, ex: Execution, j: nat, q: nat, cell: Slot)
    requires k.count >= 3 && ex.Valid(k) && PublishedAt(ex, j, q, cell)
    ensures var pr := ex.states[j].producers[ex.acts[j].t]; ShowsRequest(cell, k.slotBytes, pr.req, pr.cancel.Some?)
  {
    PrefixIsValid(k, ex, j);
    PublicationShowsRequest(k, Prefix(ex, j), ex.states[j], ex.acts[j].t, ex.states[j + 1]);
  }

  /** A stored response answers one publication. The slot it goes to belongs to a position `q` that
      step `p` published; it moves from q + 1 to q + 2, still shows that request, and its answer is the
      table's: 422 for a cancelled record, otherwise the verdict on the published transaction when the
      launch `l` and the synchronisation `y` of the batch succeeded and 503 when not. */
  lemma AnswersAreForPublications(k: Config, ex: Execution, s: State, c: nat, s': State) returns (p: nat, q: nat, l: nat, y: nat)
    requires k.count >= 3 && ex.Valid(k) && ex.End() == s && Step(s, ByConsumer(c, StoreReply)) == Some(s')
    ensures p < |ex.acts| && ex.acts[p].ByProducer? && ex.acts[p].p.StoreSequence? && ex.acts[p].t in ex.states[p].producers
    ensures ex.states[p].producers[ex.acts[p].t].Filled? && ex.states[p].producers[ex.acts[p].t].pos == q
    ensures l < y < |ex.acts|
    ensures ex.acts[l].ByConsumer? && ex.acts[l].c == c && ex.acts[l].e.Launch?
    ensures ex.acts[y].ByConsumer? && ex.acts[y].c == c && ex.acts[y].e.Synchronize?
    ensures s.mem.Count() == s'.mem.Count() == k.count
    ensures var pr := ex.states[p].producers[ex.acts[p].t];
            var slot := s'.mem.At(q);
            && s.mem.At(q).sequence == q + 1 && slot.sequence == q + 2
            && ShowsRequest(slot, k.slotBytes, pr.req, pr.cancel.Some?)
            && AnswerOf(slot) == Graded(if pr.cancel.Some? then None else Some(Transaction(pr.req.id, pr.req.amountMicros)),
                                        ex.acts[l].e.launched && ex.acts[y].e.synced)
            && slot.completeNs == ex.acts[y].e.nowNs
  {
    ConfigStays(k, ex, s);
    ShapeStays(s, ByConsumer(c, StoreReply), s');
    var d;
    d, l, y := AnswersTellTheDevice(k, ex, s, c, s');
    var x, published, answered := CellsHaveOrigins(k, ex);
    q := AnsweredSlot(s, x, c, s');
    p := published[q];
    OriginShowsRequest(k, ex, p, q, x.flights[q].cell);
  }

  /** The slot a response goes to, as the cell of its position. */
  lemma AnsweredSlot(s: State, x: Aux, c: nat, s': State) returns (q: nat)
    requires Inv(s, x) && Step(s, ByConsumer(c, StoreReply)) == Some(s')
    ensures s.consumers[c].pc.Completing? && s.consumers[c].pc.done < |s.consumers[c].staged|
    ensures s.consumers[c].staged[s.consumers[c].pc.done] == SlotIndex(q, s.mem.Count())
    ensures s'.mem.Count() == s.mem.Count()
    ensures q in x.flights && !x.flights[q].stage.Filling?
    ensures s.mem.At(q).sequence == q + 1 && s'.mem.At(q).sequence == q + 2 && SamePayload(x.flights[q].cell, s'.mem.At(q))
  {
    var co, ts := s.consumers[c], x.takes[c];
    assert ConsumerOk(s.mem, s.maxBatch, x.flights, c, co, ts);
    q := ts[co.pc.done];
    assert Drains(x.flights, q, c) && CellOk(s.mem, q, x.flights[q]);
    assert ReplyOk(x.flights, s.mem.slotBytes, s.mem.cuda, co.pc.replies[co.pc.done], q);
  }

  /** End to end. Whatever a submitter answers was decided by one of its own steps `i` after the
      submission `h` of that request, and a response is its own: it carries the request's id, the verdict
      on its own transaction if the batch that answered it was launched and synchronised and 503 if not,
      and the time of that batch. No submitter ever sees a mismatched, incomplete or unknown response. */
  lemma ResponsesBelongToTheirRequests(k: Config, ex: Execution, t: nat) returns (h: nat, i: nat, j: nat, l: nat, y: nat)
    requires k.count >= 3 && ex.Valid(k) && t in ex.End().producers && ex.End().producers[t].Done?
    ensures var req, result := ex.End().producers[t].req, ex.End().producers[t].result;
            && SubmittedAt(ex.acts, h, t, req) && h < i && DecidedAt(ex, i, t, req, result)
            && (result.Failed? ==> result.failure in {Full, Timeout, Stopped, SerializationFailed})
            && (result.Response? ==>
                  && l < y < j < i && AnsweredBy(ex.acts, l, y, j)
                  && result == Response(req.id, Graded(Some(Transaction(req.id, req.amountMicros)), DeviceOk(ex.acts, l, y)), ex.acts[y].e.nowNs)
                  && (!k.cuda ==> DeviceOk(ex.acts, l, y)))
  {
    h, i := OutcomesHaveOrigins(k, ex, t);
    j, l, y := 0, 0, 0;
    if ex.End().producers[t].result.Response? {
      j, l, y := ResponseOrigin(k, ex, i, t);
    }
  }

  /** One consumer launched at `l`, synchronised at `y` and stored a response at `j`. */
  predicate AnsweredBy(acts: seq<Action>, l: nat, y: nat, j: nat)
    requires l < y < j < |acts|
  {
    && acts[j].ByConsumer? && acts[j].e.StoreReply?
    && acts[l].ByConsumer? && acts[l].c == acts[j].c && acts[l].e.Launch?
    && acts[y].ByConsumer? && acts[y].c == acts[j].c && acts[y].e.Synchronize?
  }

  /** The response read at step `i` was stored at step `j` for the reader's own record. */
  lemma ResponseOrigin(k: Config, ex: Execution, i: nat, t: nat) returns (j: nat, l: nat, y: nat)
    requires k.count >= 3 && ex.Valid(k) && i < |ex.acts| && t in ex.states[i].producers && ex.states[i].producers[t].Responding?
    ensures l < y < j < i && AnsweredBy(ex.acts, l, y, j)
    ensures ex.states[i].mem.Count() > 0
    ensures var pr := ex.states[i].producers[t];
            var slot := ex.states[i].mem.At(pr.pos);
            && AnswerOf(slot) == Graded(Some(Transaction(pr.req.id, pr.req.amountMicros)), DeviceOk(ex.acts, l, y))
            && slot.completeNs == ex.acts[y].e.nowNs
            && (!k.cuda ==> DeviceOk(ex.acts, l, y))
  {
    PrefixIsValid(k, ex, i);
    var before, s := Prefix(ex, i), ex.states[i];
    ConfigStays(k, before, s);
    var x, published, answered := CellsHaveOrigins(k, before);
    var q := s.producers[t].pos;
    OwnRecord(s, x, t);
    j := answered[q];
    PrefixIsValid(k, ex, j);
    assert Prefix(before, j) == Prefix(ex, j);
    var d;
    d, l, y := AnswersTellTheDevice(k, Prefix(ex, j), ex.states[j], ex.acts[j].c, ex.states[j + 1]);
  }

  /** A submitter about to read its response reads it from its own record. */
  lemma OwnRecord(s: State, x: Aux, t: nat)
    requires Inv(s, x) && t in s.producers && s.producers[t].Responding?
    ensures var pr := s.producers[t];
            && pr.pos in x.flights && x.flights[pr.pos].stage.Answered? && s.mem.At(pr.pos) == x.flights[pr.pos].cell
            && Decode(s.mem.At(pr.pos), s.mem.slotBytes) == Some(Transaction(pr.req.id, pr.req.amountMicros))
  {
    var pr := s.producers[t];
    assert ProducerOk(s.mem, s.gateways.Keys, x.flights, t, pr);
    assert CellOk(s.mem, pr.pos, x.flights[pr.pos]);
  }
}
