/** What holds of every run of the ring, whatever the interleaving. */
module RingTheorems {
  import opened Common
  import opened RingSystem
  import opened RingInvariant
  import opened RingProducers
  import opened RingGateways
  import opened RingConsumers

  function Step(s: State, a: Action): Option<State> {
    if s.mem.Count() > 0 then Next(s, a) else None
  }

  datatype Config = Config(count: nat, slotBytes: nat, maxBatch: nat, cuda: bool, gateways: set<nat>, consumers: set<nat>) {
    function Start(): State {
      Init(count, slotBytes, maxBatch, cuda, gateways, consumers)
    }
  }

  lemma InitEstablishesInv(k: Config)
    requires k.count >= 3
    ensures Inv(k.Start(), InitAux(k.consumers))
  {
    var s, x := k.Start(), InitAux(k.consumers);
    forall p: nat | s.mem.enqueue <= p < s.mem.enqueue + s.mem.Count() ensures FreeOk(s.mem, p, x.flights) {}
    assert x.takes.Keys == s.consumers.Keys;
    forall c | c in s.consumers ensures ConsumerOk(s.mem, s.maxBatch, x.flights, c, s.consumers[c], x.takes[c]) {}
  }

  lemma StepKeepsInv(s: State, x: Aux, a: Action, s': State)
    requires Inv(s, x) && Step(s, a) == Some(s')
    ensures Inv(s', NextAux(s, x, a, s'))
  {
    match a
    case Submit(t, req) => SilentMove(s, x, t, Claiming(req));
    case ByProducer(t, e) => ProducerStepKeepsInv(s, x, t, e, s');
    case ByGateway(g, e) => GatewayStepKeepsInv(s, x, g, e, s');
    case ByConsumer(c, e) => ConsumerStepKeepsInv(s, x, c, e, s');
  }

  // ----- executions -----------------------------------------------------------------------

  /** The positions a step claims, publishes, takes off the queue and releases. */
  datatype Note = Note(claim: Option<nat>, publish: Option<nat>, consume: Option<nat>, release: Option<nat>)

  function NoteOf(s: State, a: Action, s': State): Note
    requires Step(s, a) == Some(s')
  {
    Note(
      if a.ByProducer? && a.p.CasEnqueue? && s'.mem.enqueue != s.mem.enqueue then Some(s.producers[a.t].pos) else None,
      if a.ByProducer? && a.p.StoreSequence? then Some(s.producers[a.t].pos) else None,
      if a.ByConsumer? && a.e.CasDequeue? && s'.mem.dequeue != s.mem.dequeue then Some(s.consumers[a.c].pc.pos) else None,
      if a.ByProducer? && a.p.StoreRelease? then Some(s.producers[a.t].pos)
      else if a.ByGateway? && a.r.ScanStore? then Some(s.gateways[a.g].outstanding[s.gateways[a.g].scan.index])
      else None)
  }

  predicate Link(s: State, a: Action, n: Note, s': State) {
    Step(s, a) == Some(s') && n == NoteOf(s, a, s')
  }

  /** A finite run: its states, the actions between them, and what each action did to positions. */
  datatype Execution = Execution(states: seq<State>, acts: seq<Action>, notes: seq<Note>) {
    ghost predicate From(s0: State) {
      && |states| == |acts| + 1 == |notes| + 1
      && states[0] == s0
      && forall i {:trigger LinkAt(i)} :: 0 <= i < |acts| ==> LinkAt(i)
    }

    /** Step `i` leads from its state to the next one and is noted. */
    ghost predicate LinkAt(i: int) {
      0 <= i < |acts| && i < |notes| && i + 1 < |states| && Link(states[i], acts[i], notes[i], states[i + 1])
    }

    ghost predicate Valid(k: Config) {
      From(k.Start())
    }

    function End(): State
      requires states != []
    {
      states[|states| - 1]
    }

    function Shorter(): Execution
      requires |acts| > 0 && |states| == |acts| + 1 == |notes| + 1
    {
      Execution(states[..|acts|], acts[..|acts| - 1], notes[..|acts| - 1])
    }
  }

  lemma ShorterIsValid(k: Config, ex: Execution)
    requires ex.Valid(k) && |ex.acts| > 0
    ensures ex.Shorter().Valid(k)
    ensures var n := |ex.acts|; Link(ex.Shorter().End(), ex.acts[n - 1], ex.notes[n - 1], ex.End())
    ensures ex.notes == ex.Shorter().notes + [ex.notes[|ex.acts| - 1]]
  {
    var ex' := ex.Shorter();
    forall i | 0 <= i < |ex'.acts| ensures ex'.LinkAt(i) {
      assert ex.LinkAt(i);
    }
    assert ex.LinkAt(|ex.acts| - 1);
  }

  // ----- positions over whole executions --------------------------------------------------

  datatype Mark = Claim | Publish | Consume | Release

  function MarkOf(n: Note, mark: Mark): Option<nat> {
    match mark
    case Claim => n.claim
    case Publish => n.publish
    case Consume => n.consume
    case Release => n.release
  }

  /** How often a position was claimed, published, taken or released. */
  function Occurrences(notes: seq<Note>, mark: Mark, p: nat): nat {
    if notes == [] then 0
    else Occurrences(notes[..|notes| - 1], mark, p) + Once(MarkOf(notes[|notes| - 1], mark) == Some(p))
  }

  function Once(b: bool): nat {
    if b then 1 else 0
  }

  /** How a step that claims, publishes, takes and releases the given positions moves the cursors and the
      set of positions in flight. */
  ghost predicate Moved(s: State, x: Aux, s': State, x': Aux, n: Note) {
    && (match n.claim
        case None => s'.mem.enqueue == s.mem.enqueue
        case Some(p) => p == s.mem.enqueue && s'.mem.enqueue == p + 1)
    && (match n.publish
        case None => true
        case Some(p) => p in x.flights && x.flights[p].stage.Filling?)
    && (match n.consume
        case None => s'.mem.dequeue == s.mem.dequeue
        case Some(p) => p == s.mem.dequeue && s'.mem.dequeue == p + 1 && p in x.flights && x.flights[p].stage.Published?)
    && (match n.release
        case None => true
        case Some(p) => p in x.flights && x.flights[p].stage.Answered?)
    && (forall p: nat {:trigger p in x'.flights} :: p in x'.flights <==>
          (p in x.flights || n.claim == Some(p)) && n.release != Some(p))
    && (forall p: nat {:trigger p in x'.flights} :: p in x'.flights ==>
          (x'.flights[p].stage.Filling? <==>
             n.claim == Some(p) || (p in x.flights && x.flights[p].stage.Filling? && n.publish != Some(p))))
  }

  ghost predicate Moves(s: State, x: Aux, a: Action, s': State)
    requires Step(s, a) == Some(s')
  {
    Moved(s, x, s', NextAux(s, x, a, s'), NoteOf(s, a, s'))
  }

  lemma CursorMoves(s: State, x: Aux, a: Action, s': State)
    requires Inv(s, x) && Step(s, a) == Some(s') && a.ByProducer? && (a.p.CasEnqueue? || a.p.StoreSequence? || a.p.StoreRelease?)
    ensures Moves(s, x, a, s')
  {
    assert ProducerOk(s.mem, s.gateways.Keys, x.flights, a.t, s.producers[a.t]);
  }

  lemma WriteMoves(s: State, x: Aux, a: Action, s': State)
    requires Inv(s, x) && Step(s, a) == Some(s') && a.ByProducer?
    requires a.p.Serialize? || a.p.FailSerialize? || a.p.WriteMetadata? || a.p.Push?
    ensures Moves(s, x, a, s')
  {
    assert ProducerOk(s.mem, s.gateways.Keys, x.flights, a.t, s.producers[a.t]);
    assert NextAux(s, x, a, s').flights.Keys == x.flights.Keys;
  }

  lemma SilentMoves(s: State, x: Aux, a: Action, s': State)
    requires Inv(s, x) && Step(s, a) == Some(s') && a.ByProducer?
    requires !a.p.CasEnqueue? && !a.p.StoreSequence? && !a.p.StoreRelease?
    requires !a.p.Serialize? && !a.p.FailSerialize? && !a.p.WriteMetadata? && !a.p.Push?
    ensures Moves(s, x, a, s')
  {
  }

  lemma GatewayMoves(s: State, x: Aux, a: Action, s': State)
    requires Inv(s, x) && Step(s, a) == Some(s') && a.ByGateway?
    ensures Moves(s, x, a, s')
  {
    assert GatewayOk(x.flights, a.g, s.gateways[a.g]);
  }

  lemma ReplyMoves(s: State, x: Aux, a: Action, s': State)
    requires Inv(s, x) && Step(s, a) == Some(s') && a.ByConsumer? && (a.e.WriteReply? || a.e.StoreReply?)
    ensures Moves(s, x, a, s')
  {
    var pc, ts := s.consumers[a.c].pc, x.takes[a.c];
    assert ConsumerOk(s.mem, s.maxBatch, x.flights, a.c, s.consumers[a.c], ts);
    assert Drains(x.flights, ts[pc.done], a.c);
    assert NextAux(s, x, a, s').flights.Keys == x.flights.Keys;
  }

  lemma ConsumerMoves(s: State, x: Aux, a: Action, s': State)
    requires Inv(s, x) && Step(s, a) == Some(s') && a.ByConsumer? && !a.e.WriteReply? && !a.e.StoreReply?
    ensures Moves(s, x, a, s')
  {
    assert ConsumerOk(s.mem, s.maxBatch, x.flights, a.c, s.consumers[a.c], x.takes[a.c]);
    assert NextAux(s, x, a, s').flights.Keys == x.flights.Keys;
  }

  lemma StepMoves(s: State, x: Aux, a: Action, s': State)
    requires Inv(s, x) && Step(s, a) == Some(s')
    ensures Moves(s, x, a, s')
  {
    match a
    case Submit(_, _) =>
    case ByProducer(_, e) =>
      if e.CasEnqueue? || e.StoreSequence? || e.StoreRelease? {
        CursorMoves(s, x, a, s');
      } else if e.Serialize? || e.FailSerialize? || e.WriteMetadata? || e.Push? {
        WriteMoves(s, x, a, s');
      } else {
        SilentMoves(s, x, a, s');
      }
    case ByGateway(_, _) => GatewayMoves(s, x, a, s');
    case ByConsumer(_, e) =>
      if e.WriteReply? || e.StoreReply? { ReplyMoves(s, x, a, s'); } else { ConsumerMoves(s, x, a, s'); }
  }

  /** Exactly the positions behind the enqueue cursor were claimed, exactly those no longer being
      filled were published, exactly those behind the dequeue cursor were taken, exactly those no
      longer in flight were released, and each of these once. */
  ghost predicate Ledger(notes: seq<Note>, m: Memory, flights: Flights) {
    forall p: nat {:trigger Balanced(notes, m, flights, p)} :: Balanced(notes, m, flights, p)
  }

  predicate Balanced(notes: seq<Note>, m: Memory, flights: Flights, p: nat) {
    && Occurrences(notes, Claim, p) == Once(p < m.enqueue)
    && Occurrences(notes, Publish, p) == Once(p < m.enqueue && !(p in flights && flights[p].stage.Filling?))
    && Occurrences(notes, Consume, p) == Once(p < m.dequeue)
    && Occurrences(notes, Release, p) == Once(p < m.enqueue && p !in flights)
  }

  lemma {:induction false} EveryRunKeepsInv(k: Config, ex: Execution) returns (x: Aux)
    requires k.count >= 3 && ex.Valid(k)
    ensures Inv(ex.End(), x)
    ensures Ledger(ex.notes, ex.End().mem, x.flights)
    decreases |ex.acts|
  {
    if ex.acts == [] {
      InitEstablishesInv(k);
      x := InitAux(k.consumers);
    } else {
      var before, i := ex.Shorter(), |ex.acts| - 1;
      ShorterIsValid(k, ex);
      var x1 := EveryRunKeepsInv(k, before);
      x := ExtendRun(before.notes, ex.acts[i], before.End(), x1, ex.End());
    }
  }

  lemma ExtendRun(notes: seq<Note>, a: Action, s: State, x: Aux, s': State) returns (x': Aux)
    requires Step(s, a) == Some(s') && Inv(s, x) && Ledger(notes, s.mem, x.flights)
    ensures Inv(s', x') && Ledger(notes + [NoteOf(s, a, s')], s'.mem, x'.flights)
  {
    StepKeepsInv(s, x, a, s');
    StepMoves(s, x, a, s');
    x' := NextAux(s, x, a, s');
    LedgerStep(notes, s, x, s', x', NoteOf(s, a, s'));
  }

  lemma LedgerStep(notes: seq<Note>, s: State, x: Aux, s': State, x': Aux, n: Note)
    requires MemoryOk(s.mem, x.flights) && Ledger(notes, s.mem, x.flights) && Moved(s, x, s', x', n)
    ensures Ledger(notes + [n], s'.mem, x'.flights)
  {
    assert (notes + [n])[..|notes|] == notes;
    forall p: nat ensures Balanced(notes + [n], s'.mem, x'.flights, p) {
      assert Balanced(notes, s.mem, x.flights, p);
      BalanceAt(s, x, s', x', n, p);
    }
  }

  lemma BalanceAt(s: State, x: Aux, s': State, x': Aux, n: Note, p: nat)
    requires MemoryOk(s.mem, x.flights) && Moved(s, x, s', x', n)
    ensures Once(p < s'.mem.enqueue) == Once(p < s.mem.enqueue) + Once(n.claim == Some(p))
    ensures Once(p < s'.mem.enqueue && !(p in x'.flights && x'.flights[p].stage.Filling?))
         == Once(p < s.mem.enqueue && !(p in x.flights && x.flights[p].stage.Filling?)) + Once(n.publish == Some(p))
    ensures Once(p < s'.mem.dequeue) == Once(p < s.mem.dequeue) + Once(n.consume == Some(p))
    ensures Once(p < s'.mem.enqueue && p !in x'.flights)
         == Once(p < s.mem.enqueue && p !in x.flights) + Once(n.release == Some(p))
  {
    assert p in x.flights ==> CellOk(s.mem, p, x.flights[p]);
    assert p in x'.flights || p !in x'.flights;
  }
}
