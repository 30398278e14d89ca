/** The delivery loop over a partitioned log: fetch, handle with retries, write to the dead-letter
    topic where that is the policy, commit, and start over from the committed positions after any
    failure, with the window retained. */
module WindowDelivery {
  import opened WindowModel
  import opened WindowHistory
  import opened WindowSink

  /** Each partition's records, in offset order. */
  type Logs = map<int, seq<Event>>

  ghost predicate LogsOk(logs: Logs) {
    && (forall p, i :: p in logs && 0 <= i < |logs[p]| ==> logs[p][i].partition == p)
    && (forall p, i, j :: p in logs && 0 <= i < j < |logs[p]| ==> logs[p][i].offset < logs[p][j].offset)
    && (forall p, i, q, j :: p in logs && q in logs && 0 <= i < |logs[p]| && 0 <= j < |logs[q]| ==>
          (logs[p][i].id == logs[q][j].id ==> p == q && i == j))
  }

  datatype Stage = Idle | Fetched(p: int, i: nat) | Passed(p: int, i: nat)

  /** `dead` holds the places of the records written to the dead-letter topic. */
  datatype Delivery = Delivery(
    window: Table,
    sink: map<string, Features>,
    cursor: map<int, nat>,
    committed: map<int, nat>,
    stage: Stage,
    dead: set<(int, nat)>)

  datatype Action =
    | Fetch(p: int)         // the reader hands out the next record of a partition
    | Attempt(sinkOk: bool) // one call of the handler, with a sink that succeeds or fails
    | DeadLetter            // attempts are used up and the dead-letter write is acknowledged
    | Settle                // the broker accepts the commit
    | Restart               // an error ended the loop; a new reader starts at the committed positions

  ghost predicate Succeeds(l: Limits, w: Table, e: Event, sinkOk: bool) {
    Prepare(l, w, e).Ignored? || Commits(l, w, Call(e, sinkOk))
  }

  predicate Holding(logs: Logs, d: Delivery) {
    d.stage.Fetched? && d.stage.p in logs && d.stage.i < |logs[d.stage.p]|
  }

  /** One step; an action that does not apply in this stage leaves everything as it is. */
  ghost function Step(l: Limits, logs: Logs, d: Delivery, a: Action): Delivery {
    match a
    case Fetch(p) =>
      if d.stage.Idle? && p in logs && p in d.cursor && d.cursor[p] < |logs[p]|
      then d.(stage := Fetched(p, d.cursor[p]), cursor := d.cursor[p := d.cursor[p] + 1]) else d
    case Attempt(sinkOk) =>
      if Holding(logs, d) then
        var e := logs[d.stage.p][d.stage.i];
        d.(window := Apply(l, d.window, e, sinkOk),
           sink := Deliver(l, World(d.window, d.sink), Call(e, sinkOk)).sink,
           stage := if Succeeds(l, d.window, e, sinkOk) then Passed(d.stage.p, d.stage.i) else d.stage)
      else d
    case DeadLetter =>
      if Holding(logs, d) then d.(stage := Passed(d.stage.p, d.stage.i), dead := d.dead + {(d.stage.p, d.stage.i)}) else d
    case Settle =>
      if d.stage.Passed? then d.(committed := d.committed[d.stage.p := d.stage.i + 1], stage := Idle) else d
    case Restart => d.(cursor := d.committed, stage := Idle)
  }

  function Start(logs: Logs): Delivery {
    var zero := map p | p in logs :: 0;
    Delivery(EMPTY_TABLE, map[], zero, zero, Idle, {})
  }

  ghost function After(l: Limits, logs: Logs, acts: seq<Action>): Delivery {
    if acts == [] then Start(logs) else Step(l, logs, After(l, logs, acts[..|acts| - 1]), acts[|acts| - 1])
  }

  /** The events a list of calls carries for one partition. */
  function Project(done: seq<Call>, p: int): seq<Event> {
    if done == [] then []
    else
      var last := done[|done| - 1].event;
      if last.partition == p then Project(done[..|done| - 1], p) + [last] else Project(done[..|done| - 1], p)
  }

  lemma ProjectAppend(done: seq<Call>, c: Call, p: int)
    ensures Project(done + [c], p) == if c.event.partition == p then Project(done, p) + [c.event] else Project(done, p)
  {
    assert (done + [c])[..|done|] == done;
  }

  // ----- what one accepted event does to offsets and ids ----------------------------------

  lemma CommitOffsets(l: Limits, w: Table, e: Event, sinkOk: bool)
    requires Commits(l, w, Call(e, sinkOk))
    ensures Apply(l, w, e, sinkOk) == Apply(l, w, e, true) && Commits(l, w, Call(e, true))
    ensures Apply(l, w, e, sinkOk).offsets == w.offsets[e.partition := e.offset]
    ensures Apply(l, w, e, sinkOk).seen <= w.seen + {e.id}
    ensures ValidEvent(l, e) && !Stale(w, e)
  {
  }

  /** An event that is not accepted leaves the table as it is, its partition's offset included. */
  lemma NoCommitNoChange(l: Limits, w: Table, e: Event, sinkOk: bool)
    requires !Commits(l, w, Call(e, sinkOk))
    ensures Apply(l, w, e, sinkOk) == w
  {
  }

  // ----- accepted once, never again -------------------------------------------------------

  lemma OffsetsNeverFall(l: Limits, w: Table, c: Call, p: int)
    requires p in w.offsets
    ensures p in Apply(l, w, c.event, c.sinkOk).offsets
    ensures w.offsets[p] <= Apply(l, w, c.event, c.sinkOk).offsets[p]
  {
    if Commits(l, w, c) { CommitOffsets(l, w, c.event, c.sinkOk); } else { NoCommitNoChange(l, w, c.event, c.sinkOk); }
  }

  lemma {:induction false} HighWaterStays(l: Limits, calls: seq<Call>, i: nat, j: nat, p: int)
    requires i <= j <= |calls| && p in Run(l, calls[..i]).offsets
    ensures p in Run(l, calls[..j]).offsets && Run(l, calls[..i]).offsets[p] <= Run(l, calls[..j]).offsets[p]
    decreases j
  {
    if i < j {
      HighWaterStays(l, calls, i, j - 1, p);
      assert calls[..j][..j - 1] == calls[..j - 1];
      OffsetsNeverFall(l, Run(l, calls[..j - 1]), calls[j - 1], p);
    }
  }

  /** An event once accepted is never accepted again in any run, not even after its id expired or
      its entity was evicted; neither is any record of its partition at or below its offset. */
  lemma AcceptedAtMostOnce(l: Limits, calls: seq<Call>, i: nat, j: nat)
    requires i < j < |calls| && Commits(l, Run(l, calls[..i]), calls[i])
    requires calls[j].event.partition == calls[i].event.partition && calls[j].event.offset <= calls[i].event.offset
    ensures !Prepare(l, Run(l, calls[..j]), calls[j].event).Accepted?
  {
    var p := calls[i].event.partition;
    CommitOffsets(l, Run(l, calls[..i]), calls[i].event, calls[i].sinkOk);
    assert calls[..i + 1][..i] == calls[..i];
    HighWaterStays(l, calls, i + 1, j, p);
  }

  // ----- what has become of the records ---------------------------------------------------

  /** What a delivery has achieved: the accepted calls in order, which records of each partition they
      were, and how many records of each partition have been passed. */
  datatype Progress = Progress(done: seq<Call>, taken: map<int, seq<nat>>, front: map<int, nat>)

  function Max(a: nat, b: nat): nat {
    if a > b then a else b
  }

  ghost function NextProgress(l: Limits, logs: Logs, d: Delivery, x: Progress, a: Action): Progress {
    if !Holding(logs, d) || d.stage.p !in x.taken || d.stage.p !in x.front then x
    else
      var p, i := d.stage.p, d.stage.i;
      var front := x.front[p := Max(x.front[p], i + 1)];
      if a.Attempt? && Commits(l, d.window, Call(logs[p][i], a.sinkOk))
      then Progress(x.done + [Call(logs[p][i], true)], x.taken[p := x.taken[p] + [i]], front)
      else if a.DeadLetter? then x.(front := front)
      else x
  }

  ghost function Achieved(l: Limits, logs: Logs, acts: seq<Action>): Progress {
    if acts == [] then Progress([], map p | p in logs :: [], map p | p in logs :: 0)
    else
      var init, a := acts[..|acts| - 1], acts[|acts| - 1];
      NextProgress(l, logs, After(l, logs, init), Achieved(l, logs, init), a)
  }

  // ----- the invariant --------------------------------------------------------------------

  ghost predicate Increasing(ix: seq<nat>) {
    forall i, j :: 0 <= i < j < |ix| ==> ix[i] < ix[j]
  }

  /** The accepted events of a partition are records of its log, in log order, each once. */
  ghost predicate TakenInOrder(log: seq<Event>, got: seq<Event>, ix: seq<nat>, front: nat) {
    && front <= |log| && |got| == |ix| && Increasing(ix)
    && forall k {:trigger ix[k]} :: 0 <= k < |ix| ==> ix[k] < front && got[k] == log[ix[k]]
  }

  /** Every passed record was accepted or dead-lettered. */
  ghost predicate Accounted(ix: seq<nat>, dead: set<(int, nat)>, p: int, front: nat) {
    forall i: nat {:trigger (p, i) in dead} :: i < front ==> i in ix || (p, i) in dead
  }

  ghost predicate OffsetOk(w: Table, got: seq<Event>, p: int) {
    && (p in w.offsets <==> got != [])
    && (got != [] ==> w.offsets[p] == got[|got| - 1].offset)
  }

  ghost predicate SeenFrom(w: Table, done: seq<Call>) {
    forall id {:trigger id in w.seen} :: id in w.seen ==> exists c :: c in done && c.event.id == id
  }

  ghost predicate AllGood(l: Limits, logs: Logs, done: seq<Call>) {
    forall c {:trigger c in done} :: c in done ==> c.sinkOk && ValidEvent(l, c.event) && c.event.partition in logs
  }

  /** How far one partition has come. */
  ghost predicate PartitionOk(logs: Logs, d: Delivery, x: Progress, p: int) {
    && p in logs && p in d.cursor && p in d.committed && p in x.taken && p in x.front
    && TakenInOrder(logs[p], Project(x.done, p), x.taken[p], x.front[p])
    && Accounted(x.taken[p], d.dead, p, x.front[p])
    && d.committed[p] <= x.front[p]
    && OffsetOk(d.window, Project(x.done, p), p)
    && d.cursor[p] <= if d.stage.Fetched? && d.stage.p == p then d.stage.i + 1 else x.front[p]
  }

  ghost predicate StageOk(logs: Logs, d: Delivery, x: Progress) {
    match d.stage
    case Idle => true
    case Fetched(p, i) => p in logs && i < |logs[p]| && p in x.front && i <= x.front[p]
    case Passed(p, i) => p in logs && p in x.front && i < x.front[p]
  }

  /** The window is the one that the accepted events give when each is applied once. */
  ghost predicate Inv(l: Limits, logs: Logs, d: Delivery, x: Progress) {
    && d.window == Run(l, x.done)
    && |Journal(l, x.done)| == |x.done|
    && AllGood(l, logs, x.done)
    && SeenFrom(d.window, x.done)
    && StageOk(logs, d, x)
    && d.committed.Keys == d.cursor.Keys == x.taken.Keys == x.front.Keys == logs.Keys
    && forall p {:trigger PartitionOk(logs, d, x, p)} :: p in logs ==> PartitionOk(logs, d, x, p)
  }

  lemma StartInv(l: Limits, logs: Logs)
    ensures Inv(l, logs, Start(logs), Achieved(l, logs, []))
  {
    var d, x := Start(logs), Achieved(l, logs, []);
    forall p | p in logs ensures PartitionOk(logs, d, x, p) {}
  }

  /** Every accepted event is in its partition's list. */
  lemma {:induction false} DoneIsProjected(done: seq<Call>, c: Call)
    requires c in done
    ensures exists j :: 0 <= j < |Project(done, c.event.partition)| && Project(done, c.event.partition)[j] == c.event
  {
    var init, last := done[..|done| - 1], done[|done| - 1];
    var p := c.event.partition;
    if c == last {
      assert Project(done, p)[|Project(done, p)| - 1] == c.event;
    } else {
      assert done == init + [last];
      DoneIsProjected(init, c);
      var j :| 0 <= j < |Project(init, p)| && Project(init, p)[j] == c.event;
      assert Project(done, p)[j] == c.event;
    }
  }

  /** A record at or before the last accepted one of its partition is not accepted again. */
  lemma RepeatIsNotAccepted(l: Limits, logs: Logs, d: Delivery, x: Progress, p: int, i: nat)
    requires LogsOk(logs) && p in logs && PartitionOk(logs, d, x, p) && i < |logs[p]|
    requires x.taken[p] != [] && i <= x.taken[p][|x.taken[p]| - 1]
    ensures !Prepare(l, d.window, logs[p][i]).Accepted?
    ensures Prepare(l, d.window, logs[p][i]).Ignored? ==> i < x.front[p]
  {
    var last := x.taken[p][|x.taken[p]| - 1];
    assert i < last ==> logs[p][i].offset < logs[p][last].offset;
    assert Stale(d.window, logs[p][i]);
  }

  /** A record behind the last accepted one of its partition is not taken for a repeat. */
  lemma NewIsNotStale(l: Limits, logs: Logs, d: Delivery, x: Progress, p: int, i: nat)
    requires LogsOk(logs) && Inv(l, logs, d, x) && p in logs && i < |logs[p]|
    requires x.taken[p] == [] || x.taken[p][|x.taken[p]| - 1] < i
    ensures !Stale(d.window, logs[p][i])
  {
    assert PartitionOk(logs, d, x, p);
    var ix, e := x.taken[p], logs[p][i];
    assert ix != [] ==> logs[p][ix[|ix| - 1]].offset < e.offset;
    forall c | c in x.done ensures c.event.id != e.id {
      var q := c.event.partition;
      assert PartitionOk(logs, d, x, q);
      DoneIsProjected(x.done, c);
      var j :| 0 <= j < |Project(x.done, q)| && Project(x.done, q)[j] == c.event;
      assert logs[q][x.taken[q][j]] == c.event;
      assert q == p && j < |ix| - 1 ==> ix[j] < ix[|ix| - 1];
    }
  }

  // ----- steps ----------------------------------------------------------------------------

  lemma PlainSteps(l: Limits, logs: Logs, d: Delivery, x: Progress, a: Action)
    requires Inv(l, logs, d, x) && (a.Fetch? || a.Settle? || a.Restart?)
    ensures Inv(l, logs, Step(l, logs, d, a), x)
  {
    var d' := Step(l, logs, d, a);
    forall p | p in logs ensures PartitionOk(logs, d', x, p) {
      assert PartitionOk(logs, d, x, p);
    }
    if a.Fetch? && a.p in logs { assert PartitionOk(logs, d, x, a.p); }
  }

  lemma DeadLetterStep(l: Limits, logs: Logs, d: Delivery, x: Progress)
    requires Inv(l, logs, d, x) && Holding(logs, d)
    ensures Inv(l, logs, Step(l, logs, d, DeadLetter), NextProgress(l, logs, d, x, DeadLetter))
  {
    var d', x' := Step(l, logs, d, DeadLetter), NextProgress(l, logs, d, x, DeadLetter);
    assert PartitionOk(logs, d, x, d.stage.p);
    assert x'.front.Keys == x.front.Keys;
    forall p | p in logs ensures PartitionOk(logs, d', x', p) {
      assert PartitionOk(logs, d, x, p);
    }
  }

  /** An attempt that accepts nothing changes nothing but the stage. */
  lemma UnacceptedStep(l: Limits, logs: Logs, d: Delivery, x: Progress, sinkOk: bool)
    requires LogsOk(logs) && Inv(l, logs, d, x) && Holding(logs, d)
    requires !Commits(l, d.window, Call(logs[d.stage.p][d.stage.i], sinkOk))
    ensures NextProgress(l, logs, d, x, Attempt(sinkOk)) == x
    ensures Inv(l, logs, Step(l, logs, d, Attempt(sinkOk)), x)
  {
    var p, i := d.stage.p, d.stage.i;
    var d' := Step(l, logs, d, Attempt(sinkOk));
    assert PartitionOk(logs, d, x, p);
    NoCommitNoChange(l, d.window, logs[p][i], sinkOk);
    if x.taken[p] != [] && i <= x.taken[p][|x.taken[p]| - 1] {
      RepeatIsNotAccepted(l, logs, d, x, p, i);
    } else {
      NewIsNotStale(l, logs, d, x, p, i);
    }
    forall q | q in logs ensures PartitionOk(logs, d', x, q) {
      assert PartitionOk(logs, d, x, q);
    }
  }

  lemma TakeOne(log: seq<Event>, got: seq<Event>, ix: seq<nat>, front: nat, i: nat)
    requires TakenInOrder(log, got, ix, front) && i < |log| && i <= front && (ix == [] || ix[|ix| - 1] < i)
    ensures TakenInOrder(log, got + [log[i]], ix + [i], Max(front, i + 1))
  {
    forall k | 0 <= k < |ix| ensures ix[k] < i {
      assert k < |ix| - 1 ==> ix[k] < ix[|ix| - 1];
    }
  }

  /** The partition of the accepted record has one more of its records taken. */
  lemma OwnPartition(logs: Logs, d: Delivery, x: Progress, d': Delivery, x': Progress)
    requires LogsOk(logs) && Holding(logs, d) && PartitionOk(logs, d, x, d.stage.p)
    requires var p, i := d.stage.p, d.stage.i;
             && (x.taken[p] == [] || x.taken[p][|x.taken[p]| - 1] < i) && i <= x.front[p]
             && x' == Progress(x.done + [Call(logs[p][i], true)], x.taken[p := x.taken[p] + [i]], x.front[p := Max(x.front[p], i + 1)])
             && d' == d.(window := d'.window, sink := d'.sink, stage := Passed(p, i))
             && d'.window.offsets == d.window.offsets[p := logs[p][i].offset]
    ensures PartitionOk(logs, d', x', d.stage.p)
  {
    var p, i := d.stage.p, d.stage.i;
    TakeOne(logs[p], Project(x.done, p), x.taken[p], x.front[p], i);
    ProjectAppend(x.done, Call(logs[p][i], true), p);
    forall j: nat | j < x'.front[p] ensures j in x'.taken[p] || (p, j) in d'.dead {
      if j == i { assert x'.taken[p][|x.taken[p]|] == i; }
      assert (p, j) in d.dead || (p, j) !in d.dead;
      assert j in x.taken[p] ==> j in x'.taken[p];
    }
  }

  lemma OtherPartition(logs: Logs, d: Delivery, x: Progress, d': Delivery, x': Progress, p: int)
    requires Holding(logs, d) && PartitionOk(logs, d, x, p) && p != d.stage.p && logs[d.stage.p][d.stage.i].partition == d.stage.p
    requires x'.done == x.done + [Call(logs[d.stage.p][d.stage.i], true)] && d'.dead == d.dead
    requires p in x'.taken && x'.taken[p] == x.taken[p] && p in x'.front && x'.front[p] == x.front[p]
    requires d'.cursor == d.cursor && d'.committed == d.committed && !d'.stage.Fetched?
    requires d'.window.offsets == d.window.offsets[d.stage.p := logs[d.stage.p][d.stage.i].offset]
    ensures PartitionOk(logs, d', x', p)
  {
    ProjectAppend(x.done, Call(logs[d.stage.p][d.stage.i], true), p);
  }

  /** An accepted record is behind the last accepted one of its partition. */
  lemma AcceptedIsNew(l: Limits, logs: Logs, d: Delivery, x: Progress, sinkOk: bool)
    requires LogsOk(logs) && Holding(logs, d) && PartitionOk(logs, d, x, d.stage.p)
    requires Commits(l, d.window, Call(logs[d.stage.p][d.stage.i], sinkOk))
    ensures var ix := x.taken[d.stage.p]; ix == [] || ix[|ix| - 1] < d.stage.i
  {
    var p, i := d.stage.p, d.stage.i;
    if x.taken[p] != [] && i <= x.taken[p][|x.taken[p]| - 1] { RepeatIsNotAccepted(l, logs, d, x, p, i); }
  }

  lemma JournalAppend(l: Limits, done: seq<Call>, c: Call)
    requires Commits(l, Run(l, done), c)
    ensures Run(l, done + [c]) == Apply(l, Run(l, done), c.event, c.sinkOk)
    ensures Journal(l, done + [c]) == Journal(l, done) + [EntryOf(l, Run(l, done), c.event)]
  {
    assert (done + [c])[..|done|] == done;
  }

  lemma SeenAppend(w: Table, v: Table, done: seq<Call>, c: Call)
    requires SeenFrom(w, done) && v.seen <= w.seen + {c.event.id}
    ensures SeenFrom(v, done + [c])
  {
    var longer := done + [c];
    assert c in longer;
    forall id | id in v.seen ensures exists b :: b in longer && b.event.id == id {
      if id in w.seen {
        var b :| b in done && b.event.id == id;
        assert b in longer;
      }
    }
  }

  lemma AcceptedStep(l: Limits, logs: Logs, d: Delivery, x: Progress, sinkOk: bool)
    requires LogsOk(logs) && Inv(l, logs, d, x) && Holding(logs, d)
    requires Commits(l, d.window, Call(logs[d.stage.p][d.stage.i], sinkOk))
    ensures Inv(l, logs, Step(l, logs, d, Attempt(sinkOk)), NextProgress(l, logs, d, x, Attempt(sinkOk)))
  {
    var e := logs[d.stage.p][d.stage.i];
    var d', x', c := Step(l, logs, d, Attempt(sinkOk)), NextProgress(l, logs, d, x, Attempt(sinkOk)), Call(e, true);
    CommitOffsets(l, d.window, e, sinkOk);
    JournalAppend(l, x.done, c);
    SeenAppend(d.window, d'.window, x.done, c);
    assert x'.taken.Keys == x.taken.Keys && x'.front.Keys == x.front.Keys;
    assert PartitionOk(logs, d, x, d.stage.p);
    AcceptedIsNew(l, logs, d, x, sinkOk);
    OwnPartition(logs, d, x, d', x');
    forall p | p in logs ensures PartitionOk(logs, d', x', p) {
      assert PartitionOk(logs, d, x, p);
      if p != d.stage.p { OtherPartition(logs, d, x, d', x', p); }
    }
  }

  lemma StepKeepsInv(l: Limits, logs: Logs, d: Delivery, x: Progress, a: Action)
    requires LogsOk(logs) && Inv(l, logs, d, x)
    ensures Inv(l, logs, Step(l, logs, d, a), NextProgress(l, logs, d, x, a))
  {
    if a.Fetch? || a.Settle? || a.Restart? {
      PlainSteps(l, logs, d, x, a);
    } else if Holding(logs, d) {
      if a.DeadLetter? {
        DeadLetterStep(l, logs, d, x);
      } else if Commits(l, d.window, Call(logs[d.stage.p][d.stage.i], a.sinkOk)) {
        AcceptedStep(l, logs, d, x, a.sinkOk);
      } else {
        UnacceptedStep(l, logs, d, x, a.sinkOk);
      }
    }
  }

  lemma {:induction false} EveryTraceKeepsInv(l: Limits, logs: Logs, acts: seq<Action>)
    requires LogsOk(logs)
    ensures Inv(l, logs, After(l, logs, acts), Achieved(l, logs, acts))
  {
    if acts == [] {
      StartInv(l, logs);
    } else {
      var init := acts[..|acts| - 1];
      EveryTraceKeepsInv(l, logs, init);
      StepKeepsInv(l, logs, After(l, logs, init), Achieved(l, logs, init), acts[|acts| - 1]);
    }
  }

  /** Redelivery is invisible: whatever the interleaving of partitions, failed sinks, failed
      commits, capacity and range errors, dead letters and restarts, the window is the one that the
      events accepted so far give when each is applied exactly once; in every partition they are
      accepted in log order; and every committed record was accepted or dead-lettered. */
  lemma RedeliveryIsInvisible(l: Limits, logs: Logs, acts: seq<Action>)
    requires LogsOk(logs)
    ensures var d, x := After(l, logs, acts), Achieved(l, logs, acts);
            && d.window == Run(l, x.done) && |Journal(l, x.done)| == |x.done|
            && forall p {:trigger Project(x.done, p)} :: p in logs ==>
                 && p in x.taken && p in x.front && p in d.committed
                 && TakenInOrder(logs[p], Project(x.done, p), x.taken[p], x.front[p])
                 && d.committed[p] <= x.front[p]
                 && Accounted(x.taken[p], d.dead, p, x.front[p])
  {
    EveryTraceKeepsInv(l, logs, acts);
    var d, x := After(l, logs, acts), Achieved(l, logs, acts);
    forall p | p in logs ensures PartitionOk(logs, d, x, p) {}
  }

  // ----- without dead letters -------------------------------------------------------------

  predicate NoDeadLetters(acts: seq<Action>) {
    forall a :: a in acts ==> !a.DeadLetter?
  }

  lemma {:induction false} DeadStaysEmpty(l: Limits, logs: Logs, acts: seq<Action>)
    requires NoDeadLetters(acts)
    ensures After(l, logs, acts).dead == {}
  {
    if acts != [] {
      var init := acts[..|acts| - 1];
      assert acts[|acts| - 1] in acts && forall a :: a in init ==> a in acts;
      DeadStaysEmpty(l, logs, init);
    }
  }

  lemma {:induction false} NothingSkipped(ix: seq<nat>, front: nat)
    requires Increasing(ix) && (forall k :: 0 <= k < |ix| ==> ix[k] < front) && (forall i: nat :: i < front ==> i in ix)
    ensures |ix| == front && forall k :: 0 <= k < front ==> ix[k] == k
    decreases front
  {
    if ix == [] {
      assert front > 0 ==> 0 in ix;
    } else {
      assert ix[0] < front;
      assert front - 1 in ix;
      forall j | 0 <= j < |ix| ensures ix[j] <= ix[|ix| - 1] {}
      var init := ix[..|ix| - 1];
      forall j | 0 <= j < |init| ensures init[j] < front - 1 { assert ix[j] < ix[|ix| - 1]; }
      forall i: nat | i < front - 1 ensures i in init {
        assert i in ix;
        var j :| 0 <= j < |ix| && ix[j] == i;
        assert init[j] == i;
      }
      NothingSkipped(init, front - 1);
    }
  }

  /** Under the halting policy, and in any trace without a dead letter, the accepted records of each
      partition are a prefix of its log, and nothing is committed that was not accepted. */
  lemma WithoutDeadLetters(l: Limits, logs: Logs, acts: seq<Action>, p: int)
    requires LogsOk(logs) && NoDeadLetters(acts) && p in logs
    ensures var d, x := After(l, logs, acts), Achieved(l, logs, acts);
            && p in x.front && p in x.taken && p in d.committed
            && d.committed[p] <= x.front[p] <= |logs[p]| && |x.taken[p]| == x.front[p]
            && Project(x.done, p) == logs[p][..x.front[p]]
  {
    EveryTraceKeepsInv(l, logs, acts);
    DeadStaysEmpty(l, logs, acts);
    var d, x := After(l, logs, acts), Achieved(l, logs, acts);
    assert PartitionOk(logs, d, x, p);
    PrefixTaken(logs[p], Project(x.done, p), x.taken[p], d.dead, p, x.front[p]);
  }

  lemma PrefixTaken(log: seq<Event>, got: seq<Event>, ix: seq<nat>, dead: set<(int, nat)>, p: int, front: nat)
    requires TakenInOrder(log, got, ix, front) && Accounted(ix, dead, p, front) && dead == {}
    ensures |ix| == front && got == log[..front]
  {
    forall i: nat | i < front ensures i in ix { assert (p, i) !in dead; }
    NothingSkipped(ix, front);
    forall k | 0 <= k < front ensures got[k] == log[..front][k] { assert ix[k] == k; }
  }

  // ----- the sink -------------------------------------------------------------------------

  ghost predicate RecentEnough(l: Limits, logs: Logs) {
    forall p, i :: p in logs && 0 <= i < |logs[p]| ==> logs[p][i].at >= -l.duration
  }

  /** After any delivery trace the sink serves the committed aggregate of every tracked entity. */
  lemma {:induction false} SinkAgreesAfterDelivery(l: Limits, logs: Logs, acts: seq<Action>, entity: string)
    requires l.Valid() && LogsOk(logs) && RecentEnough(l, logs)
    ensures Agree(World(After(l, logs, acts).window, After(l, logs, acts).sink), entity)
  {
    if acts != [] {
      var init, a := acts[..|acts| - 1], acts[|acts| - 1];
      var d := After(l, logs, init);
      SinkAgreesAfterDelivery(l, logs, init, entity);
      if a.Attempt? && Holding(logs, d) {
        var c := Call(logs[d.stage.p][d.stage.i], a.sinkOk);
        EveryTraceKeepsInv(l, logs, init);
        RunOk(l, Achieved(l, logs, init).done);
        DeliverIsApply(l, World(d.window, d.sink), c);
        DeliverKeepsAgreement(l, World(d.window, d.sink), c, entity);
      }
    }
  }
}
