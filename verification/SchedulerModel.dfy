/** The continuous batcher: submitters and one dispatcher race on a three-valued item state. One
    step per channel operation, atomic access or clock reading; any number of submitters. */
module SchedulerModel {
  import opened Common

  type Time = int

  datatype Result =
    | Ok(value: nat)
    | ContextError
    | QueueDelay
    | Closed
    | Full
    | HandlerError(tag: nat)
    | WrongCount

  datatype ItemState = Queued | Dispatched | Expired

  /** Where the Submit call of an admitted item is. */
  datatype Submitter =
    | Waiting                  // the select loop
    | TimerFired               // about to compare-and-swap
    | ContextFired             // about to compare-and-swap
    | SawDone                  // the dispatcher is gone, about to look at the reply once more
    | Awaiting                 // waitForResult
    | Returned(result: Result)

  /** An admitted item. `sent` counts the replies ever sent to it; `reply` is its one-slot channel. */
  datatype Item = Item(
    caller: nat,
    value: nat,
    expiry: Time,
    gone: bool,                // its context is done
    state: ItemState,
    reply: Option<Result>,
    announced: bool,           // the dispatched channel is closed
    sent: nat,
    sub: Submitter)

  /** A Submit call up to its admission. */
  datatype Attempt = Ready(value: nat, expiry: Time) | Refused(result: Result) | Admitted(item: nat)

  datatype Outcome = Results(values: seq<nat>) | Failure(tag: nat)

  /** One invocation of the handler: whose values it got, when they were judged, what it returned. */
  datatype Call = Call(ids: seq<nat>, values: seq<nat>, at: Time, outcome: Option<Outcome>)

  datatype Verdict = TooLate | Gone | Go

  datatype Dispatcher =
    | Seeking
    | Received(item: nat)
    | Collecting(batch: seq<nat>)
    | Peeked(batch: seq<nat>, item: nat)
    | Sorting(batch: seq<nat>, k: nat, active: seq<nat>, at: Time, open: bool)
    | Judged(batch: seq<nat>, k: nat, active: seq<nat>, at: Time, open: bool, verdict: Verdict)
    | Refusing(batch: seq<nat>, k: nat, active: seq<nat>, at: Time, open: bool, result: Result)
    | Announcing(batch: seq<nat>, k: nat, active: seq<nat>, at: Time, open: bool)
    | Calling(active: seq<nat>, open: bool)
    | Replying(active: seq<nat>, j: nat, outcome: Outcome, open: bool)
    | Sending(active: seq<nat>, j: nat, outcome: Outcome, open: bool, result: Result)
    | Stopped                  // done is closed

  datatype Config = Config(maxQueue: nat, maxBatch: nat, maxDelay: int) {
    predicate Valid() { maxQueue >= 1 && maxBatch >= 1 && maxDelay > 0 }
  }

  datatype State = State(
    now: Time,
    closed: bool,
    queue: seq<nat>,
    items: seq<Item>,
    attempts: map<nat, Attempt>,
    disp: Dispatcher,
    calls: seq<Call>)

  datatype SubmitterEvent =
    | TakeReply | SeeDispatched | FireTimer | TimerSwap | FireContext | ContextSwap | SeeDone | LookAgain
    | AwaitReply | AwaitContext

  datatype DispatcherEvent =
    | Receive                  // from the queue
    | SeeClosed                // the queue is closed and empty
    | LoadState
    | StopCollecting           // the collection timer fired, or the batch is full
    | Judge
    | Swap
    | SendRefusal
    | Announce
    | EndSorting
    | HandlerReturns(outcome: Outcome)
    | Choose
    | Send
    | Finish

  datatype Action =
    | Tick(t: Time)
    | Close
    | Begin(caller: nat, value: nat, gone: bool)
    | Enqueue(caller: nat, gone: bool)
    | Cancel(item: nat)
    | BySubmitter(item: nat, s: SubmitterEvent)
    | ByDispatcher(d: DispatcherEvent)

  const START := State(0, false, [], [], map[], Seeking, [])

  // ----- submitters -----------------------------------------------------------------------

  /** What a submitter's event does to its own item; `stopped` says whether done is closed. */
  function SubmitterStep(it: Item, now: Time, stopped: bool, e: SubmitterEvent): Option<Item> {
    match e
    case TakeReply =>
      if it.sub.Waiting? && it.reply.Some? then Some(it.(reply := None, sub := Returned(it.reply.value))) else None
    case SeeDispatched =>
      if it.sub.Waiting? && it.announced then Some(it.(sub := Awaiting)) else None
    case FireTimer =>
      if it.sub.Waiting? && now >= it.expiry then Some(it.(sub := TimerFired)) else None
    case TimerSwap =>
      if !it.sub.TimerFired? then None
      else if it.state.Queued? then Some(it.(state := Expired, sub := Returned(QueueDelay)))
      else Some(it.(sub := Awaiting))
    case FireContext =>
      if it.sub.Waiting? && it.gone then Some(it.(sub := ContextFired)) else None
    case ContextSwap =>
      if !it.sub.ContextFired? then None
      else Some(it.(state := if it.state.Queued? then Expired else it.state, sub := Returned(ContextError)))
    case SeeDone =>
      if it.sub.Waiting? && stopped then Some(it.(sub := SawDone)) else None
    case LookAgain =>
      if !it.sub.SawDone? then None
      else if it.reply.Some? then Some(it.(reply := None, sub := Returned(it.reply.value)))
      else Some(it.(sub := Returned(Closed)))
    case AwaitReply =>
      if it.sub.Awaiting? && it.reply.Some? then Some(it.(reply := None, sub := Returned(it.reply.value))) else None
    case AwaitContext =>
      if it.sub.Awaiting? && it.gone then Some(it.(sub := Returned(ContextError))) else None
  }

  // ----- the dispatcher -------------------------------------------------------------------

  function WithItem(s: State, i: nat, it: Item): State {
    if i < |s.items| then s.(items := s.items[i := it]) else s
  }

  function ValuesOf(items: seq<Item>, ids: seq<nat>): seq<nat> {
    seq(|ids|, k requires 0 <= k < |ids| => if ids[k] < |items| then items[ids[k]].value else 0)
  }

  /** What the dispatcher sends to item `i` when the handler's answer is in. */
  function ReplyFor(it: Item, outcome: Outcome, j: nat, count: nat): Result {
    if it.gone then ContextError
    else match outcome
         case Failure(tag) => HandlerError(tag)
         case Results(values) => if |values| == count && j < count then Ok(values[j]) else WrongCount
  }

  function Rest(open: bool): Dispatcher {
    if open then Seeking else Stopped
  }

  /** Sending blocks while the item's one-slot channel is full. */
  function SendTo(s: State, i: nat, r: Result, next: Dispatcher): Option<State> {
    if i < |s.items| && s.items[i].reply.None?
    then Some(WithItem(s, i, s.items[i].(reply := Some(r), sent := s.items[i].sent + 1)).(disp := next)) else None
  }

  function ReceiveStep(c: Config, s: State): Option<State> {
    if |s.queue| == 0 then None
    else match s.disp
         case Seeking => Some(s.(queue := s.queue[1..], disp := Received(s.queue[0])))
         case Collecting(batch) =>
           if |batch| < c.maxBatch then Some(s.(queue := s.queue[1..], disp := Peeked(batch, s.queue[0]))) else None
         case _ => None
  }

  function LoadStep(s: State): Option<State> {
    match s.disp
    case Received(i) =>
      if i >= |s.items| then None
      else Some(s.(disp := if s.items[i].state.Queued? then Collecting([i]) else Seeking))
    case Peeked(batch, i) =>
      if i >= |s.items| then None
      else Some(s.(disp := Collecting(if s.items[i].state.Queued? then batch + [i] else batch)))
    case _ => None
  }

  function JudgeStep(s: State): Option<State> {
    match s.disp
    case Sorting(batch, k, active, at, open) =>
      if k >= |batch| || batch[k] >= |s.items| then None
      else
        var it := s.items[batch[k]];
        Some(s.(disp := Judged(batch, k, active, at, open, if it.gone then Gone else if at >= it.expiry then TooLate else Go)))
    case _ => None
  }

  function SwapStep(s: State): Option<State> {
    match s.disp
    case Judged(batch, k, active, at, open, verdict) =>
      if k >= |batch| || batch[k] >= |s.items| then None
      else
        var i := batch[k];
        var it := s.items[i];
        if !it.state.Queued? then Some(s.(disp := Sorting(batch, k + 1, active, at, open)))
        else if verdict.Go? then Some(WithItem(s, i, it.(state := Dispatched)).(disp := Announcing(batch, k, active, at, open)))
        else Some(WithItem(s, i, it.(state := Expired)).(
                  disp := Refusing(batch, k, active, at, open, if verdict.Gone? then ContextError else QueueDelay)))
    case _ => None
  }

  function AnnounceStep(s: State): Option<State> {
    match s.disp
    case Announcing(batch, k, active, at, open) =>
      if k >= |batch| || batch[k] >= |s.items| then None
      else Some(WithItem(s, batch[k], s.items[batch[k]].(announced := true)).(
                disp := Sorting(batch, k + 1, active + [batch[k]], at, open)))
    case _ => None
  }

  function EndSortingStep(s: State): Option<State> {
    match s.disp
    case Sorting(batch, k, active, at, open) =>
      if k != |batch| then None
      else if active == [] then Some(s.(disp := Rest(open)))
      else Some(s.(disp := Calling(active, open), calls := s.calls + [Call(active, ValuesOf(s.items, active), at, None)]))
    case _ => None
  }

  function ReturnStep(s: State, outcome: Outcome): Option<State> {
    match s.disp
    case Calling(active, open) =>
      if s.calls == [] then None
      else Some(s.(disp := Replying(active, 0, outcome, open),
                   calls := s.calls[|s.calls| - 1 := s.calls[|s.calls| - 1].(outcome := Some(outcome))]))
    case _ => None
  }

  function DispatcherStep(c: Config, s: State, e: DispatcherEvent): Option<State> {
    match e
    case Receive => ReceiveStep(c, s)
    case SeeClosed =>
      if !s.closed || s.queue != [] then None
      else (match s.disp
            case Seeking => Some(s.(disp := Stopped))
            case Collecting(batch) => if |batch| < c.maxBatch then Some(s.(disp := Sorting(batch, 0, [], s.now, false))) else None
            case _ => None)
    case LoadState => LoadStep(s)
    case StopCollecting =>
      if s.disp.Collecting? then Some(s.(disp := Sorting(s.disp.batch, 0, [], s.now, true))) else None
    case Judge => JudgeStep(s)
    case Swap => SwapStep(s)
    case SendRefusal =>
      (match s.disp
       case Refusing(batch, k, active, at, open, result) =>
         if k < |batch| then SendTo(s, batch[k], result, Sorting(batch, k + 1, active, at, open)) else None
       case _ => None)
    case Announce => AnnounceStep(s)
    case EndSorting => EndSortingStep(s)
    case HandlerReturns(outcome) => ReturnStep(s, outcome)
    case Choose =>
      (match s.disp
       case Replying(active, j, outcome, open) =>
         if j < |active| && active[j] < |s.items|
         then Some(s.(disp := Sending(active, j, outcome, open, ReplyFor(s.items[active[j]], outcome, j, |active|)))) else None
       case _ => None)
    case Send =>
      (match s.disp
       case Sending(active, j, outcome, open, result) =>
         if j < |active| then SendTo(s, active[j], result, Replying(active, j + 1, outcome, open)) else None
       case _ => None)
    case Finish =>
      if s.disp.Replying? && s.disp.j == |s.disp.active| then Some(s.(disp := Rest(s.disp.open))) else None
  }

  // ----- the system -----------------------------------------------------------------------

  function EnqueueStep(c: Config, s: State, t: nat, gone: bool): Option<State> {
    if t !in s.attempts || !s.attempts[t].Ready? then None
    else if s.closed then Some(s.(attempts := s.attempts[t := Refused(Closed)]))
    else if |s.queue| >= c.maxQueue then Some(s.(attempts := s.attempts[t := Refused(Full)]))
    else
      var a := s.attempts[t];
      Some(s.(attempts := s.attempts[t := Admitted(|s.items|)],
              items := s.items + [Item(t, a.value, a.expiry, gone, Queued, None, false, 0, Waiting)],
              queue := s.queue + [|s.items|]))
  }

  /** `None` when the action cannot happen in this state. */
  function Next(c: Config, s: State, a: Action): Option<State> {
    match a
    case Tick(t) => if t >= s.now then Some(s.(now := t)) else None
    case Close => Some(s.(closed := true))
    case Begin(t, value, gone) =>
      if t in s.attempts then None
      else Some(s.(attempts := s.attempts[t := if gone then Refused(ContextError) else Ready(value, s.now + c.maxDelay)]))
    case Enqueue(t, gone) => EnqueueStep(c, s, t, gone)
    case Cancel(i) => if i < |s.items| then Some(WithItem(s, i, s.items[i].(gone := true))) else None
    case BySubmitter(i, e) =>
      if i >= |s.items| then None
      else (match SubmitterStep(s.items[i], s.now, s.disp.Stopped?, e)
            case Some(it) => Some(WithItem(s, i, it))
            case None => None)
    case ByDispatcher(e) => DispatcherStep(c, s, e)
  }
}
