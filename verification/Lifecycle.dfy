/**
 The life of an actor: hooks, the message loop, saved errors, and the drain of its mailbox.

 What handlers and hooks do is a script of free choices. A script fixes for every turn of the
 loop what arrives, what the handler does and what `stopping` answers; a turn that finds no
 message leaves the loop blocked. Statements quantify over all scripts.
 */
module Lifecycle {
  import opened Wire

  datatype ActorState = Unstarted | Starting | Running | Stopping | Stopped

  type Error = nat

  datatype Msg = User(id: nat) | PauseSignal | ResumeSignal(timer: Option<nat>)

  /** What an outside observer can see: supervision events, and calls of `post_stop`. */
  datatype Entry =
    | State(state: ActorState)
    | Warn(error: Error)
    | PostStopCalled
    | Terminated(cause: Option<Error>)
    | Panicked

  // ----- The mailbox -----

  /** What became of a message that left the queue. */
  datatype Taken = Dispatched(msg: Msg) | Drained(msg: Msg)

  /** The queue, and as history all messages that left it and all that ever entered it. */
  datatype Box = Box(queue: seq<Msg>, taken: seq<Taken>, sent: seq<Msg>)

  function Enqueue(b: Box, ms: seq<Msg>): Box {
    Box(b.queue + ms, b.taken, b.sent + ms)
  }

  function Receive(b: Box): Box
    requires b.queue != []
  {
    Box(b.queue[1..], b.taken + [Dispatched(b.queue[0])], b.sent)
  }

  /** `try_recv` with the message thrown away; on an empty queue it fails. */
  function TryDiscard(b: Box): Box {
    if b.queue == [] then b else Box(b.queue[1..], b.taken + [Drained(b.queue[0])], b.sent)
  }

  function Discard(b: Box, n: nat): Box
    decreases n
  {
    if n == 0 then b else Discard(TryDiscard(b), n - 1)
  }

  // ----- The context -----

  datatype DrainState = DrainState(drainable: bool, len: nat, requested: bool)

  /** The saved error, and as history all errors that handlers and tasks raised. */
  datatype Errors = Errors(saved: Option<Error>, raised: seq<Error>)

  /** How far a message loop has come. */
  datatype LoopEnd =
    | Open
    | Blocked
    | Returned(result: Option<Error>)
    | StopFailed(saved: Option<Error>, cause: Error)
    | Crashed

  datatype Ctx = Ctx(state: ActorState, errors: Errors, drain: DrainState, box: Box, trace: seq<Entry>, end: LoopEnd)

  function New(drainable: bool): Ctx {
    Ctx(Unstarted, Errors(None, []), DrainState(drainable, 0, false), Box([], [], []), [], Open)
  }

  function Log(c: Ctx, e: Entry): Ctx {
    c.(trace := c.trace + [e])
  }

  function SetState(c: Ctx, s: ActorState): Ctx {
    Log(c.(state := s), State(s))
  }

  function SaveError(c: Ctx, e: Error): Ctx {
    c.(errors := Errors(Some(e), c.errors.raised + [e]))
  }

  function TakeError(c: Ctx): Ctx {
    c.(errors := c.errors.(saved := None))
  }

  /** What a handler does with its context, and what arrives while it runs. */
  datatype Action = Stop | Terminate | Save(error: Error) | Drain | Arrive(msg: Msg)

  /** Only a drainable context has the method that requests a drain. */
  function Act(c: Ctx, a: Action): Ctx {
    match a
    case Stop => SetState(c, Stopping)
    case Terminate => SetState(c, Stopped)
    case Save(e) => SaveError(c, e)
    case Drain => if c.drain.drainable then c.(drain := c.drain.(requested := true)) else c
    case Arrive(m) => c.(box := Enqueue(c.box, [m]))
  }

  function Acts(c: Ctx, actions: seq<Action>): Ctx
    decreases actions
  {
    if actions == [] then c else Acts(Act(c, actions[0]), actions[1..])
  }

  datatype Handler = Handler(actions: seq<Action>, panics: bool)

  datatype Answer = StopNow | Continue | Fail(error: Error) | Panic

  /** `before` arrives while the loop waits, `between` after it took a message and before the
      queue is measured; `closed` says what an empty mailbox means. A context holds an address
      of its own mailbox, so only a foreign one closes; nothing below depends on that. */
  datatype Turn = Turn(before: seq<Msg>, closed: bool, between: seq<Msg>, handler: Handler, answer: Answer)

  /** Measures the queue before a handler runs. */
  function Measure(c: Ctx): Ctx {
    if c.drain.drainable then c.(drain := c.drain.(len := |c.box.queue|)) else c
  }

  /** Takes the next message and measures the queue behind it. */
  function Begin(c: Ctx, between: seq<Msg>): Ctx
    requires c.box.queue != []
  {
    Measure(c.(box := Enqueue(Receive(c.box), between)))
  }

  /** Discards what was measured if the handler requested it. */
  function Apply(c: Ctx): Ctx {
    if c.drain.requested then c.(box := Discard(c.box, c.drain.len), drain := c.drain.(requested := false)) else c
  }

  /** After a message: ask a stopping actor, leave the loop of a stopped one. */
  function Settle(c: Ctx, result: Option<Error>, answer: Answer): Ctx {
    match c.state
    case Stopping =>
      (match answer
       case StopNow => c.(end := Returned(result))
       case Continue => SetState(if result.Some? then Log(c, Warn(result.value)) else c, Running)
       case Fail(e) => c.(end := StopFailed(result, e))
       case Panic => c.(end := Crashed))
    case Stopped => c.(end := Returned(result))
    case _ => c
  }

  function Settled(c: Ctx, answer: Answer): Ctx {
    if c.state == Stopping || c.state == Stopped then Settle(TakeError(c), c.errors.saved, answer) else c
  }

  function StopOnError(c: Ctx): Ctx {
    if c.errors.saved.Some? && c.state == Running then SetState(c, Stopping) else c
  }

  /** One turn of `Context::run_loop`. */
  function TakeTurn(c: Ctx, t: Turn): Ctx {
    var c1 := c.(box := Enqueue(c.box, t.before));
    if c1.box.queue == [] then
      if t.closed then Settled(SetState(c1, Stopped), t.answer) else c1.(end := Blocked)
    else
      var c2 := Acts(Begin(c1, t.between), t.handler.actions);
      if t.handler.panics then c2.(end := Crashed)
      else Settled(StopOnError(Apply(c2)), t.answer)
  }

  function Loop(c: Ctx, turns: seq<Turn>): Ctx
    decreases turns
  {
    if turns == [] || c.end != Open || c.state != Running then c else Loop(TakeTurn(c, turns[0]), turns[1..])
  }

  // ----- The run of an actor -----

  /** The loop's result as the code computes it: `or` keeps the second error of two, and no
      error at all if nothing was saved. */
  function AsWritten(end: LoopEnd): Option<Error> {
    match end
    case Returned(r) => r
    case StopFailed(saved, e) => if saved.Some? then Some(e) else None
    case _ => None
  }

  /** The loop's result as its comment describes it: a saved error wins, otherwise the error
      of `stopping` is returned. */
  function AsDocumented(end: LoopEnd): Option<Error> {
    match end
    case Returned(r) => r
    case StopFailed(saved, e) => if saved.Some? then saved else Some(e)
    case _ => None
  }

  datatype Hook = Fine | Fails(error: Error) | Panics

  datatype Life = Life(start: Hook, turns: seq<Turn>, post: Hook)

  predicate Ended(end: LoopEnd) {
    end.Returned? || end.StopFailed? || end.Crashed?
  }

  /** `post_start` ran; on failure the actor is stopped at once. */
  function Start(c: Ctx, start: Hook): Ctx {
    match start
    case Fine => SetState(c, Running)
    case Fails(e) => Log(SetState(c, Stopped), Terminated(Some(e)))
    case Panics => Log(SetState(c, Stopped), Panicked)
  }

  function EnsureStopped(c: Ctx): Ctx {
    if c.state != Stopped then SetState(c, Stopped) else c
  }

  /** The loop ended with `result`: stop, run `post_stop` unless the loop panicked, report. */
  function Finish(c: Ctx, result: Option<Error>, post: Hook): Ctx {
    var c1 := EnsureStopped(c);
    if c.end == Crashed then Log(c1, Panicked)
    else
      var c2 := Log(c1, PostStopCalled);
      match post
      case Panics => Log(c2, Panicked)
      case Fails(e) => Log(c2, Terminated(if result.Some? then result else Some(e)))
      case Fine => Log(c2, Terminated(result))
  }

  function FinishIfEnded(c: Ctx, post: Hook): Ctx {
    if Ended(c.end) then Finish(c, AsWritten(c.end), post) else c
  }

  /** The life of an actor whose `pre_start` succeeded. */
  function Live(drainable: bool, life: Life): Ctx {
    var c := Start(SetState(New(drainable), Starting), life.start);
    if life.start != Fine then c else FinishIfEnded(Loop(c, life.turns), life.post)
  }
}
