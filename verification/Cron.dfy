/**
 A context with a repetitive task: while the task is not paused it runs before every message,
 and after an interval that is not zero it is paused until a timer sends a signal.
 */
module Cron {
  import opened Wire
  import opened Lifecycle

  datatype CronState = Normal | Paused

  datatype Timer = Sleeping | Aborted | Fired

  /** What happened to the task: it began to run, it went to sleep on a timer, it was paused or
      resumed. */
  datatype Note = Ran | Slept | Halted | Resumed

  datatype Timers = Timers(state: CronState, handle: Option<nat>, all: seq<Timer>, notes: seq<Note>)

  /** `foreign` says that the loop runs on a mailbox other than the context's own. A context holds
      an address of its own mailbox, so that one does not close while the loop runs. */
  datatype CronCtx = CronCtx(base: Ctx, timers: Timers, foreign: bool)

  function NewCron(drainable: bool): CronCtx {
    CronCtx(New(drainable), Timers(Normal, None, [], []), false)
  }

  // ----- Timers -----

  /** Aborting a timer that has fired has no effect. */
  function Abort(t: Timers): Timers {
    if t.handle.Some? && t.handle.value < |t.all| && t.all[t.handle.value] == Sleeping
    then t.(handle := None, all := t.all[t.handle.value := Aborted])
    else t.(handle := None)
  }

  function PauseTask(t: Timers): Timers {
    Abort(t).(state := Paused, notes := t.notes + [Halted])
  }

  function ResumeTask(t: Timers): Timers {
    Abort(t).(state := Normal, notes := t.notes + [Resumed])
  }

  /** A timer is spawned and the task paused until it fires. */
  function Sleep(t: Timers): Timers {
    Timers(Paused, Some(|t.all|), t.all + [Sleeping], t.notes + [Slept])
  }

  predicate CanFire(t: Timers, k: nat) {
    k < |t.all| && t.all[k] == Sleeping
  }

  function Fire(t: Timers, k: nat): Timers
    requires CanFire(t, k)
  {
    t.(all := t.all[k := Fired])
  }

  // ----- Turns -----

  /** What happens meanwhile: someone sends a message, or a timer sends its signal. */
  datatype Arrival = Sent(msg: Msg) | TimerFires(k: nat)

  datatype CronAction = Do(action: Action) | Pause | Resume | Meanwhile(arrival: Arrival)

  datatype CronHandler = CronHandler(actions: seq<CronAction>, panics: bool)

  /** The task asks to run again at once or after an interval, or it fails. */
  datatype TaskResult = Again | After | TaskFails(error: Error) | TaskPanics

  datatype Task = Task(actions: seq<CronAction>, result: TaskResult)

  /** `closed` says that all senders but the context itself are gone. */
  datatype CronTurn = CronTurn(
    task: Task,
    before: seq<Arrival>,
    closed: bool,
    between: seq<Arrival>,
    handler: CronHandler,
    answer: Answer)

  function Arrive1(c: CronCtx, a: Arrival): CronCtx {
    match a
    case Sent(m) => c.(base := Act(c.base, Arrive(m)))
    case TimerFires(k) =>
      if CanFire(c.timers, k) then c.(base := Act(c.base, Arrive(ResumeSignal(Some(k)))), timers := Fire(c.timers, k)) else c
  }

  function Meanwhiles(arrivals: seq<Arrival>): seq<CronAction>
    decreases arrivals
  {
    if arrivals == [] then [] else [Meanwhile(arrivals[0])] + Meanwhiles(arrivals[1..])
  }

  function CronAct(c: CronCtx, a: CronAction): CronCtx {
    match a
    case Do(action) => c.(base := Act(c.base, action))
    case Pause => c.(timers := PauseTask(c.timers))
    case Resume => c.(timers := ResumeTask(c.timers))
    case Meanwhile(arrival) => Arrive1(c, arrival)
  }

  function CronActs(c: CronCtx, actions: seq<CronAction>): CronCtx
    decreases actions
  {
    if actions == [] then c else CronActs(CronAct(c, actions[0]), actions[1..])
  }

  function EnvironmentOf(actions: seq<CronAction>): seq<CronAction>
    decreases actions
  {
    if actions == [] then []
    else (if actions[0].Meanwhile? then [actions[0]] else []) + EnvironmentOf(actions[1..])
  }

  /** What handling a message does: signals have a fixed handler, whatever arrives meanwhile. */
  function HandlerFor(m: Msg, h: CronHandler): CronHandler {
    match m
    case User(_) => h
    case PauseSignal => CronHandler(EnvironmentOf(h.actions) + [Pause], false)
    case ResumeSignal(_) => CronHandler(EnvironmentOf(h.actions) + [Resume], false)
  }

  /** Takes the next message and measures the queue behind it. */
  function CronBegin(c: CronCtx, between: seq<Arrival>): CronCtx
    requires c.base.box.queue != []
  {
    var c1 := CronActs(c.(base := c.base.(box := Receive(c.base.box))), Meanwhiles(between));
    c1.(base := Measure(c1.base))
  }

  /** A message was handled, or none was there: an error stops the actor. */
  function Conclude(c: Ctx, result: Option<Error>, answer: Answer): Ctx {
    Settle(if result.Some? && c.state == Running then SetState(c, Stopping) else c, result, answer)
  }

  function ConcludeSaved(c: Ctx, answer: Answer): Ctx {
    Conclude(TakeError(c), c.errors.saved, answer)
  }

  /** The part of a turn after the task; `wait` says whether to wait for a message. */
  function CronReceive(c: CronCtx, t: CronTurn, wait: bool): CronCtx {
    var c1 := CronActs(c, Meanwhiles(t.before));
    if c1.base.box.queue == [] then
      c1.(base := if t.closed && c1.foreign then ConcludeSaved(SetState(c1.base, Stopped), t.answer)
                  else if wait then c1.base.(end := Blocked)
                  else ConcludeSaved(c1.base, t.answer))
    else
      var h := HandlerFor(c1.base.box.queue[0], t.handler);
      var c2 := CronActs(CronBegin(c1, t.between), h.actions);
      c2.(base := if h.panics then c2.base.(end := Crashed) else ConcludeSaved(Apply(c2.base), t.answer))
  }

  /** An error that is returned without being saved. */
  function Raise(c: Ctx, e: Error): Ctx {
    c.(errors := c.errors.(raised := c.errors.raised + [e]))
  }

  function RunTask(c: CronCtx, task: Task): CronCtx {
    CronActs(c.(timers := c.timers.(notes := c.timers.notes + [Ran])), task.actions)
  }

  /** One turn of `CronContext::run_loop`. */
  function TakeCronTurn(c: CronCtx, t: CronTurn): CronCtx {
    if c.timers.state == Paused then CronReceive(c, t, true)
    else
      var c1 := RunTask(c, t.task);
      match t.task.result
      case TaskPanics => c1.(base := c1.base.(end := Crashed))
      case TaskFails(e) => c1.(base := Conclude(Raise(c1.base, e), Some(e), t.answer))
      case Again => CronReceive(c1, t, false)
      case After => CronReceive(c1.(timers := Sleep(c1.timers)), t, true)
  }

  function CronLoop(c: CronCtx, turns: seq<CronTurn>): CronCtx
    decreases turns
  {
    if turns == [] || c.base.end != Open || c.base.state != Running then c else CronLoop(TakeCronTurn(c, turns[0]), turns[1..])
  }

  datatype CronLife = CronLife(start: Hook, turns: seq<CronTurn>, post: Hook)

  function CronStart(drainable: bool, start: Hook): CronCtx {
    var c := NewCron(drainable);
    c.(base := Start(SetState(c.base, Starting), start))
  }

  /** The life of a cron actor whose `pre_start` succeeded. */
  function LiveCron(drainable: bool, life: CronLife): CronCtx {
    var c := CronStart(drainable, life.start);
    if life.start != Fine then c
    else
      var d := CronLoop(c, life.turns);
      d.(base := FinishIfEnded(d.base, life.post))
  }
}
