/**
 The cron context in its own form. What it shares with the default context is kept in one; the
 state of the task and the handle of its timer are its own.
 */
module CronActor {
  import opened Wire
  import opened Lifecycle
  import opened Cron
  import opened ContextActor

  class CronContext {
    const base: Context
    const foreign: bool
    var cronState: CronState
    var cronJoinHandle: Option<nat>
    var timers: seq<Timer>
    ghost var notes: seq<Note>

    ghost function Snapshot(): CronCtx
      reads this, base
    {
      CronCtx(base.Snapshot(), Timers(cronState, cronJoinHandle, timers, notes), foreign)
    }

    /** A drain is requested only of a context that can drain. */
    ghost predicate Ok()
      reads this, base
    {
      !base.drainable ==> !base.requested
    }

    /** A context for its own mailbox, or for a loop on a foreign one. */
    constructor (drainable: bool, foreign: bool)
      ensures fresh(base) && base.drainable == drainable && Ok()
      ensures Snapshot() == NewCron(drainable).(foreign := foreign)
    {
      this.foreign := foreign;
      base := new Context(drainable);
      cronState, cronJoinHandle, timers, notes := Normal, None, [], [];
    }

    method AbortTimer()
      modifies this`cronJoinHandle, this`timers
      ensures Snapshot().timers == Abort(old(Snapshot()).timers)
    {
      if cronJoinHandle.Some? {
        var k := cronJoinHandle.value;
        cronJoinHandle := None;
        if k < |timers| && timers[k] == Sleeping { timers := timers[k := Aborted]; }
      }
    }

    method PauseTask()
      modifies this
      ensures Snapshot().timers == Cron.PauseTask(old(Snapshot()).timers)
    {
      AbortTimer();
      cronState, notes := Paused, notes + [Halted];
    }

    method ResumeTask()
      modifies this
      ensures Snapshot().timers == Cron.ResumeTask(old(Snapshot()).timers)
    {
      AbortTimer();
      cronState, notes := Normal, notes + [Resumed];
    }

    /** Pauses the task and spawns the timer that will resume it. */
    method SpawnTimer()
      modifies this
      ensures Snapshot().timers == Sleep(old(Snapshot()).timers)
    {
      cronState := Paused;
      cronJoinHandle := Some(|timers|);
      timers, notes := timers + [Sleeping], notes + [Slept];
    }

    /** What happens meanwhile. */
    method Arrival(a: Cron.Arrival)
      requires Ok()
      modifies this`timers, base`queue, base`sent
      ensures Snapshot() == Arrive1(old(Snapshot()), a) && Ok() && |base.queue| >= |old(base.queue)|
    {
      match a
      case Sent(m) => base.Deliver([m]);
      case TimerFires(k) =>
        if k < |timers| && timers[k] == Sleeping {
          timers := timers[k := Fired];
          base.Deliver([ResumeSignal(Some(k))]);
        }
    }

    method Perform(a: CronAction)
      requires Ok()
      modifies this, base`state, base`trace, base`error, base`raised, base`requested, base`queue, base`sent
      ensures Snapshot() == CronAct(old(Snapshot()), a) && Ok() && |base.queue| >= |old(base.queue)|
    {
      match a
      case Do(action) => base.Perform(action);
      case Pause => PauseTask();
      case Resume => ResumeTask();
      case Meanwhile(arrival) => Arrival(arrival);
    }

    method PerformAll(actions: seq<CronAction>)
      requires Ok()
      modifies this, base`state, base`trace, base`error, base`raised, base`requested, base`queue, base`sent
      ensures Snapshot() == CronActs(old(Snapshot()), actions) && Ok() && |base.queue| >= |old(base.queue)|
    {
      var i := 0;
      while i < |actions|
        invariant 0 <= i <= |actions| && Ok() && |base.queue| >= |old(base.queue)|
        invariant CronActs(Snapshot(), actions[i..]) == CronActs(old(Snapshot()), actions)
      {
        hide CronAct;
        OneCronAction(Snapshot(), actions, i);
        Perform(actions[i]);
        i := i + 1;
      }
    }

    /** Takes the next message off the mailbox and measures what is queued behind it. */
    method Recv(between: seq<Cron.Arrival>) returns (m: Msg)
      requires base.queue != [] && Ok()
      modifies this, base
      ensures m == old(base.queue)[0] && Ok() && (base.drainable ==> base.mailboxLen == |base.queue|)
      ensures Snapshot() == CronBegin(old(Snapshot()), between)
    {
      hide CronActs;
      m := base.queue[0];
      base.queue, base.taken := base.queue[1..], base.taken + [Dispatched(m)];
      PerformAll(Meanwhiles(between));
      if base.drainable { base.mailboxLen := |base.queue|; }
    }

    /** An error of the turn stops the actor, and a stopping actor is asked what to do. */
    method Conclude(result: Option<Error>, answer: Answer) returns (r: LoopResult)
      requires base.end == Open
      modifies base`state, base`trace, base`end
      ensures base.Snapshot() == Cron.Conclude(old(base.Snapshot()), result, answer)
      ensures r == ResultOf(base.end)
    {
      hide Settle;
      if result.Some? && base.state == Running { base.SetState(Stopping); }
      r := base.Resolve(result, answer);
    }

    method ConcludeSaved(answer: Answer) returns (r: LoopResult)
      requires base.end == Open
      modifies base`state, base`trace, base`end, base`error
      ensures base.Snapshot() == Cron.ConcludeSaved(old(base.Snapshot()), answer)
      ensures r == ResultOf(base.end)
    {
      hide Cron.Conclude;
      var result := base.TakeError();
      r := Conclude(result, answer);
    }

    /** Takes a message and runs its handler; says whether the handler panicked. */
    method Process(t: CronTurn) returns (panicked: bool)
      requires base.queue != [] && base.end == Open && Ok()
      modifies this, base
      ensures Ok() && panicked == HandlerFor(old(base.queue)[0], t.handler).panics
      ensures var c := CronActs(CronBegin(old(Snapshot()), t.between), HandlerFor(old(base.queue)[0], t.handler).actions);
              Snapshot() == if panicked then c.(base := c.base.(end := Crashed)) else c.(base := Apply(c.base))
    {
      hide CronActs, CronBegin, Discard, HandlerFor;
      var m := Recv(t.between);
      var h := HandlerFor(m, t.handler);
      PerformAll(h.actions);
      panicked := h.panics;
      if panicked {
        base.end := Crashed;
      } else {
        base.ApplyDrain();
      }
    }

    /** The part of a turn after the task: wait for a message, or look for one. */
    method Receive(t: CronTurn, wait: bool) returns (r: LoopResult)
      requires base.end == Open && Ok()
      modifies this, base
      ensures Snapshot() == CronReceive(old(Snapshot()), t, wait) && Ok()
      ensures r == ResultOf(base.end)
    {
      hide CronActs, CronBegin, Apply, Cron.ConcludeSaved, HandlerFor;
      PerformAll(Meanwhiles(t.before));
      EndKept(old(Snapshot()), Meanwhiles(t.before));
      if base.queue == [] {
        if t.closed && foreign {
          base.SetState(Stopped);
        } else if wait {
          base.end := Blocked;
          return Waiting;
        }
      } else {
        ghost var c := Snapshot();
        var panicked := Process(t);
        HandledEnd(c, t);
        if panicked { return Unwound; }
      }
      r := ConcludeSaved(t.answer);
    }

    /** One turn: the task, if it is due, and one message. */
    method TakeTurn(t: CronTurn) returns (r: LoopResult)
      requires base.end == Open && Ok()
      modifies this, base
      ensures Snapshot() == TakeCronTurn(old(Snapshot()), t) && Ok()
      ensures r == ResultOf(base.end)
    {
      hide CronActs, CronReceive, Cron.Conclude;
      if cronState == Paused {
        r := Receive(t, true);
        return;
      }
      notes := notes + [Ran];
      ghost var c := Snapshot();
      PerformAll(t.task.actions);
      EndKept(c, t.task.actions);
      match t.task.result
      case TaskPanics =>
        base.end := Crashed;
        r := Unwound;
      case TaskFails(e) =>
        base.raised := base.raised + [e];
        r := Conclude(Some(e), t.answer);
      case Again => r := Receive(t, false);
      case After =>
        SpawnTimer();
        r := Receive(t, true);
    }

    /** The loop, as far as the script goes. */
    method RunLoop(turns: seq<CronTurn>) returns (r: LoopResult)
      requires base.state == Running && base.end == Open && Ok()
      modifies this, base
      ensures Snapshot() == CronLoop(old(Snapshot()), turns) && r == ResultOf(base.end)
    {
      hide TakeCronTurn;
      r := Going;
      var i := 0;
      while i < |turns| && r == Going && base.state == Running
        invariant 0 <= i <= |turns| && r == ResultOf(base.end) && Ok()
        invariant CronLoop(Snapshot(), turns[i..]) == CronLoop(old(Snapshot()), turns)
      {
        OneCronTurn(Snapshot(), turns, i);
        r := TakeTurn(turns[i]);
        i := i + 1;
      }
    }

    /** Spawns an actor on this fresh context: if `pre_start` fails, nothing happens. */
    method Spawn(pre: Hook, life: CronLife) returns (spawned: bool)
      requires Snapshot() == NewCron(base.drainable)
      modifies this, base
      ensures spawned == (pre == Fine)
      ensures Snapshot() == if spawned then LiveCron(base.drainable, life) else NewCron(base.drainable)
    {
      hide CronLoop, Finish;
      if pre != Fine { return false; }
      base.SetState(Starting);
      var ok := base.BeginRun(life.start);
      if ok {
        var r := RunLoop(life.turns);
        if r.Done? || r.Unwound? { base.End(r, life.post); }
      }
      return true;
    }
  }

  /** What handlers and arrivals do does not end the loop by itself. */
  lemma {:induction false} EndKept(c: CronCtx, actions: seq<CronAction>)
    ensures CronActs(c, actions).base.end == c.base.end
    decreases actions
  {
    if actions != [] { EndKept(CronAct(c, actions[0]), actions[1..]); }
  }

  lemma {:induction false} HandledEnd(c: CronCtx, t: CronTurn)
    requires c.base.box.queue != []
    ensures var h := HandlerFor(c.base.box.queue[0], t.handler);
            Apply(CronActs(CronBegin(c, t.between), h.actions).base).end == c.base.end
  {
    hide CronActs, Discard;
    var h := HandlerFor(c.base.box.queue[0], t.handler);
    EndKept(c.(base := c.base.(box := Lifecycle.Receive(c.base.box))), Meanwhiles(t.between));
    EndKept(CronBegin(c, t.between), h.actions);
  }

  lemma {:induction false} OneCronAction(c: CronCtx, actions: seq<CronAction>, i: nat)
    requires i < |actions|
    ensures CronActs(c, actions[i..]) == CronActs(CronAct(c, actions[i]), actions[i + 1..])
  {
    assert actions[i..][1..] == actions[i + 1..];
  }

  lemma {:induction false} OneCronTurn(c: CronCtx, turns: seq<CronTurn>, i: nat)
    requires i < |turns| && c.base.end == Open && c.base.state == Running
    ensures CronLoop(c, turns[i..]) == CronLoop(TakeCronTurn(c, turns[i]), turns[i + 1..])
  {
    assert turns[i..][1..] == turns[i + 1..];
  }
}
