/**
 What a cron actor does, turn by turn: when its task runs and sleeps, what signals do, and what a
 turn comes to.
 */
module CronEffects {
  import opened Wire
  import opened Lifecycle
  import opened LifecycleRuns
  import opened LifecycleEffects
  import opened Cron
  import opened CronRuns

  // ----- Pausing and resuming -----

  /** The task is paused or resumed, no timer is stored, and the one that was stored will not send
      its signal any more; other timers are as they were. */
  ghost predicate Switched(t: Timers, u: Timers, state: CronState) {
    && u.state == state && u.handle == None && |u.all| == |t.all|
    && (forall k :: 0 <= k < |t.all| ==>
          if t.handle == Some(k) then u.all[k] != Sleeping && (t.all[k] != Sleeping ==> u.all[k] == t.all[k])
          else u.all[k] == t.all[k])
  }

  lemma {:induction false} SwitchEffect(t: Timers)
    ensures Switched(t, PauseTask(t), Paused) && Switched(t, ResumeTask(t), Normal)
  {
  }

  lemma {:induction false} CronActsLast(c: CronCtx, xs: seq<CronAction>, a: CronAction)
    ensures CronActs(c, xs + [a]) == CronAct(CronActs(c, xs), a)
    decreases xs
  {
    hide CronAct;
    if xs == [] {
      assert xs + [a] == [a] && [a][1..] == [];
    } else {
      assert (xs + [a])[1..] == xs[1..] + [a];
      CronActsLast(CronAct(c, xs[0]), xs[1..], a);
    }
  }

  /** What arrives while a signal is handled changes neither the state of the task nor its stored
      timer, but for letting timers fire. */
  lemma {:induction false} EnvironmentTimers(c: CronCtx, actions: seq<CronAction>)
    ensures var t, u := c.timers, CronActs(c, EnvironmentOf(actions)).timers;
            && u.state == t.state && u.handle == t.handle && u.notes == t.notes && |u.all| == |t.all|
            && forall k :: 0 <= k < |t.all| ==> u.all[k] == t.all[k] || (t.all[k] == Sleeping && u.all[k] == Fired)
    decreases actions
  {
    if actions == [] {
    } else if actions[0].Meanwhile? {
      var rest := EnvironmentOf(actions[1..]);
      assert EnvironmentOf(actions) == [actions[0]] + rest && ([actions[0]] + rest)[1..] == rest;
      EnvironmentTimers(CronAct(c, actions[0]), actions[1..]);
    } else {
      assert EnvironmentOf(actions) == EnvironmentOf(actions[1..]);
      EnvironmentTimers(c, actions[1..]);
    }
  }

  lemma {:induction false} MeanwhileTimers(c: CronCtx, arrivals: seq<Arrival>)
    ensures var t, u := c.timers, CronActs(c, Meanwhiles(arrivals)).timers;
            && u.state == t.state && u.handle == t.handle && u.notes == t.notes && |u.all| == |t.all|
            && forall k :: 0 <= k < |t.all| ==> u.all[k] == t.all[k] || (t.all[k] == Sleeping && u.all[k] == Fired)
    decreases arrivals
  {
    if arrivals != [] {
      assert Meanwhiles(arrivals)[1..] == Meanwhiles(arrivals[1..]);
      MeanwhileTimers(CronAct(c, Meanwhile(arrivals[0])), arrivals[1..]);
    }
  }

  /** A turn that takes a signal to resume ends with the task resumed and no timer stored; one that
      takes a signal to pause ends with it paused, and the timer that was stored does not sleep
      any more. */
  lemma {:induction false} SignalEffect(c: CronCtx, t: CronTurn, wait: bool)
    requires CronActs(c, Meanwhiles(t.before)).base.box.queue != []
    ensures var m, u := CronActs(c, Meanwhiles(t.before)).base.box.queue[0], CronReceive(c, t, wait).timers;
            && (m.ResumeSignal? ==> u.state == Normal && u.handle == None)
            && (m.PauseSignal? ==> u.state == Paused && u.handle == None)
            && (m.ResumeSignal? || m.PauseSignal? ==>
                  |u.all| == |c.timers.all| &&
                  forall k :: 0 <= k < |c.timers.all| ==>
                    && (c.timers.handle == Some(k) ==> u.all[k] != Sleeping)
                    && (c.timers.handle != Some(k) ==> u.all[k] == c.timers.all[k] || (c.timers.all[k] == Sleeping && u.all[k] == Fired)))
  {
    hide CronActs, Apply, ConcludeSaved, PauseTask, ResumeTask, EnvironmentOf;
    MeanwhileTimers(c, t.before);
    var c1 := CronActs(c, Meanwhiles(t.before));
    MeanwhileTimers(c1.(base := c1.base.(box := Receive(c1.base.box))), t.between);
    var b := CronBegin(c1, t.between);
    EnvironmentTimers(b, t.handler.actions);
    var x := CronActs(b, EnvironmentOf(t.handler.actions));
    SwitchEffect(x.timers);
    CronActsLast(b, EnvironmentOf(t.handler.actions), Pause);
    CronActsLast(b, EnvironmentOf(t.handler.actions), Resume);
  }

  // ----- When the task runs -----

  ghost predicate IsPrefix(x: seq<Note>, y: seq<Note>) {
    |x| <= |y| && y[..|x|] == x
  }

  lemma {:induction false} NotesGrow(c: CronCtx, actions: seq<CronAction>)
    ensures IsPrefix(c.timers.notes, CronActs(c, actions).timers.notes)
    decreases actions
  {
    if actions != [] {
      var d := CronAct(c, actions[0]);
      assert IsPrefix(c.timers.notes, d.timers.notes);
      NotesGrow(d, actions[1..]);
    }
  }

  lemma {:induction false} ReceiveNotes(c: CronCtx, t: CronTurn, wait: bool)
    ensures IsPrefix(c.timers.notes, CronReceive(c, t, wait).timers.notes)
  {
    hide CronActs, Apply, ConcludeSaved, HandlerFor;
    NotesGrow(c, Meanwhiles(t.before));
    var c1 := CronActs(c, Meanwhiles(t.before));
    if c1.base.box.queue != [] {
      var c2 := c1.(base := c1.base.(box := Receive(c1.base.box)));
      NotesGrow(c2, Meanwhiles(t.between));
      NotesGrow(CronBegin(c1, t.between), HandlerFor(c1.base.box.queue[0], t.handler).actions);
    }
  }

  /** A task does what it does in order: it calls methods of any context, it pauses or resumes
      itself, and messages arrive meanwhile. */
  lemma {:induction false} TaskInTurn(c: CronCtx, xs: seq<CronAction>, a: CronAction, r: TaskResult)
    ensures RunTask(c, Task([], r)) == c.(timers := c.timers.(notes := c.timers.notes + [Ran]))
    ensures var d, e := RunTask(c, Task(xs, r)), RunTask(c, Task(xs + [a], r));
            match a
            case Do(action) => e.base == Act(d.base, action) && e.timers == d.timers
            case Pause => e.base == d.base && Switched(d.timers, e.timers, Paused)
            case Resume => e.base == d.base && Switched(d.timers, e.timers, Normal)
            case Meanwhile(Sent(m)) => e.base.box.queue == d.base.box.queue + [m] && e.timers == d.timers
            case Meanwhile(TimerFires(_)) => e.timers.state == d.timers.state && e.timers.handle == d.timers.handle
  {
    hide CronActs, Act, PauseTask, ResumeTask;
    var c0 := c.(timers := c.timers.(notes := c.timers.notes + [Ran]));
    NoActs(c0);
    CronActsLast(c0, xs, a);
    SwitchEffect(RunTask(c, Task(xs, r)).timers);
    if a.Meanwhile? && a.arrival.Sent? { ArriveEnqueues(RunTask(c, Task(xs, r)).base, a.arrival.msg); }
  }

  lemma {:induction false} ArriveEnqueues(c: Ctx, m: Msg)
    ensures Act(c, Arrive(m)).box.queue == c.box.queue + [m]
  {
  }

  /** The task runs first in a turn exactly if it is not paused, and before the turn looks for a
      message it sleeps exactly if the task asked for an interval. */
  lemma {:induction false} TaskRunsFirst(c: CronCtx, t: CronTurn)
    ensures var notes := TakeCronTurn(c, t).timers.notes;
            if c.timers.state == Paused then TakeCronTurn(c, t) == CronReceive(c, t, true)
            else
              && IsPrefix(c.timers.notes + [Ran], notes)
              && (t.task.result.After? ==> IsPrefix(RunTask(c, t.task).timers.notes + [Slept], notes))
              && (t.task.result.TaskFails? || t.task.result.TaskPanics? ==> notes == RunTask(c, t.task).timers.notes)
  {
    hide CronActs, CronReceive, Conclude;
    var c0 := c.(timers := c.timers.(notes := c.timers.notes + [Ran]));
    NotesGrow(c0, t.task.actions);
    var c1 := RunTask(c, t.task);
    ReceiveNotes(c1, t, false);
    ReceiveNotes(c1.(timers := Sleep(c1.timers)), t, true);
  }

  /** Without a message, a task that asked to run again at once goes on to its next turn, one that
      asked for an interval waits, with a timer of its own asleep, and a paused one waits. */
  lemma {:induction false} AgainOrAfter(c: CronCtx, t: CronTurn)
    requires c.base.state == Running && c.base.end == Open && c.base.box.queue == [] && c.base.errors.saved.None?
    requires t.task.actions == [] && t.before == [] && !(t.closed && c.foreign)
    ensures var d := TakeCronTurn(c, t);
            if c.timers.state == Paused then d == c.(base := c.base.(end := Blocked))
            else match t.task.result
              case Again => d.base == c.base && d.timers == c.timers.(notes := c.timers.notes + [Ran])
              case After =>
                && d.base.end == Blocked && d.timers.state == Paused
                && d.timers.handle == Some(|c.timers.all|) && d.timers.all == c.timers.all + [Sleeping]
              case TaskFails(e) =>
                GoesOn(c.base.(errors := c.base.errors.(raised := c.base.errors.raised + [e])), d.base, Some(e), t.answer)
              case TaskPanics => d.base.end == Crashed
  {
    hide CronBegin, HandlerFor, Apply;
    assert Meanwhiles([]) == [];
    assert CronActs(c, []) == c;
  }

  // ----- What a turn comes to -----

  lemma {:induction false} ConcludeGoesOn(h: Ctx, result: Option<Error>, answer: Answer)
    requires Loops(h.state) && h.end == Open && h.errors.saved == None
    ensures GoesOn(h, Conclude(h, result, answer), result, answer)
  {
  }

  lemma {:induction false} ConcludeSavedGoesOn(h: Ctx, answer: Answer)
    requires Loops(h.state) && h.end == Open
    ensures GoesOn(h, ConcludeSaved(h, answer), h.errors.saved, answer)
  {
    hide Settle;
    ConcludeGoesOn(TakeError(h), h.errors.saved, answer);
  }

  /** A turn that takes a message: it is the first one waiting, and the loop goes on from what its
      handler left, after the drain, with the saved error. */
  lemma {:induction false} CronTurnGoesOn(c: CronCtx, t: CronTurn, wait: bool)
    requires Loops(c.base.state) && c.base.end == Open
    requires CronActs(c, Meanwhiles(t.before)).base.box.queue != []
    ensures var c1, d := CronActs(c, Meanwhiles(t.before)), CronReceive(c, t, wait);
            var h := HandlerFor(c1.base.box.queue[0], t.handler);
            var x := CronActs(CronBegin(c1, t.between), h.actions);
            && c1.base.box.queue == c.base.box.queue + Arrivals(Lower(c, Meanwhiles(t.before)))
            && d.timers == x.timers
            && (if h.panics then d.base.end == Crashed else GoesOn(Apply(x.base), d.base, x.base.errors.saved, t.answer))
  {
    hide CronActs, Lower, Acts, Discard, ConcludeSaved, HandlerFor, GoesOn, CronBegin;
    BaseOfActs(c, Meanwhiles(t.before));
    ActsBox(c.base, Lower(c, Meanwhiles(t.before)));
    ActsLoop(c.base, Lower(c, Meanwhiles(t.before)));
    CronActsEnd(c, Meanwhiles(t.before));
    var c1 := CronActs(c, Meanwhiles(t.before));
    CronBeginKeeps(c1, t.between);
    var b, h := CronBegin(c1, t.between), HandlerFor(c1.base.box.queue[0], t.handler);
    BaseOfActs(b, h.actions);
    ActsLoop(b.base, Lower(b, h.actions));
    CronActsEnd(b, h.actions);
    var x := CronActs(b, h.actions);
    ApplyLeaves(x.base);
    ConcludeSavedGoesOn(Apply(x.base), t.answer);
  }

  lemma {:induction false} CronBeginKeeps(c: CronCtx, between: seq<Arrival>)
    requires c.base.box.queue != [] && Loops(c.base.state)
    ensures CronBegin(c, between).base.end == c.base.end && Loops(CronBegin(c, between).base.state)
    ensures CronBegin(c, between).base.box.taken == c.base.box.taken + [Dispatched(c.base.box.queue[0])]
    ensures var popped := c.(base := c.base.(box := Receive(c.base.box)));
            && CronBegin(c, between).base.box.queue == c.base.box.queue[1..] + Arrivals(Lower(popped, Meanwhiles(between)))
            && (c.base.drain.drainable ==> CronBegin(c, between).base.drain.len == |CronBegin(c, between).base.box.queue|)
  {
    hide CronActs, Lower, Acts;
    var c1 := c.(base := c.base.(box := Receive(c.base.box)));
    BaseOfActs(c1, Meanwhiles(between));
    ActsBox(c1.base, Lower(c1, Meanwhiles(between)));
    ActsLoop(c1.base, Lower(c1, Meanwhiles(between)));
    CronActsEnd(c1, Meanwhiles(between));
  }

  /** After a handled signal of its timer, the task runs first in the next turn of the actor. */
  lemma {:induction false} SignalWakesTask(c: CronCtx, t: CronTurn, next: CronTurn)
    requires c.timers.state == Paused && CronActs(c, Meanwhiles(t.before)).base.box.queue != []
    requires CronActs(c, Meanwhiles(t.before)).base.box.queue[0].ResumeSignal?
    ensures var d := TakeCronTurn(c, t);
            && d.timers.state == Normal && d.timers.handle == None
            && IsPrefix(d.timers.notes + [Ran], TakeCronTurn(d, next).timers.notes)
  {
    hide CronActs, CronReceive, Conclude, RunTask;
    SignalEffect(c, t, true);
    TaskRunsFirst(c, t);
    TaskRunsFirst(TakeCronTurn(c, t), next);
  }

  /** A loop takes its turns one by one while the actor runs. */
  lemma {:induction false} CronLoopInTurn(c: CronCtx, ts: seq<CronTurn>, t: CronTurn)
    ensures var d := CronLoop(c, ts);
            CronLoop(c, ts + [t]) == if d.base.end == Open && d.base.state == Running then TakeCronTurn(d, t) else d
    ensures CronLoop(c, []) == c
    decreases ts
  {
    hide TakeCronTurn;
    if ts == [] {
      assert ts + [t] == [t] && [t][1..] == [];
    } else {
      assert (ts + [t])[1..] == ts[1..] + [t];
      if c.base.end == Open && c.base.state == Running { CronLoopInTurn(TakeCronTurn(c, ts[0]), ts[1..], t); }
    }
  }

  /** The whole record of a cron life: what its start and its end add to the record of its loop. */
  lemma {:induction false} CronLifeRecord(drainable: bool, life: CronLife)
    ensures var c, l := LiveCron(drainable, life).base, CronLoopOf(drainable, life).base;
            match life.start
            case Fails(e) => c.trace == [State(Starting), State(Stopped), Terminated(Some(e))]
            case Panics => c.trace == [State(Starting), State(Stopped), Panicked]
            case Fine =>
              if !Ended(l.end) then c == l
              else if l.end == Crashed then c.trace == l.trace + StoppedEntry(l) + [Panicked]
              else
                c.trace == l.trace + StoppedEntry(l) + [PostStopCalled] + [
                  match life.post
                  case Panics => Panicked
                  case Fails(e) => Terminated(First(LoopError(l.end), Some(e)))
                  case Fine => Terminated(LoopError(l.end))]
  {
    hide CronLoop;
    var l := CronLoopOf(drainable, life).base;
    assert l.trace + [] == l.trace;
  }

  // ----- What arrives -----

  lemma {:induction false} MeanwhilesMore(xs: seq<Arrival>, a: Arrival)
    ensures Meanwhiles(xs + [a]) == Meanwhiles(xs) + [Meanwhile(a)]
    decreases xs
  {
    if xs == [] {
      assert xs + [a] == [a] && [a][1..] == [];
    } else {
      assert (xs + [a])[1..] == xs[1..] + [a];
      MeanwhilesMore(xs[1..], a);
    }
  }

  /** Arrivals happen one after the other: a message is enqueued, and a timer that sleeps fires and
      enqueues its signal. */
  lemma {:induction false} ArrivalInTurn(c: CronCtx, xs: seq<Arrival>, a: Arrival)
    ensures CronActs(c, Meanwhiles([])) == c
    ensures var d, e := CronActs(c, Meanwhiles(xs)), CronActs(c, Meanwhiles(xs + [a]));
            match a
            case Sent(m) => e.base.box.queue == d.base.box.queue + [m] && e.base.box.sent == d.base.box.sent + [m] && e.timers == d.timers
            case TimerFires(k) =>
              if k < |d.timers.all| && d.timers.all[k] == Sleeping then
                e.base.box.queue == d.base.box.queue + [ResumeSignal(Some(k))] && e.timers.all == d.timers.all[k := Fired]
              else e == d
  {
    hide CronActs;
    MeanwhilesMore(xs, a);
    CronActsLast(c, Meanwhiles(xs), Meanwhile(a));
    assert CronActs(c, Meanwhiles([])) == c by { NoActs(c); }
  }

  lemma {:induction false} NoActs(c: CronCtx)
    ensures Meanwhiles([]) == [] && CronActs(c, []) == c
  {
  }

  /** What arrives while a handler runs, in order. */
  function Heard(actions: seq<CronAction>): seq<Arrival>
    decreases actions
  {
    if actions == [] then []
    else match actions[|actions| - 1]
      case Meanwhile(a) => Heard(actions[..|actions| - 1]) + [a]
      case _ => Heard(actions[..|actions| - 1])
  }

  /** The handler of a signal hears all that arrives meanwhile, and then only pauses or resumes; a
      user message gets the handler of the script. */
  lemma {:induction false} SignalHears(h: CronHandler, id: nat, k: Option<nat>)
    ensures HandlerFor(User(id), h) == h
    ensures HandlerFor(PauseSignal, h) == CronHandler(Meanwhiles(Heard(h.actions)) + [Pause], false)
    ensures HandlerFor(ResumeSignal(k), h) == CronHandler(Meanwhiles(Heard(h.actions)) + [Resume], false)
  {
    hide EnvironmentOf, Meanwhiles, Heard;
    EnvironmentHeard(h.actions);
  }

  lemma {:induction false} EnvironmentHeard(actions: seq<CronAction>)
    ensures EnvironmentOf(actions) == Meanwhiles(Heard(actions))
    decreases actions
  {
    if actions != [] {
      var n := |actions| - 1;
      EnvironmentHeard(actions[..n]);
      EnvironmentLast(actions[..n], actions[n]);
      assert actions == actions[..n] + [actions[n]];
      if actions[n].Meanwhile? { MeanwhilesMore(Heard(actions[..n]), actions[n].arrival); }
    }
  }

  lemma {:induction false} EnvironmentLast(xs: seq<CronAction>, a: CronAction)
    ensures EnvironmentOf(xs + [a]) == EnvironmentOf(xs) + (if a.Meanwhile? then [a] else [])
    decreases xs
  {
    if xs == [] {
      assert xs + [a] == [a] && [a][1..] == [];
    } else {
      assert (xs + [a])[1..] == xs[1..] + [a] && (xs + [a])[0] == xs[0];
      EnvironmentLast(xs[1..], a);
      var head := if xs[0].Meanwhile? then [xs[0]] else [];
      var last := if a.Meanwhile? then [a] else [];
      assert head + (EnvironmentOf(xs[1..]) + last) == head + EnvironmentOf(xs[1..]) + last;
    }
  }

  /** A foreign mailbox that is found empty and closed stops the actor, with the saved error. */
  lemma {:induction false} ForeignClosed(c: CronCtx, t: CronTurn, wait: bool)
    requires t.closed && c.foreign && t.before == [] && c.base.box.queue == []
    ensures var d := CronReceive(c, t, wait).base;
            d.end == Returned(c.base.errors.saved) && d.state == Stopped && d.trace == c.base.trace + [State(Stopped)]
  {
    hide CronBegin, HandlerFor, Apply;
    NoActs(c);
  }
}
