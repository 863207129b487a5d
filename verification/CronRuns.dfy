/**
 What holds of every life of a cron actor: its timers, and what holds of every life.
 */
module CronRuns {
  import opened Wire
  import opened Lifecycle
  import opened LifecycleRuns
  import opened Cron

  // ----- A cron turn acts on its context like an ordinary one -----

  /** What one action does to the plain context. */
  function LowerOne(c: CronCtx, a: CronAction): seq<Action> {
    match a
    case Do(action) => [action]
    case Meanwhile(Sent(m)) => [Arrive(m)]
    case Meanwhile(TimerFires(k)) => if CanFire(c.timers, k) then [Arrive(ResumeSignal(Some(k)))] else []
    case _ => []
  }

  function Lower(c: CronCtx, actions: seq<CronAction>): seq<Action>
    decreases actions
  {
    if actions == [] then [] else LowerOne(c, actions[0]) + Lower(CronAct(c, actions[0]), actions[1..])
  }

  lemma {:induction false} ActsTwice(c: Ctx, x: seq<Action>, y: seq<Action>)
    ensures Acts(Acts(c, x), y) == Acts(c, x + y)
    decreases x
  {
    if x == [] {
      assert x + y == y;
    } else {
      assert (x + y)[1..] == x[1..] + y;
      ActsTwice(Act(c, x[0]), x[1..], y);
    }
  }

  lemma {:induction false} BaseOfActs(c: CronCtx, actions: seq<CronAction>)
    ensures CronActs(c, actions).base == Acts(c.base, Lower(c, actions))
    decreases actions
  {
    hide Act, Acts;
    ActsOne(c.base, LowerOne(c, if actions == [] then Pause else actions[0]));
    if actions == [] {
      ActsOne(c.base, []);
    } else {
      var d := CronAct(c, actions[0]);
      BaseOfActs(d, actions[1..]);
      ActsTwice(c.base, LowerOne(c, actions[0]), Lower(d, actions[1..]));
    }
  }

  lemma {:induction false} ActsOne(c: Ctx, actions: seq<Action>)
    requires |actions| <= 1
    ensures Acts(c, actions) == if actions == [] then c else Act(c, actions[0])
  {
  }

  /** How often a handler or a task calls `stop` or `terminate`, and `save_error`. */
  function CronStops(actions: seq<CronAction>): nat
    decreases actions
  {
    if actions == [] then 0
    else (if actions[0] == Do(Stop) || actions[0] == Do(Terminate) then 1 else 0) + CronStops(actions[1..])
  }

  function CronSaves(actions: seq<CronAction>): nat
    decreases actions
  {
    if actions == [] then 0
    else (if actions[0].Do? && actions[0].action.Save? then 1 else 0) + CronSaves(actions[1..])
  }

  lemma {:induction false} LowerCounts(c: CronCtx, actions: seq<CronAction>)
    ensures Stops(Lower(c, actions)) == CronStops(actions)
    ensures Saves(Lower(c, actions)) == CronSaves(actions)
    decreases actions
  {
    if actions != [] {
      var x, y := LowerOne(c, actions[0]), Lower(CronAct(c, actions[0]), actions[1..]);
      LowerCounts(CronAct(c, actions[0]), actions[1..]);
      if x == [] {
        assert x + y == y;
      } else {
        assert (x + y)[1..] == y;
      }
    }
  }

  lemma {:induction false} MeanwhileCounts(arrivals: seq<Arrival>)
    ensures CronStops(Meanwhiles(arrivals)) == 0 && CronSaves(Meanwhiles(arrivals)) == 0
    decreases arrivals
  {
    if arrivals != [] {
      MeanwhileCounts(arrivals[1..]);
      assert Meanwhiles(arrivals)[1..] == Meanwhiles(arrivals[1..]);
    }
  }

  lemma {:induction false} SignalCounts(actions: seq<CronAction>, last: CronAction)
    requires last == Pause || last == Resume
    ensures CronStops(EnvironmentOf(actions) + [last]) == 0 && CronSaves(EnvironmentOf(actions) + [last]) == 0
    decreases actions
  {
    if actions == [] {
      assert ([last])[1..] == [];
      assert EnvironmentOf(actions) + [last] == [last];
    } else {
      SignalCounts(actions[1..], last);
      var rest := EnvironmentOf(actions[1..]) + [last];
      if actions[0].Meanwhile? {
        assert EnvironmentOf(actions) + [last] == [actions[0]] + rest;
        assert ([actions[0]] + rest)[1..] == rest;
      } else {
        assert EnvironmentOf(actions) == EnvironmentOf(actions[1..]);
      }
    }
  }

  /** The handler of a message calls no more than the script says. */
  lemma {:induction false} HandlerCounts(m: Msg, h: CronHandler)
    ensures CronStops(HandlerFor(m, h).actions) <= CronStops(h.actions)
    ensures CronSaves(HandlerFor(m, h).actions) <= CronSaves(h.actions)
  {
    hide CronStops, CronSaves, EnvironmentOf;
    SignalCounts(h.actions, Pause);
    SignalCounts(h.actions, Resume);
  }

  // ----- States and reports -----

  lemma {:induction false} CronActsInOrder(c: CronCtx, actions: seq<CronAction>)
    requires InOrder(c.base)
    requires CronStops(actions) == 0 || (CronStops(actions) == 1 && c.base.state == Running)
    ensures InOrder(CronActs(c, actions).base) && CronActs(c, actions).base.end == c.base.end
    ensures CronStops(actions) == 0 ==> CronActs(c, actions).base.state == c.base.state
  {
    hide InOrder, CronActs, Lower, Acts, Stops;
    BaseOfActs(c, actions);
    LowerCounts(c, actions);
    ActsInOrder(c.base, Lower(c, actions));
    if CronStops(actions) == 0 { ActsState(c.base, Lower(c, actions)); }
  }

  lemma {:induction false} ActsState(c: Ctx, actions: seq<Action>)
    requires Stops(actions) == 0
    ensures Acts(c, actions).state == c.state
    decreases actions
  {
    if actions != [] { ActsState(Act(c, actions[0]), actions[1..]); }
  }

  lemma {:induction false} ConcludeInOrder(c: Ctx, result: Option<Error>, answer: Answer)
    requires InOrder(c)
    ensures InOrder(Conclude(c, result, answer))
    ensures c.end == Open && Conclude(c, result, answer).end == Open ==> Conclude(c, result, answer).state == Running
  {
    hide InOrder, Settle;
    var d := if result.Some? && c.state == Running then SetState(c, Stopping) else c;
    if c.state == Running { SetStateInOrder(c, Stopping); }
    SettleInOrder(d, result, answer);
  }

  lemma {:induction false} ConcludeSavedInOrder(c: Ctx, answer: Answer)
    requires InOrder(c)
    ensures InOrder(ConcludeSaved(c, answer))
    ensures c.end == Open && ConcludeSaved(c, answer).end == Open ==> ConcludeSaved(c, answer).state == Running
  {
    hide InOrder, Conclude;
    SameTrace(c, TakeError(c));
    ConcludeInOrder(TakeError(c), c.errors.saved, answer);
  }

  /** The loop finds its mailbox empty and closed. */
  predicate FindsClosed(c: CronCtx, t: CronTurn) {
    t.closed && c.foreign && CronActs(c, Meanwhiles(t.before)).base.box.queue == []
  }

  lemma {:induction false} ForeignKept(c: CronCtx, actions: seq<CronAction>)
    ensures CronActs(c, actions).foreign == c.foreign
    decreases actions
  {
    if actions != [] { ForeignKept(CronAct(c, actions[0]), actions[1..]); }
  }

  lemma {:induction false} ReceiveInOrder(c: CronCtx, t: CronTurn, wait: bool)
    requires InOrder(c.base) && c.base.end == Open && !(c.base.state == Stopped && FindsClosed(c, t))
    requires CronStops(t.handler.actions) == 0 || (CronStops(t.handler.actions) == 1 && c.base.state == Running)
    ensures var d := CronReceive(c, t, wait).base;
            InOrder(d) && (d.end == Open ==> d.state == Running)
  {
    hide InOrder, CronActs, Discard, ConcludeSaved, CronStops, HandlerFor;
    MeanwhileCounts(t.before);
    CronActsInOrder(c, Meanwhiles(t.before));
    var c1 := CronActs(c, Meanwhiles(t.before));
    if c1.base.box.queue == [] {
      if t.closed && c1.foreign {
        ForeignKept(c, Meanwhiles(t.before));
        StateInOrder(c1.base);
        SetStateInOrder(c1.base, Stopped);
        ConcludeSavedInOrder(SetState(c1.base, Stopped), t.answer);
      }
      ConcludeSavedInOrder(c1.base, t.answer);
      SameTrace(c1.base, c1.base.(end := Blocked));
    } else {
      BeginInOrder(c1, t.between);
      var h := HandlerFor(c1.base.box.queue[0], t.handler);
      HandlerCounts(c1.base.box.queue[0], t.handler);
      CronActsInOrder(CronBegin(c1, t.between), h.actions);
      var c2 := CronActs(CronBegin(c1, t.between), h.actions);
      SameTrace(c2.base, c2.base.(end := Crashed));
      SameTrace(c2.base, Apply(c2.base));
      ConcludeSavedInOrder(Apply(c2.base), t.answer);
    }
  }

  lemma {:induction false} StateInOrder(c: Ctx)
    requires InOrder(c)
    ensures c.state == Running || c.state == Stopping || c.state == Stopped
  {
  }

  lemma {:induction false} BeginInOrder(c: CronCtx, between: seq<Arrival>)
    requires InOrder(c.base) && c.base.box.queue != []
    ensures var d := CronBegin(c, between).base;
            InOrder(d) && d.state == c.base.state && d.end == c.base.end
  {
    hide InOrder, CronActs, CronStops;
    var c1 := c.(base := c.base.(box := Receive(c.base.box)));
    SameTrace(c.base, c1.base);
    MeanwhileCounts(between);
    CronActsInOrder(c1, Meanwhiles(between));
    SameTrace(CronActs(c1, Meanwhiles(between)).base, CronBegin(c, between).base);
  }

  /** The context when its task has run. */
  function AfterTask(c: CronCtx, t: CronTurn): CronCtx {
    var c1 := RunTask(c, t.task);
    if t.task.result.After? then c1.(timers := Sleep(c1.timers)) else c1
  }

  /** The task runs and terminates the actor, and then the loop finds its mailbox closed. */
  predicate Collides(c: CronCtx, t: CronTurn) {
    && c.timers.state == Normal && (t.task.result.Again? || t.task.result.After?)
    && AfterTask(c, t).base.state == Stopped && FindsClosed(AfterTask(c, t), t)
  }

  /** Task and handler together call `stop` or `terminate` at most once. */
  predicate ModestTurn(t: CronTurn) {
    CronStops(t.task.actions) + CronStops(t.handler.actions) <= 1
  }

  lemma {:induction false} CronTurnInOrder(c: CronCtx, t: CronTurn)
    requires InOrder(c.base) && c.base.state == Running && c.base.end == Open && ModestTurn(t) && !Collides(c, t)
    ensures var d := TakeCronTurn(c, t).base;
            InOrder(d) && (d.end == Open ==> d.state == Running)
  {
    hide InOrder, CronActs, CronReceive, Conclude, CronStops, FindsClosed;
    if c.timers.state == Paused {
      ReceiveInOrder(c, t, true);
    } else {
      var c1 := RunTask(c, t.task);
      CronActsInOrder(c.(timers := c.timers.(notes := c.timers.notes + [Ran])), t.task.actions);
      match t.task.result
      case TaskPanics => SameTrace(c1.base, c1.base.(end := Crashed));
      case TaskFails(e) =>
        SameTrace(c1.base, Raise(c1.base, e));
        ConcludeInOrder(Raise(c1.base, e), Some(e), t.answer);
      case Again => ReceiveInOrder(c1, t, false);
      case After => ReceiveInOrder(c1.(timers := Sleep(c1.timers)), t, true);
    }
  }

  /** In such a turn the actor enters Stopped a second time, and the loop ends. */
  lemma {:induction false} CollisionOutOfOrder(c: CronCtx, t: CronTurn)
    requires InOrder(c.base) && c.base.state == Running && c.base.end == Open && ModestTurn(t) && Collides(c, t)
    ensures var d := TakeCronTurn(c, t).base; !InOrder(d) && d.end != Open
  {
    hide InOrder, CronActs, CronReceive, CronStops;
    CronActsInOrder(c.(timers := c.timers.(notes := c.timers.notes + [Ran])), t.task.actions);
    var c1 := AfterTask(c, t);
    MeanwhileCounts(t.before);
    CronActsInOrder(c1, Meanwhiles(t.before));
    ForeignKept(c1, Meanwhiles(t.before));
    ClosedTwice(c1, t);
  }

  lemma {:induction false} ClosedTwice(c: CronCtx, t: CronTurn)
    requires var c1 := CronActs(c, Meanwhiles(t.before));
             && InOrder(c1.base) && c1.base.state == Stopped && c1.base.end == Open
             && c1.base.box.queue == [] && t.closed && c1.foreign
    ensures forall wait :: var d := CronReceive(c, t, wait).base; !InOrder(d) && d.end != Open
  {
    hide CronActs, States, Regular;
    var c1 := CronActs(c, Meanwhiles(t.before)).base;
    Read(c1.trace, State(Stopped));
    TwiceIsTooOften(States(c1.trace));
  }

  lemma {:induction false} TwiceIsTooOften(s: seq<ActorState>)
    requires Complete(s)
    ensures !Complete(s + [Stopped])
  {
    assert Init(s + [Stopped]) == s;
    if Regular(s) { RegularEnds(s); }
  }

  ghost predicate CronModest(turns: seq<CronTurn>) {
    forall i :: 0 <= i < |turns| ==> ModestTurn(turns[i])
  }

  /** Some turn that the loop takes collides. */
  ghost predicate Collision(c: CronCtx, turns: seq<CronTurn>)
    decreases turns
  {
    turns != [] && c.base.end == Open && c.base.state == Running && (
      Collides(c, turns[0]) || Collision(TakeCronTurn(c, turns[0]), turns[1..]))
  }

  /** A loop, on whatever mailbox, keeps the states in order exactly if in none of its turns the
      task terminates the actor and then the mailbox is found empty and closed. */
  lemma {:induction false} CronLoopInOrder(c: CronCtx, turns: seq<CronTurn>)
    requires InOrder(c.base) && CronModest(turns) && (c.base.end == Open ==> c.base.state == Running)
    ensures InOrder(CronLoop(c, turns).base) <==> !Collision(c, turns)
    ensures !Collision(c, turns) && CronLoop(c, turns).base.end == Open ==> CronLoop(c, turns).base.state == Running
    decreases turns
  {
    hide InOrder, TakeCronTurn, ModestTurn, Collides;
    if turns != [] && c.base.end == Open && c.base.state == Running {
      if Collides(c, turns[0]) {
        CollisionOutOfOrder(c, turns[0]);
      } else {
        CronTurnInOrder(c, turns[0]);
        CronLoopInOrder(TakeCronTurn(c, turns[0]), turns[1..]);
      }
    }
  }

  /** The loop of a context on its own mailbox never finds it closed. */
  lemma {:induction false} OwnMailbox(c: CronCtx, turns: seq<CronTurn>)
    requires !c.foreign
    ensures !Collision(c, turns)
    decreases turns
  {
    hide TakeCronTurn;
    if turns != [] {
      OwnMailboxTurn(c, turns[0]);
      OwnMailbox(TakeCronTurn(c, turns[0]), turns[1..]);
    }
  }

  lemma {:induction false} OwnMailboxTurn(c: CronCtx, t: CronTurn)
    requires !c.foreign
    ensures !Collides(c, t) && !TakeCronTurn(c, t).foreign
  {
    hide CronActs, CronReceive, Conclude;
    var c0 := c.(timers := c.timers.(notes := c.timers.notes + [Ran]));
    ForeignKept(c0, t.task.actions);
    var c1 := RunTask(c, t.task);
    ReceiveForeign(c, t, true);
    ReceiveForeign(c1, t, false);
    ReceiveForeign(c1.(timers := Sleep(c1.timers)), t, true);
  }

  lemma {:induction false} ReceiveForeign(c: CronCtx, t: CronTurn, wait: bool)
    ensures CronReceive(c, t, wait).foreign == c.foreign
  {
    hide CronActs, Apply, ConcludeSaved, HandlerFor;
    ForeignKept(c, Meanwhiles(t.before));
    var c1 := CronActs(c, Meanwhiles(t.before));
    if c1.base.box.queue != [] {
      ForeignKept(c1.(base := c1.base.(box := Receive(c1.base.box))), Meanwhiles(t.between));
      ForeignKept(CronBegin(c1, t.between), HandlerFor(c1.base.box.queue[0], t.handler).actions);
    }
  }

  /** A task that terminates the actor, on a foreign mailbox that is empty and closed. */
  lemma {:induction false} ForeignCollision(c: CronCtx, t: CronTurn)
    requires c.foreign && c.timers.state == Normal && c.base.box.queue == []
    requires t.task == Task([Do(Terminate)], After) && t.before == [] && t.closed
    ensures Collides(c, t)
  {
    assert [Do(Terminate)][1..] == [];
    assert Meanwhiles([]) == [];
  }

  function CronLoopOf(drainable: bool, life: CronLife): CronCtx {
    CronLoop(CronStart(drainable, Fine), life.turns)
  }

  predicate CronFinished(drainable: bool, life: CronLife) {
    life.start != Fine || Ended(CronLoopOf(drainable, life).base.end)
  }

  /** The states of a cron actor follow the same order as those of any actor. An unfinished one
      is running, or waits for a message although its task asked to stop. */
  lemma {:induction false} CronLifeInOrder(drainable: bool, life: CronLife)
    requires CronModest(life.turns)
    ensures var c := LiveCron(drainable, life).base;
            if CronFinished(drainable, life) then Complete(States(c.trace))
            else Fits(c.state, States(c.trace)) && (c.state == Running || c.end == Blocked)
  {
    hide CronLoop, Finish, CronModest, States, ReportedOnce, Collision;
    if life.start != Fine {
      FailedStart(drainable, life.start);
    } else {
      Starts(drainable);
      var c := CronStart(drainable, Fine);
      OwnMailbox(c, life.turns);
      CronLoopInOrder(c, life.turns);
      CronLoopSilent(c, life.turns);
      var d := CronLoop(c, life.turns).base;
      if Ended(d.end) {
        FinishReports(d, AsWritten(d.end), life.post);
        StopsInOrder(d);
      }
    }
  }

  // ----- Reports -----

  lemma {:induction false} CronActsSilent(c: CronCtx, actions: seq<CronAction>)
    requires Silent(c.base)
    ensures Silent(CronActs(c, actions).base)
  {
    hide Silent, CronActs, Lower, Acts;
    BaseOfActs(c, actions);
    ActsSilent(c.base, Lower(c, actions));
  }

  lemma {:induction false} ConcludeSilent(c: Ctx, result: Option<Error>, answer: Answer)
    requires Silent(c)
    ensures Silent(Conclude(c, result, answer))
  {
    hide Silent, Settle;
    LogSilent(c, SetState(c, Stopping), State(Stopping));
    SettleSilent(SetState(c, Stopping), result, answer);
    SettleSilent(c, result, answer);
  }

  lemma {:induction false} ConcludeSavedSilent(c: Ctx, answer: Answer)
    requires Silent(c)
    ensures Silent(ConcludeSaved(c, answer)) && Silent(ConcludeSaved(SetState(c, Stopped), answer))
  {
    hide Silent, Conclude;
    var d := SetState(c, Stopped);
    LogSilent(c, d, State(Stopped));
    LogSilent(c, TakeError(c), State(Stopped));
    LogSilent(d, TakeError(d), State(Stopped));
    ConcludeSilent(TakeError(c), c.errors.saved, answer);
    ConcludeSilent(TakeError(d), d.errors.saved, answer);
  }

  lemma {:induction false} ReceiveSilent(c: CronCtx, t: CronTurn, wait: bool)
    requires Silent(c.base)
    ensures Silent(CronReceive(c, t, wait).base)
  {
    hide Silent, CronActs, Discard, ConcludeSaved, HandlerFor;
    CronActsSilent(c, Meanwhiles(t.before));
    var c1 := CronActs(c, Meanwhiles(t.before));
    if c1.base.box.queue == [] {
      ConcludeSavedSilent(c1.base, t.answer);
      LogSilent(c1.base, c1.base.(end := Blocked), State(Stopped));
    } else {
      var c2 := c1.(base := c1.base.(box := Receive(c1.base.box)));
      LogSilent(c1.base, c2.base, State(Stopped));
      CronActsSilent(c2, Meanwhiles(t.between));
      LogSilent(CronActs(c2, Meanwhiles(t.between)).base, CronBegin(c1, t.between).base, State(Stopped));
      var h := HandlerFor(c1.base.box.queue[0], t.handler);
      CronActsSilent(CronBegin(c1, t.between), h.actions);
      var c3 := CronActs(CronBegin(c1, t.between), h.actions);
      LogSilent(c3.base, c3.base.(end := Crashed), State(Stopped));
      LogSilent(c3.base, Apply(c3.base), State(Stopped));
      ConcludeSavedSilent(Apply(c3.base), t.answer);
    }
  }

  lemma {:induction false} CronTurnSilent(c: CronCtx, t: CronTurn)
    requires Silent(c.base)
    ensures Silent(TakeCronTurn(c, t).base)
  {
    hide Silent, CronActs, CronReceive, Conclude;
    if c.timers.state == Paused {
      ReceiveSilent(c, t, true);
    } else {
      CronActsSilent(c.(timers := c.timers.(notes := c.timers.notes + [Ran])), t.task.actions);
      var c1 := RunTask(c, t.task);
      match t.task.result
      case TaskPanics => LogSilent(c1.base, c1.base.(end := Crashed), State(Stopped));
      case TaskFails(e) =>
        LogSilent(c1.base, Raise(c1.base, e), State(Stopped));
        ConcludeSilent(Raise(c1.base, e), Some(e), t.answer);
      case Again => ReceiveSilent(c1, t, false);
      case After => ReceiveSilent(c1.(timers := Sleep(c1.timers)), t, true);
    }
  }

  lemma {:induction false} CronLoopSilent(c: CronCtx, turns: seq<CronTurn>)
    requires Silent(c.base)
    ensures Silent(CronLoop(c, turns).base)
    decreases turns
  {
    hide Silent, TakeCronTurn;
    if turns != [] && c.base.end == Open && c.base.state == Running {
      CronTurnSilent(c, turns[0]);
      CronLoopSilent(TakeCronTurn(c, turns[0]), turns[1..]);
    }
  }

  /** A finished cron actor is reported exactly once, at the end, and ran `post_stop` exactly if
      its loop began and ended without a panic; an unfinished one was not reported. */
  lemma {:induction false} CronLifeReported(drainable: bool, life: CronLife)
    ensures var c := LiveCron(drainable, life).base;
            if CronFinished(drainable, life)
            then ReportedOnce(c, life.start == Fine && CronLoopOf(drainable, life).base.end != Crashed)
            else Reports(c.trace) == 0 && PostStops(c.trace) == 0
  {
    hide CronLoop, Finish, ReportedOnce, Reports, PostStops;
    if life.start != Fine {
      FailedStart(drainable, life.start);
    } else {
      Starts(drainable);
      var c := CronStart(drainable, Fine);
      CronLoopSilent(c, life.turns);
      var d := CronLoop(c, life.turns).base;
      FinishReports(d, AsWritten(d.end), life.post);
    }
  }

  // ----- Errors -----

  lemma {:induction false} CronActsAccounted(c: CronCtx, actions: seq<CronAction>)
    requires Accounted(c.base) && Loops(c.base.state)
    requires CronSaves(actions) == 0 || (CronSaves(actions) == 1 && c.base.errors.saved.None?)
    ensures var d := CronActs(c, actions).base;
            Accounted(d) && d.end == c.base.end && Loops(d.state)
    ensures CronSaves(actions) == 0 ==> CronActs(c, actions).base.errors.saved == c.base.errors.saved
  {
    hide Accounted, CronActs, Lower, Acts, Saves;
    BaseOfActs(c, actions);
    LowerCounts(c, actions);
    ActsAccounted(c.base, Lower(c, actions));
    ActsLoop(c.base, Lower(c, actions));
    if CronSaves(actions) == 0 { ActsSaved(c.base, Lower(c, actions)); }
  }

  lemma {:induction false} ActsSaved(c: Ctx, actions: seq<Action>)
    requires Saves(actions) == 0
    ensures Acts(c, actions).errors == c.errors
    decreases actions
  {
    if actions != [] { ActsSaved(Act(c, actions[0]), actions[1..]); }
  }

  lemma {:induction false} ConcludeFate(c: Ctx, result: Option<Error>, answer: Answer)
    requires Reported(c, result) && c.errors.saved.None? && c.end == Open && Loops(c.state) && !answer.Fail?
    ensures FateOk(Conclude(c, result, answer))
  {
    hide Warnings, Settle;
    var d := if result.Some? && c.state == Running then SetState(c, Stopping) else c;
    StateAccounted(c, Stopping, result);
    SettleReports(d, result, answer);
    SettleNeverBlocks(d, result, answer);
  }

  lemma {:induction false} ConcludeSavedFate(c: Ctx, answer: Answer)
    requires Accounted(c) && c.end == Open && Loops(c.state) && !answer.Fail?
    ensures FateOk(ConcludeSaved(c, answer))
  {
    hide Warnings, Conclude;
    ConcludeFate(TakeError(c), c.errors.saved, answer);
  }

  lemma {:induction false} ReceiveFate(c: CronCtx, t: CronTurn, wait: bool)
    requires Accounted(c.base) && Loops(c.base.state) && c.base.end == Open && !t.answer.Fail?
    requires CronSaves(t.handler.actions) == 0 || (CronSaves(t.handler.actions) == 1 && c.base.errors.saved.None?)
    ensures FateOk(CronReceive(c, t, wait).base)
  {
    hide Accounted, FateOk, CronActs, Discard, ConcludeSaved, CronSaves, HandlerFor;
    MeanwhileCounts(t.before);
    CronActsAccounted(c, Meanwhiles(t.before));
    var c1 := CronActs(c, Meanwhiles(t.before));
    if c1.base.box.queue == [] {
      AccountedState(c1.base);
      ConcludeSavedFate(SetState(c1.base, Stopped), t.answer);
      ConcludeSavedFate(c1.base, t.answer);
      BlockedFate(c1.base);
    } else {
      BeginAccounted(c1, t.between);
      var h := HandlerFor(c1.base.box.queue[0], t.handler);
      HandlerCounts(c1.base.box.queue[0], t.handler);
      CronActsAccounted(CronBegin(c1, t.between), h.actions);
      var c2 := CronActs(CronBegin(c1, t.between), h.actions);
      CrashedFate(c2.base);
      AppliedFate(c2.base);
      ConcludeSavedFate(Apply(c2.base), t.answer);
    }
  }

  lemma {:induction false} AccountedState(c: Ctx)
    requires Accounted(c)
    ensures Accounted(SetState(c, Stopped))
  {
    hide Warnings;
    StateAccounted(c, Stopped, c.errors.saved);
  }

  lemma {:induction false} BlockedFate(c: Ctx)
    requires Accounted(c)
    ensures FateOk(c.(end := Blocked))
  {
    hide Warnings;
  }

  lemma {:induction false} CrashedFate(c: Ctx)
    ensures FateOk(c.(end := Crashed))
  {
    hide Warnings;
  }

  lemma {:induction false} AppliedFate(c: Ctx)
    requires Accounted(c)
    ensures Accounted(Apply(c))
  {
    hide Warnings, Discard;
  }

  lemma {:induction false} BeginAccounted(c: CronCtx, between: seq<Arrival>)
    requires Accounted(c.base) && Loops(c.base.state) && c.base.box.queue != []
    ensures var d := CronBegin(c, between).base;
            Accounted(d) && Loops(d.state) && d.end == c.base.end && d.errors.saved == c.base.errors.saved
  {
    hide Warnings, CronActs, CronSaves;
    var c1 := c.(base := c.base.(box := Receive(c.base.box)));
    MeanwhileCounts(between);
    CronActsAccounted(c1, Meanwhiles(between));
  }

  lemma {:induction false} CronTurnFate(c: CronCtx, t: CronTurn)
    requires FateOk(c.base) && c.base.end == Open && CarefulTurn(t)
    ensures FateOk(TakeCronTurn(c, t).base)
  {
    hide Warnings, CronActs, CronReceive, Conclude, CronSaves;
    if c.timers.state == Paused {
      ReceiveFate(c, t, true);
    } else {
      CronActsAccounted(c.(timers := c.timers.(notes := c.timers.notes + [Ran])), t.task.actions);
      var c1 := RunTask(c, t.task);
      match t.task.result
      case TaskPanics =>
      case TaskFails(e) =>
        assert Warnings(c1.base.trace) + [] == Warnings(c1.base.trace);
        ConcludeFate(Raise(c1.base, e), Some(e), t.answer);
      case Again => ReceiveFate(c1, t, false);
      case After => ReceiveFate(c1.(timers := Sleep(c1.timers)), t, true);
    }
  }

  /** A turn raises at most one error, by its task or its handler, and `stopping` does not
      fail. */
  predicate CarefulTurn(t: CronTurn) {
    && CronSaves(t.task.actions) + CronSaves(t.handler.actions) + (if t.task.result.TaskFails? then 1 else 0) <= 1
    && !t.answer.Fail?
  }

  ghost predicate CronCareful(turns: seq<CronTurn>) {
    forall i :: 0 <= i < |turns| ==> CarefulTurn(turns[i])
  }

  lemma {:induction false} CronLoopFate(c: CronCtx, turns: seq<CronTurn>)
    requires FateOk(c.base) && CronCareful(turns)
    ensures FateOk(CronLoop(c, turns).base)
    decreases turns
  {
    hide FateOk, TakeCronTurn, CarefulTurn;
    if turns != [] && c.base.end == Open && c.base.state == Running {
      CronTurnFate(c, turns[0]);
      CronLoopFate(TakeCronTurn(c, turns[0]), turns[1..]);
    }
  }

  /** Each error that a handler saved or the task returned is reported exactly once and in
      order, as a warning or in the termination report, and wins over one of `post_stop`. */
  lemma {:induction false} CronErrorFate(drainable: bool, life: CronLife)
    requires CronCareful(life.turns) && life.start == Fine && life.post != Panics
    requires CronLoopOf(drainable, life).base.end.Returned?
    ensures var c, last := LiveCron(drainable, life).base, CronLoopOf(drainable, life).base.end.result;
            && c.trace[|c.trace| - 1] == Terminated(if last.None? && life.post.Fails? then Some(life.post.error) else last)
            && Warnings(c.trace) + Raised(last) == c.errors.raised
  {
    hide Warnings, CronLoop;
    Starts(drainable);
    var c := CronStart(drainable, Fine);
    NoWarnings(c.base);
    CronLoopFate(c, life.turns);
    var d := CronLoop(c, life.turns).base;
    FinishWarnings(d, AsWritten(d.end), life.post);
  }

  /** The life of a cron actor under the documented rule. */
  function LiveCronAsDocumented(drainable: bool, life: CronLife): CronCtx {
    var c := CronLoopOf(drainable, life);
    if life.start == Fine && Ended(c.base.end)
    then c.(base := Finish(c.base, AsDocumented(c.base.end), life.post)) else LiveCron(drainable, life)
  }

  /** Code and comment agree on the life of a cron actor exactly if `stopping` did not fail in it,
      failed with the error that the task or a handler had raised, or `post_stop` hid the
      difference by a panic or by the very error that was lost. */
  lemma {:induction false} CronWhereLivesAgree(drainable: bool, life: CronLife)
    ensures var end := CronLoopOf(drainable, life).base.end;
            LiveCron(drainable, life) == LiveCronAsDocumented(drainable, life) <==>
              || life.start != Fine
              || !end.StopFailed?
              || end.saved == Some(end.cause)
              || life.post.Panics?
              || (end.saved.None? && life.post == Fails(end.cause))
  {
    hide CronLoop;
    var a, b := LiveCron(drainable, life).base, LiveCronAsDocumented(drainable, life).base;
    assert life.start == Fine && Ended(CronLoopOf(drainable, life).base.end) ==>
        (a.trace[|a.trace| - 1] == b.trace[|b.trace| - 1] <==> a == b);
  }

  /** If `stopping` never fails, the loop never ends in a way on which they differ. */
  lemma {:induction false} CronNoFailNoDifference(c: CronCtx, turns: seq<CronTurn>)
    requires !c.base.end.StopFailed? && forall i :: 0 <= i < |turns| ==> !turns[i].answer.Fail?
    ensures !CronLoop(c, turns).base.end.StopFailed?
    decreases turns
  {
    hide TakeCronTurn;
    if turns != [] && c.base.end == Open && c.base.state == Running {
      CronTurnFails(c, turns[0]);
      CronNoFailNoDifference(TakeCronTurn(c, turns[0]), turns[1..]);
    }
  }

  lemma {:induction false} CronTurnFails(c: CronCtx, t: CronTurn)
    requires c.base.end == Open && !t.answer.Fail?
    ensures !TakeCronTurn(c, t).base.end.StopFailed?
  {
    hide CronActs, CronReceive;
    if c.timers.state == Paused {
      ReceiveFails(c, t, true);
    } else {
      CronActsEnd(c.(timers := c.timers.(notes := c.timers.notes + [Ran])), t.task.actions);
      var c1 := RunTask(c, t.task);
      ReceiveFails(c1, t, false);
      ReceiveFails(c1.(timers := Sleep(c1.timers)), t, true);
    }
  }

  lemma {:induction false} ReceiveFails(c: CronCtx, t: CronTurn, wait: bool)
    requires c.base.end == Open && !t.answer.Fail?
    ensures !CronReceive(c, t, wait).base.end.StopFailed?
  {
    hide CronActs, Discard, HandlerFor;
    CronActsEnd(c, Meanwhiles(t.before));
    var c1 := CronActs(c, Meanwhiles(t.before));
    if c1.base.box.queue != [] {
      CronActsEnd(c1.(base := c1.base.(box := Receive(c1.base.box))), Meanwhiles(t.between));
      CronActsEnd(CronBegin(c1, t.between), HandlerFor(c1.base.box.queue[0], t.handler).actions);
    }
  }

  lemma {:induction false} CronActsEnd(c: CronCtx, actions: seq<CronAction>)
    ensures CronActs(c, actions).base.end == c.base.end
  {
    hide CronActs, Lower, Acts;
    BaseOfActs(c, actions);
    ActsEnd(c.base, Lower(c, actions));
  }

  /** An error of the task is lost: if the task fails with `e` and `stopping` with `f`, the code
      reports `f` and its comment promises `e`. */
  lemma {:induction false} TaskErrorLost(e: Error, f: Error)
    ensures var turn := CronTurn(Task([], TaskFails(e)), [], false, [], CronHandler([], false), Fail(f));
            var life := CronLife(Fine, [turn], Fine);
            var c, d := LiveCron(false, life).base, LiveCronAsDocumented(false, life).base;
            EndsWith(c, Terminated(Some(f))) && EndsWith(d, Terminated(Some(e)))
  {
    hide CronReceive;
    var turn := CronTurn(Task([], TaskFails(e)), [], false, [], CronHandler([], false), Fail(f));
    var c := CronStart(false, Fine);
    assert [turn][1..] == [];
    assert TakeCronTurn(c, turn).base.end == StopFailed(Some(e), f);
    assert CronLoop(c, [turn]) == CronLoop(TakeCronTurn(c, turn), []);
  }

  // ----- The mailbox -----

  /** The account balances; without draining, no drain is requested and every message that left
      was dispatched. */
  ghost predicate CronBoxOk(c: Ctx) {
    && Balanced(c.box)
    && (!c.drain.drainable ==> !c.drain.requested && forall i :: 0 <= i < |c.box.taken| ==> c.box.taken[i].Dispatched?)
  }

  lemma {:induction false} CronActsBox(c: CronCtx, actions: seq<CronAction>)
    requires CronBoxOk(c.base)
    ensures var d := CronActs(c, actions).base;
            CronBoxOk(d) && d.drain.drainable == c.base.drain.drainable
  {
    hide Balanced, CronActs, Lower, Acts;
    BaseOfActs(c, actions);
    ActsBox(c.base, Lower(c, actions));
    EnqueueBalanced(c.base.box, Arrivals(Lower(c, actions)));
  }

  lemma {:induction false} SameBox(c: Ctx, d: Ctx)
    requires c.box == d.box && c.drain.drainable == d.drain.drainable && c.drain.requested == d.drain.requested
    ensures CronBoxOk(c) == CronBoxOk(d)
  {
    hide Balanced;
  }

  lemma {:induction false} ConcludeBox(c: Ctx, answer: Answer)
    ensures ConcludeSaved(c, answer).box == c.box && ConcludeSaved(c, answer).drain == c.drain
  {
  }

  lemma {:induction false} BeginBox(c: CronCtx, between: seq<Arrival>)
    requires CronBoxOk(c.base) && c.base.box.queue != []
    ensures var d := CronBegin(c, between).base;
            CronBoxOk(d) && d.drain.drainable == c.base.drain.drainable
  {
    hide Balanced, CronActs;
    RemoveBalanced(c.base.box, Dispatched(c.base.box.queue[0]));
    var c1 := c.(base := c.base.(box := Receive(c.base.box)));
    CronActsBox(c1, Meanwhiles(between));
  }

  lemma {:induction false} ApplyBox(c: Ctx)
    requires CronBoxOk(c)
    ensures CronBoxOk(Apply(c)) && Apply(c).drain.drainable == c.drain.drainable
  {
    hide Balanced, Discard;
    if c.drain.requested { DiscardBalanced(c.box, c.drain.len); }
  }

  lemma {:induction false} ReceiveBox(c: CronCtx, t: CronTurn, wait: bool)
    requires CronBoxOk(c.base)
    ensures var d := CronReceive(c, t, wait).base;
            CronBoxOk(d) && d.drain.drainable == c.base.drain.drainable
  {
    hide CronBoxOk, CronActs, ConcludeSaved, HandlerFor, Apply, CronBegin;
    CronActsBox(c, Meanwhiles(t.before));
    var c1 := CronActs(c, Meanwhiles(t.before));
    var d := CronReceive(c, t, wait).base;
    if c1.base.box.queue == [] {
      ConcludeBox(c1.base, t.answer);
      ConcludeBox(SetState(c1.base, Stopped), t.answer);
      SameBox(c1.base, d);
    } else {
      BeginBox(c1, t.between);
      var h := HandlerFor(c1.base.box.queue[0], t.handler);
      CronActsBox(CronBegin(c1, t.between), h.actions);
      var c2 := CronActs(CronBegin(c1, t.between), h.actions);
      ApplyBox(c2.base);
      ConcludeBox(Apply(c2.base), t.answer);
      SameBox(if h.panics then c2.base else Apply(c2.base), d);
    }
  }

  lemma {:induction false} CronTurnBox(c: CronCtx, t: CronTurn)
    requires CronBoxOk(c.base)
    ensures var d := TakeCronTurn(c, t).base;
            CronBoxOk(d) && d.drain.drainable == c.base.drain.drainable
  {
    hide CronBoxOk, CronActs, CronReceive;
    if c.timers.state == Paused {
      ReceiveBox(c, t, true);
    } else {
      CronActsBox(c.(timers := c.timers.(notes := c.timers.notes + [Ran])), t.task.actions);
      var c1 := RunTask(c, t.task);
      match t.task.result
      case TaskPanics => SameBox(c1.base, c1.base.(end := Crashed));
      case TaskFails(e) => SameBox(c1.base, Conclude(Raise(c1.base, e), Some(e), t.answer));
      case Again => ReceiveBox(c1, t, false);
      case After => ReceiveBox(c1.(timers := Sleep(c1.timers)), t, true);
    }
  }

  lemma {:induction false} CronLoopBox(c: CronCtx, turns: seq<CronTurn>)
    requires CronBoxOk(c.base)
    ensures var d := CronLoop(c, turns).base;
            CronBoxOk(d) && d.drain.drainable == c.base.drain.drainable
    decreases turns
  {
    hide CronBoxOk, TakeCronTurn;
    if turns != [] && c.base.end == Open && c.base.state == Running {
      CronTurnBox(c, turns[0]);
      CronLoopBox(TakeCronTurn(c, turns[0]), turns[1..]);
    }
  }

  /** The mailbox of a cron actor is accounted for like any other. */
  lemma {:induction false} CronMailboxAccount(drainable: bool, life: CronLife)
    ensures var b := LiveCron(drainable, life).base.box;
            && Messages(b.taken) + b.queue == b.sent
            && (!drainable ==> FirstDispatched(b))
  {
    hide CronLoop, Messages;
    var c := CronStart(drainable, Fine);
    assert Messages([]) + [] == [] by { NoMessages(); }
    CronLoopBox(c, life.turns);
    var b := LiveCron(drainable, life).base.box;
    if life.start == Fine {
      assert b == CronLoop(c, life.turns).base.box;
    } else {
      assert b == Box([], [], []);
    }
    if !drainable { BalancedPrefix(b); }
  }

  /** A drain in a cron actor removes exactly what was queued when the handler began. */
  lemma {:induction false} CronDrainExact(c: CronCtx, between: seq<Arrival>, actions: seq<CronAction>)
    requires CronBoxOk(c.base) && c.base.box.queue != []
    ensures var b := CronBegin(c, between);
            var during := Arrivals(Lower(b, actions));
            var drained := b.base.drain.drainable && (b.base.drain.requested || Drain in Lower(b, actions));
            var d := Apply(CronActs(b, actions).base);
            && d.box.queue == (if drained then during else b.base.box.queue + during)
            && d.box.taken == b.base.box.taken + (if drained then AllDrained(b.base.box.queue) else [])
            && !d.drain.requested
  {
    hide CronActs, Lower, Acts, Apply, Balanced;
    BeginBox(c, between);
    var b := CronBegin(c, between);
    BaseOfActs(b, actions);
    MeasuredDrain(b.base, Lower(b, actions));
  }

  // ----- Timers -----

  /** The state of the task, read off its history. */
  function StateOf(notes: seq<Note>): CronState
    decreases notes
  {
    if notes == [] then Normal
    else match notes[|notes| - 1]
      case Ran => StateOf(notes[..|notes| - 1])
      case Resumed => Normal
      case _ => Paused
  }

  /** The task was paused by a call or a signal after it last went to sleep or was resumed. */
  predicate HaltedSince(notes: seq<Note>)
    decreases notes
  {
    notes != [] && (
      var last := notes[|notes| - 1];
      last == Halted || (last == Ran && HaltedSince(notes[..|notes| - 1])))
  }

  lemma {:induction false} ReadNotes(notes: seq<Note>, n: Note)
    ensures StateOf(notes + [n]) == match n { case Ran => StateOf(notes) case Resumed => Normal case _ => Paused }
    ensures HaltedSince(notes + [n]) == (n == Halted || (n == Ran && HaltedSince(notes)))
  {
    assert (notes + [n])[..|notes|] == notes;
  }

  /** The task ran only when it was not paused. */
  ghost predicate RanWhenNormal(notes: seq<Note>) {
    forall j :: 0 <= j < |notes| && notes[j] == Ran ==> StateOf(notes[..j]) == Normal
  }

  lemma {:induction false} RanMore(notes: seq<Note>, n: Note)
    requires RanWhenNormal(notes) && (n == Ran ==> StateOf(notes) == Normal)
    ensures RanWhenNormal(notes + [n])
  {
    hide StateOf;
    forall j | 0 <= j < |notes + [n]| && (notes + [n])[j] == Ran
      ensures StateOf((notes + [n])[..j]) == Normal
    {
      assert (notes + [n])[..j] == notes[..j];
      if j == |notes| { assert notes[..j] == notes; }
    }
  }

  /** A stored handle belongs to a known timer, a sleeping timer is the stored one, and a task
      that is not paused has none; the state is the one its history tells. */
  ghost predicate TimersOk(t: Timers) {
    && (t.state == Normal ==> t.handle.None?)
    && (t.handle.Some? ==> t.handle.value < |t.all|)
    && (forall k :: 0 <= k < |t.all| && t.all[k] == Sleeping ==> t.handle == Some(k))
    && t.state == StateOf(t.notes)
    && RanWhenNormal(t.notes)
  }

  lemma {:induction false} AbortOk(t: Timers)
    requires TimersOk(t)
    ensures TimersOk(PauseTask(t)) && TimersOk(ResumeTask(t))
    ensures HaltedSince(PauseTask(t).notes)
  {
    hide StateOf, RanWhenNormal, HaltedSince;
    ReadNotes(t.notes, Halted);
    ReadNotes(t.notes, Resumed);
    RanMore(t.notes, Halted);
    RanMore(t.notes, Resumed);
  }

  lemma {:induction false} SleepOk(t: Timers)
    requires TimersOk(t) && t.handle.None?
    ensures TimersOk(Sleep(t))
  {
    hide StateOf, RanWhenNormal;
    ReadNotes(t.notes, Slept);
    RanMore(t.notes, Slept);
  }

  /** Without draining: a task that sleeps and was not paused since has a timer that is still
      asleep or whose signal is queued. */
  predicate Wakes(c: CronCtx) {
    var t := c.timers;
    !c.base.drain.drainable && t.state == Paused && !HaltedSince(t.notes) ==>
      && t.handle.Some?
      && t.handle.value < |t.all|
      && (t.all[t.handle.value] == Sleeping || ResumeSignal(t.handle) in c.base.box.queue)
  }

  lemma {:induction false} CronActTimers(c: CronCtx, a: CronAction)
    requires TimersOk(c.timers)
    ensures var d := CronAct(c, a);
            && TimersOk(d.timers) && d.base.drain.drainable == c.base.drain.drainable
            && (Wakes(c) ==> Wakes(d))
            && (c.timers.handle.None? ==> d.timers.handle.None?)
            && (a == Resume ==> d.timers.state == Normal)
  {
    hide StateOf, RanWhenNormal, HaltedSince;
    AbortOk(c.timers);
  }

  lemma {:induction false} CronActsTimers(c: CronCtx, actions: seq<CronAction>)
    requires TimersOk(c.timers)
    ensures var d := CronActs(c, actions);
            && TimersOk(d.timers) && d.base.drain.drainable == c.base.drain.drainable
            && (Wakes(c) || (actions != [] && actions[|actions| - 1] == Resume) ==> Wakes(d))
            && (c.timers.handle.None? ==> d.timers.handle.None?)
    decreases actions
  {
    hide TimersOk, CronAct;
    if actions != [] {
      CronActTimers(c, actions[0]);
      CronActsTimers(CronAct(c, actions[0]), actions[1..]);
    }
  }

  lemma {:induction false} SameWakes(c: CronCtx, d: CronCtx)
    requires c.timers == d.timers && Wakes(c)
    requires !c.base.drain.drainable ==> forall m :: m in c.base.box.queue ==> m in d.base.box.queue
    requires c.base.drain.drainable == d.base.drain.drainable
    ensures Wakes(d)
  {
  }

  /** Taking a message keeps the promise, unless it is the very signal. */
  lemma {:induction false} TakeWakes(c: CronCtx)
    requires Wakes(c) && c.base.box.queue != []
    requires c.base.box.queue[0].ResumeSignal? ==> c.base.box.queue[0] != ResumeSignal(c.timers.handle)
    ensures Wakes(c.(base := c.base.(box := Receive(c.base.box))))
  {
    hide HaltedSince;
    var q := c.base.box.queue;
    forall m | m in q && m != q[0] ensures m in q[1..] { }
  }

  lemma {:induction false} BeginTimers(c: CronCtx, between: seq<Arrival>)
    requires TimersOk(c.timers) && c.base.box.queue != []
    ensures var d := CronBegin(c, between);
            && TimersOk(d.timers) && d.base.drain.drainable == c.base.drain.drainable
            && (Wakes(c) && !c.base.box.queue[0].ResumeSignal? ==> Wakes(d))
  {
    hide TimersOk, CronActs, HaltedSince;
    var c1 := c.(base := c.base.(box := Receive(c.base.box)));
    if Wakes(c) && !c.base.box.queue[0].ResumeSignal? { TakeWakes(c); }
    CronActsTimers(c1, Meanwhiles(between));
    var c2 := CronActs(c1, Meanwhiles(between));
    if Wakes(c2) { SameWakes(c2, CronBegin(c, between)); }
  }

  lemma {:induction false} ReceiveTimers(c: CronCtx, t: CronTurn, wait: bool)
    requires TimersOk(c.timers) && Wakes(c) && CronBoxOk(c.base)
    ensures TimersOk(CronReceive(c, t, wait).timers) && Wakes(CronReceive(c, t, wait))
  {
    hide TimersOk, CronActs, CronBegin, Wakes, ConcludeSaved, Apply, CronBoxOk;
    CronActsTimers(c, Meanwhiles(t.before));
    CronActsBox(c, Meanwhiles(t.before));
    var c1 := CronActs(c, Meanwhiles(t.before));
    var d := CronReceive(c, t, wait);
    if c1.base.box.queue == [] {
      ConcludeBox(c1.base, t.answer);
      ConcludeBox(SetState(c1.base, Stopped), t.answer);
      SameWakes(c1, d);
    } else {
      var m := c1.base.box.queue[0];
      var h := HandlerFor(m, t.handler);
      BeginTimers(c1, t.between);
      BeginBox(c1, t.between);
      var b := CronBegin(c1, t.between);
      CronActsTimers(b, h.actions);
      CronActsBox(b, h.actions);
      var c2 := CronActs(b, h.actions);
      if !h.panics {
        ConcludeBox(Apply(c2.base), t.answer);
        ApplyKeeps(c2.base);
      }
      SameWakes(c2, d);
    }
  }

  lemma {:induction false} ApplyKeeps(c: Ctx)
    requires CronBoxOk(c)
    ensures Apply(c).drain.drainable == c.drain.drainable
    ensures !c.drain.drainable ==> Apply(c).box == c.box
  {
    hide Balanced, Discard;
  }

  lemma {:induction false} CronTurnTimers(c: CronCtx, t: CronTurn)
    requires TimersOk(c.timers) && Wakes(c) && CronBoxOk(c.base)
    ensures TimersOk(TakeCronTurn(c, t).timers) && Wakes(TakeCronTurn(c, t))
  {
    hide CronActs, CronReceive, Wakes, CronBoxOk, StateOf, RanWhenNormal, HaltedSince;
    if c.timers.state == Paused {
      ReceiveTimers(c, t, true);
    } else {
      var c0 := c.(timers := c.timers.(notes := c.timers.notes + [Ran]));
      ReadNotes(c.timers.notes, Ran);
      RanMore(c.timers.notes, Ran);
      NormalWakes(c0);
      CronActsTimers(c0, t.task.actions);
      CronActsBox(c0, t.task.actions);
      var c1 := RunTask(c, t.task);
      match t.task.result
      case TaskPanics => SameWakes(c1, TakeCronTurn(c, t));
      case TaskFails(e) => SameWakes(c1, TakeCronTurn(c, t));
      case Again => ReceiveTimers(c1, t, false);
      case After =>
        SleepOk(c1.timers);
        SleepWakes(c1);
        ReceiveTimers(c1.(timers := Sleep(c1.timers)), t, true);
    }
  }

  lemma {:induction false} NormalWakes(c: CronCtx)
    requires c.timers.state == Normal
    ensures Wakes(c)
  {
  }

  lemma {:induction false} SleepWakes(c: CronCtx)
    ensures Wakes(c.(timers := Sleep(c.timers)))
  {
  }

  lemma {:induction false} CronLoopTimers(c: CronCtx, turns: seq<CronTurn>)
    requires TimersOk(c.timers) && Wakes(c) && CronBoxOk(c.base)
    ensures TimersOk(CronLoop(c, turns).timers) && Wakes(CronLoop(c, turns))
    decreases turns
  {
    hide TimersOk, Wakes, CronBoxOk, TakeCronTurn;
    if turns != [] && c.base.end == Open && c.base.state == Running {
      CronTurnTimers(c, turns[0]);
      CronTurnBox(c, turns[0]);
      CronLoopTimers(TakeCronTurn(c, turns[0]), turns[1..]);
    }
  }

  /** After the task went to sleep, it ran again only after it was resumed. */
  ghost predicate RunsAfterResume(notes: seq<Note>) {
    forall i, j :: 0 <= i < j < |notes| && notes[i] == Slept && notes[j] == Ran ==> exists k :: i < k < j && notes[k] == Resumed
  }

  lemma {:induction false} ResumedBetween(notes: seq<Note>, i: nat) returns (k: nat)
    requires i < |notes| && notes[i] == Slept && StateOf(notes) == Normal
    ensures i < k < |notes| && notes[k] == Resumed
    decreases |notes|
  {
    k := |notes| - 1;
    if notes[k] == Ran { k := ResumedBetween(notes[..k], i); }
  }

  /** In every life of a cron actor: a task that is not paused has no stored timer, at most one
      timer is asleep, the task runs again after an interval only after it was resumed, and
      without draining a task that sleeps will be woken unless it was paused. */
  lemma {:induction false} CronTimers(drainable: bool, life: CronLife)
    ensures var c := LiveCron(drainable, life);
            && (c.timers.state == Normal ==> c.timers.handle.None?)
            && (forall j, k :: 0 <= j < |c.timers.all| && 0 <= k < |c.timers.all| && c.timers.all[j] == Sleeping && c.timers.all[k] == Sleeping ==> j == k)
            && RunsAfterResume(c.timers.notes)
            && Wakes(c)
  {
    hide CronLoop, StateOf, HaltedSince;
    if life.start == Fine {
      var c := CronStart(drainable, Fine);
      assert StateOf([]) == Normal by { NoNotes(); }
      assert Balanced(c.base.box) by { NoMessages(); }
      CronLoopTimers(c, life.turns);
      var notes := CronLoop(c, life.turns).timers.notes;
      forall i, j | 0 <= i < j < |notes| && notes[i] == Slept && notes[j] == Ran
        ensures exists k :: i < k < j && notes[k] == Resumed
      {
        var k := ResumedBetween(notes[..j], i);
        assert notes[k] == Resumed;
      }
      SameWakes(CronLoop(c, life.turns), LiveCron(drainable, life));
    }
  }

  lemma {:induction false} NoNotes()
    ensures StateOf([]) == Normal
  {
  }

  /** With draining the promise fails: a handler that drains discards the timer's signal, and
      the task sleeps although no timer is left and no signal is queued. */
  lemma {:induction false} DrainLosesSignal()
    ensures exists turns :: var c := CronLoop(CronStart(true, Fine), turns);
              && c.base.end == Open && c.timers.state == Paused && !HaltedSince(c.timers.notes)
              && Sleeping !in c.timers.all && c.base.box.queue == []
  {
    hide CronReceive, HaltedSince;
    var turn := CronTurn(Task([], After), [Sent(User(0)), TimerFires(0)], false, [], CronHandler([Do(Drain)], false), Continue);
    var c := CronStart(true, Fine);
    var c1 := c.(timers := Sleep(c.timers.(notes := [Ran])));
    assert [] + [Ran] == [Ran] && [] + [Sleeping] == [Sleeping];
    assert TakeCronTurn(c, turn) == CronReceive(c1, turn, true);
    DrainTurn(c1, turn);
    assert [turn][1..] == [];
    assert CronLoop(c, [turn]) == CronLoop(TakeCronTurn(c, turn), []);
    ReadNotes([Ran], Slept);
  }

  lemma {:induction false} DrainTurn(c: CronCtx, turn: CronTurn)
    requires c.timers.all == [Sleeping] && c.base.box.queue == [] && c.base.end == Open && c.base.state == Running
    requires c.base.errors.saved.None? && c.base.drain.drainable
    requires turn.before == [Sent(User(0)), TimerFires(0)] && turn.between == [] && turn.handler == CronHandler([Do(Drain)], false)
    ensures var d := CronReceive(c, turn, true);
            && d.timers == c.timers.(all := [Fired])
            && d.base.end == Open && d.base.state == Running && d.base.box.queue == []
  {
    hide Discard, Settle;
    var arrivals := turn.before;
    SignalArrives(c, arrivals);
    var c1 := CronActs(c, Meanwhiles(arrivals));
    var b := CronBegin(c1, []);
    assert b.base.box.queue == [ResumeSignal(Some(0))] && b.timers == c1.timers;
    assert [Do(Drain)][1..] == [];
    var c2 := CronActs(b, [Do(Drain)]);
    assert c2.timers == b.timers && c2.base.drain.requested && c2.base.box.queue == b.base.box.queue;
    DiscardExact(c2.base.box, 1);
    Unsettled(Apply(c2.base), turn.answer);
  }

  lemma {:induction false} Unsettled(c: Ctx, answer: Answer)
    requires c.state == Running && c.errors.saved.None?
    ensures ConcludeSaved(c, answer) == c
  {
  }

  lemma {:induction false} SignalArrives(c: CronCtx, arrivals: seq<Arrival>)
    requires c.timers.all == [Sleeping] && c.base.box.queue == []
    requires arrivals == [Sent(User(0)), TimerFires(0)]
    ensures var d := CronActs(c, Meanwhiles(arrivals));
            && d.timers == c.timers.(all := [Fired])
            && d.base == c.base.(box := d.base.box) && d.base.box.queue == [User(0), ResumeSignal(Some(0))]
  {
    assert arrivals[1..] == [TimerFires(0)] && arrivals[1..][1..] == [];
    var acts := [Meanwhile(Sent(User(0))), Meanwhile(TimerFires(0))];
    assert Meanwhiles(arrivals[1..]) == [acts[1]];
    assert Meanwhiles(arrivals) == [acts[0]] + [acts[1]];
    assert Meanwhiles(arrivals) == acts;
    assert acts[1..] == [acts[1]] && acts[1..][1..] == [];
    var c1 := Arrive1(c, Sent(User(0)));
    assert CronActs(c, acts) == CronActs(c1, acts[1..]);
    assert CronActs(c1, [acts[1]]) == Arrive1(c1, TimerFires(0));
    assert c.timers.all[0 := Fired] == [Fired];
  }

  /** Some signal in the queue resumes the task, whoever sent it. */
  predicate HasResume(queue: seq<Msg>) {
    exists i :: 0 <= i < |queue| && queue[i].ResumeSignal?
  }

  /** A sleeping task will be woken: its timer is asleep or a signal to resume is queued. */
  predicate WillWake(t: Timers, queue: seq<Msg>) {
    Asleep(t) || HasResume(queue)
  }

  /** A handler that neither pauses nor resumes the task. */
  predicate LeavesTask(actions: seq<CronAction>) {
    Pause !in actions && Resume !in actions
  }

  /** While such a handler runs, a timer that was asleep stays asleep or its signal arrives. */
  lemma {:induction false} SignalDuring(c: CronCtx, actions: seq<CronAction>, h: nat)
    requires c.timers.handle == Some(h) && h < |c.timers.all| && LeavesTask(actions)
    ensures var t, during := CronActs(c, actions).timers, Arrivals(Lower(c, actions));
            && t.handle == Some(h) && |t.all| == |c.timers.all|
            && (c.timers.all[h] == Sleeping ==> t.all[h] == Sleeping || ResumeSignal(Some(h)) in during)
            && (c.timers.all[h] != Sleeping ==> t.all[h] == c.timers.all[h])
    decreases actions
  {
    if actions != [] {
      var a, d := actions[0], CronAct(c, actions[0]);
      assert a in actions;
      SignalDuring(d, actions[1..], h);
      var x, y := LowerOne(c, a), Lower(d, actions[1..]);
      if x == [] {
        assert x + y == y;
      } else {
        assert (x + y)[1..] == y;
      }
    }
  }

  lemma {:induction false} ResumeIn(x: seq<Msg>, y: seq<Msg>, m: Msg)
    ensures HasResume(x + y) <==> HasResume(x) || HasResume(y)
    ensures m in x && m.ResumeSignal? ==> HasResume(x)
  {
    assert forall i :: 0 <= i < |y| ==> (x + y)[|x| + i] == y[i];
    assert forall i :: 0 <= i < |x| ==> (x + y)[i] == x[i];
  }

  predicate Asleep(t: Timers) {
    t.handle.Some? && t.handle.value < |t.all| && t.all[t.handle.value] == Sleeping
  }

  /** While such a handler runs, the stored timer falls out of its sleep only by its signal, and
      none falls asleep. */
  lemma {:induction false} AsleepDuring(c: CronCtx, actions: seq<CronAction>)
    requires LeavesTask(actions)
    ensures var t, during := CronActs(c, actions).timers, Arrivals(Lower(c, actions));
            && (Asleep(c.timers) ==> Asleep(t) || HasResume(during))
            && (!Asleep(c.timers) ==> !Asleep(t))
  {
    hide CronActs, Lower, Arrivals, HasResume;
    var during := Arrivals(Lower(c, actions));
    if c.timers.handle.Some? && c.timers.handle.value < |c.timers.all| {
      SignalDuring(c, actions, c.timers.handle.value);
      ResumeIn(during, [], ResumeSignal(c.timers.handle));
    } else {
      HandleDuring(c, actions);
    }
  }

  lemma {:induction false} HandleDuring(c: CronCtx, actions: seq<CronAction>)
    requires LeavesTask(actions)
    ensures var t := CronActs(c, actions).timers;
            t.handle == c.timers.handle && |t.all| == |c.timers.all|
    decreases actions
  {
    if actions != [] {
      assert actions[0] in actions;
      HandleDuring(CronAct(c, actions[0]), actions[1..]);
    }
  }

  /** Exactly when a handler that leaves the task alone breaks the promise: it drains, the timer
      was not asleep when it began, and no signal to resume arrives meanwhile. */
  lemma {:induction false} DrainBreaksPromise(b: CronCtx, actions: seq<CronAction>)
    requires WillWake(b.timers, b.base.box.queue) && LeavesTask(actions)
    requires if b.base.drain.drainable then b.base.drain.len == |b.base.box.queue| else !b.base.drain.requested
    ensures var c := CronActs(b, actions);
            var drains := b.base.drain.drainable && (b.base.drain.requested || Drain in Lower(b, actions));
            WillWake(c.timers, Apply(c.base).box.queue) <==>
              !drains || Asleep(b.timers) || HasResume(Arrivals(Lower(b, actions)))
  {
    hide CronActs, Lower, Acts, Apply, Arrivals, HasResume;
    AsleepDuring(b, actions);
    BaseOfActs(b, actions);
    MeasuredDrain(b.base, Lower(b, actions));
    ResumeIn(b.base.box.queue, Arrivals(Lower(b, actions)), PauseSignal);
  }
}
