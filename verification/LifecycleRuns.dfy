/**
 What holds of every life of an actor: the order of its states and reports, the fate of its
 errors, and the account of its mailbox.
 */
module LifecycleRuns {
  import opened Wire
  import opened Lifecycle

  // ----- Reading a trace -----

  function States(t: seq<Entry>): seq<ActorState>
    decreases t
  {
    if t == [] then []
    else States(t[..|t| - 1]) + (if t[|t| - 1].State? then [t[|t| - 1].state] else [])
  }

  function Warnings(t: seq<Entry>): seq<Error>
    decreases t
  {
    if t == [] then []
    else Warnings(t[..|t| - 1]) + (if t[|t| - 1].Warn? then [t[|t| - 1].error] else [])
  }

  lemma {:induction false} Read(t: seq<Entry>, e: Entry)
    ensures States(t + [e]) == if e.State? then States(t) + [e.state] else States(t)
    ensures Warnings(t + [e]) == if e.Warn? then Warnings(t) + [e.error] else Warnings(t)
  {
    assert (t + [e])[..|t|] == t;
  }

  predicate IsReport(e: Entry) {
    e.Terminated? || e.Panicked?
  }

  function PostStops(t: seq<Entry>): nat
    decreases t
  {
    if t == [] then 0 else PostStops(t[..|t| - 1]) + (if t[|t| - 1].PostStopCalled? then 1 else 0)
  }

  function Reports(t: seq<Entry>): nat
    decreases t
  {
    if t == [] then 0 else Reports(t[..|t| - 1]) + (if IsReport(t[|t| - 1]) then 1 else 0)
  }

  lemma {:induction false} Count(t: seq<Entry>, e: Entry)
    ensures PostStops(t + [e]) == PostStops(t) + (if e.PostStopCalled? then 1 else 0)
    ensures Reports(t + [e]) == Reports(t) + (if IsReport(e) then 1 else 0)
  {
    assert (t + [e])[..|t|] == t;
  }

  // ----- The order of states -----

  /** Starting Running (Stopping Running)*. */
  predicate Regular(s: seq<ActorState>)
    decreases |s|
  {
    || s == [Starting, Running]
    || (|s| >= 4 && s[|s| - 2] == Stopping && s[|s| - 1] == Running && Regular(s[..|s| - 2]))
  }

  function Init(s: seq<ActorState>): seq<ActorState>
    requires s != []
  {
    s[..|s| - 1]
  }

  /** Regular, then perhaps Stopping. */
  predicate Closing(s: seq<ActorState>) {
    Regular(s) || (s != [] && s[|s| - 1] == Stopping && Regular(Init(s)))
  }

  /** The states of a finished life: Starting Stopped, or Starting Running (Stopping Running)*
      [Stopping] Stopped. */
  predicate Complete(s: seq<ActorState>) {
    s == [Starting, Stopped] || (s != [] && s[|s| - 1] == Stopped && Closing(Init(s)))
  }

  /** The states so far fit the current one. */
  predicate Fits(state: ActorState, s: seq<ActorState>) {
    match state
    case Running => Regular(s)
    case Stopping => Closing(s) && !Regular(s)
    case Stopped => Complete(s)
    case _ => false
  }

  predicate InOrder(c: Ctx) {
    Fits(c.state, States(c.trace))
  }

  lemma {:induction false} RegularEnds(s: seq<ActorState>)
    requires Regular(s)
    ensures |s| >= 2 && s[|s| - 1] == Running
  {
  }

  /** Stopping follows Running, Running follows Stopping, Stopped follows both. */
  lemma {:induction false} NextState(state: ActorState, s: seq<ActorState>, next: ActorState)
    requires Fits(state, s)
    requires (state == Running && (next == Stopping || next == Stopped)) || (state == Stopping && (next == Running || next == Stopped))
    ensures Fits(next, s + [next])
  {
    var u := s + [next];
    assert Init(u) == s;
    if state == Running { RegularEnds(s); }
    if next == Stopping && Regular(u) { RegularEnds(u); }
    if state == Stopping && next == Running {
      RegularEnds(Init(s));
      assert u[..|u| - 2] == Init(s);
    }
  }

  lemma {:induction false} SetStateInOrder(c: Ctx, next: ActorState)
    requires InOrder(c)
    requires (c.state == Running && (next == Stopping || next == Stopped)) || (c.state == Stopping && (next == Running || next == Stopped))
    ensures InOrder(SetState(c, next))
  {
    hide Fits, Regular, States;
    NextState(c.state, States(c.trace), next);
    Read(c.trace, State(next));
  }

  /** How often a handler calls `stop` or `terminate`. */
  function Stops(actions: seq<Action>): nat
    decreases actions
  {
    if actions == [] then 0 else (if actions[0].Stop? || actions[0].Terminate? then 1 else 0) + Stops(actions[1..])
  }

  lemma {:induction false} ActsInOrder(c: Ctx, actions: seq<Action>)
    requires InOrder(c)
    requires Stops(actions) == 0 || (Stops(actions) == 1 && c.state == Running)
    ensures InOrder(Acts(c, actions))
    ensures Acts(c, actions).end == c.end
    decreases actions
  {
    hide InOrder;
    if actions != [] {
      match actions[0] {
        case Stop => SetStateInOrder(c, Stopping);
        case Terminate => SetStateInOrder(c, Stopped);
        case _ => SameTrace(c, Act(c, actions[0]));
      }
      ActsInOrder(Act(c, actions[0]), actions[1..]);
    }
  }

  lemma {:induction false} SameTrace(c: Ctx, d: Ctx)
    requires c.trace == d.trace && c.state == d.state
    ensures InOrder(c) == InOrder(d)
  {
  }

  lemma {:induction false} SettleInOrder(c: Ctx, result: Option<Error>, answer: Answer)
    requires InOrder(c)
    ensures var d := Settle(c, result, answer);
            InOrder(d) && (d.state == Running || d.end != Open || c.end != Open)
  {
    hide Fits, Regular, States;
    assert c.state == Running || c.state == Stopping || c.state == Stopped by { FitsState(c.state, States(c.trace)); }
    if c.state == Stopping && answer == Continue {
      if result.Some? {
        Read(c.trace, Warn(result.value));
        SetStateInOrder(Log(c, Warn(result.value)), Running);
      } else {
        SetStateInOrder(c, Running);
      }
    }
  }

  lemma {:induction false} FitsState(state: ActorState, s: seq<ActorState>)
    requires Fits(state, s)
    ensures state == Running || state == Stopping || state == Stopped
  {
  }

  lemma {:induction false} TurnInOrder(c: Ctx, t: Turn)
    requires InOrder(c) && c.state == Running && Stops(t.handler.actions) <= 1
    ensures InOrder(TakeTurn(c, t))
  {
    hide InOrder, Acts, Discard, Settle;
    var c1 := c.(box := Enqueue(c.box, t.before));
    SameTrace(c, c1);
    if c1.box.queue == [] {
      SetStateInOrder(c1, Stopped);
      var c2 := SetState(c1, Stopped);
      SameTrace(c2, TakeError(c2));
      SettleInOrder(TakeError(c2), c2.errors.saved, t.answer);
      SameTrace(c1, c1.(end := Blocked));
    } else {
      var c2 := Begin(c1, t.between);
      SameTrace(c1, c2);
      ActsInOrder(c2, t.handler.actions);
      HandledInOrder(Acts(c2, t.handler.actions), t.answer);
    }
  }

  lemma {:induction false} HandledInOrder(c: Ctx, answer: Answer)
    requires InOrder(c)
    ensures InOrder(c.(end := Crashed)) && InOrder(Settled(StopOnError(Apply(c)), answer))
  {
    hide InOrder, Discard, Settle;
    SameTrace(c, c.(end := Crashed));
    SameTrace(c, Apply(c));
    if Apply(c).state == Running { SetStateInOrder(Apply(c), Stopping); }
    var d := StopOnError(Apply(c));
    SameTrace(d, TakeError(d));
    SettleInOrder(TakeError(d), d.errors.saved, answer);
  }

  /** Every handler calls at most one of `stop` and `terminate`. */
  ghost predicate Modest(turns: seq<Turn>) {
    forall i :: 0 <= i < |turns| ==> Stops(turns[i].handler.actions) <= 1
  }

  lemma {:induction false} LoopInOrder(c: Ctx, turns: seq<Turn>)
    requires InOrder(c) && Modest(turns)
    ensures InOrder(Loop(c, turns))
    decreases turns
  {
    hide InOrder, TakeTurn, Stops;
    if turns != [] && c.end == Open && c.state == Running {
      TurnInOrder(c, turns[0]);
      LoopInOrder(TakeTurn(c, turns[0]), turns[1..]);
    }
  }

  // ----- The end of a life -----

  /** Nothing was reported and `post_stop` was not called. */
  predicate Silent(c: Ctx) {
    PostStops(c.trace) == 0 && Reports(c.trace) == 0
  }

  lemma {:induction false} LogSilent(c: Ctx, d: Ctx, e: Entry)
    requires Silent(c) && (e.State? || e.Warn?)
    requires d.trace == c.trace || d.trace == c.trace + [e]
    ensures Silent(d)
  {
    hide PostStops, Reports;
    Count(c.trace, e);
  }

  lemma {:induction false} ActsSilent(c: Ctx, actions: seq<Action>)
    requires Silent(c)
    ensures Silent(Acts(c, actions))
    decreases actions
  {
    hide Silent;
    if actions != [] {
      var d := Act(c, actions[0]);
      LogSilent(c, d, State(d.state));
      ActsSilent(d, actions[1..]);
    }
  }

  lemma {:induction false} SettleSilent(c: Ctx, result: Option<Error>, answer: Answer)
    requires Silent(c)
    ensures Silent(Settle(c, result, answer))
  {
    hide Silent;
    var c1 := if result.Some? then Log(c, Warn(result.value)) else c;
    LogSilent(c, c1, Warn(if result.Some? then result.value else 0));
    LogSilent(c1, SetState(c1, Running), State(Running));
    var d := Settle(c, result, answer);
    if d.trace == c.trace { LogSilent(c, d, State(Running)); }
  }

  lemma {:induction false} HandledSilent(c: Ctx, answer: Answer)
    requires Silent(c)
    ensures Silent(Settled(StopOnError(c), answer)) && Silent(Settled(SetState(c, Stopped), answer))
  {
    hide Silent, Settle;
    forall d | d == StopOnError(c) || d == SetState(c, Stopped) ensures Silent(Settled(d, answer)) {
      LogSilent(c, d, State(d.state));
      LogSilent(d, TakeError(d), State(Stopped));
      SettleSilent(TakeError(d), d.errors.saved, answer);
    }
  }

  lemma {:induction false} TurnSilent(c: Ctx, t: Turn)
    requires Silent(c)
    ensures Silent(TakeTurn(c, t))
  {
    hide Silent, Acts, Discard, Settle, StopOnError, Settled;
    var c1 := c.(box := Enqueue(c.box, t.before));
    LogSilent(c, c1, State(Stopped));
    if c1.box.queue == [] {
      HandledSilent(c1, t.answer);
      LogSilent(c1, c1.(end := Blocked), State(Stopped));
    } else {
      LogSilent(c1, Begin(c1, t.between), State(Stopped));
      ActsSilent(Begin(c1, t.between), t.handler.actions);
      var c2 := Acts(Begin(c1, t.between), t.handler.actions);
      LogSilent(c2, c2.(end := Crashed), State(Stopped));
      LogSilent(c2, Apply(c2), State(Stopped));
      HandledSilent(Apply(c2), t.answer);
    }
  }

  lemma {:induction false} LoopSilent(c: Ctx, turns: seq<Turn>)
    requires Silent(c)
    ensures Silent(Loop(c, turns))
    decreases turns
  {
    hide Silent, TakeTurn;
    if turns != [] && c.end == Open && c.state == Running {
      TurnSilent(c, turns[0]);
      LoopSilent(TakeTurn(c, turns[0]), turns[1..]);
    }
  }

  /** Exactly one report, at the end, from a stopped actor; `post_stop` called once or never. */
  predicate ReportedOnce(c: Ctx, postStop: bool) {
    && c.state == Stopped
    && Reports(c.trace) == 1 && c.trace != [] && IsReport(c.trace[|c.trace| - 1])
    && PostStops(c.trace) == (if postStop then 1 else 0)
  }

  lemma {:induction false} ReportLast(c: Ctx, e: Entry, called: bool)
    requires c.state == Stopped && IsReport(e)
    requires Reports(c.trace) == 0 && PostStops(c.trace) == if called then 1 else 0
    ensures ReportedOnce(Log(c, e), called) && States(Log(c, e).trace) == States(c.trace)
  {
    hide States, PostStops, Reports;
    Read(c.trace, e);
    Count(c.trace, e);
  }

  lemma {:induction false} FinishReports(c: Ctx, result: Option<Error>, post: Hook)
    requires Silent(c)
    ensures ReportedOnce(Finish(c, result, post), c.end != Crashed)
    ensures States(Finish(c, result, post).trace) == States(EnsureStopped(c).trace)
  {
    hide States, PostStops, Reports, ReportedOnce;
    var c1 := EnsureStopped(c);
    LogSilent(c, c1, State(Stopped));
    assert c1.state == Stopped;
    hide EnsureStopped;
    var e := if c.end == Crashed || post.Panics? then Panicked
      else Terminated(if result.None? && post.Fails? then Some(post.error) else result);
    if c.end == Crashed {
      ReportLast(c1, e, false);
    } else {
      Read(c1.trace, PostStopCalled);
      Count(c1.trace, PostStopCalled);
      ReportLast(Log(c1, PostStopCalled), e, true);
    }
  }

  lemma {:induction false} StopsInOrder(c: Ctx)
    requires InOrder(c)
    ensures Complete(States(EnsureStopped(c).trace))
  {
    hide States, Complete;
    FitsState(c.state, States(c.trace));
    if c.state != Stopped { SetStateInOrder(c, Stopped); }
  }

  lemma {:induction false} Starts(drainable: bool)
    ensures var c := SetState(New(drainable), Starting);
            && Silent(c) && States(c.trace) == [Starting]
            && Silent(Start(c, Fine)) && States(Start(c, Fine).trace) == [Starting, Running]
  {
    hide PostStops, Reports;
    var c := SetState(New(drainable), Starting);
    assert PostStops([]) == 0 && Reports([]) == 0 by { Nothing(); }
    LogSilent(New(drainable), c, State(Starting));
    LogSilent(c, Start(c, Fine), State(Running));
    Read([], State(Starting));
    assert [] + [State(Starting)] == c.trace;
    Read(c.trace, State(Running));
  }

  lemma {:induction false} Nothing()
    ensures PostStops([]) == 0 && Reports([]) == 0
  {
  }

  lemma {:induction false} FailedStart(drainable: bool, start: Hook)
    requires start != Fine
    ensures var c := Start(SetState(New(drainable), Starting), start);
            ReportedOnce(c, false) && Complete(States(c.trace))
  {
    hide ReportedOnce, States, PostStops, Reports;
    Starts(drainable);
    var c := SetState(New(drainable), Starting);
    var d := SetState(c, Stopped);
    LogSilent(c, d, State(Stopped));
    Read(c.trace, State(Stopped));
    ReportLast(d, if start.Panics? then Panicked else Terminated(Some(start.error)), false);
  }

  /** What the loop of a life came to. */
  function LoopOf(drainable: bool, life: Life): Ctx {
    Loop(Start(SetState(New(drainable), Starting), Fine), life.turns)
  }

  predicate Finished(drainable: bool, life: Life) {
    life.start != Fine || Ended(LoopOf(drainable, life).end)
  }

  /** A finished life is reported exactly once, at the end, and ran `post_stop` exactly if its
      loop began and ended without a panic; an unfinished one was not reported. */
  lemma {:induction false} LifeReported(drainable: bool, life: Life)
    ensures var c := Live(drainable, life);
            if Finished(drainable, life)
            then ReportedOnce(c, life.start == Fine && LoopOf(drainable, life).end != Crashed)
            else Reports(c.trace) == 0 && PostStops(c.trace) == 0
  {
    hide Loop, Finish, ReportedOnce, Reports, PostStops;
    if life.start != Fine {
      FailedStart(drainable, life.start);
    } else {
      Starts(drainable);
      var c := Start(SetState(New(drainable), Starting), Fine);
      LoopSilent(c, life.turns);
      FinishReports(Loop(c, life.turns), AsWritten(Loop(c, life.turns).end), life.post);
    }
  }

  /** If every handler calls at most one of `stop` and `terminate`, a life goes through its
      states in order: a finished one through all of them, an unfinished one is running. */
  lemma {:induction false} LifeInOrder(drainable: bool, life: Life)
    requires Modest(life.turns)
    ensures var c := Live(drainable, life);
            if Finished(drainable, life) then Complete(States(c.trace))
            else c.state == Running && Regular(States(c.trace))
  {
    hide Loop, Finish, Modest, States, ReportedOnce;
    if life.start != Fine {
      FailedStart(drainable, life.start);
    } else {
      Starts(drainable);
      var c := Start(SetState(New(drainable), Starting), Fine);
      LoopInOrder(c, life.turns);
      LoopSilent(c, life.turns);
      var d := Loop(c, life.turns);
      if Ended(d.end) {
        FinishReports(d, AsWritten(d.end), life.post);
        StopsInOrder(d);
      } else {
        StillRunning(c, life.turns);
      }
    }
  }

  lemma {:induction false} StillRunning(c: Ctx, turns: seq<Turn>)
    requires InOrder(c) && Modest(turns) && c.state == Running
    requires !Ended(Loop(c, turns).end)
    ensures Loop(c, turns).state == Running
    decreases turns
  {
    hide InOrder, TakeTurn, Stops;
    if turns != [] && c.end == Open {
      TurnInOrder(c, turns[0]);
      TurnRunning(c, turns[0]);
      StillRunning(TakeTurn(c, turns[0]), turns[1..]);
    }
  }

  lemma {:induction false} TurnRunning(c: Ctx, t: Turn)
    requires c.state == Running && InOrder(TakeTurn(c, t))
    ensures Ended(TakeTurn(c, t).end) || TakeTurn(c, t).state == Running
  {
    hide Acts, Discard, States, Regular, Closing, Complete;
  }

  // ----- The fate of errors -----

  function Raised(r: Option<Error>): seq<Error> {
    if r.Some? then [r.value] else []
  }

  /** Every error raised so far was warned about, but for the one still saved. */
  predicate Accounted(c: Ctx) {
    Warnings(c.trace) + Raised(c.errors.saved) == c.errors.raised
  }

  /** Every error raised so far was warned about, but for the result of the loop. */
  predicate Reported(c: Ctx, result: Option<Error>) {
    Warnings(c.trace) + Raised(result) == c.errors.raised
  }

  function Saves(actions: seq<Action>): nat
    decreases actions
  {
    if actions == [] then 0 else (if actions[0].Save? then 1 else 0) + Saves(actions[1..])
  }

  lemma {:induction false} ActAccounted(c: Ctx, a: Action)
    requires Accounted(c) && (a.Save? ==> c.errors.saved.None?)
    ensures Accounted(Act(c, a))
    ensures Act(c, a).errors.saved.None? <==> c.errors.saved.None? && !a.Save?
  {
    hide Warnings;
    Read(c.trace, State(Act(c, a).state));
    assert Warnings(c.trace) + [] == Warnings(c.trace);
  }

  lemma {:induction false} ActsAccounted(c: Ctx, actions: seq<Action>)
    requires Accounted(c)
    requires Saves(actions) == 0 || (Saves(actions) == 1 && c.errors.saved.None?)
    ensures Accounted(Acts(c, actions)) && Acts(c, actions).end == c.end
    decreases actions
  {
    hide Accounted;
    if actions != [] {
      ActAccounted(c, actions[0]);
      ActsAccounted(Act(c, actions[0]), actions[1..]);
    }
  }

  lemma {:induction false} StateAccounted(c: Ctx, s: ActorState, result: Option<Error>)
    ensures Reported(SetState(c, s), result) == Reported(c, result)
  {
    hide Warnings;
    Read(c.trace, State(s));
  }

  lemma {:induction false} SettleReports(c: Ctx, result: Option<Error>, answer: Answer)
    requires Reported(c, result) && c.errors.saved.None? && c.end == Open && c.state != Unstarted && c.state != Starting
    requires c.state == Running ==> result.None?
    requires !answer.Fail?
    ensures var d := Settle(c, result, answer);
            && (d.end == Open ==> Accounted(d) && d.errors.saved.None? && d.state == Running)
            && (d.end.Returned? ==> Reported(d, d.end.result))
            && !d.end.StopFailed?
  {
    hide Warnings;
    if c.state == Stopping && answer == Continue {
      if result.Some? {
        Read(c.trace, Warn(result.value));
        var d := Log(c, Warn(result.value));
        assert Warnings(d.trace) + [] == Warnings(d.trace);
        StateAccounted(d, Running, None);
      } else {
        StateAccounted(c, Running, None);
      }
    }
  }

  predicate Loops(s: ActorState) {
    s == Running || s == Stopping || s == Stopped
  }

  lemma {:induction false} ActsLoop(c: Ctx, actions: seq<Action>)
    requires Loops(c.state)
    ensures Loops(Acts(c, actions).state)
    decreases actions
  {
    if actions != [] { ActsLoop(Act(c, actions[0]), actions[1..]); }
  }

  /** What holds whenever the loop is about to take a message, and when it has ended, as long
      as handlers save at most one error and `stopping` does not fail. */
  predicate FateOk(c: Ctx) {
    && (c.end == Open ==> Accounted(c) && c.errors.saved.None? && c.state == Running)
    && (c.end == Blocked ==> Accounted(c))
    && (c.end.Returned? ==> Reported(c, c.end.result))
    && !c.end.StopFailed?
  }

  lemma {:induction false} SettledFate(c: Ctx, answer: Answer)
    requires Accounted(c) && Loops(c.state) && c.end == Open && !answer.Fail?
    requires c.state == Running ==> c.errors.saved.None?
    ensures FateOk(Settled(c, answer))
  {
    hide Warnings, Settle;
    if c.state != Running { SettleReports(TakeError(c), c.errors.saved, answer); }
    SettleNeverBlocks(TakeError(c), c.errors.saved, answer);
  }

  lemma {:induction false} SettleNeverBlocks(c: Ctx, result: Option<Error>, answer: Answer)
    requires c.end == Open
    ensures Settle(c, result, answer).end != Blocked
  {
  }

  lemma {:induction false} TurnFate(c: Ctx, t: Turn)
    requires FateOk(c) && c.end == Open
    requires Saves(t.handler.actions) <= 1 && !t.answer.Fail?
    ensures FateOk(TakeTurn(c, t))
  {
    hide Warnings, Acts, Discard, Settled;
    var c1 := c.(box := Enqueue(c.box, t.before));
    if c1.box.queue == [] {
      StateAccounted(c1, Stopped, None);
      SettledFate(SetState(c1, Stopped), t.answer);
    } else {
      var c2 := Begin(c1, t.between);
      ActsAccounted(c2, t.handler.actions);
      ActsLoop(c2, t.handler.actions);
      var c3 := Apply(Acts(c2, t.handler.actions));
      StateAccounted(c3, Stopping, c3.errors.saved);
      SettledFate(StopOnError(c3), t.answer);
    }
  }

  /** Every handler saves at most one error and `stopping` never fails. */
  ghost predicate Careful(turns: seq<Turn>) {
    forall i :: 0 <= i < |turns| ==> Saves(turns[i].handler.actions) <= 1 && !turns[i].answer.Fail?
  }

  lemma {:induction false} LoopFate(c: Ctx, turns: seq<Turn>)
    requires FateOk(c) && Careful(turns)
    ensures FateOk(Loop(c, turns))
    decreases turns
  {
    hide FateOk, TakeTurn, Saves;
    if turns != [] && c.end == Open && c.state == Running {
      TurnFate(c, turns[0]);
      LoopFate(TakeTurn(c, turns[0]), turns[1..]);
    }
  }

  /** Each error that a handler saved is reported exactly once, in the order in which they were
      saved: in a warning while the actor continues, and in the termination report if it stops
      with it. An error of `post_stop` is reported only if no saved error is. */
  lemma {:induction false} ErrorFate(drainable: bool, life: Life)
    requires Careful(life.turns) && life.start == Fine && LoopOf(drainable, life).end.Returned? && life.post != Panics
    ensures var c, last := Live(drainable, life), LoopOf(drainable, life).end.result;
            && c.trace[|c.trace| - 1] == Terminated(if last.None? && life.post.Fails? then Some(life.post.error) else last)
            && Warnings(c.trace) + Raised(last) == c.errors.raised
  {
    hide Warnings, Loop;
    Starts(drainable);
    var c := Start(SetState(New(drainable), Starting), Fine);
    NoWarnings(c);
    LoopFate(c, life.turns);
    var d := Loop(c, life.turns);
    FinishWarnings(d, AsWritten(d.end), life.post);
  }

  /** The end of a life adds no warning. */
  lemma {:induction false} FinishWarnings(c: Ctx, result: Option<Error>, post: Hook)
    ensures Warnings(Finish(c, result, post).trace) == Warnings(c.trace)
  {
    hide Warnings;
    Read(c.trace, State(Stopped));
    var d := EnsureStopped(c);
    Read(d.trace, PostStopCalled);
    var last := Finish(c, result, post);
    var before := last.trace[..|last.trace| - 1];
    assert last.trace == before + [last.trace[|last.trace| - 1]];
    assert before == d.trace || before == Log(d, PostStopCalled).trace;
    Read(before, last.trace[|last.trace| - 1]);
  }

  lemma {:induction false} NoWarnings(c: Ctx)
    requires |c.trace| == 2 && c.trace[0].State? && c.trace[1].State?
    ensures Warnings(c.trace) == []
  {
    Read([], c.trace[0]);
    Read([] + [c.trace[0]], c.trace[1]);
    assert [] + [c.trace[0]] + [c.trace[1]] == c.trace;
  }

  /** The code and its comment agree on the loop's result exactly if `stopping` did not fail, or
      failed with the very error that was saved. */
  lemma {:induction false} WhereRulesAgree(end: LoopEnd)
    ensures AsWritten(end) == AsDocumented(end) <==> !end.StopFailed? || end.saved == Some(end.cause)
  {
  }

  /** The life of an actor under the documented rule. */
  function LiveAsDocumented(drainable: bool, life: Life): Ctx {
    var c := LoopOf(drainable, life);
    if life.start == Fine && Ended(c.end) then Finish(c, AsDocumented(c.end), life.post) else Live(drainable, life)
  }

  /** So whole lives agree exactly if `stopping` did not fail in them, failed with the saved
      error, or `post_stop` hid the difference by a panic or by the very error that was lost. */
  lemma {:induction false} WhereLivesAgree(drainable: bool, life: Life)
    ensures var end := LoopOf(drainable, life).end;
            Live(drainable, life) == LiveAsDocumented(drainable, life) <==>
              || life.start != Fine
              || !end.StopFailed?
              || end.saved == Some(end.cause)
              || life.post.Panics?
              || (end.saved.None? && life.post == Fails(end.cause))
  {
    hide Loop;
    var a, b := Live(drainable, life), LiveAsDocumented(drainable, life);
    assert life.start == Fine && Ended(LoopOf(drainable, life).end) ==> (a.trace[|a.trace| - 1] == b.trace[|b.trace| - 1] <==> a == b);
  }

  predicate EndsWith(c: Ctx, e: Entry) {
    c.trace != [] && c.trace[|c.trace| - 1] == e
  }

  /** A life of one message, whose handler does `actions` and whose `stopping` fails with `f`. */
  function FailingLife(actions: seq<Action>, f: Error): Life {
    Life(Fine, [Turn([User(0)], false, [], Handler(actions, false), Fail(f))], Fine)
  }

  /** If its handler stops the actor, such a life ends where the rules may differ. */
  lemma {:induction false} FailingEnd(actions: seq<Action>, f: Error)
    requires var c := SetState(SetState(New(false), Starting), Running);
             var b := Begin(c.(box := Enqueue(c.box, [User(0)])), []);
             Acts(b, actions).state == Stopping && Acts(b, actions).end == Open && !Acts(b, actions).drain.requested
    ensures var c := SetState(SetState(New(false), Starting), Running);
            var b := Begin(c.(box := Enqueue(c.box, [User(0)])), []);
            LoopOf(false, FailingLife(actions, f)).end == StopFailed(Acts(b, actions).errors.saved, f)
  {
    hide Acts;
    var turns := FailingLife(actions, f).turns;
    var c := SetState(SetState(New(false), Starting), Running);
    assert turns[1..] == [];
    assert Loop(c, turns) == Loop(TakeTurn(c, turns[0]), []);
  }

  /** A saved error is lost: if a handler saves `e` and stops, and `stopping` fails with `f`, the
      code reports `f` and its comment promises `e`. */
  lemma {:induction false} SavedErrorLost(e: Error, f: Error)
    ensures var life := FailingLife([Save(e), Stop], f);
            var c, d := Live(false, life), LiveAsDocumented(false, life);
            && EndsWith(c, Terminated(Some(f)))
            && EndsWith(d, Terminated(Some(e)))
  {
    var actions := [Save(e), Stop];
    assert actions[1..] == [Stop] && actions[1..][1..] == [];
    var c := SetState(SetState(New(false), Starting), Running);
    var b := Begin(c.(box := Enqueue(c.box, [User(0)])), []);
    assert Acts(b, actions) == Acts(SaveError(b, e), [Stop]);
    assert Acts(SaveError(b, e), [Stop]) == SetState(SaveError(b, e), Stopping);
    hide Acts, Loop;
    FailingEnd(actions, f);
  }

  /** An error vanishes: if a handler stops the actor without saving one, and `stopping` fails
      with `f`, the code reports success and its comment promises `f`. */
  lemma {:induction false} StoppingErrorVanishes(f: Error)
    ensures var life := FailingLife([Stop], f);
            var c, d := Live(false, life), LiveAsDocumented(false, life);
            && EndsWith(c, Terminated(None))
            && EndsWith(d, Terminated(Some(f)))
  {
    var actions := [Stop];
    assert actions[1..] == [];
    var c := SetState(SetState(New(false), Starting), Running);
    var b := Begin(c.(box := Enqueue(c.box, [User(0)])), []);
    assert Acts(b, actions) == SetState(b, Stopping);
    hide Acts, Loop;
    FailingEnd(actions, f);
  }

  /** If `stopping` never fails, the loop never ends in a way on which they differ. */
  lemma {:induction false} NoFailNoDifference(c: Ctx, turns: seq<Turn>)
    requires !c.end.StopFailed? && forall i :: 0 <= i < |turns| ==> !turns[i].answer.Fail?
    ensures !Loop(c, turns).end.StopFailed?
    decreases turns
  {
    hide TakeTurn;
    if turns != [] && c.end == Open && c.state == Running {
      TurnFails(c, turns[0]);
      NoFailNoDifference(TakeTurn(c, turns[0]), turns[1..]);
    }
  }

  lemma {:induction false} TurnFails(c: Ctx, t: Turn)
    requires c.end == Open && !t.answer.Fail?
    ensures !TakeTurn(c, t).end.StopFailed?
  {
    hide Acts, Discard;
    if c.box.queue + t.before != [] { ActsEnd(Begin(c.(box := Enqueue(c.box, t.before)), t.between), t.handler.actions); }
  }

  lemma {:induction false} ActsEnd(c: Ctx, actions: seq<Action>)
    ensures Acts(c, actions).end == c.end
    decreases actions
  {
    if actions != [] { ActsEnd(Act(c, actions[0]), actions[1..]); }
  }

  // ----- The account of the mailbox -----

  function Messages(taken: seq<Taken>): seq<Msg>
    decreases taken
  {
    if taken == [] then [] else Messages(taken[..|taken| - 1]) + [taken[|taken| - 1].msg]
  }

  lemma {:induction false} MessagesOfOneMore(taken: seq<Taken>, x: Taken)
    ensures Messages(taken + [x]) == Messages(taken) + [x.msg]
  {
    assert (taken + [x])[..|taken|] == taken;
  }

  /** What left the queue and what is still in it is what was sent, in order. */
  predicate Balanced(b: Box) {
    Messages(b.taken) + b.queue == b.sent
  }

  lemma {:induction false} EnqueueBalanced(b: Box, ms: seq<Msg>)
    requires Balanced(b)
    ensures Balanced(Enqueue(b, ms))
  {
    hide Messages;
    assert Messages(b.taken) + (b.queue + ms) == Messages(b.taken) + b.queue + ms;
  }

  lemma {:induction false} RemoveBalanced(b: Box, x: Taken)
    requires Balanced(b) && b.queue != [] && x.msg == b.queue[0]
    ensures Balanced(Box(b.queue[1..], b.taken + [x], b.sent))
  {
    hide Messages;
    MessagesOfOneMore(b.taken, x);
    assert Messages(b.taken) + [x.msg] + b.queue[1..] == Messages(b.taken) + b.queue;
  }

  function AllDrained(ms: seq<Msg>): seq<Taken> {
    seq(|ms|, i requires 0 <= i < |ms| => Drained(ms[i]))
  }

  /** Discarding as many messages as are queued at least removes just the first ones. */
  lemma {:induction false} DiscardExact(b: Box, n: nat)
    requires n <= |b.queue|
    ensures Discard(b, n) == Box(b.queue[n..], b.taken + AllDrained(b.queue[..n]), b.sent)
    decreases n
  {
    if n == 0 {
      assert b.taken + AllDrained(b.queue[..0]) == b.taken;
    } else {
      var c := TryDiscard(b);
      DiscardExact(c, n - 1);
      assert c.queue[n - 1..] == b.queue[n..];
      assert [Drained(b.queue[0])] + AllDrained(c.queue[..n - 1]) == AllDrained(b.queue[..n]);
      assert c.taken + AllDrained(c.queue[..n - 1]) == b.taken + ([Drained(b.queue[0])] + AllDrained(c.queue[..n - 1]));
    }
  }

  lemma {:induction false} DiscardBalanced(b: Box, n: nat)
    requires Balanced(b)
    ensures Balanced(Discard(b, n))
    decreases n
  {
    hide Balanced;
    if n > 0 {
      if b.queue != [] { RemoveBalanced(b, Drained(b.queue[0])); }
      DiscardBalanced(TryDiscard(b), n - 1);
    }
  }

  /** What arrives while a handler runs. */
  function Arrivals(actions: seq<Action>): seq<Msg>
    decreases actions
  {
    if actions == [] then [] else (if actions[0].Arrive? then [actions[0].msg] else []) + Arrivals(actions[1..])
  }

  lemma {:induction false} EnqueueTwice(b: Box, x: seq<Msg>, y: seq<Msg>)
    ensures Enqueue(Enqueue(b, x), y) == Enqueue(b, x + y)
    ensures Enqueue(b, []) == b
  {
    assert b.queue + x + y == b.queue + (x + y) && b.sent + x + y == b.sent + (x + y);
    assert b.queue + [] == b.queue && b.sent + [] == b.sent;
  }

  lemma {:induction false} ActsBox(c: Ctx, actions: seq<Action>)
    ensures Acts(c, actions).box == Enqueue(c.box, Arrivals(actions))
    ensures Acts(c, actions).drain == c.drain.(requested := c.drain.requested || (c.drain.drainable && Drain in actions))
    decreases actions
  {
    hide Enqueue;
    EnqueueTwice(c.box, [], []);
    if actions != [] {
      var d := Act(c, actions[0]);
      ActsBox(d, actions[1..]);
      assert Drain in actions <==> actions[0] == Drain || Drain in actions[1..];
      EnqueueTwice(c.box, if actions[0].Arrive? then [actions[0].msg] else [], Arrivals(actions[1..]));
    }
  }

  /** A handler runs on a measured queue: a drain that it asks for removes exactly what was
      queued when it began, and nothing that arrived during it. */
  lemma {:induction false} MeasuredDrain(c: Ctx, actions: seq<Action>)
    requires if c.drain.drainable then c.drain.len == |c.box.queue| else !c.drain.requested
    ensures var drained := c.drain.drainable && (c.drain.requested || Drain in actions);
            var d := Apply(Acts(c, actions));
            && d.box.queue == (if drained then Arrivals(actions) else c.box.queue + Arrivals(actions))
            && d.box.taken == c.box.taken + (if drained then AllDrained(c.box.queue) else [])
            && d.box.sent == c.box.sent + Arrivals(actions)
            && !d.drain.requested
  {
    hide Acts, Discard;
    ActsBox(c, actions);
    var d := Acts(c, actions);
    if d.drain.requested {
      assert d.box.queue[..|c.box.queue|] == c.box.queue;
      DiscardExact(d.box, d.drain.len);
    } else {
      assert c.box.taken + [] == c.box.taken;
    }
  }

  /** One message is handled, with a drain if its handler asks for one. */
  lemma {:induction false} DrainExact(c: Ctx, t: Turn)
    requires c.box.queue != [] && !c.drain.requested
    ensures var behind := c.box.queue[1..] + t.between;
            var during := Arrivals(t.handler.actions);
            var drained := c.drain.drainable && Drain in t.handler.actions;
            var d := Apply(Acts(Begin(c, t.between), t.handler.actions));
            && d.box.queue == (if drained then during else behind + during)
            && d.box.taken == c.box.taken + [Dispatched(c.box.queue[0])] + (if drained then AllDrained(behind) else [])
            && d.box.sent == c.box.sent + t.between + during
            && !d.drain.requested
  {
    hide Acts, Apply;
    MeasuredDrain(Begin(c, t.between), t.handler.actions);
  }

  /** The account of the mailbox between two messages: it balances, no drain is pending, and
      without draining every message that left was dispatched. */
  ghost predicate BoxOk(c: Ctx) {
    && Balanced(c.box)
    && (c.end == Open ==> !c.drain.requested)
    && (!c.drain.drainable ==> !c.drain.requested && forall i :: 0 <= i < |c.box.taken| ==> c.box.taken[i].Dispatched?)
  }

  lemma {:induction false} TurnBox(c: Ctx, t: Turn)
    requires BoxOk(c) && c.end == Open
    ensures BoxOk(TakeTurn(c, t)) && TakeTurn(c, t).drain.drainable == c.drain.drainable
  {
    hide Acts, Discard, Balanced;
    EnqueueBalanced(c.box, t.before);
    var c1 := c.(box := Enqueue(c.box, t.before));
    if c1.box.queue != [] {
      RemoveBalanced(c1.box, Dispatched(c1.box.queue[0]));
      EnqueueBalanced(Receive(c1.box), t.between);
      var c2 := Begin(c1, t.between);
      ActsBox(c2, t.handler.actions);
      EnqueueBalanced(c2.box, Arrivals(t.handler.actions));
      var c3 := Acts(c2, t.handler.actions);
      DiscardBalanced(c3.box, c3.drain.len);
    }
  }

  lemma {:induction false} LoopBox(c: Ctx, turns: seq<Turn>)
    requires BoxOk(c)
    ensures BoxOk(Loop(c, turns)) && Loop(c, turns).drain.drainable == c.drain.drainable
    decreases turns
  {
    hide BoxOk, TakeTurn;
    if turns != [] && c.end == Open && c.state == Running {
      TurnBox(c, turns[0]);
      LoopBox(TakeTurn(c, turns[0]), turns[1..]);
    }
  }

  lemma {:induction false} MessageAt(taken: seq<Taken>, i: nat)
    requires i < |taken|
    ensures |Messages(taken)| == |taken| && Messages(taken)[i] == taken[i].msg
    decreases |taken|
  {
    if i < |taken| - 1 { MessageAt(taken[..|taken| - 1], i); }
    else if |taken| > 1 { MessageAt(taken[..|taken| - 1], 0); }
  }

  /** What left the queue was dispatched, in the order in which it was sent. */
  predicate FirstDispatched(b: Box) {
    |b.taken| <= |b.sent| && forall i :: 0 <= i < |b.taken| ==> b.taken[i] == Dispatched(b.sent[i])
  }

  /** In every life, the messages dispatched, drained and still queued are together the messages
      sent, in the order in which they were sent. Without draining none is drained, so those
      dispatched are the first ones sent. */
  lemma {:induction false} MailboxAccount(drainable: bool, life: Life)
    ensures var b := Live(drainable, life).box;
            && Messages(b.taken) + b.queue == b.sent
            && (!drainable ==> FirstDispatched(b))
  {
    hide Loop, Messages;
    var c := Start(SetState(New(drainable), Starting), Fine);
    assert Messages([]) + [] == [] by { NoMessages(); }
    LoopBox(c, life.turns);
    var b := Live(drainable, life).box;
    if life.start == Fine {
      assert b == Loop(c, life.turns).box;
    } else {
      assert b == Box([], [], []);
    }
    if !drainable { BalancedPrefix(b); }
  }

  lemma {:induction false} BalancedPrefix(b: Box)
    requires Balanced(b) && forall i :: 0 <= i < |b.taken| ==> b.taken[i].Dispatched?
    ensures FirstDispatched(b)
  {
    if b.taken != [] { MessageAt(b.taken, 0); }
    forall i | 0 <= i < |b.taken| ensures b.taken[i] == Dispatched(b.sent[i]) {
      MessageAt(b.taken, i);
    }
  }

  lemma {:induction false} NoMessages()
    ensures Messages([]) == []
  {
  }
}
