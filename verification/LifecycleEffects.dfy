/**
 What an actor does, turn by turn and at its end: what the calls of a handler come to, what the
 answer of `stopping` decides, and what is reported.
 */
module LifecycleEffects {
  import opened Wire
  import opened Lifecycle
  import opened LifecycleRuns

  // ----- What a handler leaves behind -----

  /** The state that the last call of `stop` or `terminate` sets, if there is one. */
  function LastCall(actions: seq<Action>): Option<ActorState>
    decreases actions
  {
    if actions == [] then None
    else match actions[|actions| - 1]
      case Stop => Some(Stopping)
      case Terminate => Some(Stopped)
      case _ => LastCall(actions[..|actions| - 1])
  }

  /** The error that was saved last, if any was. */
  function LastSaved(actions: seq<Action>): Option<Error>
    decreases actions
  {
    if actions == [] then None
    else match actions[|actions| - 1]
      case Save(e) => Some(e)
      case _ => LastSaved(actions[..|actions| - 1])
  }

  /** The states that a handler enters, in order. */
  function Entered(actions: seq<Action>): seq<Entry>
    decreases actions
  {
    if actions == [] then []
    else
      Entered(actions[..|actions| - 1]) +
      match actions[|actions| - 1] { case Stop => [State(Stopping)] case Terminate => [State(Stopped)] case _ => [] }
  }

  function First<T>(a: Option<T>, b: Option<T>): Option<T> {
    if a.Some? then a else b
  }

  lemma {:induction false} ActsLast(c: Ctx, actions: seq<Action>)
    requires actions != []
    ensures Acts(c, actions) == Act(Acts(c, actions[..|actions| - 1]), actions[|actions| - 1])
    decreases actions
  {
    hide Act;
    var n := |actions| - 1;
    if n > 0 {
      assert actions[1..][..n - 1] == actions[..n][1..];
      ActsLast(Act(c, actions[0]), actions[1..]);
    } else {
      assert actions[1..] == [] && actions[..0] == [];
    }
  }

  /** A handler leaves its actor in the state that it asked for last, with the error that it saved
      last, and every state that it entered on record. */
  lemma {:induction false} HandlerLeaves(c: Ctx, actions: seq<Action>)
    ensures var d := Acts(c, actions);
            && d.state == (if LastCall(actions).Some? then LastCall(actions).value else c.state)
            && d.errors.saved == First(LastSaved(actions), c.errors.saved)
            && d.trace == c.trace + Entered(actions)
            && d.end == c.end
    decreases actions
  {
    if actions == [] {
      assert c.trace + [] == c.trace;
    } else {
      var n := |actions| - 1;
      HandlerLeaves(c, actions[..n]);
      ActsLast(c, actions);
      hide Acts;
      var e := Entered(actions[..n]);
      assert c.trace + e + [] == c.trace + (e + []);
      assert forall x: Entry :: c.trace + e + [x] == c.trace + (e + [x]);
    }
  }

  // ----- What the answer of `stopping` decides -----

  /** How a loop goes on from `h`, when a message was handled: with `result` as its error. An actor
      that is stopping, or has an error, is asked. It stops with its error, or resumes with a
      warning of it; a stopped one leaves with its error, and a running one goes on. */
  predicate GoesOn(h: Ctx, d: Ctx, result: Option<Error>, answer: Answer) {
    var fell := h.state == Running && result.Some?;
    var trace := if fell then h.trace + [State(Stopping)] else h.trace;
    && d.box == h.box && d.drain == h.drain && d.errors == Errors(None, h.errors.raised)
    && if h.state == Stopping || fell then
         match answer
         case StopNow => d.end == Returned(result) && d.state == Stopping && d.trace == trace
         case Continue =>
           && d.end == Open && d.state == Running
           && d.trace == (if result.Some? then trace + [Warn(result.value)] else trace) + [State(Running)]
         case Fail(e) => d.end == StopFailed(result, e) && d.state == Stopping && d.trace == trace
         case Panic => d.end == Crashed && d.state == Stopping && d.trace == trace
       else
         && d.state == h.state && d.trace == trace
         && d.end == (if h.state == Stopped then Returned(result) else Open)
  }

  /** A turn that takes a message: the loop goes on from what the handler left, after the drain. */
  lemma {:induction false} TurnGoesOn(c: Ctx, t: Turn)
    requires c.state == Running && c.end == Open && c.box.queue + t.before != []
    ensures var c1 := c.(box := Enqueue(c.box, t.before));
            var h, d := Apply(Acts(Begin(c1, t.between), t.handler.actions)), TakeTurn(c, t);
            if t.handler.panics then d.end == Crashed else GoesOn(h, d, h.errors.saved, t.answer)
  {
    hide Acts, Discard, Begin;
    var c1 := c.(box := Enqueue(c.box, t.before));
    BeginKeeps(c1, t.between);
    ActsLoop(Begin(c1, t.between), t.handler.actions);
    ActsEnd(Begin(c1, t.between), t.handler.actions);
  }

  lemma {:induction false} BeginKeeps(c: Ctx, between: seq<Msg>)
    requires c.box.queue != []
    ensures Begin(c, between).state == c.state && Begin(c, between).end == c.end
    ensures Begin(c, between).trace == c.trace && Begin(c, between).errors == c.errors
  {
  }

  /** A whole turn that takes a message, seen from its script. A stopping actor stops with the
      error saved last, or resumes with a warning exactly of it. */
  lemma {:induction false} TurnOutcome(c: Ctx, t: Turn)
    requires c.state == Running && c.end == Open && c.box.queue + t.before != [] && !t.handler.panics
    ensures var d := TakeTurn(c, t);
            var state := if LastCall(t.handler.actions).Some? then LastCall(t.handler.actions).value else Running;
            var saved := First(LastSaved(t.handler.actions), c.errors.saved);
            if state == Stopping || (state == Running && saved.Some?) then
              match t.answer
              case StopNow => d.end == Returned(saved) && d.state == Stopping
              case Continue =>
                && d.end == Open && d.state == Running && d.errors.saved == None
                && d.trace == c.trace + Entered(t.handler.actions)
                     + (if state == Running then [State(Stopping)] else [])
                     + (if saved.Some? then [Warn(saved.value)] else []) + [State(Running)]
              case Fail(e) => d.end == StopFailed(saved, e)
              case Panic => d.end == Crashed
            else if state == Stopped then d.end == Returned(saved) && d.state == Stopped
            else d.end == Open && d.state == Running && d.trace == c.trace + Entered(t.handler.actions)
  {
    hide Acts, Discard, TakeTurn, Begin;
    var c1 := c.(box := Enqueue(c.box, t.before));
    BeginKeeps(c1, t.between);
    TurnGoesOn(c, t);
    var b := Begin(c1, t.between);
    HandlerLeaves(b, t.handler.actions);
    ApplyLeaves(Acts(b, t.handler.actions));
    LastCallLeaves(t.handler.actions);
    var tr := c.trace + Entered(t.handler.actions);
    assert tr + [] == tr;
  }

  lemma {:induction false} ApplyLeaves(c: Ctx)
    ensures Apply(c).state == c.state && Apply(c).errors == c.errors && Apply(c).trace == c.trace && Apply(c).end == c.end
  {
    hide Discard;
  }

  lemma {:induction false} LastCallLeaves(actions: seq<Action>)
    ensures LastCall(actions).Some? ==> LastCall(actions).value == Stopping || LastCall(actions).value == Stopped
    decreases actions
  {
    if actions != [] { LastCallLeaves(actions[..|actions| - 1]); }
  }

  /** A turn without a message: a closed mailbox stops the actor, otherwise the loop is blocked. */
  lemma {:induction false} EmptyTurn(c: Ctx, t: Turn)
    requires c.state == Running && c.end == Open && c.box.queue == [] && t.before == []
    ensures var d := TakeTurn(c, t);
            if t.closed then d.end == Returned(c.errors.saved) && d.state == Stopped && d.trace == c.trace + [State(Stopped)]
            else d == c.(end := Blocked)
  {
    EnqueueTwice(c.box, [], []);
  }

  /** What a turn does to the mailbox: all that arrives is enqueued, the first message waiting is
      dispatched, and a drain removes what waited behind it. */
  lemma {:induction false} TurnMailbox(c: Ctx, t: Turn)
    requires c.state == Running && c.end == Open && !c.drain.requested && c.box.queue + t.before != []
    requires !t.handler.panics
    ensures var waiting := c.box.queue + t.before;
            var behind, during := waiting[1..] + t.between, Arrivals(t.handler.actions);
            var drained := c.drain.drainable && Drain in t.handler.actions;
            var d := TakeTurn(c, t);
            && d.box.sent == c.box.sent + t.before + t.between + during
            && d.box.taken == c.box.taken + [Dispatched(waiting[0])] + (if drained then AllDrained(behind) else [])
            && d.box.queue == (if drained then during else behind + during)
  {
    hide Acts, Apply, TakeTurn, GoesOn, Begin;
    TurnGoesOn(c, t);
    DrainExact(c.(box := Enqueue(c.box, t.before)), t);
    GoesOnBox(c, t);
  }

  lemma {:induction false} GoesOnBox(c: Ctx, t: Turn)
    requires c.box.queue + t.before != [] && !t.handler.panics
    requires var c1 := c.(box := Enqueue(c.box, t.before));
             var h, d := Apply(Acts(Begin(c1, t.between), t.handler.actions)), TakeTurn(c, t);
             GoesOn(h, d, h.errors.saved, t.answer)
    ensures var c1 := c.(box := Enqueue(c.box, t.before));
            TakeTurn(c, t).box == Apply(Acts(Begin(c1, t.between), t.handler.actions)).box
  {
    hide Acts, Apply, TakeTurn, Begin;
  }

  // ----- The loop and the end of a life -----

  /** A loop takes its turns one by one while the actor runs. */
  lemma {:induction false} LoopInTurn(c: Ctx, ts: seq<Turn>, t: Turn)
    ensures var d := Loop(c, ts);
            Loop(c, ts + [t]) == if d.end == Open && d.state == Running then TakeTurn(d, t) else d
    ensures Loop(c, []) == c
    decreases ts
  {
    hide TakeTurn;
    if ts == [] {
      assert ts + [t] == [t] && [t][1..] == [];
    } else {
      assert (ts + [t])[1..] == ts[1..] + [t];
      if c.end == Open && c.state == Running { LoopInTurn(TakeTurn(c, ts[0]), ts[1..], t); }
    }
  }

  /** The last state of a life that is about to end. */
  function StoppedEntry(c: Ctx): seq<Entry> {
    if c.state == Stopped then [] else [State(Stopped)]
  }

  /** What the loop stops with: nothing is left of a saved error when `stopping` failed. */
  function LoopError(end: LoopEnd): Option<Error> {
    match end
    case Returned(r) => r
    case StopFailed(saved, e) => if saved.None? then None else Some(e)
    case _ => None
  }

  /** The whole record of a life: how it starts, and what its end adds to the record of its loop. A
      panic is reported as a panic, wherever it happened; otherwise the error of the loop is
      reported, or else the one of `post_stop`. */
  lemma {:induction false} LifeRecord(drainable: bool, life: Life)
    ensures var c, l := Live(drainable, life), LoopOf(drainable, life);
            match life.start
            case Fails(e) => c.trace == [State(Starting), State(Stopped), Terminated(Some(e))]
            case Panics => c.trace == [State(Starting), State(Stopped), Panicked]
            case Fine =>
              if !Ended(l.end) then c == l
              else if l.end == Crashed then c.trace == l.trace + StoppedEntry(l) + [Panicked]
              else
                c.trace == l.trace + StoppedEntry(l) + [PostStopCalled] + [
                  match life.post
                  case Panics => Panicked
                  case Fails(e) => Terminated(First(LoopError(l.end), Some(e)))
                  case Fine => Terminated(LoopError(l.end))]
    ensures Loop(Start(SetState(New(drainable), Starting), Fine), []).trace == [State(Starting), State(Running)]
  {
    hide Loop;
    var l := LoopOf(drainable, life);
    assert Loop(Start(SetState(New(drainable), Starting), Fine), []) == Start(SetState(New(drainable), Starting), Fine) by {
      LoopInTurn(Start(SetState(New(drainable), Starting), Fine), [], Turn([], false, [], Handler([], false), StopNow));
    }
    assert l.trace + [] == l.trace;
  }
}
