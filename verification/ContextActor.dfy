/**
 The default context in its own form: fields updated in place, and the loops of the drain, of
 the message loop and of the whole run.
 */
module ContextActor {
  import opened Wire
  import opened Lifecycle

  class Context {
    const drainable: bool
    var state: ActorState
    var error: Option<Error>
    var mailboxLen: nat
    var requested: bool
    var queue: seq<Msg>
    var trace: seq<Entry>
    ghost var end: LoopEnd
    ghost var raised: seq<Error>
    ghost var taken: seq<Taken>
    ghost var sent: seq<Msg>

    ghost function Mailbox(): Box
      reads this
    {
      Box(queue, taken, sent)
    }

    ghost function Snapshot(): Ctx
      reads this
    {
      Ctx(state, Errors(error, raised), DrainState(drainable, mailboxLen, requested), Mailbox(), trace, end)
    }

    constructor (drainable: bool)
      ensures this.drainable == drainable && Snapshot() == New(drainable)
    {
      this.drainable := drainable;
      state, error, mailboxLen, requested, queue, trace := Unstarted, None, 0, false, [], [];
      end, raised, taken, sent := Open, [], [], [];
    }

    method SetState(s: ActorState)
      modifies this`state, this`trace
      ensures Snapshot() == Lifecycle.SetState(old(Snapshot()), s)
    {
      state := s;
      Notify(State(s));
    }

    method Notify(e: Entry)
      modifies this`trace
      ensures trace == old(trace) + [e]
    {
      trace := trace + [e];
    }

    method SaveError(e: Error)
      modifies this`error, this`raised
      ensures error == Some(e) && raised == old(raised) + [e]
    {
      error, raised := Some(e), raised + [e];
    }

    method TakeError() returns (e: Option<Error>)
      modifies this`error
      ensures e == old(error) && error == None
    {
      e, error := error, None;
    }

    /** A sender puts a message into the mailbox. */
    method Deliver(ms: seq<Msg>)
      modifies this`queue, this`sent
      ensures Mailbox() == Enqueue(old(Mailbox()), ms)
    {
      queue, sent := queue + ms, sent + ms;
    }

    method TryRecv() returns (m: Option<Msg>)
      modifies this`queue, this`taken
      ensures m.None? <==> old(queue) == []
      ensures Mailbox() == TryDiscard(old(Mailbox()))
    {
      if queue == [] { return None; }
      m := Some(queue[0]);
      queue, taken := queue[1..], taken + [Drained(queue[0])];
    }

    method DrainMailbox()
      requires drainable
      modifies this`requested
      ensures requested
    {
      requested := true;
    }

    /** Discards the messages that the last snapshot counted; all of them are there. */
    method ApplyDrain()
      requires requested ==> mailboxLen <= |queue|
      modifies this`queue, this`taken, this`requested
      ensures Snapshot() == Apply(old(Snapshot()))
    {
      if requested {
        for i := 0 to mailboxLen
          invariant mailboxLen - i <= |queue|
          invariant Discard(Mailbox(), mailboxLen - i) == Discard(old(Mailbox()), mailboxLen)
        {
          var m := TryRecv();
          assert m.Some?;
        }
        requested := false;
      }
    }

    method Perform(a: Action)
      modifies this`state, this`trace, this`error, this`raised, this`requested, this`queue, this`sent
      ensures Snapshot() == Act(old(Snapshot()), a)
      ensures |queue| >= |old(queue)| && (!drainable ==> requested == old(requested))
    {
      match a
      case Stop => SetState(Stopping);
      case Terminate => SetState(Stopped);
      case Save(e) => SaveError(e);
      case Drain => if drainable { DrainMailbox(); }
      case Arrive(m) => Deliver([m]);
    }

    /** Runs a handler; messages may arrive while it runs. */
    method Handle(h: Handler)
      modifies this`state, this`trace, this`error, this`raised, this`requested, this`queue, this`sent
      ensures Snapshot() == Acts(old(Snapshot()), h.actions)
      ensures |queue| >= |old(queue)| && (!drainable ==> requested == old(requested))
    {
      var i := 0;
      while i < |h.actions|
        invariant 0 <= i <= |h.actions| && |queue| >= |old(queue)| && (!drainable ==> requested == old(requested))
        invariant Acts(Snapshot(), h.actions[i..]) == Acts(old(Snapshot()), h.actions)
      {
        OneAction(Snapshot(), h.actions, i);
        Perform(h.actions[i]);
        i := i + 1;
      }
    }

    /** Takes the next message off the mailbox and measures what is queued behind it. */
    method Recv(between: seq<Msg>)
      requires queue != []
      modifies this`queue, this`taken, this`sent, this`mailboxLen
      ensures Snapshot() == Begin(old(Snapshot()), between) && (drainable ==> mailboxLen == |queue|)
    {
      queue, taken := queue[1..], taken + [Dispatched(queue[0])];
      Deliver(between);
      if drainable { mailboxLen := |queue|; }
    }

    /** Asks a stopping actor what to do; `result` is the error it stops with. */
    method Resolve(result: Option<Error>, answer: Answer) returns (r: LoopResult)
      modifies this`state, this`trace, this`end
      ensures Snapshot() == Settle(old(Snapshot()), result, answer)
      ensures old(end) == Open ==> r == ResultOf(end)
    {
      r := Going;
      match state
      case Stopping =>
        match answer {
          case StopNow => r, end := Done(result), Returned(result);
          case Continue =>
            if result.Some? { Notify(Warn(result.value)); }
            SetState(Running);
          case Fail(e) => r, end := Done(Or(result, Some(e))), StopFailed(result, e);
          case Panic => r, end := Unwound, Crashed;
        }
      case Stopped => r, end := Done(result), Returned(result);
      case _ =>
    }

    /** Takes a message and runs its handler; an error that it saved stops the actor. */
    method Process(t: Turn)
      requires queue != [] && end == Open && (!drainable ==> !requested)
      modifies this
      ensures var c := Acts(Begin(old(Snapshot()), t.between), t.handler.actions);
              Snapshot() == if t.handler.panics then c.(end := Crashed) else StopOnError(Apply(c))
      ensures !drainable ==> !requested
      ensures end == if t.handler.panics then Crashed else Open
    {
      hide Acts, Discard, Begin;
      Recv(t.between);
      Handle(t.handler);
      if t.handler.panics {
        end := Crashed;
        return;
      }
      ApplyDrain();
      if error.Some? && state == Running { SetState(Stopping); }
    }

    method AfterMessage(answer: Answer) returns (r: LoopResult)
      requires end == Open
      modifies this`state, this`trace, this`end, this`error
      ensures Snapshot() == Settled(old(Snapshot()), answer)
      ensures r == ResultOf(end)
    {
      hide Settle;
      r := Going;
      if state == Stopping || state == Stopped {
        var result := TakeError();
        r := Resolve(result, answer);
      }
    }

    /** One turn of the message loop. */
    method TakeTurn(t: Turn) returns (r: LoopResult)
      requires state == Running && end == Open && (!drainable ==> !requested)
      modifies this
      ensures Snapshot() == Lifecycle.TakeTurn(old(Snapshot()), t)
      ensures r == ResultOf(end)
      ensures !drainable ==> !requested
    {
      hide Acts, Begin, StopOnError, Apply, Settled;
      Deliver(t.before);
      if queue == [] {
        if !t.closed {
          end := Blocked;
          return Waiting;
        }
        SetState(Stopped);
      } else {
        Process(t);
        if t.handler.panics { return Unwound; }
      }
      r := AfterMessage(t.answer);
    }

    /** The message loop, as far as the script goes. */
    method RunLoop(turns: seq<Turn>) returns (r: LoopResult)
      requires state == Running && end == Open && (!drainable ==> !requested)
      modifies this
      ensures Snapshot() == Loop(old(Snapshot()), turns) && r == ResultOf(end)
    {
      r := Going;
      var i := 0;
      while i < |turns| && r == Going && state == Running
        invariant 0 <= i <= |turns| && r == ResultOf(end) && (!drainable ==> !requested)
        invariant Loop(Snapshot(), turns[i..]) == Loop(old(Snapshot()), turns)
      {
        OneTurn(Snapshot(), turns, i);
        r := TakeTurn(turns[i]);
        i := i + 1;
      }
    }

    /** The end of a run: stop, run `post_stop` unless the loop panicked, report. */
    method End(r: LoopResult, post: Hook)
      requires Ended(end) && r == ResultOf(end)
      modifies this`state, this`trace
      ensures Snapshot() == Finish(old(Snapshot()), AsWritten(end), post)
    {
      if state != Stopped { SetState(Stopped); }
      if r == Unwound {
        Notify(Panicked);
        return;
      }
      Notify(PostStopCalled);
      match post
      case Panics => Notify(Panicked);
      case Fails(e) => Notify(Terminated(if r.result.Some? then r.result else Some(e)));
      case Fine => Notify(Terminated(r.result));
    }

    /** The part of a run before the message loop. */
    method BeginRun(start: Hook) returns (ok: bool)
      modifies this`state, this`trace
      ensures Snapshot() == Start(old(Snapshot()), start) && ok == (start == Fine)
    {
      ok := start == Fine;
      if ok { SetState(Running); return; }
      SetState(Stopped);
      Notify(if start == Panics then Panicked else Terminated(Some(start.error)));
    }

    /** Spawns an actor on this fresh context: if `pre_start` fails, nothing happens. */
    method Spawn(pre: Hook, life: Life) returns (spawned: bool)
      requires Snapshot() == New(drainable)
      modifies this
      ensures spawned == (pre == Fine)
      ensures Snapshot() == if spawned then Live(drainable, life) else New(drainable)
    {
      hide Loop, Finish;
      if pre != Fine { return false; }
      SetState(Starting);
      var ok := BeginRun(life.start);
      if ok {
        var r := RunLoop(life.turns);
        if r.Done? || r.Unwound? { End(r, life.post); }
      }
      return true;
    }
  }

  /** How the loop ended: with a result, by a panic, or not yet. */
  datatype LoopResult = Going | Waiting | Done(result: Option<Error>) | Unwound

  /** `Result::or`: the other result if this one is an error. */
  function Or(a: Option<Error>, b: Option<Error>): Option<Error> {
    if a.Some? then b else None
  }

  function ResultOf(end: LoopEnd): LoopResult {
    match end
    case Open => Going
    case Blocked => Waiting
    case Crashed => Unwound
    case _ => Done(AsWritten(end))
  }

  lemma {:induction false} OneAction(c: Ctx, actions: seq<Action>, i: nat)
    requires i < |actions|
    ensures Acts(c, actions[i..]) == Acts(Act(c, actions[i]), actions[i + 1..])
  {
    assert actions[i..][1..] == actions[i + 1..];
  }

  lemma {:induction false} OneTurn(c: Ctx, turns: seq<Turn>, i: nat)
    requires i < |turns| && c.end == Open && c.state == Running
    ensures Loop(c, turns[i..]) == Loop(Lifecycle.TakeTurn(c, turns[i]), turns[i + 1..])
  {
    assert turns[i..][1..] == turns[i + 1..];
  }
}
