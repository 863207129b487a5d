/**
 What the steps of a session achieve: what is sent, delivered, decided and resolved by each, and
 what they achieve together in whole runs.
 */
module SessionEffects {
  import opened Wire
  import opened Values
  import opened Requests
  import opened Places
  import opened Network
  import opened Correlation
  import opened Sessions
  import Codec = Codecs

  // ----- Tasks -----

  /** The task of a request is done with `reply`, and `fate` is recorded; nothing else changes. */
  ghost predicate DecidedAs(e: Endpoint, e': Endpoint, k: nat, fate: Fate, reply: Reply, ran: bool)
    requires k in e.tasks
  {
    var t := e.tasks[k];
    e' == e.(tasks := e.tasks[k := Task(t.req, t.tag, Done(reply))],
             log := e.log.(handled := e.log.handled[t.req := fate],
                           runs := if ran then e.log.runs + [t.req] else e.log.runs))
  }

  /** A message waits at its actor. The handler that runs on what its bytes decode to and answers
      makes its result the reply; one that does not answer, bytes that do not decode, an unknown
      id and an actor that does not take the message make errors. */
  lemma {:induction false} AnswerIsTheReply(sigs: Sigs, e: Endpoint, k: nat, c: Choice)
    requires TaskEnabled(sigs, e, k, c) && e.tasks[k].stage.Waiting?
    ensures var e', request := StepTask(sigs, e, k, c), e.tasks[k].stage.request;
            if !c.ok then DecidedAs(e, e', k, Refused(NO_ANSWER), Err(NO_ANSWER), false)
            else if !(request.ActorCall? && request.actor in sigs.actors && request.msgId in sigs.actors[request.actor]) then
              DecidedAs(e, e', k, Refused("unknown message id"), Err("unknown message id"), false)
            else
              var sig := sigs.actors[request.actor][request.msgId];
              match Codec.Decode(sigs.kind, Slice(c.addr, request.bytes), sig.msg)
              case None => DecidedAs(e, e', k, Undecodable(c.addr), Err(NOT_DECODED), false)
              case Some(m) =>
                if c.answers then
                  Typed(c.result, sig.res) &&
                  DecidedAs(e, e', k, Answered(c.addr, m, c.result), Ok(Codec.Encoding(sigs.kind, c.result, sig.res)), true)
                else DecidedAs(e, e', k, Mute(c.addr, m), Err(NO_ANSWER), true)
  {
    hide Codec.Decode, Codec.Encoding, Codec.EncodedLen;
  }

  /** A message is forwarded exactly if its actor is found and takes it. */
  lemma {:induction false} ForwardEffect(sigs: Sigs, e: Endpoint, k: nat, c: Choice)
    requires TaskEnabled(sigs, e, k, c) && e.tasks[k].stage.Forwarding?
    ensures var t, e' := e.tasks[k], StepTask(sigs, e, k, c);
            if t.stage.found && c.ok then e' == e.(tasks := e.tasks[k := Task(t.req, t.tag, Waiting(t.stage.request))])
            else DecidedAs(e, e', k, Refused("could not forward the message"), Err("could not forward the message"), false)
  {
  }

  /** A creation is answered with what the actor manager says, and a finished task hands its reply
      to its session, if that still runs. */
  lemma {:induction false} FinishEffect(sigs: Sigs, e: Endpoint, k: nat, c: Choice)
    requires TaskEnabled(sigs, e, k, c) && (e.tasks[k].stage.Creating? || e.tasks[k].stage.Done?)
    ensures var t, e' := e.tasks[k], StepTask(sigs, e, k, c);
            if t.stage.Creating? then DecidedAs(e, e', k, NodeReply(c.bytes), Ok(c.bytes), false)
            else e' == e.(tasks := e.tasks - {k},
                          mailbox := if e.running then e.mailbox + [Finished(t.req, t.tag, t.stage.reply)] else e.mailbox)
  {
  }

  // ----- Mails and frames -----

  /** What a session sends for a mail: nothing for a cleanup request, one frame for all others if
      the connection takes it. */
  lemma {:induction false} MailSends(e: Endpoint, now: nat, ok: bool)
    requires e.mailbox != []
    ensures var m, e' := e.mailbox[0], HandleMail(e, now, ok);
            && e'.mailbox == e.mailbox[1..]
            && (m.RequireCleanup? ==> e'.clock.cleanup && e'.out == e.out)
            && (!m.RequireCleanup? ==>
                  && e'.clock == e.clock
                  && |e'.out| == |e.out| + (if ok then 1 else 0) && e.out <= e'.out
                  && (ok ==> match m
                        case Outgoing(call, _) => e'.out[|e.out|] == Ask(e.table.issued, e.table.tag, call.request)
                        case OutgoingCast(cast) => e'.out[|e.out|] == Tell(|e.log.casts|, cast)
                        case Finished(req, tag, reply) => e'.out[|e.out|] == Response(req, tag, reply)))
  {
    hide Issue;
  }

  /** What a session does for a frame: an untagged message is delivered exactly if its mailbox is
      found, a lookup is answered, and other requests get a task. */
  lemma {:induction false} FrameDoes(e: Endpoint, f: Frame, found: bool, bytes: Bytes, ok: bool)
    requires HasChannels(e.table)
    ensures var e' := HandleFrame(e, f, found, bytes, ok);
            && (f.Tell? ==> e' == e.(log := e.log.(delivered := if found then e.log.delivered + [Told(f.n, f.cast)] else e.log.delivered)))
            && (f.Ask? && f.request.GetActor? ==>
                  && e'.tasks == e.tasks && e'.log.handled == e.log.handled[f.req := NodeReply(bytes)]
                  && e'.out == (if ok then e.out + [Response(f.req, f.tag, Ok(bytes))] else e.out))
            && (f.Ask? && !f.request.GetActor? ==>
                  && e'.out == e.out && e'.log.handled == e.log.handled && e'.spawned == e.spawned + 1
                  && e'.tasks == e.tasks[e.spawned := Task(f.req, f.tag,
                       if f.request.ActorCall? then Forwarding(f.request, found) else Creating)])
  {
    hide Respond;
  }

  /** What happens to a session from outside its handlers, and nothing else: it stops with nothing
      pending and takes no more mail, a timer that fires asks it for a cleanup, a cleanup lowers the
      flag and starts the next timer, receivers are dropped, frames are lost, time passes. */
  lemma {:induction false} ClockDoes(w: World, st: Step)
    requires Enabled(w, st) && Consistent(w)
    ensures var w' := Do(w, st);
            match st
            case StopSession(s) =>
              var e := w'.At(s);
              !e.running && e.mailbox == [] && e.table.pending == map[] && w'.At(!s) == w.At(!s)
            case TimerFires(s, i) =>
              var e, e' := w.At(s), w'.At(s);
              && e'.clock == e.clock.(timers := e.clock.timers[..i] + e.clock.timers[i + 1..])
              && e'.mailbox == (if e.running then e.mailbox + [RequireCleanup] else e.mailbox) && w'.At(!s) == w.At(!s)
            case Cleanup(s) =>
              var e, e' := w.At(s), w'.At(s);
              && !e'.clock.cleanup && e'.clock.timers == e.clock.timers + [w.now + 15]
              && e'.mailbox == e.mailbox && w'.At(!s) == w.At(!s)
            case DropReceiver(s, req) => !w'.At(s).table.channels[req].rxOpen && w'.At(!s) == w.At(!s)
            case LoseFrames(s, keep) => w' == w.With(s, w.At(s).(out := w.At(s).out[..keep]))
            case Tick => w' == World(w.now + 1, w.leftSigs, w.rightSigs, w.left, w.right)
            case _ => true
  {
    hide HandleMail, HandleFrame, StepTask, HasChannels, OutgoingCall, TaskEnabled;
  }

  // ----- Timeouts are not early -----

  /** Request `r` was issued at `t0`: it is pending since then, and is not timed out before it is
      60 seconds old. */
  ghost predicate Young(w: World, side: bool, r: nat, t0: nat) {
    var t := w.At(side).table;
    && r < t.issued
    && match PlaceOf(t, r)
       case Pending(since) => since == t0
       case Resolved(o) => o == TimedOut ==> t0 + 60 <= w.now
       case _ => true
  }

  lemma {:induction false} StepYoung(w: World, st: Step, side: bool, r: nat, t0: nat)
    requires Inv(w) && Enabled(w, st) && Consistent(w) && Young(w, side, r, t0)
    ensures Young(Do(w, st), side, r, t0)
  {
    hide Dir, HandleMail, HandleFrame, StepTask, Issue, Respond, Sweep, Requests.Stop, Close, HasChannels, OutgoingCall, TaskEnabled, Valid, PlaceOf;
    var e := w.At(side);
    var t := e.table;
    InvValid(w);
    if st.Mailbox? && st.side == side {
      MailFields(e, w.now, st.ok);
      if e.mailbox[0].Outgoing? { IssuePlaces(t, w.now, st.ok, e.mailbox[0].rxOpen, r); }
    } else if st.Receive? && st.side == side {
      var f := w.At(!side).out[0];
      FrameFields(e, f, st.found, st.bytes, st.ok);
      if f.Response? { RespondPlaces(t, f.tag, f.reply, r); }
    } else if st.TaskMoves? && st.side == side {
      TaskFields(w.Serves(side), e, st.k, st.choice);
    } else if (st.Cleanup? || st.StopSession? || st.DropReceiver?) && st.side == side {
      OwnYoung(w, st, r, t0);
    }
  }

  lemma {:induction false} OwnYoung(w: World, st: Step, r: nat, t0: nat)
    requires Enabled(w, st) && Consistent(w) && (st.Cleanup? || st.StopSession? || st.DropReceiver?)
    requires Valid(w.At(st.side).table) && Young(w, st.side, r, t0)
    ensures Young(Do(w, st), st.side, r, t0)
  {
    hide Sweep, Requests.Stop, Close, HasChannels, Valid, PlaceOf;
    var t := w.At(st.side).table;
    SweepPlaces(t, w.now, r);
    StopPlaces(t, r);
    if st.DropReceiver? { ClosePlaces(t, st.req, r); }
  }

  lemma {:induction false} RunYoung(w: World, steps: seq<Step>, w': World, side: bool, r: nat, t0: nat)
    requires Inv(w) && Reaches(w, steps, w') && Young(w, side, r, t0)
    ensures Young(w', side, r, t0)
    decreases steps
  {
    hide Inv, Enabled, Consistent, Do, Young;
    if steps != [] {
      StepKeeps(w, steps[0]);
      StepYoung(w, steps[0], side, r, t0);
      RunYoung(Do(w, steps[0]), steps[1..], w', side, r, t0);
    }
  }

  /** In every run, a request that its session issued at some moment is not resolved with a timeout
      before it is 60 seconds old. */
  lemma {:induction false} NoEarlyTimeout(w: World, st: Step, steps: seq<Step>, w': World)
    requires Inv(w) && Enabled(w, st) && Consistent(w) && st.Mailbox? && w.At(st.side).mailbox[0].Outgoing?
    requires Reaches(Do(w, st), steps, w')
    ensures var r, t := w.At(st.side).table.issued, w'.At(st.side).table;
            r in t.channels && (t.channels[r].sent == Some(TimedOut) ==> w.now + 60 <= w'.now)
  {
    hide Dir, HandleMail, Issue, PlaceOf, Valid, Reaches;
    var e := w.At(st.side);
    var r := e.table.issued;
    InvValid(w);
    MailFields(e, w.now, st.ok);
    IssuePlaces(e.table, w.now, st.ok, e.mailbox[0].rxOpen, r);
    StepKeeps(w, st);
    RunYoung(Do(w, st), steps, w', st.side, r, w.now);
    RunInv(Do(w, st), steps, w');
    ResolvedPlace(w', st.side, r);
  }

  lemma {:induction false} ResolvedPlace(w: World, side: bool, r: nat)
    requires Inv(w) && r < w.At(side).table.issued
    ensures var t := w.At(side).table;
            r in t.channels && (t.channels[r].sent.Some? ==> PlaceOf(t, r) == Resolved(t.channels[r].sent.value))
  {
    hide Dir, TagOf;
    InvValid(w);
    var t := w.At(side).table;
    assert ExactlyOne(IsPending(t, r), IsResolved(t, r), r in t.losses);
  }
}
