/**
 What sessions achieve in whole runs: a send over an idle connection completes, and without
 losses every untagged message arrives.
 */
module SessionRuns {
  import opened Wire
  import opened Values
  import opened Requests
  import opened Places
  import opened Network
  import opened Correlation
  import opened Sessions
  import opened SessionEffects
  import Codec = Codecs

  // ----- Untagged messages without losses -----

  /** A step in which the connection takes every frame and loses none, and every mailbox is
      found. */
  predicate Lossless(st: Step) {
    match st
    case Mailbox(_, ok) => ok
    case Receive(_, found, _, _) => found
    case LoseFrames(_, _) => false
    case _ => true
  }

  ghost predicate AllLossless(steps: seq<Step>) {
    forall i :: 0 <= i < |steps| ==> Lossless(steps[i])
  }

  /** The untagged messages on their way, in order. */
  function Tells(out: seq<Frame>): seq<Told>
    decreases out
  {
    if out == [] then [] else (if out[0].Tell? then [Told(out[0].n, out[0].cast)] else []) + Tells(out[1..])
  }

  function Numbered(casts: seq<Cast>): seq<Told> {
    seq(|casts|, i requires 0 <= i < |casts| => Told(i, casts[i]))
  }

  lemma {:induction false} TellsMore(out: seq<Frame>, f: Frame)
    ensures Tells(out + [f]) == Tells(out) + (if f.Tell? then [Told(f.n, f.cast)] else [])
    decreases out
  {
    if out == [] {
      assert ([] + [f])[1..] == [];
    } else {
      assert (out + [f])[1..] == out[1..] + [f] && (out + [f])[0] == out[0];
      TellsMore(out[1..], f);
      var head := if out[0].Tell? then [Told(out[0].n, out[0].cast)] else [];
      var last := if f.Tell? then [Told(f.n, f.cast)] else [];
      assert Tells(out) == head + Tells(out[1..]);
      assert head + (Tells(out[1..]) + last) == head + Tells(out[1..]) + last;
    }
  }

  /** What was delivered and what is on its way are together all messages that were handled. */
  ghost predicate AllThere(e: Endpoint, p: Endpoint) {
    p.log.delivered + Tells(e.out) == Numbered(e.log.casts)
  }

  lemma {:induction false} SameThere(e: Endpoint, p: Endpoint, e': Endpoint, p': Endpoint)
    requires AllThere(e, p) && e'.out == e.out && e'.log.casts == e.log.casts && p'.log.delivered == p.log.delivered
    ensures AllThere(e', p')
  {
    hide Tells, Numbered;
  }

  lemma {:induction false} MailThere(e: Endpoint, p: Endpoint, now: nat)
    requires AllThere(e, p) && e.mailbox != []
    ensures AllThere(HandleMail(e, now, true), p)
    ensures HandleMail(e, now, true).log.delivered == e.log.delivered
  {
    hide Tells, Numbered, Issue;
    var m := e.mailbox[0];
    if !m.RequireCleanup? { TellsMore(e.out, FrameOf(e, m)); }
    if m.OutgoingCast? { NumberedMore(e.log.casts, m.cast); }
    var d, t := p.log.delivered, Tells(e.out);
    if m.OutgoingCast? {
      assert d + (t + [Told(|e.log.casts|, m.cast)]) == (d + t) + [Told(|e.log.casts|, m.cast)];
    } else {
      assert t + [] == t;
    }
  }

  lemma {:induction false} NumberedMore(casts: seq<Cast>, cast: Cast)
    ensures Numbered(casts + [cast]) == Numbered(casts) + [Told(|casts|, cast)]
  {
  }

  /** `p` receives the first frame of `e`, with its mailbox found. */
  lemma {:induction false} FrameThere(e: Endpoint, p: Endpoint, bytes: Bytes, ok: bool)
    requires AllThere(e, p) && e.out != [] && HasChannels(p.table)
    ensures AllThere(e.(out := e.out[1..]), HandleFrame(p, e.out[0], true, bytes, ok))
  {
    hide Numbered, Respond, HasChannels;
    var f := e.out[0];
    var rest := Tells(e.out[1..]);
    if f.Tell? {
      assert p.log.delivered + ([Told(f.n, f.cast)] + rest) == p.log.delivered + [Told(f.n, f.cast)] + rest;
    }
  }

  /** As a sender of untagged messages, the receiver of a frame only ever adds a response. */
  lemma {:induction false} ReceiverThere(e: Endpoint, p: Endpoint, f: Frame, found: bool, bytes: Bytes, ok: bool)
    requires AllThere(e, p) && HasChannels(e.table)
    ensures AllThere(HandleFrame(e, f, found, bytes, ok), p)
  {
    hide Tells, Numbered, Respond, HasChannels;
    if f.Ask? {
      TellsMore(e.out, Response(f.req, f.tag, Ok(bytes)));
      assert Tells(e.out) + [] == Tells(e.out);
    }
  }

  lemma {:induction false} StepThere(w: World, st: Step, side: bool)
    requires Enabled(w, st) && Consistent(w) && Lossless(st) && AllThere(w.At(side), w.At(!side))
    ensures AllThere(Do(w, st).At(side), Do(w, st).At(!side))
  {
    hide AllThere, HandleMail, HandleFrame, StepTask, HasChannels, Sweep, Requests.Stop, Close, OutgoingCall, TaskEnabled;
    var e, p := w.At(side), w.At(!side);
    var e', p' := Do(w, st).At(side), Do(w, st).At(!side);
    if st.Mailbox? {
      if st.side == side {
        MailThere(e, p, w.now);
      } else {
        MailDelivers(p, w.now);
        SameThere(e, p, e', p');
      }
    } else if st.Receive? {
      if st.side == side {
        ReceiverThere(e, p, p.out[0], st.found, st.bytes, st.ok);
        SameThere(HandleFrame(e, p.out[0], st.found, st.bytes, st.ok), p, e', p');
      } else {
        FrameThere(e, p, st.bytes, st.ok);
      }
    } else if st.TaskMoves? {
      TaskDelivers(w.Serves(st.side), w.At(st.side), st.k, st.choice);
      SameThere(e, p, e', p');
    } else {
      SameThere(e, p, e', p');
    }
  }

  lemma {:induction false} MailDelivers(e: Endpoint, now: nat)
    requires e.mailbox != []
    ensures HandleMail(e, now, true).log.delivered == e.log.delivered
  {
    hide Issue;
  }

  lemma {:induction false} TaskDelivers(sigs: Sigs, e: Endpoint, k: nat, c: Choice)
    requires TaskEnabled(sigs, e, k, c)
    ensures var e' := StepTask(sigs, e, k, c);
            e'.out == e.out && e'.log.casts == e.log.casts && e'.log.delivered == e.log.delivered
  {
    hide TaskFate, ReplyOf;
  }

  lemma {:induction false} RunThere(w: World, steps: seq<Step>, w': World, side: bool)
    requires Reaches(w, steps, w') && AllLossless(steps) && AllThere(w.At(side), w.At(!side))
    ensures AllThere(w'.At(side), w'.At(!side))
    decreases steps
  {
    hide AllThere, Enabled, Consistent, Do, Lossless;
    if steps != [] {
      StepThere(w, steps[0], side);
      RunThere(Do(w, steps[0]), steps[1..], w', side);
    }
  }

  /** In every run without losses, the untagged messages delivered and those on their way are
      together exactly the messages that the sending session handled, in order. */
  lemma {:induction false} UntaggedComplete(w: World, steps: seq<Step>, w': World, side: bool)
    requires Started(w) && Reaches(w, steps, w') && AllLossless(steps)
    ensures w'.At(!side).log.delivered + Tells(w'.At(side).out) == Numbered(w'.At(side).log.casts)
  {
    hide Reaches, Tells;
    assert Tells([]) == [] by { NoTells(); }
    RunThere(w, steps, w', side);
  }

  lemma {:induction false} NoTells()
    ensures Tells([]) == []
  {
  }

  // ----- A send over an idle connection -----

  /** Both sessions run and are not about to sweep, and nothing is queued or on its way. */
  predicate Idle(w: World) {
    && CanHandle(w.left) && w.left.mailbox == [] && w.left.out == []
    && CanHandle(w.right) && w.right.mailbox == [] && w.right.out == []
  }

  lemma {:induction false} OneStep(w: World, st: Step)
    requires Inv(w) && Enabled(w, st)
    ensures Consistent(w) && Reaches(w, [st], Do(w, st)) && Inv(Do(w, st))
    ensures Do(w, st).leftSigs == w.leftSigs && Do(w, st).rightSigs == w.rightSigs
  {
    hide Inv, Enabled, HandleMail, HandleFrame, StepTask, Sweep, Close, Requests.Stop, OutgoingCall, HasChannels;
    InvConsistent(w);
    StepKeeps(w, st);
    assert [st][1..] == [];
  }

  /** The call is made, taken and sent. */
  lemma {:induction false} CallGoesOut(w: World, side: bool, actor: nat, msgId: nat, msg: Value)
    returns (steps: seq<Step>, w': World, call: Call)
    requires Inv(w) && Idle(w) && Enabled(w, Submit(side, actor, msgId, msg))
    ensures call == OutgoingCall(w.Serves(!side), actor, msgId, msg)
    ensures Reaches(w, steps, w') && Inv(w') && w'.leftSigs == w.leftSigs && w'.rightSigs == w.rightSigs
    ensures var e, e' := w.At(side), w'.At(side);
            && w'.At(!side) == w.At(!side)
            && CanHandle(e') && e'.mailbox == [] && e'.table == Issue(e.table, w.now, true, true)
            && e'.out == [Ask(e.table.issued, e.table.tag, call.request)]
            && e'.log.calls == e.log.calls[e.table.issued := call]
  {
    hide Inv, OutgoingCall, Issue, HasChannels, Codec.EncodedLen, Codec.Encoding;
    call := OutgoingCall(w.Serves(!side), actor, msgId, msg);
    var st1, st2 := Submit(side, actor, msgId, msg), Mailbox(side, true);
    OneStep(w, st1);
    var w1 := Do(w, st1);
    assert w1.At(side).mailbox == [Outgoing(call, true)];
    OneStep(w1, st2);
    w' := Do(w1, st2);
    steps := [st1] + [st2];
    ReachesTwice(w, [st1], w1, [st2], w');
  }

  /** The request is received and gets a task. */
  lemma {:induction false} CallArrives(w: World, side: bool, f: Frame)
    returns (steps: seq<Step>, w': World)
    requires Inv(w) && CanHandle(w.At(side)) && w.At(!side).out == [f] && f.Ask? && f.request.ActorCall?
    ensures Reaches(w, steps, w') && Inv(w') && w'.leftSigs == w.leftSigs && w'.rightSigs == w.rightSigs
    ensures var p, p', k := w.At(side), w'.At(side), w.At(side).spawned;
            && w'.At(!side) == w.At(!side).(out := [])
            && CanHandle(p') && p'.mailbox == p.mailbox && p'.out == p.out && p'.log.handled == p.log.handled
            && k in p'.tasks && p'.tasks[k] == Task(f.req, f.tag, Forwarding(f.request, true))
  {
    hide Inv, HasChannels, Respond;
    var st := Receive(side, true, [], true);
    steps := [st];
    OneStep(w, st);
    w' := Do(w, st);
  }

  /** The task forwards the message, the handler answers, and the reply goes to the session. */
  lemma {:induction false} CallIsServed(w: World, side: bool, k: nat, addr: nat, m: Value, result: Value)
    returns (steps: seq<Step>, w': World)
    requires Inv(w) && CanHandle(w.At(side)) && w.At(side).mailbox == [] && k in w.At(side).tasks
    requires var t := w.At(side).tasks[k];
             && t.stage.Forwarding? && t.stage.found && Known(w.Serves(side), t.stage.request)
             && var sig := SigOf(w.Serves(side), t.stage.request);
             && Encodable(w.Serves(side).kind, result, sig.res)
             && Codec.Decode(w.Serves(side).kind, Slice(addr, t.stage.request.bytes), sig.msg) == Some(m)
    ensures Reaches(w, steps, w') && Inv(w') && w'.leftSigs == w.leftSigs && w'.rightSigs == w.rightSigs
    ensures var p, p' := w.At(side), w'.At(side);
            var t := p.tasks[k];
            && w'.At(!side) == w.At(!side)
            && CanHandle(p') && p'.out == p.out
            && p'.log.handled == p.log.handled[t.req := Answered(addr, m, result)]
            && p'.mailbox == [Finished(t.req, t.tag,
                 Ok(Codec.Encoding(w.Serves(side).kind, result, SigOf(w.Serves(side), t.stage.request).res)))]
  {
    hide Inv, HasChannels, StepTask, Encodable, Codec.Decode, Codec.Encoding;
    var t := w.At(side).tasks[k];
    var c := Choice(true, addr, true, result, []);
    var st := TaskMoves(side, k, c);
    OneStep(w, st);
    ForwardEffect(w.Serves(side), w.At(side), k, c);
    var w1 := Do(w, st);
    assert w1.At(side).tasks[k] == Task(t.req, t.tag, Waiting(t.stage.request));
    OneStep(w1, st);
    AnswerIsTheReply(w1.Serves(side), w1.At(side), k, c);
    var w2 := Do(w1, st);
    var reply := Ok(Codec.Encoding(w.Serves(side).kind, result, SigOf(w.Serves(side), t.stage.request).res));
    assert DecidedAs(w1.At(side), w2.At(side), k, Answered(addr, m, result), reply, true);
    assert w2.At(side).tasks[k] == Task(t.req, t.tag, Done(reply));
    OneStep(w2, st);
    FinishEffect(w2.Serves(side), w2.At(side), k, c);
    w' := Do(w2, st);
    steps := [st] + [st] + [st];
    ReachesTwice(w, [st], w1, [st], w2);
    ReachesTwice(w, [st] + [st], w2, [st], w');
  }

  /** The reply is sent and resolves the request. */
  lemma {:induction false} ReplyReturns(w: World, side: bool, r: nat, tag: nat, reply: Reply)
    returns (steps: seq<Step>, w': World)
    requires Inv(w) && CanHandle(w.At(side)) && CanHandle(w.At(!side))
    requires w.At(side).mailbox == [Finished(r, tag, reply)] && w.At(side).out == []
    ensures HasChannels(w.At(!side).table)
    ensures Reaches(w, steps, w') && Inv(w') && w'.leftSigs == w.leftSigs && w'.rightSigs == w.rightSigs
    ensures var e, e' := w.At(!side), w'.At(!side);
            && e'.table == Respond(e.table, tag, reply) && e'.log.calls == e.log.calls
            && w'.At(side).log.handled == w.At(side).log.handled
  {
    hide Inv, HasChannels, Respond;
    InvConsistent(w);
    var st1, st2 := Mailbox(side, true), Receive(!side, false, [], true);
    OneStep(w, st1);
    MailSends(w.At(side), w.now, true);
    var w1 := Do(w, st1);
    assert w1.At(side).out == [Response(r, tag, reply)];
    OneStep(w1, st2);
    w' := Do(w1, st2);
    steps := [st1] + [st2];
    ReachesTwice(w, [st1], w1, [st2], w');
  }

  /** Over an idle connection a remote send completes: for every message whose bytes land well and
      every result, there is a run in which the handler runs on the message and answers with the
      result, and the request of the caller is resolved with the encoding of that result. */
  lemma {:induction false} SendCompletes(w: World, side: bool, actor: nat, msgId: nat, msg: Value, addr: nat, result: Value)
    returns (steps: seq<Step>, w': World)
    requires Inv(w) && Idle(w) && Enabled(w, Submit(side, actor, msgId, msg))
    requires var sigs := w.Serves(!side);
             var sig := sigs.actors[actor][msgId];
             && Codec.Fits(sigs.kind, msg, sig.msg) && Codec.Lands(sigs.kind, msg, sig.msg, addr)
             && Encodable(sigs.kind, result, sig.res)
    ensures Reaches(w, steps, w')
    ensures var sigs, r := w.Serves(!side), w.At(side).table.issued;
            && r in w'.At(!side).log.handled && w'.At(!side).log.handled[r] == Answered(addr, msg, result)
            && PlaceOf(w'.At(side).table, r) == Resolved(Answer(Codec.Encoding(sigs.kind, result, sigs.actors[actor][msgId].res)))
  {
    hide Inv, Issue, Respond, HasChannels, PlaceOf, Codec.Encoding, Codec.Decode, Codec.EncodedLen, Codec.Lands, Codec.Fits;
    var e, sigs := w.At(side), w.Serves(!side);
    var r, sig := e.table.issued, sigs.actors[actor][msgId];
    var s1, w1, call := CallGoesOut(w, side, actor, msgId, msg);
    var s2, w2 := CallArrives(w1, !side, w1.At(side).out[0]);
    Codec.RoundTrip(sigs.kind, msg, sig.msg, addr);
    var s3, w3 := CallIsServed(w2, !side, w1.At(!side).spawned, addr, msg, result);
    var reply := Ok(Codec.Encoding(sigs.kind, result, sig.res));
    var s4, w4 := ReplyReturns(w3, !side, r, e.table.tag, reply);
    w' := w4;
    steps := s1 + s2 + s3 + s4;
    ReachesTwice(w, s1, w1, s2, w2);
    ReachesTwice(w, s1 + s2, w2, s3, w3);
    ReachesTwice(w, s1 + s2 + s3, w3, s4, w4);
    InvValid(w);
    TagIs(e.table);
    IssueValid(e.table, w.now, true, true);
    IssuePlaces(e.table, w.now, true, true, r);
    RespondPlaces(w3.At(side).table, e.table.tag, reply, r);
  }

  lemma {:induction false} TagIs(t: Table)
    requires Valid(t)
    ensures t.tag == TagOf(t.issued)
  {
  }

  /** A call to the other node is made, taken and sent. */
  lemma {:induction false} NodeCallGoesOut(w: World, side: bool, create: bool)
    returns (steps: seq<Step>, w': World, call: Call)
    requires Inv(w) && Idle(w)
    ensures call.request == if create then CreateActor else GetActor
    ensures Reaches(w, steps, w') && Inv(w')
    ensures var e, e' := w.At(side), w'.At(side);
            && w'.At(!side) == w.At(!side)
            && CanHandle(e') && e'.mailbox == [] && e'.table == Issue(e.table, w.now, true, true)
            && e'.out == [Ask(e.table.issued, e.table.tag, call.request)]
            && e'.log.calls == e.log.calls[e.table.issued := call]
  {
    hide Inv, Issue, HasChannels;
    var st1, st2 := SubmitNode(side, create), Mailbox(side, true);
    OneStep(w, st1);
    var w1 := Do(w, st1);
    call := w1.At(side).mailbox[0].call;
    OneStep(w1, st2);
    w' := Do(w1, st2);
    steps := [st1] + [st2];
    ReachesTwice(w, [st1], w1, [st2], w');
  }

  /** A creation gets a task, and the answer of the actor manager goes to the session. */
  lemma {:induction false} CreationServed(w: World, side: bool, f: Frame, bytes: Bytes)
    returns (steps: seq<Step>, w': World)
    requires Inv(w) && CanHandle(w.At(side)) && w.At(side).mailbox == [] && w.At(!side).out == [f]
    requires f.Ask? && f.request.CreateActor?
    ensures Reaches(w, steps, w') && Inv(w')
    ensures w'.At(!side) == w.At(!side).(out := [])
    ensures CanHandle(w'.At(side)) && w'.At(side).out == w.At(side).out
    ensures w'.At(side).mailbox == [Finished(f.req, f.tag, Ok(bytes))]
  {
    hide Inv, HasChannels, Respond, StepTask;
    var sigs, k, c := w.Serves(side), w.At(side).spawned, Choice(true, 0, true, VUnit, bytes);
    var st1, st2 := Receive(side, true, [], true), TaskMoves(side, k, c);
    OneStep(w, st1);
    var w1 := Do(w, st1);
    assert w1.At(side).tasks[k] == Task(f.req, f.tag, Creating);
    OneStep(w1, st2);
    FinishEffect(sigs, w1.At(side), k, c);
    var w2 := Do(w1, st2);
    assert DecidedAs(w1.At(side), w2.At(side), k, NodeReply(bytes), Ok(bytes), false);
    assert w2.At(side).tasks[k] == Task(f.req, f.tag, Done(Ok(bytes)));
    OneStep(w2, st2);
    FinishEffect(sigs, w2.At(side), k, c);
    w' := Do(w2, st2);
    steps := [st1] + [st2] + [st2];
    ReachesTwice(w, [st1], w1, [st2], w2);
    ReachesTwice(w, [st1] + [st2], w2, [st2], w');
  }

  /** Over an idle connection a creation completes: the caller is resolved with what the actor
      manager of the other node answers. */
  lemma {:induction false} CreationCompletes(w: World, side: bool, bytes: Bytes)
    returns (steps: seq<Step>, w': World)
    requires Inv(w) && Idle(w)
    ensures Reaches(w, steps, w')
    ensures var r := w.At(side).table.issued;
            && r in w'.At(side).log.calls && w'.At(side).log.calls[r].request == CreateActor
            && PlaceOf(w'.At(side).table, r) == Resolved(Answer(bytes))
  {
    hide Inv, Issue, Respond, HasChannels, PlaceOf;
    var e := w.At(side);
    var r := e.table.issued;
    var s1, w1, call := NodeCallGoesOut(w, side, true);
    var s2, w2 := CreationServed(w1, !side, w1.At(side).out[0], bytes);
    var s3, w3 := ReplyReturns(w2, !side, r, e.table.tag, Ok(bytes));
    w' := w3;
    steps := s1 + s2 + s3;
    ReachesTwice(w, s1, w1, s2, w2);
    ReachesTwice(w, s1 + s2, w2, s3, w3);
    InvValid(w);
    TagIs(e.table);
    IssueValid(e.table, w.now, true, true);
    IssuePlaces(e.table, w.now, true, true, r);
    RespondPlaces(w2.At(side).table, e.table.tag, Ok(bytes), r);
  }

  /** A lookup is answered at once, and the answer resolves the request. */
  lemma {:induction false} LookupServed(w: World, side: bool, f: Frame, bytes: Bytes)
    returns (steps: seq<Step>, w': World)
    requires Inv(w) && CanHandle(w.At(side)) && CanHandle(w.At(!side)) && w.At(!side).out == [f] && w.At(side).out == []
    requires f.Ask? && f.request.GetActor?
    ensures HasChannels(w.At(!side).table)
    ensures Reaches(w, steps, w')
    ensures w'.At(!side).table == Respond(w.At(!side).table, f.tag, Ok(bytes)) && w'.At(!side).log.calls == w.At(!side).log.calls
  {
    hide Inv, HasChannels, Respond;
    var st1, st2 := Receive(side, true, bytes, true), Receive(!side, true, [], true);
    OneStep(w, st1);
    var w1 := Do(w, st1);
    assert w1.At(side).out == [Response(f.req, f.tag, Ok(bytes))];
    OneStep(w1, st2);
    w' := Do(w1, st2);
    steps := [st1] + [st2];
    ReachesTwice(w, [st1], w1, [st2], w');
  }

  /** Over an idle connection a lookup completes at once with the answer of the other node. */
  lemma {:induction false} LookupCompletes(w: World, side: bool, bytes: Bytes)
    returns (steps: seq<Step>, w': World)
    requires Inv(w) && Idle(w)
    ensures Reaches(w, steps, w')
    ensures var r := w.At(side).table.issued;
            && r in w'.At(side).log.calls && w'.At(side).log.calls[r].request == GetActor
            && PlaceOf(w'.At(side).table, r) == Resolved(Answer(bytes))
  {
    hide Inv, Issue, Respond, HasChannels, PlaceOf;
    var e := w.At(side);
    var r := e.table.issued;
    var s1, w1, call := NodeCallGoesOut(w, side, false);
    var s2, w2 := LookupServed(w1, !side, w1.At(side).out[0], bytes);
    w' := w2;
    steps := s1 + s2;
    ReachesTwice(w, s1, w1, s2, w2);
    InvValid(w);
    TagIs(e.table);
    IssueValid(e.table, w.now, true, true);
    IssuePlaces(e.table, w.now, true, true, r);
    RespondPlaces(w1.At(side).table, e.table.tag, Ok(bytes), r);
  }

  /** A call whose receiver was dropped while it waited in the mailbox, and whose frame is refused,
      is discarded. */
  lemma {:induction false} DroppedInMailbox(w: World, side: bool)
    requires Inv(w) && CanHandle(w.At(side)) && w.At(side).mailbox != [] && w.At(side).mailbox[0].Outgoing?
    ensures exists w' :: Reaches(w, [DropQueued(side, 0)] + [Mailbox(side, false)], w')
              && PlaceOf(w'.At(side).table, w.At(side).table.issued) == Lost(Discarded)
  {
    hide Inv, Issue, HasChannels, PlaceOf;
    var st1, st2 := DropQueued(side, 0), Mailbox(side, false);
    OneStep(w, st1);
    var w1 := Do(w, st1);
    OneStep(w1, st2);
    var w' := Do(w1, st2);
    ReachesTwice(w, [st1], w1, [st2], w');
    InvValid(w);
    IssuePlaces(w.At(side).table, w.now, false, false, w.At(side).table.issued);
  }

  // ----- A request that nobody answers -----

  lemma {:induction false} TimePasses(w: World, n: nat)
    ensures Inv(w) ==> Reaches(w, seq(n, _ => Tick), w.(now := w.now + n)) && Inv(w.(now := w.now + n))
    decreases n
  {
    hide Inv;
    if n > 0 && Inv(w) {
      OneStep(w, Tick);
      TimePasses(Do(w, Tick), n - 1);
      assert seq(n, _ => Tick)[1..] == seq(n - 1, _ => Tick);
    }
  }

  /** A session that is due for a cleanup resolves every request that nobody answers with a timeout,
      once enough time has passed. */
  lemma {:induction false} UnansweredTimesOut(w: World, side: bool, r: nat)
    returns (steps: seq<Step>, w': World)
    requires Inv(w) && w.At(side).running && w.At(side).clock.cleanup
    requires var t := w.At(side).table;
             r < t.issued && PlaceOf(t, r).Pending? && r in t.channels && t.channels[r].rxOpen
    ensures Reaches(w, steps, w') && PlaceOf(w'.At(side).table, r) == Resolved(TimedOut)
  {
    hide Inv, PlaceOf, Sweep, HasChannels, Valid;
    InvValid(w);
    var t := w.At(side).table;
    var since := PlaceOf(t, r).since;
    var n := if w.now < since + 60 then since + 60 - w.now else 0;
    TimePasses(w, n);
    var later := w.(now := w.now + n);
    OneStep(later, Cleanup(side));
    w' := Do(later, Cleanup(side));
    steps := seq(n, _ => Tick) + [Cleanup(side)];
    ReachesTwice(w, seq(n, _ => Tick), later, [Cleanup(side)], w');
    SweepPlaces(t, later.now, r);
  }
}
