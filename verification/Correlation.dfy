/**
 What every run of two sessions keeps. `Dir` speaks about the requests of one session `e` and
 what its peer `p` does with them; a world keeps it in both directions.
 */
module Correlation {
  import opened Wire
  import opened Values
  import opened Requests
  import opened Network
  import Codec = Codecs

  // ----- The parts of the invariant, on the fields they depend on -----

  /** A recorded call carries the encoding of the message it was made from. */
  ghost predicate CallOk(sigs: Sigs, c: Call) {
    c.request.ActorCall? ==>
      && Known(sigs, c.request)
      && Encodable(sigs.kind, c.msg, SigOf(sigs, c.request).msg)
      && c.request.bytes == Codec.Encoding(sigs.kind, c.msg, SigOf(sigs, c.request).msg)
  }

  ghost predicate CallsOk(sigs: Sigs, calls: map<nat, Call>, issued: nat) {
    && (forall r :: r in calls <==> 0 <= r < issued)
    && (forall r :: r in calls ==> CallOk(sigs, calls[r]))
  }

  ghost predicate OutgoingOk(sigs: Sigs, mailbox: seq<Mail>) {
    forall i :: 0 <= i < |mailbox| && mailbox[i].Outgoing? ==> CallOk(sigs, mailbox[i].call)
  }

  ghost predicate AskOk(f: Frame, calls: map<nat, Call>, served: nat) {
    f.Ask? ==> served <= f.req && f.req in calls && f.tag == TagOf(f.req) && f.request == calls[f.req].request
  }

  /** Requests travel in order and each is received at most once. */
  ghost predicate AsksOk(out: seq<Frame>, calls: map<nat, Call>, served: nat) {
    && (forall i :: 0 <= i < |out| ==> AskOk(out[i], calls, served))
    && (forall i, j :: 0 <= i < j < |out| && out[i].Ask? && out[j].Ask? ==> out[i].req < out[j].req)
  }

  /** The fate of a call at its server. A handler ran on what the call's bytes decode to where
      they landed; only bytes that do not decode there are reported as undecodable. */
  ghost predicate FateOk(sigs: Sigs, c: Call, fate: Fate) {
    match fate
    case Answered(addr, msg, result) =>
      && Known(sigs, c.request)
      && Codec.Decode(sigs.kind, Slice(addr, c.request.bytes), SigOf(sigs, c.request).msg) == Some(msg)
      && Encodable(sigs.kind, result, SigOf(sigs, c.request).res)
    case Mute(addr, msg) =>
      && Known(sigs, c.request)
      && Codec.Decode(sigs.kind, Slice(addr, c.request.bytes), SigOf(sigs, c.request).msg) == Some(msg)
    case Undecodable(addr) =>
      && Known(sigs, c.request)
      && Codec.Decode(sigs.kind, Slice(addr, c.request.bytes), SigOf(sigs, c.request).msg) == None
    case Refused(error) => c.request.ActorCall? && error != NOT_DECODED
    case NodeReply(_) => !c.request.ActorCall?
  }

  /** A reply to request `r` is the one that its fate makes. */
  ghost predicate ResponseOk(sigs: Sigs, calls: map<nat, Call>, handled: map<nat, Fate>, r: nat, tag: nat, reply: Reply) {
    r in calls && tag == TagOf(r) && r in handled && reply == ReplyOf(sigs, calls[r].request, handled[r])
  }

  ghost predicate TaskOk(sigs: Sigs, calls: map<nat, Call>, handled: map<nat, Fate>, served: nat, t: Task) {
    && t.req in calls && t.req < served && t.tag == TagOf(t.req)
    && (!t.stage.Done? ==> t.req !in handled)
    && match t.stage
       case Forwarding(request, _) => request == calls[t.req].request && request.ActorCall?
       case Waiting(request) => request == calls[t.req].request && request.ActorCall?
       case Creating => calls[t.req].request == CreateActor
       case Done(reply) => ResponseOk(sigs, calls, handled, t.req, t.tag, reply)
  }

  ghost predicate TasksOk(sigs: Sigs, calls: map<nat, Call>, handled: map<nat, Fate>, served: nat,
                          tasks: map<nat, Task>, spawned: nat) {
    && (forall k :: k in tasks ==> k < spawned && TaskOk(sigs, calls, handled, served, tasks[k]))
    && (forall k, l :: k in tasks && l in tasks && tasks[k].req == tasks[l].req ==> k == l)
  }

  ghost predicate MailOk(sigs: Sigs, calls: map<nat, Call>, handled: map<nat, Fate>, m: Mail) {
    m.Finished? ==> ResponseOk(sigs, calls, handled, m.req, m.tag, m.reply)
  }

  ghost predicate MailsOk(sigs: Sigs, calls: map<nat, Call>, handled: map<nat, Fate>, mailbox: seq<Mail>) {
    forall i :: 0 <= i < |mailbox| ==> MailOk(sigs, calls, handled, mailbox[i])
  }

  ghost predicate FrameOk(sigs: Sigs, calls: map<nat, Call>, handled: map<nat, Fate>, f: Frame) {
    f.Response? ==> ResponseOk(sigs, calls, handled, f.req, f.tag, f.reply)
  }

  ghost predicate FramesOk(sigs: Sigs, calls: map<nat, Call>, handled: map<nat, Fate>, out: seq<Frame>) {
    forall i :: 0 <= i < |out| ==> FrameOk(sigs, calls, handled, out[i])
  }

  ghost predicate HandledOk(sigs: Sigs, calls: map<nat, Call>, handled: map<nat, Fate>, served: nat) {
    forall r :: r in handled ==> r < served && r in calls && FateOk(sigs, calls[r], handled[r])
  }

  /** The requests of `e` and their service at `p`. */
  ghost predicate Dir(sigs: Sigs, e: Endpoint, p: Endpoint) {
    && Valid(e.table)
    && p.log.served <= e.table.issued
    && CallsOk(sigs, e.log.calls, e.table.issued)
    && OutgoingOk(sigs, e.mailbox)
    && AsksOk(e.out, e.log.calls, p.log.served)
    && TasksOk(sigs, e.log.calls, p.log.handled, p.log.served, p.tasks, p.spawned)
    && MailsOk(sigs, e.log.calls, p.log.handled, p.mailbox)
    && FramesOk(sigs, e.log.calls, p.log.handled, p.out)
    && HandledOk(sigs, e.log.calls, p.log.handled, p.log.served)
  }

  ghost predicate Inv(w: World) {
    Dir(w.rightSigs, w.left, w.right) && Dir(w.leftSigs, w.right, w.left)
  }

  lemma {:induction false} InvConsistent(w: World)
    requires Inv(w)
    ensures Consistent(w)
  {
    hide AsksOk, TasksOk, MailsOk, FramesOk, HandledOk, CallsOk, OutgoingOk, TagOf;
  }

  // ----- Growing histories keep what was said about them -----

  lemma {:induction false} CallsGrow(sigs: Sigs, calls: map<nat, Call>, r: nat, c: Call, p: Endpoint, out: seq<Frame>)
    requires r !in calls
    requires AsksOk(out, calls, p.log.served)
    requires TasksOk(sigs, calls, p.log.handled, p.log.served, p.tasks, p.spawned)
    requires MailsOk(sigs, calls, p.log.handled, p.mailbox)
    requires FramesOk(sigs, calls, p.log.handled, p.out)
    requires HandledOk(sigs, calls, p.log.handled, p.log.served)
    ensures AsksOk(out, calls[r := c], p.log.served)
    ensures TasksOk(sigs, calls[r := c], p.log.handled, p.log.served, p.tasks, p.spawned)
    ensures MailsOk(sigs, calls[r := c], p.log.handled, p.mailbox)
    ensures FramesOk(sigs, calls[r := c], p.log.handled, p.out)
    ensures HandledOk(sigs, calls[r := c], p.log.handled, p.log.served)
  {
    hide TagOf, FateOk, ReplyOf;
  }

  lemma {:induction false} HandledGrows(sigs: Sigs, calls: map<nat, Call>, handled: map<nat, Fate>, r: nat, fate: Fate)
    requires r !in handled
    ensures forall q, tag, reply ::
              ResponseOk(sigs, calls, handled, q, tag, reply) ==> ResponseOk(sigs, calls, handled[r := fate], q, tag, reply)
  {
    hide TagOf, ReplyOf;
  }

  /** A fate is recorded for a request that had none: what was said about replies stays true. */
  lemma {:induction false} RecordOk(sigs: Sigs, e: Endpoint, p: Endpoint, r: nat, fate: Fate, served: nat)
    requires Dir(sigs, e, p) && r !in p.log.handled && r in e.log.calls && r < served && p.log.served <= served
    requires FateOk(sigs, e.log.calls[r], fate)
    ensures var handled := p.log.handled[r := fate];
            && HandledOk(sigs, e.log.calls, handled, served)
            && MailsOk(sigs, e.log.calls, handled, p.mailbox)
            && FramesOk(sigs, e.log.calls, handled, p.out)
            && ResponseOk(sigs, e.log.calls, handled, r, TagOf(r), ReplyOf(sigs, e.log.calls[r].request, fate))
  {
    hide TagOf, Valid, OutgoingOk, CallsOk, AsksOk, TasksOk, FateOk, ReplyOf;
    HandledGrows(sigs, e.log.calls, p.log.handled, r, fate);
    var handled := p.log.handled[r := fate];
    assert ResponseOk(sigs, e.log.calls, handled, r, TagOf(r), ReplyOf(sigs, e.log.calls[r].request, fate));
    hide ResponseOk;
  }

  // ----- Queues -----

  lemma {:induction false} MailboxPop(sigs: Sigs, calls: map<nat, Call>, handled: map<nat, Fate>, mailbox: seq<Mail>)
    requires mailbox != [] && MailsOk(sigs, calls, handled, mailbox)
    ensures MailsOk(sigs, calls, handled, mailbox[1..]) && MailOk(sigs, calls, handled, mailbox[0])
  {
    hide MailOk;
  }

  lemma {:induction false} MailboxPush(sigs: Sigs, calls: map<nat, Call>, handled: map<nat, Fate>, mailbox: seq<Mail>, m: Mail)
    requires MailsOk(sigs, calls, handled, mailbox) && MailOk(sigs, calls, handled, m)
    ensures MailsOk(sigs, calls, handled, mailbox + [m])
  {
    hide MailOk;
  }

  lemma {:induction false} OutgoingPop(sigs: Sigs, mailbox: seq<Mail>)
    requires mailbox != [] && OutgoingOk(sigs, mailbox)
    ensures OutgoingOk(sigs, mailbox[1..]) && (mailbox[0].Outgoing? ==> CallOk(sigs, mailbox[0].call))
  {
    hide CallOk;
  }

  lemma {:induction false} OutgoingPush(sigs: Sigs, mailbox: seq<Mail>, m: Mail)
    requires OutgoingOk(sigs, mailbox) && (m.Outgoing? ==> CallOk(sigs, m.call))
    ensures OutgoingOk(sigs, mailbox + [m])
  {
    hide CallOk;
  }

  lemma {:induction false} FramesPop(sigs: Sigs, calls: map<nat, Call>, handled: map<nat, Fate>, out: seq<Frame>)
    requires out != [] && FramesOk(sigs, calls, handled, out)
    ensures FramesOk(sigs, calls, handled, out[1..]) && FrameOk(sigs, calls, handled, out[0])
  {
    hide FrameOk;
  }

  lemma {:induction false} FramesPush(sigs: Sigs, calls: map<nat, Call>, handled: map<nat, Fate>, out: seq<Frame>, f: Frame)
    requires FramesOk(sigs, calls, handled, out) && FrameOk(sigs, calls, handled, f)
    ensures FramesOk(sigs, calls, handled, out + [f])
  {
    hide FrameOk;
  }

  lemma {:induction false} AsksPush(out: seq<Frame>, calls: map<nat, Call>, served: nat, f: Frame)
    requires AsksOk(out, calls, served) && AskOk(f, calls, served)
    requires f.Ask? ==> forall i :: 0 <= i < |out| && out[i].Ask? ==> out[i].req < f.req
    ensures AsksOk(out + [f], calls, served)
  {
    hide TagOf;
  }

  /** Taking a request off the connection: all that follow have larger numbers. */
  lemma {:induction false} AsksPop(out: seq<Frame>, calls: map<nat, Call>, served: nat)
    requires out != [] && AsksOk(out, calls, served)
    ensures AskOk(out[0], calls, served)
    ensures AsksOk(out[1..], calls, if out[0].Ask? then out[0].req + 1 else served)
  {
    hide TagOf;
    var served' := if out[0].Ask? then out[0].req + 1 else served;
    forall i | 0 <= i < |out| - 1
      ensures AskOk(out[1..][i], calls, served')
    {
      assert AskOk(out[i + 1], calls, served);
    }
  }

  // ----- Handling a mail -----

  /** What handling a mail leaves alone, and what it does to the queues. */
  lemma {:induction false} MailFields(e: Endpoint, now: nat, ok: bool)
    requires e.mailbox != []
    ensures var m, e' := e.mailbox[0], HandleMail(e, now, ok);
            && e'.tasks == e.tasks && e'.spawned == e.spawned && e'.log.served == e.log.served && e'.log.handled == e.log.handled
            && e'.mailbox == e.mailbox[1..]
            && (e'.out == e.out || (!m.RequireCleanup? && e'.out == e.out + [FrameOf(e, m)]))
            && (m.Outgoing? ==> e'.table == Issue(e.table, now, ok, m.rxOpen) && e'.log.calls == e.log.calls[e.table.issued := m.call])
            && (!m.Outgoing? ==> e'.table == e.table && e'.log.calls == e.log.calls)
  {
    hide Issue;
    match e.mailbox[0]
    case Outgoing(_, _) =>
    case OutgoingCast(_) =>
    case Finished(_, _, _) =>
    case RequireCleanup =>
  }

  function FrameOf(e: Endpoint, m: Mail): Frame
    requires !m.RequireCleanup?
  {
    match m
    case Outgoing(call, _) => Ask(e.table.issued, e.table.tag, call.request)
    case OutgoingCast(cast) => Tell(|e.log.casts|, cast)
    case Finished(req, tag, reply) => Response(req, tag, reply)
  }

  lemma {:induction false} MailAsClient(sigs: Sigs, e: Endpoint, p: Endpoint, now: nat, ok: bool)
    requires Dir(sigs, e, p) && e.mailbox != []
    ensures Dir(sigs, HandleMail(e, now, ok), p)
  {
    hide TagOf, Valid, Issue, CallOk, OutgoingOk, CallsOk, AsksOk, TasksOk, MailsOk, FramesOk, HandledOk, HandleMail;
    MailFields(e, now, ok);
    OutgoingPop(sigs, e.mailbox);
    var m := e.mailbox[0];
    if m.Outgoing? {
      IssueAsClient(sigs, e, p, now, ok, m.rxOpen, m.call);
    } else if !m.RequireCleanup? {
      AsksPush(e.out, e.log.calls, p.log.served, FrameOf(e, m));
    }
  }

  lemma {:induction false} IssueAsClient(sigs: Sigs, e: Endpoint, p: Endpoint, now: nat, ok: bool, rxOpen: bool, call: Call)
    requires Dir(sigs, e, p) && CallOk(sigs, call)
    ensures var r := e.table.issued;
            var calls := e.log.calls[r := call];
            && CallsOk(sigs, calls, r + 1)
            && Valid(Issue(e.table, now, ok, rxOpen)) && Issue(e.table, now, ok, rxOpen).issued == r + 1
            && AsksOk(e.out, calls, p.log.served)
            && AsksOk(e.out + [Ask(r, e.table.tag, call.request)], calls, p.log.served)
            && TasksOk(sigs, calls, p.log.handled, p.log.served, p.tasks, p.spawned)
            && MailsOk(sigs, calls, p.log.handled, p.mailbox)
            && FramesOk(sigs, calls, p.log.handled, p.out)
            && HandledOk(sigs, calls, p.log.handled, p.log.served)
  {
    hide TagOf, Valid, Issue, CallOk, TasksOk, MailsOk, FramesOk, HandledOk;
    var r := e.table.issued;
    TableFacts(e.table, now, ok, rxOpen);
    CallsGrow(sigs, e.log.calls, r, call, p, e.out);
    assert CallsOk(sigs, e.log.calls[r := call], r + 1);
    assert forall i :: 0 <= i < |e.out| ==> AskOk(e.out[i], e.log.calls, p.log.served);
    AsksPush(e.out, e.log.calls[r := call], p.log.served, Ask(r, e.table.tag, call.request));
  }

  lemma {:induction false} TableFacts(t: Table, now: nat, ok: bool, rxOpen: bool)
    requires Valid(t)
    ensures t.tag == TagOf(t.issued)
    ensures Valid(Issue(t, now, ok, rxOpen)) && Issue(t, now, ok, rxOpen).issued == t.issued + 1
  {
    hide TagOf, ExactlyOne;
    IssueValid(t, now, ok, rxOpen);
  }

  lemma {:induction false} MailAsServer(sigs: Sigs, e: Endpoint, p: Endpoint, now: nat, ok: bool)
    requires Dir(sigs, e, p) && p.mailbox != []
    ensures Dir(sigs, e, HandleMail(p, now, ok))
  {
    hide TagOf, Valid, Issue, CallsOk, OutgoingOk, AsksOk, TasksOk, HandledOk, ResponseOk, MailsOk, FramesOk, HandleMail;
    MailFields(p, now, ok);
    MailboxPop(sigs, e.log.calls, p.log.handled, p.mailbox);
    var m := p.mailbox[0];
    if !m.RequireCleanup? { FramesPush(sigs, e.log.calls, p.log.handled, p.out, FrameOf(p, m)); }
  }

  // ----- Handling a frame -----

  lemma {:induction false} FrameFields(e: Endpoint, f: Frame, found: bool, bytes: Bytes, ok: bool)
    requires HasChannels(e.table)
    ensures var e' := HandleFrame(e, f, found, bytes, ok);
            && e'.mailbox == e.mailbox && e'.log.calls == e.log.calls
            && e'.log.handled == (if f.Ask? && f.request.GetActor? then e.log.handled[f.req := NodeReply(bytes)] else e.log.handled)
            && e'.table == (if f.Response? then Respond(e.table, f.tag, f.reply) else e.table)
            && e'.log.served == (if f.Ask? then f.req + 1 else e.log.served)
            && (f.Ask? && f.request.ActorCall? ==>
                  && e'.tasks == e.tasks[e.spawned := Task(f.req, f.tag, Forwarding(f.request, found))]
                  && e'.spawned == e.spawned + 1)
            && (f.Ask? && f.request.CreateActor? ==>
                  && e'.tasks == e.tasks[e.spawned := Task(f.req, f.tag, Creating)]
                  && e'.spawned == e.spawned + 1)
            && (!f.Ask? || f.request.GetActor? ==> e'.tasks == e.tasks && e'.spawned == e.spawned)
            && (e'.out == e.out || (f.Ask? && f.request.GetActor? && e'.out == e.out + [Response(f.req, f.tag, Ok(bytes))]))
  {
    hide Respond;
    match f
    case Ask(_, _, _) =>
    case Tell(_, _) =>
    case Response(_, _, _) =>
  }

  /** The receiver `p` serves the sender's requests. */
  lemma {:induction false} FrameAsServer(sigs: Sigs, e: Endpoint, p: Endpoint, found: bool, bytes: Bytes, ok: bool)
    requires Dir(sigs, e, p) && e.out != [] && HasChannels(p.table)
    ensures Dir(sigs, e.(out := e.out[1..]), HandleFrame(p, e.out[0], found, bytes, ok))
  {
    hide TagOf, Valid, Respond, OutgoingOk, AsksOk, TasksOk, HandledOk, MailsOk, FramesOk, HandleFrame, HasChannels, CallOk;
    FrameFields(p, e.out[0], found, bytes, ok);
    AsksPop(e.out, e.log.calls, p.log.served);
    if e.out[0].Ask? {
      ServeAsServer(sigs, e, p, e.out[0], found, bytes);
      if e.out[0].request.GetActor? { LookupAsServer(sigs, e, p, e.out[0], bytes); }
    }
  }

  lemma {:induction false} ServeAsServer(sigs: Sigs, e: Endpoint, p: Endpoint, f: Frame, found: bool, bytes: Bytes)
    requires Dir(sigs, e, p) && f.Ask? && AskOk(f, e.log.calls, p.log.served)
    ensures HandledOk(sigs, e.log.calls, p.log.handled, f.req + 1)
    ensures f.request.ActorCall? ==>
              TasksOk(sigs, e.log.calls, p.log.handled, f.req + 1,
                      p.tasks[p.spawned := Task(f.req, f.tag, Forwarding(f.request, found))], p.spawned + 1)
    ensures f.request.CreateActor? ==>
              TasksOk(sigs, e.log.calls, p.log.handled, f.req + 1,
                      p.tasks[p.spawned := Task(f.req, f.tag, Creating)], p.spawned + 1)
  {
    hide TagOf, Valid, CallsOk, OutgoingOk, AsksOk, MailsOk, FramesOk, FateOk, TasksOk;
    SpawnOk(sigs, e, p, f.req, f.tag, Forwarding(f.request, found));
    SpawnOk(sigs, e, p, f.req, f.tag, Creating);
  }

  /** The node answers a lookup at once. */
  lemma {:induction false} LookupAsServer(sigs: Sigs, e: Endpoint, p: Endpoint, f: Frame, bytes: Bytes)
    requires Dir(sigs, e, p) && f.Ask? && AskOk(f, e.log.calls, p.log.served) && f.request.GetActor?
    ensures var handled := p.log.handled[f.req := NodeReply(bytes)];
            && HandledOk(sigs, e.log.calls, handled, f.req + 1)
            && TasksOk(sigs, e.log.calls, handled, f.req + 1, p.tasks, p.spawned)
            && MailsOk(sigs, e.log.calls, handled, p.mailbox)
            && FramesOk(sigs, e.log.calls, handled, p.out)
            && FramesOk(sigs, e.log.calls, handled, p.out + [Response(f.req, f.tag, Ok(bytes))])
  {
    hide TagOf, Valid, CallsOk, OutgoingOk, AsksOk, MailsOk, FramesOk, TasksOk;
    assert f.req !in p.log.handled;
    hide HandledOk;
    RecordOk(sigs, e, p, f.req, NodeReply(bytes), f.req + 1);
    TasksRecord(sigs, e, p, f.req, NodeReply(bytes));
    FramesPush(sigs, e.log.calls, p.log.handled[f.req := NodeReply(bytes)], p.out, Response(f.req, f.tag, Ok(bytes)));
  }

  /** A fate recorded for a request that no task serves does not concern the tasks. */
  lemma {:induction false} TasksRecord(sigs: Sigs, e: Endpoint, p: Endpoint, r: nat, fate: Fate)
    requires TasksOk(sigs, e.log.calls, p.log.handled, p.log.served, p.tasks, p.spawned)
    requires p.log.served <= r && r !in p.log.handled
    ensures TasksOk(sigs, e.log.calls, p.log.handled[r := fate], r + 1, p.tasks, p.spawned)
  {
    hide TagOf, ResponseOk;
    HandledGrows(sigs, e.log.calls, p.log.handled, r, fate);
    forall k | k in p.tasks
      ensures TaskOk(sigs, e.log.calls, p.log.handled[r := fate], r + 1, p.tasks[k])
    {
      assert TaskOk(sigs, e.log.calls, p.log.handled, p.log.served, p.tasks[k]);
    }
  }

  /** A new task serves a request that no other task has served. */
  lemma {:induction false} SpawnOk(sigs: Sigs, e: Endpoint, p: Endpoint, r: nat, tag: nat, stage: Stage)
    requires TasksOk(sigs, e.log.calls, p.log.handled, p.log.served, p.tasks, p.spawned)
    requires HandledOk(sigs, e.log.calls, p.log.handled, p.log.served)
    requires p.log.served <= r && r in e.log.calls && tag == TagOf(r)
    ensures (stage.Forwarding? && stage.request == e.log.calls[r].request && stage.request.ActorCall?)
            || (stage.Creating? && e.log.calls[r].request == CreateActor) ==>
              TasksOk(sigs, e.log.calls, p.log.handled, r + 1, p.tasks[p.spawned := Task(r, tag, stage)], p.spawned + 1)
  {
    hide TagOf, FateOk, ResponseOk;
  }

  /** The receiver `e` is the client of its own requests, which the frame may answer. */
  lemma {:induction false} FrameAsClient(sigs: Sigs, e: Endpoint, p: Endpoint, found: bool, bytes: Bytes, ok: bool)
    requires Dir(sigs, e, p) && p.out != [] && HasChannels(e.table)
    ensures Dir(sigs, HandleFrame(e, p.out[0], found, bytes, ok), p.(out := p.out[1..]))
  {
    hide TagOf, Valid, Respond, CallsOk, OutgoingOk, AsksOk, MailsOk, TasksOk, HandledOk, FramesOk, HandleFrame, HasChannels;
    var f := p.out[0];
    FrameFields(e, f, found, bytes, ok);
    FramesPop(sigs, e.log.calls, p.log.handled, p.out);
    if f.Ask? { AsksPush(e.out, e.log.calls, p.log.served, Response(f.req, f.tag, Ok(bytes))); }
    if f.Response? {
      RespondValid(e.table, f.tag, f.reply);
      RespondKeepsCount(e.table, f.tag, f.reply);
    }
  }

  lemma {:induction false} RespondKeepsCount(t: Table, tag: nat, reply: Reply)
    requires HasChannels(t)
    ensures Respond(t, tag, reply).issued == t.issued
  {
  }

  // ----- Tasks -----

  lemma {:induction false} TaskFields(sigs: Sigs, e: Endpoint, k: nat, c: Choice)
    requires TaskEnabled(sigs, e, k, c)
    ensures var t, e' := e.tasks[k], StepTask(sigs, e, k, c);
            && e'.table == e.table && e'.log.calls == e.log.calls && e'.out == e.out && e'.log.served == e.log.served
            && e'.spawned == e.spawned
            && (e'.mailbox == e.mailbox
                || (t.stage.Done? && e'.mailbox == e.mailbox + [Finished(t.req, t.tag, t.stage.reply)]))
            && (t.stage.Done? ==> e'.tasks == e.tasks - {k} && e'.log.handled == e.log.handled)
  {
    hide TaskFate, ReplyOf;
  }

  lemma {:induction false} TaskAsClient(sigs: Sigs, e: Endpoint, p: Endpoint, own: Sigs, k: nat, c: Choice)
    requires Dir(sigs, e, p) && TaskEnabled(own, e, k, c)
    ensures Dir(sigs, StepTask(own, e, k, c), p)
  {
    hide TagOf, Valid, CallsOk, AsksOk, OutgoingOk, TasksOk, MailsOk, FramesOk, HandledOk, StepTask;
    var t := e.tasks[k];
    TaskFields(own, e, k, c);
    if t.stage.Done? { OutgoingPush(sigs, e.mailbox, Finished(t.req, t.tag, t.stage.reply)); }
  }

  /** Replacing the stage of one task. */
  lemma {:induction false} TaskUpdate(sigs: Sigs, e: Endpoint, p: Endpoint, k: nat, stage: Stage)
    requires TasksOk(sigs, e.log.calls, p.log.handled, p.log.served, p.tasks, p.spawned) && k in p.tasks
    requires TaskOk(sigs, e.log.calls, p.log.handled, p.log.served, p.tasks[k].(stage := stage))
    ensures TasksOk(sigs, e.log.calls, p.log.handled, p.log.served, p.tasks[k := p.tasks[k].(stage := stage)], p.spawned)
  {
    hide TaskOk;
  }

  /** The fate of a task's request is recorded and the task has its reply. */
  lemma {:induction false} DecidedTask(sigs: Sigs, e: Endpoint, p: Endpoint, k: nat, fate: Fate)
    requires Dir(sigs, e, p) && k in p.tasks && !p.tasks[k].stage.Done?
    requires p.tasks[k].req in e.log.calls && FateOk(sigs, e.log.calls[p.tasks[k].req], fate)
    ensures Dir(sigs, e, Decide(sigs, p, k, fate))
  {
    hide TagOf, Valid, OutgoingOk, CallsOk, AsksOk, MailsOk, FramesOk, HandledOk, FateOk, ResponseOk, ReplyOf, TasksOk;
    var r := p.tasks[k].req;
    TaskIsOpen(sigs, e, p, k);
    RecordOk(sigs, e, p, r, fate, p.log.served);
    DecidedTasks(sigs, e, p, k, fate);
  }

  lemma {:induction false} TaskIsOpen(sigs: Sigs, e: Endpoint, p: Endpoint, k: nat)
    requires TasksOk(sigs, e.log.calls, p.log.handled, p.log.served, p.tasks, p.spawned) && k in p.tasks && !p.tasks[k].stage.Done?
    ensures var t := p.tasks[k];
            && t.req !in p.log.handled && t.req in e.log.calls && t.req < p.log.served && t.tag == TagOf(t.req)
            && RequestOf(t.stage) == e.log.calls[t.req].request
            && (t.stage.Creating? <==> !e.log.calls[t.req].request.ActorCall?)
  {
    hide TagOf, ResponseOk;
    assert TaskOk(sigs, e.log.calls, p.log.handled, p.log.served, p.tasks[k]);
  }

  lemma {:induction false} DecidedTasks(sigs: Sigs, e: Endpoint, p: Endpoint, k: nat, fate: Fate)
    requires TasksOk(sigs, e.log.calls, p.log.handled, p.log.served, p.tasks, p.spawned) && k in p.tasks && !p.tasks[k].stage.Done?
    requires var t := p.tasks[k];
             t.req in e.log.calls && ResponseOk(sigs, e.log.calls, p.log.handled[t.req := fate], t.req, TagOf(t.req), ReplyOf(sigs, e.log.calls[t.req].request, fate))
    ensures var t := p.tasks[k];
            TasksOk(sigs, e.log.calls, p.log.handled[t.req := fate], p.log.served,
                    p.tasks[k := t.(stage := Done(ReplyOf(sigs, RequestOf(t.stage), fate)))], p.spawned)
  {
    hide TagOf, ResponseOk, ReplyOf;
    TaskIsOpen(sigs, e, p, k);
    var t := p.tasks[k];
    var handled := p.log.handled[t.req := fate];
    HandledGrows(sigs, e.log.calls, p.log.handled, t.req, fate);
    var tasks := p.tasks[k := t.(stage := Done(ReplyOf(sigs, RequestOf(t.stage), fate)))];
    forall l | l in tasks
      ensures TaskOk(sigs, e.log.calls, handled, p.log.served, tasks[l])
    {
      assert TaskOk(sigs, e.log.calls, p.log.handled, p.log.served, p.tasks[l]);
      assert l != k ==> p.tasks[l].req != t.req;
    }
  }

  /** What a task decides about its request is true. */
  lemma {:induction false} TaskFateOk(sigs: Sigs, e: Endpoint, p: Endpoint, k: nat, c: Choice)
    requires TasksOk(sigs, e.log.calls, p.log.handled, p.log.served, p.tasks, p.spawned)
    requires TaskEnabled(sigs, p, k, c) && !p.tasks[k].stage.Done?
    ensures var t := p.tasks[k];
            var fate := TaskFate(sigs, t.stage, c);
            t.req in e.log.calls && (fate.Some? ==> FateOk(sigs, e.log.calls[t.req], fate.value))
  {
    hide TagOf, ResponseOk, Codec.Decode, Encodable, TasksOk;
    TaskIsOpen(sigs, e, p, k);
    match p.tasks[k].stage
    case Forwarding(request, found) =>
    case Waiting(request) =>
    case Creating =>
  }

  lemma {:induction false} TaskAsServer(sigs: Sigs, e: Endpoint, p: Endpoint, k: nat, c: Choice)
    requires Dir(sigs, e, p) && TaskEnabled(sigs, p, k, c)
    ensures Dir(sigs, e, StepTask(sigs, p, k, c))
  {
    hide TagOf, Valid, OutgoingOk, CallsOk, AsksOk, MailsOk, FramesOk, HandledOk, FateOk, ReplyOf, ResponseOk, Decide, Encodable;
    var t := p.tasks[k];
    assert TaskOk(sigs, e.log.calls, p.log.handled, p.log.served, t);
    if t.stage.Done? {
      MailboxPush(sigs, e.log.calls, p.log.handled, p.mailbox, Finished(t.req, t.tag, t.stage.reply));
    } else {
      TaskFateOk(sigs, e, p, k, c);
      var fate := TaskFate(sigs, t.stage, c);
      if fate.Some? {
        DecidedTask(sigs, e, p, k, fate.value);
      } else {
        TaskUpdate(sigs, e, p, k, Waiting(RequestOf(t.stage)));
      }
    }
  }

  // ----- Steps that change only the table, the timers or the queues of one session -----

  lemma {:induction false} ClientChange(sigs: Sigs, e: Endpoint, e': Endpoint, p: Endpoint)
    requires Dir(sigs, e, p)
    requires Valid(e'.table) && e'.table.issued == e.table.issued && e'.log.calls == e.log.calls
    requires OutgoingOk(sigs, e'.mailbox) && AsksOk(e'.out, e.log.calls, p.log.served)
    ensures Dir(sigs, e', p)
  {
    hide Valid, CallsOk, AsksOk, OutgoingOk, TasksOk, MailsOk, FramesOk, HandledOk;
  }

  lemma {:induction false} ServerChange(sigs: Sigs, e: Endpoint, p: Endpoint, p': Endpoint)
    requires Dir(sigs, e, p)
    requires p'.tasks == p.tasks && p'.spawned == p.spawned && p'.log.handled == p.log.handled && p'.log.served == p.log.served
    requires MailsOk(sigs, e.log.calls, p.log.handled, p'.mailbox) && FramesOk(sigs, e.log.calls, p.log.handled, p'.out)
    ensures Dir(sigs, e, p')
  {
    hide Valid, CallsOk, AsksOk, OutgoingOk, TasksOk, MailsOk, FramesOk, HandledOk;
  }

  /** Both directions, with what `e` and `p` serve. */
  ghost predicate Both(own: Sigs, sigs: Sigs, e: Endpoint, p: Endpoint) {
    Dir(sigs, e, p) && Dir(own, p, e)
  }

  lemma {:induction false} PushKeeps(own: Sigs, sigs: Sigs, e: Endpoint, p: Endpoint, e': Endpoint, m: Mail)
    requires Both(own, sigs, e, p) && e'.mailbox == e.mailbox + [m]
    requires !m.Finished? && (m.Outgoing? ==> CallOk(sigs, m.call))
    requires e'.table == e.table && e'.log.calls == e.log.calls && e'.out == e.out
    requires e'.tasks == e.tasks && e'.spawned == e.spawned && e'.log.handled == e.log.handled && e'.log.served == e.log.served
    ensures Both(own, sigs, e', p)
  {
    hide Valid, CallsOk, AsksOk, OutgoingOk, TasksOk, MailsOk, FramesOk, HandledOk, CallOk;
    OutgoingPush(sigs, e.mailbox, m);
    MailboxPush(own, p.log.calls, e.log.handled, e.mailbox, m);
    ClientChange(sigs, e, e', p);
    ServerChange(own, p, e, e');
  }

  /** The same mails, but for receivers of outgoing calls that were dropped. */
  ghost predicate DroppedIn(before: seq<Mail>, after: seq<Mail>) {
    |after| == |before| && forall i :: 0 <= i < |before| ==> SameMail(before[i], after[i])
  }

  predicate SameMail(m: Mail, n: Mail) {
    n == m || (m.Outgoing? && n.Outgoing? && n.call == m.call)
  }

  lemma {:induction false} DroppedMails(sigs: Sigs, own: Sigs, calls: map<nat, Call>, handled: map<nat, Fate>, before: seq<Mail>, after: seq<Mail>)
    requires DroppedIn(before, after)
    ensures OutgoingOk(sigs, before) ==> OutgoingOk(sigs, after)
    ensures MailsOk(own, calls, handled, before) ==> MailsOk(own, calls, handled, after)
  {
    hide CallOk, ResponseOk;
    forall i | 0 <= i < |after| ensures SameMail(before[i], after[i]) { }
    if MailsOk(own, calls, handled, before) {
      forall i | 0 <= i < |after| ensures MailOk(own, calls, handled, after[i]) {
        assert MailOk(own, calls, handled, before[i]);
      }
    }
  }

  lemma {:induction false} TableChange(own: Sigs, sigs: Sigs, e: Endpoint, p: Endpoint, e': Endpoint)
    requires Both(own, sigs, e, p) && Valid(e'.table) && e'.table.issued == e.table.issued
    requires e'.mailbox == e.mailbox || e'.mailbox == [] || DroppedIn(e.mailbox, e'.mailbox)
    requires e'.out <= e.out && e'.log.calls == e.log.calls
    requires e'.tasks == e.tasks && e'.spawned == e.spawned && e'.log.handled == e.log.handled && e'.log.served == e.log.served
    ensures Both(own, sigs, e', p)
  {
    hide Valid, CallsOk, TasksOk, HandledOk, CallOk, AskOk, FrameOk;
    if DroppedIn(e.mailbox, e'.mailbox) { DroppedMails(sigs, own, p.log.calls, e.log.handled, e.mailbox, e'.mailbox); }
    assert OutgoingOk(sigs, e'.mailbox);
    assert AsksOk(e'.out, e.log.calls, p.log.served);
    ClientChange(sigs, e, e', p);
    ServerChange(own, p, e, e');
  }

  lemma {:induction false} TableSteps(t: Table, now: nat, req: nat)
    requires Valid(t)
    ensures HasChannels(t)
    ensures Valid(Sweep(t, now)) && Sweep(t, now).issued == t.issued
    ensures Valid(Stop(t)) && Stop(t).issued == t.issued
    ensures req in t.channels ==> Valid(Close(t, req)) && Close(t, req).issued == t.issued
  {
    hide ExactlyOne, TagOf;
    SweepValid(t, now);
    StopValid(t);
    if req in t.channels { CloseValid(t, req); }
  }

  // ----- Every step keeps the invariant -----

  lemma {:induction false} SubmitKeeps(w: World, st: Step)
    requires Inv(w) && Enabled(w, st) && Consistent(w)
    requires st.Submit? || st.SubmitNode? || st.SubmitCast?
    ensures Inv(Do(w, st))
  {
    hide Dir, Codec.Encoding, HasChannels;
    var e := w.At(st.side);
    var m := match st
      case Submit(_, actor, msgId, msg) => Outgoing(OutgoingCall(w.Serves(!st.side), actor, msgId, msg), true)
      case SubmitNode(_, create) => Outgoing(Call(if create then CreateActor else GetActor, VUnit), true)
      case SubmitCast(_, cast) => OutgoingCast(cast);
    PushKeeps(w.Serves(st.side), w.Serves(!st.side), e, w.At(!st.side), Push(e, m), m);
  }

  lemma {:induction false} MailboxKeeps(w: World, st: Step)
    requires Inv(w) && Enabled(w, st) && Consistent(w) && st.Mailbox?
    ensures Inv(Do(w, st))
  {
    hide Dir, HandleMail, HasChannels;
    MailAsClient(w.Serves(!st.side), w.At(st.side), w.At(!st.side), w.now, st.ok);
    MailAsServer(w.Serves(st.side), w.At(!st.side), w.At(st.side), w.now, st.ok);
  }

  lemma {:induction false} ReceiveKeeps(w: World, st: Step)
    requires Inv(w) && Enabled(w, st) && Consistent(w) && st.Receive?
    ensures Inv(Do(w, st))
  {
    hide Dir, HandleFrame, HasChannels;
    var e, p := w.At(st.side), w.At(!st.side);
    FrameAsClient(w.Serves(!st.side), e, p, st.found, st.bytes, st.ok);
    FrameAsServer(w.Serves(st.side), p, e, st.found, st.bytes, st.ok);
  }

  lemma {:induction false} TaskKeeps(w: World, st: Step)
    requires Inv(w) && Enabled(w, st) && Consistent(w) && st.TaskMoves?
    ensures Inv(Do(w, st))
  {
    hide Dir, StepTask, HasChannels;
    TaskAsClient(w.Serves(!st.side), w.At(st.side), w.At(!st.side), w.Serves(st.side), st.k, st.choice);
    TaskAsServer(w.Serves(st.side), w.At(!st.side), w.At(st.side), st.k, st.choice);
  }

  lemma {:induction false} TableKeeps(w: World, st: Step)
    requires Inv(w) && Enabled(w, st) && Consistent(w)
    requires st.Cleanup? || st.DropReceiver? || st.StopSession?
    ensures Inv(Do(w, st))
  {
    hide Dir, Valid, HasChannels, Sweep, Requests.Stop, Close, DroppedIn;
    var s := st.side;
    var e, p := w.At(s), w.At(!s);
    DirValid(w.Serves(!s), e, p);
    TableSteps(e.table, w.now, if st.DropReceiver? then st.req else 0);
    var e' := Do(w, st).At(s);
    TableChange(w.Serves(s), w.Serves(!s), e, p, e');
  }

  lemma {:induction false} QueueKeeps(w: World, st: Step)
    requires Inv(w) && Enabled(w, st) && Consistent(w) && (st.DropQueued? || st.LoseFrames?)
    ensures Inv(Do(w, st))
  {
    hide Dir, Valid, HasChannels;
    var s := st.side;
    var e, p := w.At(s), w.At(!s);
    DirValid(w.Serves(!s), e, p);
    TableChange(w.Serves(s), w.Serves(!s), e, p, Do(w, st).At(s));
  }

  lemma {:induction false} DirValid(sigs: Sigs, e: Endpoint, p: Endpoint)
    requires Dir(sigs, e, p)
    ensures Valid(e.table)
  {
    hide Valid, CallsOk, AsksOk, OutgoingOk, TasksOk, MailsOk, FramesOk, HandledOk;
  }

  lemma {:induction false} TimerKeeps(w: World, st: Step)
    requires Inv(w) && Enabled(w, st) && Consistent(w) && st.TimerFires?
    ensures Inv(Do(w, st))
  {
    hide Valid, CallsOk, AsksOk, OutgoingOk, TasksOk, MailsOk, FramesOk, HandledOk, HasChannels;
    var e, p := w.At(st.side), w.At(!st.side);
    if e.running {
      PushKeeps(w.Serves(st.side), w.Serves(!st.side), e, p, Fire(e, st.i), RequireCleanup);
    } else {
      TableChange(w.Serves(st.side), w.Serves(!st.side), e, p, Fire(e, st.i));
    }
  }

  lemma {:induction false} StepKeeps(w: World, st: Step)
    requires Inv(w) && Enabled(w, st) && Consistent(w)
    ensures Inv(Do(w, st))
  {
    hide Dir, Enabled, Consistent, Do;
    match st
    case Submit(_, _, _, _) => SubmitKeeps(w, st);
    case SubmitNode(_, _) => SubmitKeeps(w, st);
    case SubmitCast(_, _) => SubmitKeeps(w, st);
    case Mailbox(_, _) => MailboxKeeps(w, st);
    case Receive(_, _, _, _) => ReceiveKeeps(w, st);
    case Cleanup(_) => TableKeeps(w, st);
    case TimerFires(_, _) => TimerKeeps(w, st);
    case TaskMoves(_, _, _) => TaskKeeps(w, st);
    case DropReceiver(_, _) => TableKeeps(w, st);
    case DropQueued(_, _) => QueueKeeps(w, st);
    case LoseFrames(_, _) => QueueKeeps(w, st);
    case StopSession(_) => TableKeeps(w, st);
    case Tick => TickKeeps(w);
  }

  lemma {:induction false} TickKeeps(w: World)
    requires Inv(w) && Consistent(w)
    ensures Inv(Do(w, Tick))
  {
    hide Dir;
  }
}
