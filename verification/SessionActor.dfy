/**
 The session actor in its own form: fields that handlers update in place, and the loop of its
 context. Every method is tied to the function of the step system that it implements.
 */
module SessionActor {
  import opened Wire
  import opened Values
  import opened Requests
  import Places
  import opened Network
  import opened Correlation
  import Sessions

  datatype Result = Forwarded | InvalidTag(tag: nat) | ForwardFailed

  /** The session, its pending map, the channels its requests were made with, and what it
      sends, spawns and delivers. */
  class Session {
    var tag: nat
    var pending: map<nat, Entry>
    var issued: nat
    var channels: map<nat, Channel>
    var losses: map<nat, Loss>
    var out: seq<Frame>
    var tasks: map<nat, Task>
    var spawned: nat
    var log: Log

    ghost function Snapshot(): Table
      reads this
    {
      Table(issued, tag, pending, channels, losses)
    }

    ghost predicate Ok()
      reads this
    {
      Valid(Snapshot())
    }

    constructor ()
      ensures Ok() && Snapshot() == EMPTY
      ensures out == [] && tasks == map[] && spawned == 0 && log == Log(map[], [], 0, map[], [], [])
    {
      tag, pending, issued, channels, losses := 0, map[], 0, map[], map[];
      out, tasks, spawned, log := [], map[], 0, Log(map[], [], 0, map[], [], []);
    }

    /** Takes over what others made of it. */
    method Store(e: Endpoint)
      modifies this
      ensures Snapshot() == e.table && out == e.out && tasks == e.tasks && spawned == e.spawned && log == e.log
    {
      issued, tag, pending, channels, losses := e.table.issued, e.table.tag, e.table.pending, e.table.channels, e.table.losses;
      out, tasks, spawned, log := e.out, e.tasks, e.spawned, e.log;
    }

    method NextTag() returns (taken: nat)
      requires tag < TWO64
      modifies this`tag
      ensures taken == old(tag) && tag == Requests.NextTag(old(tag))
    {
      taken := tag;
      tag := if tag == TWO64 - 1 then 0 else tag + 1;
    }

    /** Sends on the channel of a request, or learns that its receiver is closed. */
    method SendOn(req: nat, o: Outcome) returns (sent: bool)
      requires req in channels
      modifies this`channels, this`losses
      ensures Snapshot() == Send(old(Snapshot()), req, o) && sent == old(channels)[req].rxOpen
    {
      sent := channels[req].rxOpen;
      if sent {
        channels := channels[req := channels[req].(sent := Some(o))];
      } else {
        losses := losses[req := Discarded];
      }
    }

    method SendIpcMessage(f: Frame, ok: bool)
      modifies this`out
      ensures out == Sent(old(out), f, ok)
    {
      if ok { out := out + [f]; }
    }

    /** The handlers of a remote send, creation or lookup: take a tag, send the frame, and only
        then wait for its response. The receiver of the caller may be gone already. */
    method HandleCall(call: Call, rxOpen: bool, now: nat, ok: bool)
      requires Ok()
      modifies this`tag, this`pending, this`issued, this`channels, this`losses, this`out, this`log
      ensures Ok() && Snapshot() == Issue(old(Snapshot()), now, ok, rxOpen)
      ensures out == Sent(old(out), Ask(old(issued), old(tag), call.request), ok)
      ensures log == old(log).(calls := old(log).calls[old(issued) := call])
    {
      hide Valid, Requests.NextTag;
      TagFits(Snapshot());
      IssueValid(Snapshot(), now, ok, rxOpen);
      var req := issued;
      issued, channels := issued + 1, channels[issued := Channel(None, rxOpen)];
      log := log.(calls := log.calls[req := call]);
      var tag := NextTag();
      SendIpcMessage(Ask(req, tag, call.request), ok);
      if !ok {
        var _ := SendOn(req, SendFailed);
      } else {
        if tag in pending { losses := losses[pending[tag].req := Overwritten]; }
        pending := pending[tag := Entry(req, now)];
      }
    }

    method HandleCast(cast: Cast, ok: bool)
      modifies this`out, this`log
      ensures out == Sent(old(out), Tell(|old(log).casts|, cast), ok)
      ensures log == old(log).(casts := old(log).casts + [cast])
    {
      SendIpcMessage(Tell(|log.casts|, cast), ok);
      log := log.(casts := log.casts + [cast]);
    }

    /** A response takes the entry of its tag out and resolves its channel; without an entry, or
        with a closed receiver, the handler reports an error. */
    method HandleMessageResponse(tag: nat, reply: Reply) returns (r: Result)
      requires Ok()
      modifies this`pending, this`channels, this`losses
      ensures Ok() && Snapshot() == Respond(old(Snapshot()), tag, reply)
      ensures r == if tag !in old(pending) then InvalidTag(tag)
                   else if old(channels)[old(pending)[tag].req].rxOpen then Forwarded else ForwardFailed
    {
      RespondValid(Snapshot(), tag, reply);
      if tag !in pending { return InvalidTag(tag); }
      var req := pending[tag].req;
      pending := pending - {tag};
      var sent := SendOn(req, OutcomeOf(reply));
      r := if sent then Forwarded else ForwardFailed;
    }

    method Spawn(req: nat, tag: nat, stage: Stage)
      modifies this`tasks, this`spawned
      ensures spawned == old(spawned) + 1 && tasks == old(tasks)[old(spawned) := Task(req, tag, stage)]
    {
      tasks, spawned := tasks[spawned := Task(req, tag, stage)], spawned + 1;
    }

    /** Handles what the connection delivered; bytes that are no frame have no effect. */
    method HandleIpcMessage(received: Option<Frame>, found: bool, bytes: Bytes, ok: bool, ghost e: Endpoint) returns (decoded: bool)
      requires Ok() && Holds(e, Snapshot(), out, tasks, spawned, log)
      modifies this
      ensures Ok() && decoded == received.Some?
      ensures Received(e, received, found, bytes, ok) == e.(table := Snapshot(), out := out, tasks := tasks, spawned := spawned, log := log)
    {
      hide Respond, Valid, HasChannels;
      if received.None? { return false; }
      decoded := true;
      match received.value
      case Ask(req, tag, request) => HandleRequest(req, tag, request, found, bytes, ok, e);
      case Tell(n, cast) =>
        if found { log := log.(delivered := log.delivered + [Told(n, cast)]); }
      case Response(_, tag, reply) =>
        var _ := HandleMessageResponse(tag, reply);
    }

    /** Serves a tagged request: a task forwards or creates, a lookup is answered at once. */
    method HandleRequest(req: nat, tag: nat, request: Request, found: bool, bytes: Bytes, ok: bool, ghost e: Endpoint)
      requires HasChannels(e.table) && e.out == out && e.tasks == tasks && e.spawned == spawned && e.log == log
      modifies this`out, this`tasks, this`spawned, this`log
      ensures HandleFrame(e, Ask(req, tag, request), found, bytes, ok) == e.(out := out, tasks := tasks, spawned := spawned, log := log)
    {
      log := log.(served := req + 1);
      match request
      case ActorCall(_, _, _) => Spawn(req, tag, Forwarding(request, found));
      case CreateActor => Spawn(req, tag, Creating);
      case GetActor =>
        log := log.(handled := log.handled[req := NodeReply(bytes)]);
        SendIpcMessage(Response(req, tag, Reply.Ok(bytes)), ok);
    }

    /** The stopped session drops its pending map, and with it the senders in it. */
    method Drop()
      requires Ok()
      modifies this`pending, this`losses
      ensures Ok() && Snapshot() == Requests.Stop(old(Snapshot()))
    {
      StopValid(Snapshot());
      hide Valid;
      var left := set k | k in pending :: pending[k].req;
      pending, losses := map[], losses + map r | r in left :: Dropped;
    }

    /** Takes the expired entries out of the pending map. */
    method ExtractExpired(now: nat) returns (expired: map<nat, Entry>)
      requires HasChannels(Snapshot())
      modifies this`pending
      ensures forall k :: k in expired <==> k in old(pending) && Expired(old(Snapshot()), k, now)
      ensures forall k :: k in expired ==> expired[k] == old(pending)[k]
      ensures pending == Remaining(old(pending), expired.Keys)
    {
      var t := Table(issued, tag, pending, channels, losses);
      expired := map k | k in pending && Expired(t, k, now) :: pending[k];
      pending := Remaining(pending, expired.Keys);
    }

    /** Takes every expired entry out, then resolves those whose receiver is still there. */
    method CleanupMessageResTxMap(now: nat)
      requires Ok()
      modifies this`pending, this`channels, this`losses
      ensures Ok() && Snapshot() == Sweep(old(Snapshot()), now)
      ensures issued == old(issued) && forall q :: 0 <= q < issued && q in old(channels) ==>
                Places.PlaceOf(Snapshot(), q) == Places.AfterSweep(Places.PlaceOf(old(Snapshot()), q), old(channels)[q].rxOpen, now)
    {
      hide Valid, Sweep, Partly, Expired, Remaining, Places.PlaceOf, Places.AfterSweep;
      ghost var t := Snapshot();
      PendingHasChannel(t);
      forall q | 0 <= q < issued && q in channels
        ensures Places.PlaceOf(Sweep(t, now), q) == Places.AfterSweep(Places.PlaceOf(t, q), channels[q].rxOpen, now)
      {
        Places.SweepPlaces(t, now, q);
      }
      SweepValid(t, now);
      var expired := ExtractExpired(now);
      ResolveExpired(expired, t);
      PartlyAll(t, now, expired.Keys, pending, channels, losses);
    }

    /** Resolves the expired requests one by one. */
    method ResolveExpired(expired: map<nat, Entry>, ghost t: Table)
      requires Valid(t) && channels == t.channels && losses == t.losses
      requires forall k :: k in expired ==> k in t.pending && expired[k] == t.pending[k]
      modifies this`channels, this`losses
      ensures Partly(t, expired.Keys, channels, losses)
    {
      hide Valid, Partly;
      var todo := expired.Keys;
      ghost var done: set<nat> := {};
      PartlyNone(t);
      while todo != {}
        invariant todo !! done && todo + done == expired.Keys
        invariant Partly(t, done, channels, losses)
        decreases |todo|
      {
        var k :| k in todo;
        PartlyMore(t, done, k, channels, losses);
        Expire(expired[k].req);
        todo, done := todo - {k}, done + {k};
      }
    }

    /** Resolves one expired request with a timeout, unless its receiver is closed. */
    method Expire(req: nat)
      requires req in channels
      modifies this`channels, this`losses
      ensures Snapshot() == Send(old(Snapshot()), req, TimedOut)
    {
      var _ := SendOn(req, TimedOut);
    }
  }

  ghost predicate Holds(e: Endpoint, t: Table, out: seq<Frame>, tasks: map<nat, Task>, spawned: nat, log: Log) {
    e.table == t && e.out == out && e.tasks == tasks && e.spawned == spawned && e.log == log && HasChannels(t)
  }

  function Received(e: Endpoint, received: Option<Frame>, found: bool, bytes: Bytes, ok: bool): Endpoint
    requires HasChannels(e.table)
  {
    if received.Some? then HandleFrame(e, received.value, found, bytes, ok) else e
  }

  // ----- What happens to a session while its loop waits -----

  /** A mail arrives, a timer fires, a task moves on, a receiver is dropped, the peer takes the
      next frame, or the connection loses frames. */
  datatype Outside =
    | Arrives(mail: Mail)
    | Fires(i: nat)
    | Moves(k: nat, choice: Choice)
    | Drops(req: nat)
    | DropsQueued(i: nat)
    | Taken
    | Lost(keep: nat)

  /** What is not possible now has no effect. */
  function Affect(own: Sigs, e: Endpoint, o: Outside): Endpoint {
    match o
    case Arrives(mail) => Push(e, mail)
    case Fires(i) => if i < |e.clock.timers| then Fire(e, i) else e
    case Moves(k, c) => if TaskEnabled(own, e, k, c) then StepTask(own, e, k, c) else e
    case Drops(req) => if req in e.table.channels then e.(table := Close(e.table, req)) else e
    case DropsQueued(i) => if i < |e.mailbox| && e.mailbox[i].Outgoing? then CloseQueued(e, i) else e
    case Taken => if e.out != [] then e.(out := e.out[1..]) else e
    case Lost(keep) => if keep <= |e.out| then e.(out := e.out[..keep]) else e
  }

  function AffectAll(own: Sigs, e: Endpoint, os: seq<Outside>): Endpoint
    decreases os
  {
    if os == [] then e else AffectAll(own, Affect(own, e, os[0]), os[1..])
  }

  lemma {:induction false} AffectValid(own: Sigs, e: Endpoint, o: Outside)
    requires Valid(e.table)
    ensures Valid(Affect(own, e, o).table)
    ensures Affect(own, e, o).running == e.running && Affect(own, e, o).clock.cleanup == e.clock.cleanup
  {
    hide Valid, Close, TaskFate, ReplyOf, TaskEnabled;
    if o.Drops? && o.req in e.table.channels { CloseValid(e.table, o.req); }
  }

  lemma {:induction false} AffectAllValid(own: Sigs, e: Endpoint, os: seq<Outside>)
    requires Valid(e.table)
    ensures Valid(AffectAll(own, e, os).table)
    ensures AffectAll(own, e, os).running == e.running && AffectAll(own, e, os).clock.cleanup == e.clock.cleanup
    decreases os
  {
    hide Valid, Affect;
    if os != [] {
      AffectValid(own, e, os[0]);
      AffectAllValid(own, Affect(own, e, os[0]), os[1..]);
    }
  }

  // ----- The context -----

  /** What wakes the loop. */
  datatype Input =
    | FromMailbox(sent: bool)
    | FromConnection(received: Option<Frame>, found: bool, bytes: Bytes, sent: bool)
    | MailboxClosed
    | ConnectionLost(reset: bool)

  /** One turn of the loop: what happens before it, when it sweeps, what happens while it waits,
      when it wakes, and by what. */
  datatype Turn = Turn(early: seq<Outside>, sweptAt: nat, late: seq<Outside>, now: nat, input: Input)

  function Swept(e: Endpoint, now: nat): Endpoint
    requires HasChannels(e.table)
  {
    if e.clock.cleanup then SweepNow(e, now) else e
  }

  function Handled(e: Endpoint, now: nat, input: Input): Endpoint
    requires HasChannels(e.table)
  {
    match input
    case FromMailbox(sent) => if e.mailbox == [] then e else HandleMail(e, now, sent)
    case FromConnection(received, found, bytes, sent) => Received(e, received, found, bytes, sent)
    case MailboxClosed => StopNow(e)
    case ConnectionLost(_) => StopNow(e)
  }

  /** A running session when its loop wakes. */
  function Woken(own: Sigs, e: Endpoint, turn: Turn): Endpoint
    requires Valid(e.table)
  {
    AffectAllValid(own, e, turn.early);
    var e1 := AffectAll(own, e, turn.early);
    PendingHasChannel(e1.table);
    AffectAll(own, Swept(e1, turn.sweptAt), turn.late)
  }

  lemma {:induction false} WokenValid(own: Sigs, e: Endpoint, turn: Turn)
    requires Valid(e.table)
    ensures Valid(Woken(own, e, turn).table) && HasChannels(Woken(own, e, turn).table)
  {
    hide Valid, HasChannels, AffectAll, Sweep;
    AffectAllValid(own, e, turn.early);
    var e1 := AffectAll(own, e, turn.early);
    PendingHasChannel(e1.table);
    SweepValid(e1.table, turn.sweptAt);
    AffectAllValid(own, Swept(e1, turn.sweptAt), turn.late);
    PendingHasChannel(Woken(own, e, turn).table);
  }

  /** What one turn does to a running session. */
  function Turned(own: Sigs, e: Endpoint, turn: Turn): Endpoint
    requires Valid(e.table)
  {
    WokenValid(own, e, turn);
    Handled(Woken(own, e, turn), turn.now, turn.input)
  }

  lemma {:induction false} TurnedValid(own: Sigs, e: Endpoint, turn: Turn)
    requires Valid(e.table)
    ensures Valid(Turned(own, e, turn).table)
  {
    hide Valid, HasChannels, Issue, Respond, Requests.Stop, Woken;
    WokenValid(own, e, turn);
    var w := Woken(own, e, turn);
    StopValid(w.table);
    if turn.input.FromMailbox? && w.mailbox != [] && w.mailbox[0].Outgoing? {
      IssueValid(w.table, turn.now, turn.input.sent, w.mailbox[0].rxOpen);
    }
    if turn.input.FromConnection? && turn.input.received.Some? && turn.input.received.value.Response? {
      RespondValid(w.table, turn.input.received.value.tag, turn.input.received.value.reply);
    }
  }

  /** All turns, until the session stops. */
  function Looped(own: Sigs, e: Endpoint, turns: seq<Turn>): Endpoint
    requires Valid(e.table)
    decreases turns
  {
    if turns == [] || !e.running then e
    else
      TurnedValid(own, e, turns[0]);
      Looped(own, Turned(own, e, turns[0]), turns[1..])
  }

  class SessionContext {
    var running: bool
    var requireCleanup: bool
    var timers: seq<nat>
    var mailbox: seq<Mail>
    var swept: nat
    var due: nat

    constructor (now: nat)
      ensures running && requireCleanup && timers == [] && mailbox == [] && swept == now && due == now
    {
      running, requireCleanup, timers, mailbox := true, true, [], [];
      swept, due := now, now;
    }

    ghost function Whole(s: Session): Endpoint
      reads this, s
    {
      Endpoint(running, s.Snapshot(), Clock(requireCleanup, timers, swept, due), mailbox, s.out, s.tasks, s.spawned, s.log)
    }

    /** Others act on what the session shares with them. */
    method Interfere(own: Sigs, s: Session, o: Outside)
      requires s.Ok()
      modifies this, s
      ensures s.Ok() && Whole(s) == Affect(own, old(Whole(s)), o)
    {
      hide Valid, Affect;
      AffectValid(own, Whole(s), o);
      var table := Table(s.issued, s.tag, s.pending, s.channels, s.losses);
      var e := Endpoint(running, table, Clock(requireCleanup, timers, swept, due), mailbox, s.out, s.tasks, s.spawned, s.log);
      var e' := Affect(own, e, o);
      running, mailbox := e'.running, e'.mailbox;
      requireCleanup, timers, swept, due := e'.clock.cleanup, e'.clock.timers, e'.clock.swept, e'.clock.due;
      s.Store(e');
    }

    method InterfereAll(own: Sigs, s: Session, os: seq<Outside>)
      requires s.Ok()
      modifies this, s
      ensures s.Ok() && Whole(s) == AffectAll(own, old(Whole(s)), os)
    {
      hide Valid, Affect;
      var i := 0;
      while i < |os|
        invariant 0 <= i <= |os| && s.Ok()
        invariant AffectAll(own, Whole(s), os[i..]) == AffectAll(own, old(Whole(s)), os)
      {
        assert os[i..][0] == os[i] && os[i..][1..] == os[i + 1..];
        Interfere(own, s, os[i]);
        i := i + 1;
      }
    }

    method CleanupIfRequired(s: Session, now: nat)
      requires s.Ok()
      modifies this, s
      ensures s.Ok() && HasChannels(old(s.Snapshot())) && Whole(s) == Swept(old(Whole(s)), now)
    {
      hide Valid, Sweep;
      PendingHasChannel(s.Snapshot());
      if requireCleanup {
        s.CleanupMessageResTxMap(now);
        requireCleanup := false;
        timers := timers + [now + CLEANUP_INTERVAL];
        swept, due := now, now + CLEANUP_INTERVAL;
      }
    }

    method HandleFirst(s: Session, now: nat, ok: bool)
      requires s.Ok() && mailbox != []
      modifies this, s
      ensures s.Ok() && Whole(s) == HandleMail(old(Whole(s)), now, ok)
    {
      hide Valid, Issue;
      var mail := mailbox[0];
      mailbox := mailbox[1..];
      match mail
      case Outgoing(call, rxOpen) => s.HandleCall(call, rxOpen, now, ok);
      case OutgoingCast(cast) => s.HandleCast(cast, ok);
      case Finished(req, tag, reply) => s.SendIpcMessage(Response(req, tag, reply), ok);
      case RequireCleanup => requireCleanup := true;
    }

    /** The loop handles turns until one of its two sources fails; only a failure that is not
        a closed connection is an error of the loop. */
    method RunLoop(own: Sigs, s: Session, turns: seq<Turn>) returns (failed: bool)
      requires s.Ok()
      modifies this, s
      ensures s.Ok() && Whole(s) == Looped(own, old(Whole(s)), turns)
      ensures failed ==> !running && exists i :: 0 <= i < |turns| && turns[i].input == ConnectionLost(false)
    {
      hide Valid, Turned;
      failed := false;
      var i := 0;
      while running && i < |turns|
        invariant 0 <= i <= |turns| && s.Ok()
        invariant failed ==> !running && exists j :: 0 <= j < i && turns[j].input == ConnectionLost(false)
        invariant Looped(own, Whole(s), turns[i..]) == Looped(own, old(Whole(s)), turns)
      {
        assert turns[i..][0] == turns[i] && turns[i..][1..] == turns[i + 1..];
        failed := TakeTurn(own, s, turns[i]);
        i := i + 1;
      }
    }

    method TakeTurn(own: Sigs, s: Session, turn: Turn) returns (failed: bool)
      requires s.Ok() && running
      modifies this, s
      ensures s.Ok() && Whole(s) == Turned(own, old(Whole(s)), turn)
      ensures failed <==> turn.input == ConnectionLost(false)
      ensures failed ==> !running
    {
      hide Valid, HandleMail, HandleFrame, Swept, AffectAll, Requests.Stop, Received;
      failed := false;
      InterfereAll(own, s, turn.early);
      CleanupIfRequired(s, turn.sweptAt);
      InterfereAll(own, s, turn.late);
      PendingHasChannel(s.Snapshot());
      match turn.input
      case FromMailbox(sent) =>
        if mailbox != [] { HandleFirst(s, turn.now, sent); }
      case FromConnection(received, found, bytes, sent) =>
        ghost var e := Whole(s);
        assert Holds(e, s.Snapshot(), s.out, s.tasks, s.spawned, s.log);
        var _ := s.HandleIpcMessage(received, found, bytes, sent, e);
      case MailboxClosed =>
        s.Drop();
        running, mailbox := false, [];
      case ConnectionLost(reset) =>
        s.Drop();
        running, mailbox, failed := false, [], !reset;
    }
  }

  lemma {:induction false} TagFits(t: Table)
    requires Valid(t)
    ensures t.tag < TWO64
  {
  }

  lemma {:induction false} PendingHasChannel(t: Table)
    requires Valid(t)
    ensures HasChannels(t)
  {
    hide TagOf, ExactlyOne;
  }

  function Remaining(pending: map<nat, Entry>, gone: set<nat>): map<nat, Entry> {
    map k | k in pending && k !in gone :: pending[k]
  }

  predicate Done(t: Table, done: set<nat>, r: nat) {
    IsPending(t, r) && TagOf(r) in done
  }

  /** The channels and losses when the requests under the tags `done` have been swept. */
  ghost predicate Partly(t: Table, done: set<nat>, channels: map<nat, Channel>, losses: map<nat, Loss>) {
    && channels.Keys == t.channels.Keys
    && (forall r :: r in channels ==>
          channels[r] == if Done(t, done, r) && t.channels[r].rxOpen then t.channels[r].(sent := Some(TimedOut)) else t.channels[r])
    && (forall r :: r in losses <==> r in t.losses || (Done(t, done, r) && r in channels && !t.channels[r].rxOpen))
    && (forall r :: r in losses ==> losses[r] == if Done(t, done, r) then Discarded else t.losses[r])
  }

  lemma {:induction false} PartlyNone(t: Table)
    ensures Partly(t, {}, t.channels, t.losses)
  {
    hide TagOf, IsPending;
  }

  lemma {:induction false} PartlyMore(t: Table, done: set<nat>, k: nat, channels: map<nat, Channel>, losses: map<nat, Loss>)
    requires Valid(t) && Partly(t, done, channels, losses) && k in t.pending && k !in done
    ensures var r := t.pending[k].req;
            && r in channels
            && if channels[r].rxOpen then Partly(t, done + {k}, channels[r := channels[r].(sent := Some(TimedOut))], losses)
               else Partly(t, done + {k}, channels, losses[r := Discarded])
  {
    hide ExactlyOne, IsResolved, TagOf;
    var r := t.pending[k].req;
    assert r in channels && !Done(t, done, r);
    forall q ensures Done(t, done + {k}, q) <==> Done(t, done, q) || q == r { OnlyOne(t, done, k, q); }
    NotLost(t, k);
    hide Done, Valid;
  }

  lemma {:induction false} NotLost(t: Table, k: nat)
    requires Valid(t) && k in t.pending
    ensures t.pending[k].req !in t.losses
  {
    hide TagOf;
    var r := t.pending[k].req;
    assert ExactlyOne(IsPending(t, r), IsResolved(t, r), r in t.losses);
  }

  lemma {:induction false} OnlyOne(t: Table, done: set<nat>, k: nat, q: nat)
    requires Valid(t) && k in t.pending && k !in done
    ensures Done(t, done + {k}, q) <==> Done(t, done, q) || q == t.pending[k].req
  {
    hide TagOf, ExactlyOne, IsResolved;
  }

  lemma {:induction false} PartlyAll(
    t: Table, now: nat, gone: set<nat>, pending: map<nat, Entry>, channels: map<nat, Channel>, losses: map<nat, Loss>)
    requires Valid(t) && Partly(t, gone, channels, losses)
    requires HasChannels(t) && forall k :: k in gone <==> k in t.pending && Expired(t, k, now)
    requires pending == Remaining(t.pending, gone)
    ensures Table(t.issued, t.tag, pending, channels, losses) == Sweep(t, now)
  {
    hide TagOf, ExpiredRequests, Expired, IsPending;
    forall q ensures q in ExpiredRequests(t, now) <==> Done(t, gone, q) {
      WhatExpires(t, now, q);
      PendingUnder(t, q);
    }
    forall q | Done(t, gone, q) ensures q !in t.losses { NotLost(t, TagOf(q)); PendingUnder(t, q); }
    hide Done, Partly, Valid, Remaining;
    RemainingAll(t, now, gone);
    ChannelsAll(t, now, gone, channels, losses);
    LossesAll(t, now, gone, channels, losses);
  }

  lemma {:induction false} RemainingAll(t: Table, now: nat, gone: set<nat>)
    requires HasChannels(t) && forall k :: k in gone <==> k in t.pending && Expired(t, k, now)
    ensures Sweep(t, now).pending == Remaining(t.pending, gone)
    ensures Sweep(t, now).issued == t.issued && Sweep(t, now).tag == t.tag
  {
    hide Expired, ExpiredRequests;
  }

  lemma {:induction false} ChannelsAll(t: Table, now: nat, gone: set<nat>, channels: map<nat, Channel>, losses: map<nat, Loss>)
    requires Partly(t, gone, channels, losses)
    requires HasChannels(t) && forall q :: q in ExpiredRequests(t, now) <==> Done(t, gone, q)
    ensures Sweep(t, now).channels == channels
  {
    hide Expired, ExpiredRequests, Done;
  }

  lemma {:induction false} LossesAll(t: Table, now: nat, gone: set<nat>, channels: map<nat, Channel>, losses: map<nat, Loss>)
    requires Partly(t, gone, channels, losses)
    requires HasChannels(t) && forall q :: q in ExpiredRequests(t, now) <==> Done(t, gone, q)
    requires forall q :: Done(t, gone, q) ==> q !in t.losses
    ensures Sweep(t, now).losses == losses
  {
    hide Expired, ExpiredRequests, Done;
    var u := Sweep(t, now);
    forall r ensures r in u.losses <==> r in losses { }
    forall r | r in losses ensures u.losses[r] == losses[r] { }
  }

  lemma {:induction false} PendingUnder(t: Table, q: nat)
    ensures IsPending(t, q) ==> TagOf(q) in t.pending && t.pending[TagOf(q)].req == q
  {
  }

  // ----- The loop in a world -----

  /** A step that is not one of the session's own loop. */
  predicate Outer(side: bool, st: Step) {
    (st.Mailbox? || st.Receive? || st.Cleanup? || st.StopSession?) ==> st.side != side
  }

  /** What a step of others does to the session on `side`. */
  function Seen(w: World, side: bool, st: Step): seq<Outside>
    requires Enabled(w, st)
  {
    match st
    case Submit(s, actor, msgId, msg) =>
      if s == side then [Arrives(Outgoing(OutgoingCall(w.Serves(!s), actor, msgId, msg), true))] else []
    case SubmitNode(s, create) =>
      if s == side then [Arrives(Outgoing(Call(if create then CreateActor else GetActor, VUnit), true))] else []
    case SubmitCast(s, cast) => if s == side then [Arrives(OutgoingCast(cast))] else []
    case TimerFires(s, i) => if s == side then [Fires(i)] else []
    case TaskMoves(s, k, c) => if s == side then [Moves(k, c)] else []
    case DropReceiver(s, req) => if s == side then [Drops(req)] else []
    case DropQueued(s, i) => if s == side then [DropsQueued(i)] else []
    case LoseFrames(s, keep) => if s == side then [Lost(keep)] else []
    case Receive(s, _, _, _) => if s != side then [Taken] else []
    case _ => []
  }

  lemma {:induction false} SeenIsAll(w: World, side: bool, st: Step)
    requires Enabled(w, st) && Consistent(w) && Outer(side, st)
    ensures Do(w, st).At(side) == AffectAll(w.Serves(side), w.At(side), Seen(w, side, st))
    ensures Do(w, st).Serves(side) == w.Serves(side)
  {
    hide HandleMail, HandleFrame, StepTask, HasChannels, OutgoingCall, TaskEnabled, Close, Sweep, Requests.Stop;
    var os := Seen(w, side, st);
    if os != [] { assert os[1..] == []; }
  }

  /** Steps that can be taken one after the other, none by the session's own loop. */
  ghost predicate Others(w: World, side: bool, steps: seq<Step>)
    decreases steps
  {
    steps == [] || (
      Enabled(w, steps[0]) && Consistent(w) && Outer(side, steps[0]) && Others(Do(w, steps[0]), side, steps[1..]))
  }

  ghost function After(w: World, side: bool, steps: seq<Step>): World
    requires Others(w, side, steps)
    decreases steps
  {
    if steps == [] then w else After(Do(w, steps[0]), side, steps[1..])
  }

  ghost function SeenAll(w: World, side: bool, steps: seq<Step>): seq<Outside>
    requires Others(w, side, steps)
    decreases steps
  {
    if steps == [] then [] else Seen(w, side, steps[0]) + SeenAll(Do(w, steps[0]), side, steps[1..])
  }

  lemma {:induction false} AffectTwice(own: Sigs, e: Endpoint, x: seq<Outside>, y: seq<Outside>)
    ensures AffectAll(own, AffectAll(own, e, x), y) == AffectAll(own, e, x + y)
    decreases x
  {
    hide Affect;
    if x == [] {
      assert x + y == y;
    } else {
      assert (x + y)[1..] == x[1..] + y;
      AffectTwice(own, Affect(own, e, x[0]), x[1..], y);
    }
  }

  /** Steps of others are a run, and all the session notices of it is what it sees. */
  lemma {:induction false} OthersRun(w: World, side: bool, steps: seq<Step>)
    requires Inv(w) && Others(w, side, steps)
    ensures var w' := After(w, side, steps);
            && Sessions.Reaches(w, steps, w') && Inv(w') && w'.Serves(side) == w.Serves(side)
            && w'.At(side) == AffectAll(w.Serves(side), w.At(side), SeenAll(w, side, steps))
    decreases steps
  {
    hide Inv, Enabled, Consistent, Do, Seen, AffectAll, Outer;
    if steps == [] {
      AffectNone(w.Serves(side), w.At(side));
    } else {
      StepKeeps(w, steps[0]);
      SeenIsAll(w, side, steps[0]);
      var w1 := Do(w, steps[0]);
      OthersRun(w1, side, steps[1..]);
      AffectTwice(w.Serves(side), w.At(side), Seen(w, side, steps[0]), SeenAll(w1, side, steps[1..]));
    }
  }

  /** Others neither stop a session nor raise its cleanup flag. */
  lemma {:induction false} OthersLeaveLoop(w: World, side: bool, steps: seq<Step>)
    requires Inv(w) && Others(w, side, steps)
    ensures var e, e' := w.At(side), After(w, side, steps).At(side);
            e'.running == e.running && e'.clock.cleanup == e.clock.cleanup
  {
    hide Inv, Others, After, AffectAll, SeenAll, Valid;
    OthersRun(w, side, steps);
    Sessions.InvValid(w);
    AffectAllValid(w.Serves(side), w.At(side), SeenAll(w, side, steps));
  }

  lemma {:induction false} AffectNone(own: Sigs, e: Endpoint)
    ensures AffectAll(own, e, []) == e
  {
  }

  /** A turn of the loop in a world: what others do before it sweeps and while it waits, and what
      wakes it. */
  datatype WorldTurn = WorldTurn(early: seq<Step>, late: seq<Step>, input: Input)

  function SweepSteps(w: World, side: bool): seq<Step> {
    if w.At(side).clock.cleanup then [Cleanup(side)] else []
  }

  /** The steps that an input stands for; bytes that are no frame stand for none. */
  function InputSteps(side: bool, input: Input): seq<Step> {
    match input
    case FromMailbox(sent) => [Mailbox(side, sent)]
    case FromConnection(received, found, bytes, sent) =>
      if received.Some? then [Receive(side, found, bytes, sent)] else []
    case _ => [StopSession(side)]
  }

  /** An input that the world offers: a queued mail, or the peer's next frame. */
  predicate Offered(w: World, side: bool, input: Input) {
    match input
    case FromMailbox(_) => w.At(side).mailbox != []
    case FromConnection(received, _, _, _) => received.Some? ==> w.At(!side).out != [] && w.At(!side).out[0] == received.value
    case _ => true
  }

  /** A world in order, in which the session on `side` runs. */
  ghost predicate Live(w: World, side: bool) {
    Inv(w) && w.At(side).running
  }

  ghost function AfterSweep(w: World, side: bool): World
    requires Live(w, side)
  {
    InvConsistent(w);
    if w.At(side).clock.cleanup then Do(w, Cleanup(side)) else w
  }

  ghost function AfterInput(w: World, side: bool, input: Input): World
    requires Live(w, side) && !w.At(side).clock.cleanup && Offered(w, side, input)
  {
    InvConsistent(w);
    var steps := InputSteps(side, input);
    if steps == [] then w else Do(w, steps[0])
  }

  /** Whatever others do, the session still runs afterwards, with the flag as it was. */
  lemma {:induction false} OthersKeepLive(w: World, side: bool, steps: seq<Step>)
    requires Live(w, side) && Others(w, side, steps)
    ensures Live(After(w, side, steps), side)
    ensures After(w, side, steps).At(side).clock.cleanup == w.At(side).clock.cleanup
  {
    hide Inv, Others, After, AffectAll, SeenAll;
    OthersRun(w, side, steps);
    OthersLeaveLoop(w, side, steps);
  }

  lemma {:induction false} SweepIsRun(w: World, side: bool)
    requires Live(w, side)
    ensures var w' := AfterSweep(w, side);
            && Sessions.Reaches(w, SweepSteps(w, side), w') && w'.Serves(side) == w.Serves(side) && w'.now == w.now
            && Live(w', side) && !w'.At(side).clock.cleanup
            && HasChannels(w.At(side).table) && w'.At(side) == Swept(w.At(side), w.now)
  {
    hide Inv, HasChannels, Sweep;
    InvConsistent(w);
    if w.At(side).clock.cleanup {
      StepKeeps(w, Cleanup(side));
      assert [Cleanup(side)][1..] == [];
    }
  }

  lemma {:induction false} InputIsRun(w: World, side: bool, input: Input)
    requires Live(w, side) && !w.At(side).clock.cleanup && Offered(w, side, input)
    ensures var w' := AfterInput(w, side, input);
            && Sessions.Reaches(w, InputSteps(side, input), w') && Inv(w') && w'.Serves(side) == w.Serves(side)
            && HasChannels(w.At(side).table) && w'.At(side) == Handled(w.At(side), w.now, input)
  {
    hide Inv, HasChannels, HandleMail, HandleFrame, StopNow;
    InvConsistent(w);
    var steps := InputSteps(side, input);
    if steps != [] {
      StepKeeps(w, steps[0]);
      assert steps[1..] == [];
    }
  }

  /** The worlds in which a turn sweeps, waits and wakes. */
  ghost function Sweeps(w: World, side: bool, t: WorldTurn): World
    requires Live(w, side) && Others(w, side, t.early)
  {
    After(w, side, t.early)
  }

  ghost function Waits(w: World, side: bool, t: WorldTurn): World
    requires Live(w, side) && Others(w, side, t.early)
  {
    OthersKeepLive(w, side, t.early);
    AfterSweep(Sweeps(w, side, t), side)
  }

  ghost function Wakes(w: World, side: bool, t: WorldTurn): World
    requires Live(w, side) && Others(w, side, t.early) && Others(Waits(w, side, t), side, t.late)
  {
    After(Waits(w, side, t), side, t.late)
  }

  /** A turn can happen if others can do what they do, and the world offers the input. */
  ghost predicate CanTurn(w: World, side: bool, t: WorldTurn)
    requires Live(w, side)
  {
    Others(w, side, t.early) && Others(Waits(w, side, t), side, t.late) && Offered(Wakes(w, side, t), side, t.input)
  }

  lemma {:induction false} WakesLive(w: World, side: bool, t: WorldTurn)
    requires Live(w, side) && CanTurn(w, side, t)
    ensures Live(Sweeps(w, side, t), side) && Live(Waits(w, side, t), side)
    ensures Live(Wakes(w, side, t), side) && !Wakes(w, side, t).At(side).clock.cleanup
  {
    hide Live, Others, After, AfterSweep, Offered;
    OthersKeepLive(w, side, t.early);
    SweepIsRun(Sweeps(w, side, t), side);
    OthersKeepLive(Waits(w, side, t), side, t.late);
  }

  ghost function TurnWorld(w: World, side: bool, t: WorldTurn): World
    requires Live(w, side) && CanTurn(w, side, t)
  {
    WakesLive(w, side, t);
    AfterInput(Wakes(w, side, t), side, t.input)
  }

  ghost function TurnSteps(w: World, side: bool, t: WorldTurn): seq<Step>
    requires Live(w, side) && CanTurn(w, side, t)
  {
    t.early + SweepSteps(Sweeps(w, side, t), side) + t.late + InputSteps(side, t.input)
  }

  /** The turn as the session notices it. */
  ghost function LocalTurn(w: World, side: bool, t: WorldTurn): Turn
    requires Live(w, side) && CanTurn(w, side, t)
  {
    Turn(SeenAll(w, side, t.early), Sweeps(w, side, t).now, SeenAll(Waits(w, side, t), side, t.late), Wakes(w, side, t).now, t.input)
  }

  /** One turn of the loop, with all that happens meanwhile, is a run of the step system. */
  lemma {:induction false} TurnIsRun(w: World, side: bool, t: WorldTurn)
    requires Live(w, side) && CanTurn(w, side, t)
    ensures Valid(w.At(side).table)
    ensures var w' := TurnWorld(w, side, t);
            && Sessions.Reaches(w, TurnSteps(w, side, t), w') && Inv(w') && w'.Serves(side) == w.Serves(side)
            && w'.At(side) == Turned(w.Serves(side), w.At(side), LocalTurn(w, side, t))
  {
    hide Inv, Valid, HasChannels, Others, After, AffectAll, AfterSweep, AfterInput, SeenAll, InputSteps, SweepSteps, Offered, Handled, Swept;
    Sessions.InvValid(w);
    WakesLive(w, side, t);
    var w1, w2, w3 := Sweeps(w, side, t), Waits(w, side, t), Wakes(w, side, t);
    OthersRun(w, side, t.early);
    SweepIsRun(w1, side);
    OthersRun(w2, side, t.late);
    InputIsRun(w3, side, t.input);
    var x := t.early + SweepSteps(w1, side);
    Sessions.ReachesTwice(w, t.early, w1, SweepSteps(w1, side), w2);
    Sessions.ReachesTwice(w, x, w2, t.late, w3);
    Sessions.ReachesTwice(w, x + t.late, w3, InputSteps(side, t.input), TurnWorld(w, side, t));
    WokenValid(w.Serves(side), w.At(side), LocalTurn(w, side, t));
  }

  /** Turns that can happen one after the other, until the session stops. */
  ghost predicate CanLoop(w: World, side: bool, ts: seq<WorldTurn>)
    requires Inv(w)
    decreases ts
  {
    ts == [] || !w.At(side).running || (
      && CanTurn(w, side, ts[0])
      && (TurnIsRun(w, side, ts[0]); CanLoop(TurnWorld(w, side, ts[0]), side, ts[1..])))
  }

  ghost function LoopWorld(w: World, side: bool, ts: seq<WorldTurn>): World
    requires Inv(w) && CanLoop(w, side, ts)
    decreases ts
  {
    if ts == [] || !w.At(side).running then w
    else
      TurnIsRun(w, side, ts[0]);
      LoopWorld(TurnWorld(w, side, ts[0]), side, ts[1..])
  }

  ghost function LoopSteps(w: World, side: bool, ts: seq<WorldTurn>): seq<Step>
    requires Inv(w) && CanLoop(w, side, ts)
    decreases ts
  {
    if ts == [] || !w.At(side).running then []
    else
      TurnIsRun(w, side, ts[0]);
      TurnSteps(w, side, ts[0]) + LoopSteps(TurnWorld(w, side, ts[0]), side, ts[1..])
  }

  ghost function LocalTurns(w: World, side: bool, ts: seq<WorldTurn>): seq<Turn>
    requires Inv(w) && CanLoop(w, side, ts)
    decreases ts
  {
    if ts == [] || !w.At(side).running then []
    else
      TurnIsRun(w, side, ts[0]);
      [LocalTurn(w, side, ts[0])] + LocalTurns(TurnWorld(w, side, ts[0]), side, ts[1..])
  }

  /** The loop of a session, interleaved with whatever others do and however long it waits, is a
      run of the step system, and its session is in the state that the loop computes. So what
      holds of all runs holds of the class. */
  lemma {:induction false} LoopIsRun(w: World, side: bool, ts: seq<WorldTurn>)
    requires Inv(w) && CanLoop(w, side, ts)
    ensures Valid(w.At(side).table)
    ensures var w' := LoopWorld(w, side, ts);
            && Sessions.Reaches(w, LoopSteps(w, side, ts), w')
            && w'.At(side) == Looped(w.Serves(side), w.At(side), LocalTurns(w, side, ts))
    decreases ts
  {
    hide Inv, Valid, CanTurn, TurnWorld, TurnSteps, LocalTurn, Turned;
    Sessions.InvValid(w);
    if ts != [] && w.At(side).running {
      var t := ts[0];
      TurnIsRun(w, side, t);
      var w1 := TurnWorld(w, side, t);
      LoopIsRun(w1, side, ts[1..]);
      Sessions.ReachesTwice(w, TurnSteps(w, side, t), w1, LoopSteps(w1, side, ts[1..]), LoopWorld(w1, side, ts[1..]));
      var locals := LocalTurns(w, side, ts);
      assert locals[0] == LocalTurn(w, side, t) && locals[1..] == LocalTurns(w1, side, ts[1..]);
    }
  }
}
