/**
 What a running session keeps about its cleanup timer, the age of its pending requests and the
 order of untagged messages.
 */
module Housekeeping {
  import opened Wire
  import opened Values
  import opened Requests
  import opened Network

  // ----- The cleanup token -----

  function CleanupMails(mailbox: seq<Mail>): nat {
    if mailbox == [] then 0
    else (if mailbox[0].RequireCleanup? then 1 else 0) + CleanupMails(mailbox[1..])
  }

  lemma {:induction false} CleanupMailsPush(mailbox: seq<Mail>, m: Mail)
    ensures CleanupMails(mailbox + [m]) == CleanupMails(mailbox) + (if m.RequireCleanup? then 1 else 0)
  {
    if mailbox == [] {
      assert ([] + [m])[1..] == [];
    } else {
      assert (mailbox + [m])[1..] == mailbox[1..] + [m];
      CleanupMailsPush(mailbox[1..], m);
    }
  }

  /** The tokens in circulation: the flag, a sleeping timer, a queued request. */
  function Tokens(e: Endpoint): nat {
    (if e.clock.cleanup then 1 else 0) + |e.clock.timers| + CleanupMails(e.mailbox)
  }

  /** A running session has exactly one cleanup token, and a timer sleeps until it is due. */
  ghost predicate TokenOk(e: Endpoint) {
    e.running ==> Tokens(e) == 1 && forall i :: 0 <= i < |e.clock.timers| ==> e.clock.timers[i] == e.clock.due
  }

  /** Pending entries were young enough at the last sweep or are newer than it. */
  ghost predicate AgesOk(e: Endpoint, now: nat) {
    e.running ==>
      && e.clock.swept <= now && e.clock.due <= e.clock.swept + CLEANUP_INTERVAL
      && forall k :: k in e.table.pending ==>
           e.table.pending[k].since <= now && e.clock.swept < e.table.pending[k].since + RESPONSE_TIMEOUT
  }

  /** Time does not run more than `d` past the moment a sweep is due. */
  ghost predicate Prompt(w: World, st: Step, d: nat) {
    st.Tick? ==>
      && (w.left.running ==> w.now + 1 <= w.left.clock.due + d)
      && (w.right.running ==> w.now + 1 <= w.right.clock.due + d)
  }

  ghost predicate OnTime(e: Endpoint, now: nat, d: nat) {
    e.running ==> now <= e.clock.due + d
  }

  // ----- Untagged messages -----

  ghost predicate TellOk(f: Frame, casts: seq<Cast>) {
    f.Tell? ==> f.n < |casts| && f.cast == casts[f.n]
  }

  /** What `p` delivered is a subsequence of what `e` handled, and what is on its way comes
      after it. */
  ghost predicate OrderOk(casts: seq<Cast>, out: seq<Frame>, delivered: seq<Told>) {
    && (forall i :: 0 <= i < |delivered| ==> delivered[i].n < |casts| && delivered[i].cast == casts[delivered[i].n])
    && (forall i, j :: 0 <= i < j < |delivered| ==> delivered[i].n < delivered[j].n)
    && (forall i :: 0 <= i < |out| ==> TellOk(out[i], casts))
    && (forall i, j :: 0 <= i < j < |out| && out[i].Tell? && out[j].Tell? ==> out[i].n < out[j].n)
    && (forall i, j :: 0 <= i < |delivered| && 0 <= j < |out| && out[j].Tell? ==> delivered[i].n < out[j].n)
  }

  lemma {:induction false} OrderSend(casts: seq<Cast>, out: seq<Frame>, delivered: seq<Told>, cast: Cast)
    requires OrderOk(casts, out, delivered)
    ensures OrderOk(casts + [cast], out, delivered)
    ensures OrderOk(casts + [cast], out + [Tell(|casts|, cast)], delivered)
  {
    assert forall i :: 0 <= i < |out| ==> TellOk(out[i], casts) ==> TellOk(out[i], casts + [cast]);
  }

  lemma {:induction false} OrderOther(casts: seq<Cast>, out: seq<Frame>, delivered: seq<Told>, f: Frame)
    requires OrderOk(casts, out, delivered) && !f.Tell?
    ensures OrderOk(casts, out + [f], delivered)
  {
  }

  lemma {:induction false} OrderReceive(casts: seq<Cast>, out: seq<Frame>, delivered: seq<Told>)
    requires OrderOk(casts, out, delivered) && out != []
    ensures OrderOk(casts, out[1..], delivered)
    ensures out[0].Tell? ==> OrderOk(casts, out[1..], delivered + [Told(out[0].n, out[0].cast)])
  {
    assert TellOk(out[0], casts);
  }

  // ----- Every step keeps them -----

  ghost predicate Kept(e: Endpoint, p: Endpoint, now: nat) {
    TokenOk(e) && AgesOk(e, now) && OrderOk(e.log.casts, e.out, p.log.delivered)
  }

  lemma {:induction false} MailKept(e: Endpoint, p: Endpoint, now: nat, ok: bool)
    requires Kept(e, p, now) && e.mailbox != [] && CanHandle(e)
    ensures Kept(HandleMail(e, now, ok), p, now)
  {
    hide OrderOk;
    match e.mailbox[0]
    case Outgoing(call, _) => OrderOther(e.log.casts, e.out, p.log.delivered, Ask(e.table.issued, e.table.tag, call.request));
    case OutgoingCast(cast) => OrderSend(e.log.casts, e.out, p.log.delivered, cast);
    case Finished(req, tag, reply) => OrderOther(e.log.casts, e.out, p.log.delivered, Response(req, tag, reply));
    case RequireCleanup =>
  }

  lemma {:induction false} FrameFrame(e: Endpoint, f: Frame, found: bool, bytes: Bytes, ok: bool)
    requires HasChannels(e.table)
    ensures var e' := HandleFrame(e, f, found, bytes, ok);
            && e'.running == e.running && e'.clock.cleanup == e.clock.cleanup && e'.clock.timers == e.clock.timers && e'.mailbox == e.mailbox
            && e'.clock.swept == e.clock.swept && e'.clock.due == e.clock.due && e'.log.casts == e.log.casts
            && (e'.log.delivered == e.log.delivered || (f.Tell? && e'.log.delivered == e.log.delivered + [Told(f.n, f.cast)]))
            && (e'.out == e.out || (f.Ask? && e'.out == e.out + [Response(f.req, f.tag, Ok(bytes))]))
            && (e'.table == e.table || (f.Response? && e'.table == Respond(e.table, f.tag, f.reply)))
  {
    hide Respond;
    match f
    case Ask(_, _, request) =>
    case Tell(_, _) =>
    case Response(_, _, _) =>
  }

  /** `e` receives the first frame of `p`. */
  lemma {:induction false} FrameKept(e: Endpoint, p: Endpoint, now: nat, found: bool, bytes: Bytes, ok: bool)
    requires Kept(e, p, now) && Kept(p, e, now) && p.out != [] && HasChannels(e.table)
    ensures var e', p' := HandleFrame(e, p.out[0], found, bytes, ok), p.(out := p.out[1..]);
            Kept(e', p', now) && Kept(p', e', now)
  {
    hide OrderOk, CleanupMails, HandleFrame, Respond, HasChannels;
    var f := p.out[0];
    FrameFrame(e, f, found, bytes, ok);
    OrderReceive(p.log.casts, p.out, e.log.delivered);
    if f.Ask? { OrderOther(e.log.casts, e.out, p.log.delivered, Response(f.req, f.tag, Ok(bytes))); }
    if f.Response? { RespondPending(e.table, f.tag, f.reply); }
  }

  lemma {:induction false} RespondPending(t: Table, tag: nat, reply: Reply)
    requires HasChannels(t)
    ensures forall k :: k in Respond(t, tag, reply).pending ==> k in t.pending && Respond(t, tag, reply).pending[k] == t.pending[k]
  {
  }

  lemma {:induction false} SweepKept(e: Endpoint, p: Endpoint, now: nat)
    requires Kept(e, p, now) && e.running && e.clock.cleanup && HasChannels(e.table)
    ensures Kept(SweepNow(e, now), p, now)
  {
    hide OrderOk, CleanupMails;
    assert Tokens(e) == 1;
    assert e.clock.timers == [];
  }

  lemma {:induction false} FireKept(e: Endpoint, p: Endpoint, now: nat, i: nat)
    requires Kept(e, p, now) && i < |e.clock.timers|
    ensures Kept(Fire(e, i), p, now)
  {
    hide OrderOk;
    CleanupMailsPush(e.mailbox, RequireCleanup);
  }

  lemma {:induction false} PushKept(e: Endpoint, p: Endpoint, now: nat, m: Mail)
    requires Kept(e, p, now) && !m.RequireCleanup?
    ensures Kept(Push(e, m), p, now)
  {
    hide OrderOk;
    CleanupMailsPush(e.mailbox, m);
  }

  lemma {:induction false} TaskKept(sigs: Sigs, e: Endpoint, p: Endpoint, now: nat, k: nat, c: Choice)
    requires Kept(e, p, now) && Kept(p, e, now) && TaskEnabled(sigs, e, k, c)
    ensures Kept(StepTask(sigs, e, k, c), p, now) && Kept(p, StepTask(sigs, e, k, c), now)
  {
    hide OrderOk, StepTask, TaskEnabled, AgesOk;
    HousekeepingFields(sigs, e, k, c);
    var e', t := StepTask(sigs, e, k, c), e.tasks[k];
    if t.stage.Done? { CleanupMailsPush(e.mailbox, Finished(t.req, t.tag, t.stage.reply)); }
    AgesSame(e, e', now);
  }

  lemma {:induction false} AgesSame(e: Endpoint, e': Endpoint, now: nat)
    requires AgesOk(e, now) && e'.running == e.running && e'.clock.swept == e.clock.swept && e'.clock.due == e.clock.due && e'.table == e.table
    ensures AgesOk(e', now)
  {
  }

  lemma {:induction false} HousekeepingFields(sigs: Sigs, e: Endpoint, k: nat, c: Choice)
    requires TaskEnabled(sigs, e, k, c)
    ensures k in e.tasks
    ensures var t, e' := e.tasks[k], StepTask(sigs, e, k, c);
            && e'.running == e.running && e'.clock.cleanup == e.clock.cleanup && e'.clock.timers == e.clock.timers
            && e'.clock.swept == e.clock.swept && e'.clock.due == e.clock.due && e'.log.casts == e.log.casts && e'.log.delivered == e.log.delivered
            && e'.out == e.out && e'.table == e.table
            && (e'.mailbox == e.mailbox
                || (t.stage.Done? && e'.mailbox == e.mailbox + [Finished(t.req, t.tag, t.stage.reply)]))
  {
    hide TaskFate, ReplyOf;
  }

  lemma {:induction false} LoseKept(e: Endpoint, p: Endpoint, now: nat, keep: nat)
    requires Kept(e, p, now) && keep <= |e.out|
    ensures Kept(e.(out := e.out[..keep]), p, now)
  {
    assert forall i :: 0 <= i < keep ==> TellOk(e.out[i], e.log.casts);
  }

  ghost predicate KeptWorld(w: World) {
    Kept(w.left, w.right, w.now) && Kept(w.right, w.left, w.now)
  }

  /** What is kept about `p` depends on `e` only through what `e` delivered. */
  lemma {:induction false} PeerKept(p: Endpoint, e: Endpoint, e': Endpoint, now: nat)
    requires Kept(p, e, now) && e'.log.delivered == e.log.delivered
    ensures Kept(p, e', now)
  {
    hide OrderOk, TokenOk, AgesOk;
  }

  lemma {:induction false} QuietKept(e: Endpoint, p: Endpoint, now: nat, req: nat)
    requires Kept(e, p, now)
    ensures req in e.table.channels ==> Kept(e.(table := Close(e.table, req)), p, now)
    ensures Kept(StopNow(e), p, now)
  {
    hide OrderOk, CleanupMails;
  }

  lemma {:induction false} QueuedKept(e: Endpoint, p: Endpoint, now: nat, i: nat)
    requires Kept(e, p, now) && i < |e.mailbox| && e.mailbox[i].Outgoing?
    ensures Kept(CloseQueued(e, i), p, now)
  {
    hide OrderOk, CleanupMails;
    CleanupMailsUpdate(e.mailbox, i, e.mailbox[i].(rxOpen := false));
  }

  lemma {:induction false} CleanupMailsUpdate(mailbox: seq<Mail>, i: nat, m: Mail)
    requires i < |mailbox| && !m.RequireCleanup? && !mailbox[i].RequireCleanup?
    ensures CleanupMails(mailbox[i := m]) == CleanupMails(mailbox)
    decreases mailbox
  {
    if i == 0 {
      assert mailbox[i := m][1..] == mailbox[1..];
    } else {
      assert mailbox[i := m][1..] == mailbox[1..][i - 1 := m];
      CleanupMailsUpdate(mailbox[1..], i - 1, m);
    }
  }

  lemma {:induction false} TickKept(e: Endpoint, p: Endpoint, now: nat)
    requires Kept(e, p, now)
    ensures Kept(e, p, now + 1)
  {
    hide OrderOk, CleanupMails;
  }

  lemma {:induction false} StepKept(w: World, st: Step)
    requires KeptWorld(w) && Enabled(w, st) && Consistent(w)
    ensures KeptWorld(Do(w, st))
  {
    hide Kept, HandleMail, HandleFrame, StepTask, HasChannels, Sweep, Requests.Stop, Close, OutgoingCall, TaskEnabled;
    if st.Tick? {
      TickKept(w.left, w.right, w.now);
      TickKept(w.right, w.left, w.now);
    } else {
      var s := st.side;
      var e, p := w.At(s), w.At(!s);
      match st {
        case Submit(_, actor, msgId, msg) => PushKept(e, p, w.now, Outgoing(OutgoingCall(w.Serves(!s), actor, msgId, msg), true));
        case SubmitNode(_, create) =>
          PushKept(e, p, w.now, Outgoing(Call(if create then CreateActor else GetActor, VUnit), true));
        case SubmitCast(_, cast) => PushKept(e, p, w.now, OutgoingCast(cast));
        case Mailbox(_, ok) =>
          MailKept(e, p, w.now, ok);
          DeliveredSame(e, w.now, ok);
        case Receive(_, found, bytes, ok) => FrameKept(e, p, w.now, found, bytes, ok);
        case Cleanup(_) => SweepKept(e, p, w.now);
        case TimerFires(_, i) => FireKept(e, p, w.now, i);
        case TaskMoves(_, k, c) => TaskKept(w.Serves(s), e, p, w.now, k, c);
        case LoseFrames(_, keep) => LoseKept(e, p, w.now, keep);
        case DropQueued(_, i) => QueuedKept(e, p, w.now, i);
        case DropReceiver(_, req) => QuietKept(e, p, w.now, req);
        case StopSession(_) => QuietKept(e, p, w.now, 0);
      }
      if !st.Receive? && !st.TaskMoves? { PeerKept(p, e, Do(w, st).At(s), w.now); }
    }
  }

  lemma {:induction false} DeliveredSame(e: Endpoint, now: nat, ok: bool)
    requires e.mailbox != []
    ensures HandleMail(e, now, ok).log.delivered == e.log.delivered
  {
    hide Issue;
  }

  lemma {:induction false} StepOnTime(w: World, st: Step, d: nat, side: bool)
    requires KeptWorld(w) && Enabled(w, st) && Consistent(w) && Prompt(w, st, d)
    requires OnTime(w.At(side), w.now, d)
    ensures OnTime(Do(w, st).At(side), Do(w, st).now, d)
  {
    hide KeptWorld, HandleMail, HandleFrame, StepTask, HasChannels, Sweep, OutgoingCall, TaskEnabled;
    match st
    case Mailbox(s, ok) => MailOnTime(w.At(s), w.now, ok);
    case Receive(s, found, bytes, ok) => FrameFrame(w.At(s), w.At(!s).out[0], found, bytes, ok);
    case TaskMoves(s, k, c) => HousekeepingFields(w.Serves(s), w.At(s), k, c);
    case Cleanup(s) => CleanupOnTime(w, s);
    case _ =>
  }

  lemma {:induction false} MailOnTime(e: Endpoint, now: nat, ok: bool)
    requires e.mailbox != []
    ensures HandleMail(e, now, ok).running == e.running && HandleMail(e, now, ok).clock.due == e.clock.due
  {
    hide Issue;
  }

  lemma {:induction false} CleanupOnTime(w: World, s: bool)
    requires KeptWorld(w)
    ensures w.At(s).running ==> w.At(s).clock.due <= w.now + CLEANUP_INTERVAL
  {
    hide OrderOk, TokenOk;
  }

  /** With sweeps at most `d` late, a pending request never reaches the age of the response
      timeout plus the cleanup interval plus `d`. */
  lemma {:induction false} AgeBound(e: Endpoint, now: nat, d: nat, k: nat)
    requires AgesOk(e, now) && OnTime(e, now, d) && e.running && k in e.table.pending
    ensures now - e.table.pending[k].since < RESPONSE_TIMEOUT + CLEANUP_INTERVAL + d
  {
  }
}
