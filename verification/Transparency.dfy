/**
 Tag correlation under wrap-around, and location transparency.

 A request is live while it is pending, in a frame, in a task or in a finished reply. As long
 as no session takes a tag while a live request is 2^64 or more requests old, no pending entry
 is ever overwritten, every response finds the entry of its own request or none, and a caller
 that gets a result gets the one the handler returned for its very message.
 */
module Transparency {
  import opened Wire
  import opened Values
  import opened Requests
  import opened Network
  import opened Correlation
  import Codec = Codecs

  /** Every live request of `e` is less than 2^64 requests older than number `n`. */
  ghost predicate Recent(e: Endpoint, p: Endpoint, n: nat) {
    && (forall k :: k in e.table.pending ==> n <= e.table.pending[k].req + TWO64)
    && (forall i :: 0 <= i < |e.out| && e.out[i].Ask? ==> n <= e.out[i].req + TWO64)
    && (forall k :: k in p.tasks ==> n <= p.tasks[k].req + TWO64)
    && (forall i :: 0 <= i < |p.mailbox| && p.mailbox[i].Finished? ==> n <= p.mailbox[i].req + TWO64)
    && (forall i :: 0 <= i < |p.out| && p.out[i].Response? ==> n <= p.out[i].req + TWO64)
  }

  /** An outcome that came from the peer. */
  predicate IsReply(o: Outcome) {
    o.Answer? || o.RemoteError?
  }

  ghost predicate OutcomeOk(sigs: Sigs, calls: map<nat, Call>, handled: map<nat, Fate>, r: nat, o: Outcome) {
    r in calls && r in handled && o == OutcomeOf(ReplyOf(sigs, calls[r].request, handled[r]))
  }

  /** What was sent on a channel as a reply is the reply that the fate of that request makes. */
  ghost predicate OutcomesOk(sigs: Sigs, calls: map<nat, Call>, handled: map<nat, Fate>, t: Table) {
    forall r :: r in t.channels && t.channels[r].sent.Some? && IsReply(t.channels[r].sent.value) ==>
      OutcomeOk(sigs, calls, handled, r, t.channels[r].sent.value)
  }

  ghost predicate NoneOverwritten(t: Table) {
    forall r :: r in t.losses ==> t.losses[r] != Overwritten
  }

  ghost predicate Tight(sigs: Sigs, e: Endpoint, p: Endpoint) {
    && Recent(e, p, e.table.issued)
    && OutcomesOk(sigs, e.log.calls, p.log.handled, e.table)
    && NoneOverwritten(e.table)
  }

  /** Before a session takes a tag, no live request of its own still uses that tag. */
  ghost predicate Roomy(w: World, st: Step) {
    st.Mailbox? && w.At(st.side).mailbox != [] && w.At(st.side).mailbox[0].Outgoing? ==>
      Recent(w.At(st.side), w.At(!st.side), w.At(st.side).table.issued + 1)
  }

  // ----- Tags -----

  /** Two live requests with the same tag are the same request. */
  lemma {:induction false} TagsDistinct(q: nat, r: nat, issued: nat)
    requires q < issued <= q + TWO64 && r < issued <= r + TWO64 && TagOf(q) == TagOf(r)
    ensures q == r
  {
    var a, b := q / TWO64, r / TWO64;
    assert q - r == TWO64 * (a - b);
  }

  /** A response finds the entry of its own request, or none at all if that request is no
      longer pending. */
  lemma {:induction false} ResponseFindsItsOwn(sigs: Sigs, e: Endpoint, p: Endpoint, f: Frame)
    requires Dir(sigs, e, p) && Recent(e, p, e.table.issued)
    ensures f in p.out && f.Response? ==>
              && (IsPending(e.table, f.req) <==> f.tag in e.table.pending)
              && (f.tag in e.table.pending ==> e.table.pending[f.tag].req == f.req)
  {
    if f in p.out && f.Response? {
      hide CallOk, ExactlyOne, TagOf, ReplyOf, TasksOk, HandledOk, AsksOk, MailsOk, OutgoingOk;
      assert FrameOk(sigs, e.log.calls, p.log.handled, f);
      if f.tag in e.table.pending {
        TagsDistinct(e.table.pending[f.tag].req, f.req, e.table.issued);
      }
    }
  }

  /** A response that comes after its request was resolved changes nothing. */
  lemma {:induction false} LateResponseIgnored(sigs: Sigs, e: Endpoint, p: Endpoint, f: Frame)
    requires Dir(sigs, e, p) && Recent(e, p, e.table.issued) && HasChannels(e.table)
    ensures f in p.out && f.Response? && !IsPending(e.table, f.req) ==> Respond(e.table, f.tag, f.reply) == e.table
  {
    hide Dir, Recent;
    ResponseFindsItsOwn(sigs, e, p, f);
  }

  /** Taking a tag overwrites a pending entry exactly when a pending request has the number of
      the new one modulo 2^64. */
  lemma {:induction false} OverwriteExactly(t: Table, now: nat, rxOpen: bool)
    requires Valid(t)
    ensures (exists r :: r in Issue(t, now, true, rxOpen).losses && r !in t.losses)
       <==> (exists k :: k in t.pending && TagOf(t.pending[k].req) == TagOf(t.issued))
  {
    hide ExactlyOne, TagOf, NextTag;
    if t.tag in t.pending {
      var r := t.pending[t.tag].req;
      NotLost(t, r);
      assert r in Issue(t, now, true, rxOpen).losses;
    }
  }

  lemma {:induction false} NotLost(t: Table, r: nat)
    requires Valid(t) && TagOf(r) in t.pending && t.pending[TagOf(r)].req == r
    ensures r !in t.losses
  {
    hide TagOf;
    assert ExactlyOne(IsPending(t, r), IsResolved(t, r), r in t.losses);
  }

  // ----- Effects of the table operations -----

  predicate NoNewAnswer(before: Option<Outcome>, after: Option<Outcome>) {
    after == before || (after.Some? && !IsReply(after.value))
  }

  /** Nothing new becomes pending, answered or overwritten. */
  ghost predicate Quiet(t: Table, u: Table) {
    && u.issued == t.issued
    && (forall k :: k in u.pending ==> k in t.pending && u.pending[k] == t.pending[k])
    && (forall r :: r in u.channels ==> r in t.channels && NoNewAnswer(t.channels[r].sent, u.channels[r].sent))
    && (forall r :: r in u.losses && u.losses[r] == Overwritten ==> r in t.losses && t.losses[r] == Overwritten)
  }

  lemma {:induction false} QuietSteps(t: Table, now: nat, req: nat)
    requires HasChannels(t)
    ensures Quiet(t, Sweep(t, now)) && Quiet(t, Stop(t))
    ensures req in t.channels ==> Quiet(t, Close(t, req))
  {
    hide Sweep;
    QuietSweep(t, now);
  }

  lemma {:induction false} QuietSweep(t: Table, now: nat)
    requires HasChannels(t)
    ensures Quiet(t, Sweep(t, now))
  {
    hide Expired, ExpiredRequests;
  }

  lemma {:induction false} IssueEffect(t: Table, now: nat, ok: bool, rxOpen: bool)
    requires Valid(t) && (forall k :: k in t.pending ==> t.issued < t.pending[k].req + TWO64)
    ensures var u := Issue(t, now, ok, rxOpen);
            && (forall k :: k in u.pending ==> u.pending[k].req == t.issued || (k in t.pending && u.pending[k] == t.pending[k]))
            && (forall r :: r in u.channels && u.channels[r].sent.Some? && IsReply(u.channels[r].sent.value) ==>
                  r in t.channels && u.channels[r] == t.channels[r])
            && (forall r :: r in u.losses && u.losses[r] == Overwritten ==> r in t.losses && t.losses[r] == Overwritten)
  {
    hide ExactlyOne, TagOf, NextTag;
    if t.tag in t.pending {
      var q := t.pending[t.tag].req;
      TagsApart(q, t.issued);
      assert false;
    }
  }

  lemma {:induction false} TagsApart(q: nat, n: nat)
    requires q < n < q + TWO64
    ensures TagOf(q) != TagOf(n)
  {
    if TagOf(q) == TagOf(n) { TagsDistinct(q, n, n + 1); }
  }

  lemma {:induction false} RespondEffect(t: Table, tag: nat, reply: Reply)
    requires HasChannels(t)
    ensures var u := Respond(t, tag, reply);
            && u.issued == t.issued
            && (forall k :: k in u.pending ==> k in t.pending && u.pending[k] == t.pending[k])
            && (forall r :: r in u.channels ==>
                  && r in t.channels
                  && (u.channels[r].sent == t.channels[r].sent
                      || (tag in t.pending && r == t.pending[tag].req && u.channels[r].sent == Some(OutcomeOf(reply)))))
            && (forall r :: r in u.losses && u.losses[r] == Overwritten ==> r in t.losses && t.losses[r] == Overwritten)
  {
  }

  // ----- Every step keeps the correlation -----

  lemma {:induction false} RepliesGrow(sigs: Sigs, calls: map<nat, Call>, handled: map<nat, Fate>, t: Table, r: nat, c: Call)
    requires r !in calls && OutcomesOk(sigs, calls, handled, t) && (forall q :: q in t.channels ==> q in calls)
    ensures OutcomesOk(sigs, calls[r := c], handled, t)
  {
    hide ReplyOf;
  }

  lemma {:induction false} MailTight(sigs: Sigs, e: Endpoint, p: Endpoint, now: nat, ok: bool)
    requires Dir(sigs, e, p) && Tight(sigs, e, p) && e.mailbox != []
    requires e.mailbox[0].Outgoing? ==> Recent(e, p, e.table.issued + 1)
    ensures Tight(sigs, HandleMail(e, now, ok), p)
  {
    hide CallOk, ExactlyOne, TagOf, AsksOk, TasksOk, MailsOk, FramesOk, HandledOk, OutgoingOk, Issue, OutcomeOk, HandleMail;
    MailFields(e, now, ok);
    if e.mailbox[0].Outgoing? {
      IssueEffect(e.table, now, ok, e.mailbox[0].rxOpen);
      TableFacts(e.table, now, ok, e.mailbox[0].rxOpen);
      RepliesGrow(sigs, e.log.calls, p.log.handled, e.table, e.table.issued, e.mailbox[0].call);
    }
  }

  lemma {:induction false} MailTightPeer(sigs: Sigs, e: Endpoint, p: Endpoint, now: nat, ok: bool)
    requires Tight(sigs, e, p) && p.mailbox != []
    ensures Tight(sigs, e, HandleMail(p, now, ok))
  {
    hide OutcomesOk, NoneOverwritten, HandleMail;
    MailFields(p, now, ok);
    var m, p' := p.mailbox[0], HandleMail(p, now, ok);
    if m.Finished? && p'.out != p.out { assert p'.out == p.out + [Response(m.req, m.tag, m.reply)]; }
  }

  lemma {:induction false} FrameTight(sigs: Sigs, e: Endpoint, p: Endpoint, found: bool, bytes: Bytes, ok: bool)
    requires Dir(sigs, e, p) && Tight(sigs, e, p) && p.out != [] && HasChannels(e.table)
    ensures Tight(sigs, HandleFrame(e, p.out[0], found, bytes, ok), p.(out := p.out[1..]))
  {
    hide Dir, HandleFrame, Respond, OutcomeOk, HasChannels;
    var f := p.out[0];
    FrameFields(e, f, found, bytes, ok);
    if f.Response? {
      RespondEffect(e.table, f.tag, f.reply);
      ResponseFindsItsOwn(sigs, e, p, p.out[0]);
      ResponseReply(sigs, e, p);
    }
  }

  lemma {:induction false} ResponseReply(sigs: Sigs, e: Endpoint, p: Endpoint)
    requires Dir(sigs, e, p) && p.out != [] && p.out[0].Response?
    ensures OutcomeOk(sigs, e.log.calls, p.log.handled, p.out[0].req, OutcomeOf(p.out[0].reply))
  {
    hide Valid, CallsOk, TagOf, AsksOk, TasksOk, MailsOk, HandledOk, OutgoingOk, ReplyOf;
    assert FrameOk(sigs, e.log.calls, p.log.handled, p.out[0]);
  }

  lemma {:induction false} FrameTightPeer(sigs: Sigs, e: Endpoint, p: Endpoint, found: bool, bytes: Bytes, ok: bool)
    requires Dir(sigs, e, p) && Tight(sigs, e, p) && e.out != [] && HasChannels(p.table)
    ensures Tight(sigs, e.(out := e.out[1..]), HandleFrame(p, e.out[0], found, bytes, ok))
  {
    hide Dir, HandleFrame, OutcomesOk, NoneOverwritten, HasChannels;
    FrameFields(p, e.out[0], found, bytes, ok);
    LookupIsNew(sigs, e, p);
    OutcomesStay(sigs, e.log.calls, p.log.handled, HandleFrame(p, e.out[0], found, bytes, ok).log.handled, e.table);
  }

  /** A request on its way has no fate yet. */
  lemma {:induction false} LookupIsNew(sigs: Sigs, e: Endpoint, p: Endpoint)
    requires Dir(sigs, e, p) && e.out != []
    ensures e.out[0].Ask? ==> e.out[0].req !in p.log.handled
  {
    hide Valid, CallsOk, TagOf, TasksOk, MailsOk, FramesOk, OutgoingOk, FateOk;
    assert AskOk(e.out[0], e.log.calls, p.log.served);
  }

  /** Fates that were recorded stay as they are, so what was said about them stays true. */
  lemma {:induction false} TaskTightPeer(sigs: Sigs, e: Endpoint, p: Endpoint, k: nat, c: Choice)
    requires Dir(sigs, e, p) && Tight(sigs, e, p) && TaskEnabled(sigs, p, k, c)
    ensures Tight(sigs, e, StepTask(sigs, p, k, c))
  {
    hide Valid, CallsOk, TagOf, AsksOk, MailsOk, FramesOk, HandledOk, OutgoingOk, NoneOverwritten, StepTask, ResponseOk;
    hide OutcomesOk;
    TaskFields(sigs, p, k, c);
    TaskRequests(sigs, p, k, c);
    assert TaskOk(sigs, e.log.calls, p.log.handled, p.log.served, p.tasks[k]);
    OutcomesStay(sigs, e.log.calls, p.log.handled, StepTask(sigs, p, k, c).log.handled, e.table);
  }

  lemma {:induction false} TaskRequests(sigs: Sigs, e: Endpoint, k: nat, c: Choice)
    requires TaskEnabled(sigs, e, k, c)
    ensures var e' := StepTask(sigs, e, k, c);
            && (forall l :: l in e'.tasks ==> l in e.tasks && e'.tasks[l].req == e.tasks[l].req)
            && (forall r :: r in e.log.handled && (r != e.tasks[k].req || e.tasks[k].stage.Done?) ==>
                  r in e'.log.handled && e'.log.handled[r] == e.log.handled[r])
  {
    hide TaskFate, ReplyOf;
  }

  lemma {:induction false} OutcomesStay(sigs: Sigs, calls: map<nat, Call>, h: map<nat, Fate>, h': map<nat, Fate>, t: Table)
    requires OutcomesOk(sigs, calls, h, t) && (forall r :: r in h ==> r in h' && h'[r] == h[r])
    ensures OutcomesOk(sigs, calls, h', t)
  {
    hide ReplyOf;
  }

  lemma {:induction false} TaskTight(sigs: Sigs, e: Endpoint, p: Endpoint, own: Sigs, k: nat, c: Choice)
    requires Tight(sigs, e, p) && TaskEnabled(own, e, k, c)
    ensures Tight(sigs, StepTask(own, e, k, c), p)
  {
    hide OutcomesOk, NoneOverwritten, StepTask;
    TaskFields(own, e, k, c);
  }

  lemma {:induction false} QuietTight(own: Sigs, sigs: Sigs, e: Endpoint, p: Endpoint, e': Endpoint)
    requires Tight(sigs, e, p) && Tight(own, p, e) && Quiet(e.table, e'.table)
    requires e'.log.calls == e.log.calls && e'.log.handled == e.log.handled && e'.tasks == e.tasks && e'.out <= e.out
    requires e'.mailbox == [] || DroppedIn(e.mailbox, e'.mailbox) || (e'.mailbox == e.mailbox + [e'.mailbox[|e'.mailbox| - 1]]
             && !e'.mailbox[|e'.mailbox| - 1].Finished?)
    ensures Tight(sigs, e', p) && Tight(own, p, e')
  {
    hide OutcomeOk;
    if DroppedIn(e.mailbox, e'.mailbox) {
      forall i | 0 <= i < |e.mailbox| ensures e'.mailbox[i].Finished? ==> e'.mailbox[i] == e.mailbox[i] {
        assert SameMail(e.mailbox[i], e'.mailbox[i]);
      }
    }
  }

  ghost predicate TightWorld(w: World) {
    Tight(w.rightSigs, w.left, w.right) && Tight(w.leftSigs, w.right, w.left)
  }

  lemma {:induction false} QuietKeeps(w: World, st: Step)
    requires Inv(w) && TightWorld(w) && Enabled(w, st) && Consistent(w)
    requires !st.Mailbox? && !st.Receive? && !st.TaskMoves? && !st.Tick?
    ensures TightWorld(Do(w, st))
  {
    hide Tight, Dir, Sweep, Requests.Stop, Close, Quiet, OutgoingCall, HasChannels;
    var s := st.side;
    var e, p := w.At(s), w.At(!s);
    assert HasChannels(e.table);
    QuietSteps(e.table, w.now, if st.DropReceiver? then st.req else 0);
    QuietSame(e.table);
    QuietTight(w.Serves(s), w.Serves(!s), e, p, Do(w, st).At(s));
  }

  lemma {:induction false} QuietSame(t: Table)
    ensures Quiet(t, t)
  {
  }

  lemma {:induction false} StepTight(w: World, st: Step)
    requires Inv(w) && TightWorld(w) && Enabled(w, st) && Consistent(w) && Roomy(w, st)
    ensures TightWorld(Do(w, st))
  {
    hide Tight, Dir, HandleMail, HandleFrame, StepTask, Recent, HasChannels;
    match st
    case Mailbox(s, ok) =>
      MailTight(w.Serves(!s), w.At(s), w.At(!s), w.now, ok);
      MailTightPeer(w.Serves(s), w.At(!s), w.At(s), w.now, ok);
    case Receive(s, found, bytes, ok) =>
      FrameTight(w.Serves(!s), w.At(s), w.At(!s), found, bytes, ok);
      FrameTightPeer(w.Serves(s), w.At(!s), w.At(s), found, bytes, ok);
    case TaskMoves(s, k, c) =>
      TaskTight(w.Serves(!s), w.At(s), w.At(!s), w.Serves(s), k, c);
      TaskTightPeer(w.Serves(s), w.At(!s), w.At(s), k, c);
    case Tick =>
    case _ => QuietKeeps(w, st);
  }
}
