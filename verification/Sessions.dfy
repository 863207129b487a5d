/**
 Theorems about every run of two sessions, from their start to any later moment.
 */
module Sessions {
  import opened Wire
  import opened Values
  import opened Requests
  import opened Network
  import opened Correlation
  import opened Transparency
  import opened Housekeeping
  import Codec = Codecs

  ghost predicate Started(w: World) {
    w.left == Start(w.now) && w.right == Start(w.now)
  }

  /** `steps` lead from `w` to `w'`. */
  ghost predicate Reaches(w: World, steps: seq<Step>, w': World)
    decreases steps
  {
    if steps == [] then w' == w
    else Enabled(w, steps[0]) && Consistent(w) && Reaches(Do(w, steps[0]), steps[1..], w')
  }

  /** Whenever a session takes a tag on the way, no live request of its own still uses it. */
  ghost predicate AllRoomy(w: World, steps: seq<Step>)
    decreases steps
  {
    steps == [] || (
      Roomy(w, steps[0]) && (Enabled(w, steps[0]) && Consistent(w) ==> AllRoomy(Do(w, steps[0]), steps[1..])))
  }

  /** On the way, no sweep is more than `d` late. */
  ghost predicate AllPrompt(w: World, steps: seq<Step>, d: nat)
    decreases steps
  {
    steps == [] || (
      Prompt(w, steps[0], d) && (Enabled(w, steps[0]) && Consistent(w) ==> AllPrompt(Do(w, steps[0]), steps[1..], d)))
  }

  /** A run and one that goes on from its end make one run. */
  lemma {:induction false} ReachesTwice(w: World, xs: seq<Step>, w': World, ys: seq<Step>, w'': World)
    requires Reaches(w, xs, w') && Reaches(w', ys, w'')
    ensures Reaches(w, xs + ys, w'')
    decreases xs
  {
    hide Enabled, Consistent, Do;
    if xs == [] {
      assert xs + ys == ys;
    } else {
      assert (xs + ys)[0] == xs[0] && (xs + ys)[1..] == xs[1..] + ys;
      ReachesTwice(Do(w, xs[0]), xs[1..], w', ys, w'');
    }
  }

  // ----- Invariants of runs -----

  lemma {:induction false} StartInv(w: World)
    requires Started(w)
    ensures Inv(w) && TightWorld(w) && KeptWorld(w)
    ensures OnTime(w.left, w.now, 0) && OnTime(w.right, w.now, 0)
  {
    hide Dir, Tight, Kept;
    StartOne(w);
    assert w.At(true) == w.left && w.At(false) == w.right;
  }

  lemma {:induction false} StartOne(w: World)
    ensures forall sigs :: Dir(sigs, Start(w.now), Start(w.now)) && Tight(sigs, Start(w.now), Start(w.now))
    ensures Kept(Start(w.now), Start(w.now), w.now)
  {
  }

  lemma {:induction false} RunInv(w: World, steps: seq<Step>, w': World)
    requires Inv(w) && Reaches(w, steps, w')
    ensures Inv(w')
    decreases steps
  {
    hide Inv, Enabled, Consistent, Do;
    if steps != [] {
      StepKeeps(w, steps[0]);
      RunInv(Do(w, steps[0]), steps[1..], w');
    }
  }

  lemma {:induction false} RunTight(w: World, steps: seq<Step>, w': World)
    requires Inv(w) && TightWorld(w) && Reaches(w, steps, w') && AllRoomy(w, steps)
    ensures TightWorld(w')
    decreases steps
  {
    hide Inv, TightWorld, Enabled, Consistent, Do, Roomy;
    if steps != [] {
      StepKeeps(w, steps[0]);
      StepTight(w, steps[0]);
      RunTight(Do(w, steps[0]), steps[1..], w');
    }
  }

  lemma {:induction false} RunKept(w: World, steps: seq<Step>, w': World)
    requires KeptWorld(w) && Reaches(w, steps, w')
    ensures KeptWorld(w')
    decreases steps
  {
    hide KeptWorld, Enabled, Consistent, Do;
    if steps != [] {
      StepKept(w, steps[0]);
      RunKept(Do(w, steps[0]), steps[1..], w');
    }
  }

  lemma {:induction false} RunOnTime(w: World, steps: seq<Step>, w': World, d: nat, side: bool)
    requires KeptWorld(w) && Reaches(w, steps, w') && AllPrompt(w, steps, d) && OnTime(w.At(side), w.now, d)
    ensures OnTime(w'.At(side), w'.now, d)
    decreases steps
  {
    hide KeptWorld, Enabled, Consistent, Do, OnTime, Prompt;
    if steps != [] {
      StepKept(w, steps[0]);
      StepOnTime(w, steps[0], d, side);
      RunOnTime(Do(w, steps[0]), steps[1..], w', d, side);
    }
  }

  // ----- Request conservation -----

  /** The numbers below `n`. */
  function Numbers(n: nat): (s: set<nat>)
    ensures forall r :: r in s <==> 0 <= r < n
  {
    if n == 0 then {} else Numbers(n - 1) + {n - 1}
  }

  lemma {:induction false} NumbersSize(n: nat)
    ensures |Numbers(n)| == n
  {
    if n > 0 { NumbersSize(n - 1); }
  }

  lemma {:induction false} PendingSize(t: Table, keys: set<nat>)
    requires Valid(t) && keys <= t.pending.Keys
    ensures |set k | k in keys :: t.pending[k].req| == |keys|
    decreases |keys|
  {
    hide ExactlyOne, IsPending, IsResolved, TagOf;
    if keys != {} {
      var k :| k in keys;
      var rest := keys - {k};
      PendingSize(t, rest);
      var image := set j | j in rest :: t.pending[j].req;
      assert (set j | j in keys :: t.pending[j].req) == image + {t.pending[k].req};
      assert t.pending[k].req !in image;
    }
  }

  function Resolved(t: Table): set<nat> {
    set r | r in t.channels && t.channels[r].sent.Some?
  }

  /** In every state of every run, whatever the tags do, each tagged request is in exactly one
      place: pending, resolved, or lost for one recorded reason; and the places add up. */
  lemma {:induction false} RequestConservation(w: World, steps: seq<Step>, w': World, side: bool)
    requires Started(w) && Reaches(w, steps, w')
    ensures var t := w'.At(side).table;
            && (forall r :: 0 <= r < t.issued ==> ExactlyOne(IsPending(t, r), IsResolved(t, r), r in t.losses))
            && |t.pending| + |Resolved(t)| + |t.losses| == t.issued
  {
    hide Started, Reaches;
    StartInv(w);
    RunInv(w, steps, w');
    TableSum(w'.At(side).table);
  }

  lemma {:induction false} TableSum(t: Table)
    requires Valid(t)
    ensures |t.pending| + |Resolved(t)| + |t.losses| == t.issued
  {
    var places, numbers := PendingRequests(t) + Resolved(t), Numbers(t.issued);
    forall r: nat
      ensures r in numbers <==> r in places || r in t.losses.Keys
      ensures r in PendingRequests(t) ==> r !in Resolved(t)
      ensures r in places ==> r !in t.losses.Keys
    {
      InOnePlace(t, r);
    }
    SumOfPlaces(PendingRequests(t), Resolved(t), t.losses.Keys, numbers);
    PendingCount(t);
    NumbersSize(t.issued);
  }

  lemma {:induction false} PendingCount(t: Table)
    requires Valid(t)
    ensures |PendingRequests(t)| == |t.pending|
  {
    hide Valid;
    PendingSize(t, t.pending.Keys);
    assert PendingRequests(t) == set k | k in t.pending.Keys :: t.pending[k].req;
  }

  lemma {:induction false} SumOfPlaces(a: set<nat>, b: set<nat>, c: set<nat>, all: set<nat>)
    requires forall r: nat :: r in all <==> r in a + b || r in c
    requires forall r: nat :: r in a ==> r !in b
    requires forall r: nat :: r in a + b ==> r !in c
    ensures |a| + |b| + |c| == |all|
  {
    assert all == a + b + c;
    assert a !! b && (a + b) !! c;
  }

  lemma {:induction false} InOnePlace(t: Table, r: nat)
    requires Valid(t)
    ensures 0 <= r < t.issued <==> r in PendingRequests(t) || r in Resolved(t) || r in t.losses.Keys
    ensures r in PendingRequests(t) ==> r !in Resolved(t)
    ensures r in PendingRequests(t) || r in Resolved(t) ==> r !in t.losses.Keys
  {
    hide TagOf;
    WhatExpires(t, 0, r);
    if r < t.issued { assert ExactlyOne(IsPending(t, r), IsResolved(t, r), r in t.losses); }
  }

  // ----- A request is resolved once -----

  /** No table operation touches what was sent on a channel. */
  lemma {:induction false} SentIsFinal(t: Table, r: nat, now: nat, ok: bool, rxOpen: bool, tag: nat, reply: Reply, req: nat)
    requires Valid(t) && r < t.issued && t.channels[r].sent.Some?
    ensures HasChannels(t)
    ensures Keeps(t, Issue(t, now, ok, rxOpen), r) && Keeps(t, Respond(t, tag, reply), r)
    ensures Keeps(t, Sweep(t, now), r) && Keeps(t, Requests.Stop(t), r)
    ensures req in t.channels ==> Keeps(t, Close(t, req), r)
  {
    hide TagOf, NextTag, ExactlyOne, Sweep, PendingRequests;
    NotPending(t, r);
    SweepKeeps(t, r, now);
  }

  lemma {:induction false} SweepKeeps(t: Table, r: nat, now: nat)
    requires Valid(t) && r < t.issued && t.channels[r].sent.Some?
    ensures Keeps(t, Sweep(t, now), r)
  {
    hide TagOf, NextTag, ExactlyOne, Expired;
    NotPending(t, r);
    SweepOne(t, now, r);
  }

  predicate Keeps(t: Table, u: Table, r: nat)
    requires r in t.channels
  {
    r in u.channels && u.channels[r].sent == t.channels[r].sent
  }

  lemma {:induction false} NotPending(t: Table, r: nat)
    requires Valid(t) && r < t.issued && t.channels[r].sent.Some?
    ensures forall k :: k in t.pending ==> t.pending[k].req != r
  {
    hide TagOf;
    assert ExactlyOne(IsPending(t, r), IsResolved(t, r), r in t.losses);
  }

  lemma {:induction false} StepSentIsFinal(w: World, st: Step, side: bool, r: nat)
    requires Inv(w) && Enabled(w, st) && Consistent(w)
    requires r < w.At(side).table.issued && r in w.At(side).table.channels && w.At(side).table.channels[r].sent.Some?
    ensures Keeps(w.At(side).table, Do(w, st).At(side).table, r)
  {
    hide Dir, HandleMail, HandleFrame, StepTask, Issue, Respond, Sweep, Requests.Stop, Close, HasChannels, Codec.Encoding, TaskEnabled, Valid;
    var t := w.At(side).table;
    InvValid(w);
    if st.Mailbox? && st.side == side {
      MailSentIsFinal(w.At(side), w.now, st.ok, r);
    } else if st.Receive? && st.side == side {
      FrameSentIsFinal(w.At(side), w.At(!side).out[0], st, r);
    } else if st.TaskMoves? && st.side == side {
      TaskFields(w.Serves(side), w.At(side), st.k, st.choice);
    } else {
      SentIsFinal(t, r, w.now, false, true, 0, Missing, if st.DropReceiver? then st.req else 0);
    }
  }

  lemma {:induction false} MailSentIsFinal(e: Endpoint, now: nat, ok: bool, r: nat)
    requires e.mailbox != [] && Valid(e.table) && r < e.table.issued && e.table.channels[r].sent.Some?
    ensures Keeps(e.table, HandleMail(e, now, ok).table, r)
  {
    hide Issue, Respond, Sweep, Requests.Stop, Close, HasChannels;
    SentIsFinal(e.table, r, now, ok, e.mailbox[0].Outgoing? && e.mailbox[0].rxOpen, 0, Missing, 0);
  }

  lemma {:induction false} FrameSentIsFinal(e: Endpoint, f: Frame, st: Step, r: nat)
    requires Valid(e.table) && r < e.table.issued && e.table.channels[r].sent.Some? && st.Receive?
    ensures HasChannels(e.table) && Keeps(e.table, HandleFrame(e, f, st.found, st.bytes, st.ok).table, r)
  {
    hide Issue, Respond, Sweep, Requests.Stop, Close, HasChannels;
    if f.Response? {
      SentIsFinal(e.table, r, 0, false, true, f.tag, f.reply, 0);
    } else {
      SentIsFinal(e.table, r, 0, false, true, 0, Missing, 0);
    }
  }

  lemma {:induction false} InvValid(w: World)
    requires Inv(w)
    ensures Valid(w.left.table) && Valid(w.right.table)
  {
    hide Valid, CallsOk, AsksOk, OutgoingOk, TasksOk, MailsOk, FramesOk, HandledOk;
  }

  /** What a caller received never changes: a request is resolved at most once. */
  lemma {:induction false} ResolvedOnce(w: World, steps: seq<Step>, w': World, side: bool, r: nat)
    requires Inv(w) && Reaches(w, steps, w')
    ensures var t, u := w.At(side).table, w'.At(side).table;
            IsResolved(t, r) ==> r in u.channels && u.channels[r].sent == t.channels[r].sent
    decreases steps
  {
    hide Dir, Enabled, Consistent, Do;
    if steps != [] && IsResolved(w.At(side).table, r) {
      HasNumber(w, side, r);
      StepKeeps(w, steps[0]);
      StepSentIsFinal(w, steps[0], side, r);
      ResolvedOnce(Do(w, steps[0]), steps[1..], w', side, r);
    }
  }

  lemma {:induction false} HasNumber(w: World, side: bool, r: nat)
    requires Inv(w) && r in w.At(side).table.channels
    ensures r < w.At(side).table.issued
  {
    hide Dir;
    InvValid(w);
  }

  // ----- The fate of a request is decided once -----

  lemma {:induction false} TaskHandles(w: World, side: bool, k: nat, c: Choice, r: nat)
    requires Dir(w.Serves(side), w.At(!side), w.At(side)) && TaskEnabled(w.Serves(side), w.At(side), k, c)
    requires r in w.At(side).log.handled
    ensures var e, e' := w.At(side), StepTask(w.Serves(side), w.At(side), k, c);
            r in e'.log.handled && e'.log.handled[r] == e.log.handled[r]
  {
    hide Valid, CallsOk, AsksOk, OutgoingOk, MailsOk, FramesOk, HandledOk, ResponseOk, TaskFate, ReplyOf, Encodable;
    assert TaskOk(w.Serves(side), w.At(!side).log.calls, w.At(side).log.handled, w.At(side).log.served, w.At(side).tasks[k]);
  }

  lemma {:induction false} StepHandledFinal(w: World, st: Step, side: bool, r: nat)
    requires Inv(w) && Enabled(w, st) && Consistent(w) && r in w.At(side).log.handled
    ensures var e' := Do(w, st).At(side);
            r in e'.log.handled && e'.log.handled[r] == w.At(side).log.handled[r]
  {
    hide Dir, HandleMail, HandleFrame, StepTask, Sweep, Requests.Stop, Close, HasChannels, Codec.Encoding, TaskEnabled;
    if st.Mailbox? && st.side == side {
      MailFields(w.At(side), w.now, st.ok);
    } else if st.Receive? && st.side == side {
      FrameFields(w.At(side), w.At(!side).out[0], st.found, st.bytes, st.ok);
      LookupIsNew(w.Serves(side), w.At(!side), w.At(side));
    } else if st.TaskMoves? && st.side == side {
      TaskHandles(w, side, st.k, st.choice, r);
    }
  }

  /** The fate that is recorded for a request stays. */
  lemma {:induction false} HandledOnce(w: World, steps: seq<Step>, w': World, side: bool, r: nat)
    requires Inv(w) && Reaches(w, steps, w') && r in w.At(side).log.handled
    ensures r in w'.At(side).log.handled && w'.At(side).log.handled[r] == w.At(side).log.handled[r]
    decreases steps
  {
    hide Inv, Enabled, Consistent, Do;
    if steps != [] {
      StepKeeps(w, steps[0]);
      StepHandledFinal(w, steps[0], side, r);
      HandledOnce(Do(w, steps[0]), steps[1..], w', side, r);
    }
  }

  // ----- A handler runs at most once for a request -----

  /** Every run of a handler was for another request, and those requests have a fate that says
      that a handler ran. */
  ghost predicate RunsOk(log: Log) {
    && (forall i, j :: 0 <= i < j < |log.runs| ==> log.runs[i] != log.runs[j])
    && (forall r :: r in log.runs <==> r in log.handled && Executed(log.handled[r]))
  }

  lemma {:induction false} DecideRuns(sigs: Sigs, e: Endpoint, k: nat, fate: Fate)
    requires RunsOk(e.log) && k in e.tasks && e.tasks[k].req !in e.log.handled
    ensures RunsOk(Decide(sigs, e, k, fate).log)
  {
    hide ReplyOf;
  }

  lemma {:induction false} LookupRuns(log: Log, served: nat, r: nat, bytes: Bytes)
    requires RunsOk(log) && r !in log.handled
    ensures RunsOk(log.(served := served, handled := log.handled[r := NodeReply(bytes)]))
  {
  }

  lemma {:induction false} SameRuns(log: Log, log': Log)
    requires RunsOk(log) && log'.runs == log.runs && log'.handled == log.handled
    ensures RunsOk(log')
  {
  }

  lemma {:induction false} FrameRuns(sigs: Sigs, e: Endpoint, p: Endpoint, found: bool, bytes: Bytes, ok: bool)
    requires Dir(sigs, e, p) && e.out != [] && HasChannels(p.table) && RunsOk(p.log)
    ensures RunsOk(HandleFrame(p, e.out[0], found, bytes, ok).log)
  {
    hide Dir, RunsOk, Respond, HasChannels;
    var f := e.out[0];
    if f.Ask? && f.request.GetActor? {
      LookupIsNew(sigs, e, p);
      LookupRuns(p.log, f.req + 1, f.req, bytes);
    } else {
      SameRuns(p.log, HandleFrame(p, f, found, bytes, ok).log);
    }
  }

  lemma {:induction false} MailRuns(e: Endpoint, now: nat, ok: bool)
    requires e.mailbox != [] && RunsOk(e.log)
    ensures RunsOk(HandleMail(e, now, ok).log)
  {
    hide RunsOk, Issue;
    SameRuns(e.log, HandleMail(e, now, ok).log);
  }

  lemma {:induction false} TaskRuns(sigs: Sigs, e: Endpoint, p: Endpoint, k: nat, c: Choice)
    requires Dir(sigs, e, p) && TaskEnabled(sigs, p, k, c) && RunsOk(p.log)
    ensures RunsOk(StepTask(sigs, p, k, c).log)
  {
    hide RunsOk, Valid, CallsOk, AsksOk, OutgoingOk, TasksOk, MailsOk, FramesOk, HandledOk, TaskFate, Decide, Encodable;
    var fate := TaskFate(sigs, p.tasks[k].stage, c);
    if !p.tasks[k].stage.Done? && fate.Some? {
      TaskIsOpen(sigs, e, p, k);
      DecideRuns(sigs, p, k, fate.value);
    }
  }

  lemma {:induction false} StepRuns(w: World, st: Step, side: bool)
    requires Inv(w) && Enabled(w, st) && Consistent(w) && RunsOk(w.At(side).log)
    ensures RunsOk(Do(w, st).At(side).log)
  {
    hide Dir, RunsOk, HandleMail, HandleFrame, StepTask, Sweep, Requests.Stop, Close, HasChannels, OutgoingCall, TaskEnabled;
    if st.Mailbox? && st.side == side {
      MailRuns(w.At(side), w.now, st.ok);
    } else if st.Receive? && st.side == side {
      FrameRuns(w.Serves(side), w.At(!side), w.At(side), st.found, st.bytes, st.ok);
    } else if st.TaskMoves? && st.side == side {
      TaskRuns(w.Serves(side), w.At(!side), w.At(side), st.k, st.choice);
    }
  }

  lemma {:induction false} RunRuns(w: World, steps: seq<Step>, w': World, side: bool)
    requires Inv(w) && Reaches(w, steps, w') && RunsOk(w.At(side).log)
    ensures RunsOk(w'.At(side).log)
    decreases steps
  {
    hide Inv, Enabled, Consistent, Do, RunsOk;
    if steps != [] {
      StepKeeps(w, steps[0]);
      StepRuns(w, steps[0], side);
      RunRuns(Do(w, steps[0]), steps[1..], w', side);
    }
  }

  /** In every reachable state the runs of handlers for tagged requests are all for different
      requests, and they are those of the requests whose fate says that a handler ran. */
  lemma {:induction false} ExecutedOnce(w: World, steps: seq<Step>, w': World, side: bool)
    requires Started(w) && Reaches(w, steps, w')
    ensures var log := w'.At(side).log;
            && (forall i, j :: 0 <= i < j < |log.runs| ==> log.runs[i] != log.runs[j])
            && (forall r :: r in log.runs <==> r in log.handled && Executed(log.handled[r]))
  {
    hide Reaches, Inv;
    StartInv(w);
    RunRuns(w, steps, w', side);
  }

  // ----- Tag correlation -----

  /** In runs with room for every tag, no pending entry is ever overwritten, and any response
      on its way finds the entry of its own request or none. */
  lemma {:induction false} TagCorrelation(w: World, steps: seq<Step>, w': World, side: bool)
    requires Started(w) && Reaches(w, steps, w') && AllRoomy(w, steps)
    ensures var e, p := w'.At(side), w'.At(!side);
            && (forall r :: r in e.table.losses ==> e.table.losses[r] != Overwritten)
            && (forall i :: 0 <= i < |p.out| && p.out[i].Response? ==>
                  var f := p.out[i];
                  if IsPending(e.table, f.req) then f.tag in e.table.pending && e.table.pending[f.tag].req == f.req
                  else f.tag !in e.table.pending)
  {
    hide Started, Reaches, AllRoomy, Dir, Recent, OutcomesOk;
    StartInv(w);
    RunInv(w, steps, w');
    RunTight(w, steps, w');
    var e, p := w'.At(side), w'.At(!side);
    forall i | 0 <= i < |p.out| && p.out[i].Response?
      ensures IsPending(e.table, p.out[i].req) <==> p.out[i].tag in e.table.pending
      ensures p.out[i].tag in e.table.pending ==> e.table.pending[p.out[i].tag].req == p.out[i].req
    {
      ResponseFindsItsOwn(w'.Serves(!side), e, p, p.out[i]);
    }
  }

  // ----- Location transparency -----

  /** What the caller of a remote send is handed when the peer replied: a value, the news that
      something could not be decoded, or another error of the peer. */
  datatype Seen = Got(value: Value) | NotDecoded | Failed(error: string)

  /** An answer that landed at `addr` is decoded at the result type of the message. */
  function CallerSees(sigs: Sigs, c: Call, o: Outcome, addr: nat): Seen
    requires Known(sigs, c.request) && IsReply(o)
  {
    match o
    case Answer(bytes) =>
      var v := Codec.Decode(sigs.kind, Slice(addr, bytes), SigOf(sigs, c.request).res);
      if v.Some? then Got(v.value) else NotDecoded
    case RemoteError(msg) => if msg == NOT_DECODED then NotDecoded else Failed(msg)
  }

  /** The lengths in a message, or in its result, are written in full. */
  predicate MessageFits(sigs: Sigs, c: Call) {
    Known(sigs, c.request) && Codec.Fits(sigs.kind, c.msg, SigOf(sigs, c.request).msg)
  }

  predicate ResultFits(sigs: Sigs, c: Call, v: Value) {
    Known(sigs, c.request) && Codec.Fits(sigs.kind, v, SigOf(sigs, c.request).res)
  }

  /** What the caller sees is what became of its very message: if a handler ran, it ran on that
      message; if it answered, the caller gets its result, or a decoding error exactly if the
      result did not land well; a message that did not land well is a decoding error too. */
  predicate Transparent(sigs: Sigs, c: Call, fate: Fate, o: Outcome, addr: nat)
    requires MessageFits(sigs, c) && IsReply(o)
  {
    var sig, seen := SigOf(sigs, c.request), CallerSees(sigs, c, o, addr);
    match fate
    case Answered(at, msg, result) =>
      && msg == c.msg && Codec.Lands(sigs.kind, c.msg, sig.msg, at)
      && (ResultFits(sigs, c, result) ==>
            seen == if Codec.Lands(sigs.kind, result, sig.res, addr) then Got(result) else NotDecoded)
    case Mute(at, msg) => msg == c.msg && Codec.Lands(sigs.kind, c.msg, sig.msg, at) && seen == Failed(NO_ANSWER)
    case Undecodable(at) => !Codec.Lands(sigs.kind, c.msg, sig.msg, at) && seen == NotDecoded
    case Refused(error) => seen == Failed(error)
    case NodeReply(_) => false
  }

  /** The request `r` of a session was answered by its peer. */
  predicate Replied(w: World, side: bool, r: nat) {
    var e := w.At(side);
    && r in e.log.calls && e.log.calls[r].request.ActorCall?
    && r in e.table.channels && e.table.channels[r].sent.Some? && IsReply(e.table.channels[r].sent.value)
  }

  /** In every run with room for its tags, whichever the codec and wherever bytes land, what a
      remote send resolves with is what became of that very message at the target. */
  lemma {:induction false} LocationTransparency(w: World, steps: seq<Step>, w': World, side: bool, r: nat, addr: nat)
    requires Started(w) && Reaches(w, steps, w') && AllRoomy(w, steps)
    requires Replied(w', side, r) && MessageFits(w'.Serves(!side), w'.At(side).log.calls[r])
    ensures var e, p := w'.At(side), w'.At(!side);
            && r in p.log.handled
            && Transparent(w'.Serves(!side), e.log.calls[r], p.log.handled[r], e.table.channels[r].sent.value, addr)
  {
    hide Started, Reaches, AllRoomy, Dir, Recent, ReplyOf, MessageFits, Transparent;
    StartInv(w);
    RunInv(w, steps, w');
    RunTight(w, steps, w');
    var e, p, sigs := w'.At(side), w'.At(!side), w'.Serves(!side);
    assert OutcomeOk(sigs, e.log.calls, p.log.handled, r, e.table.channels[r].sent.value);
    FateOfCall(sigs, e, p, r);
    FateIsSeen(sigs, e.log.calls[r], p.log.handled[r], addr);
  }

  lemma {:induction false} FateOfCall(sigs: Sigs, e: Endpoint, p: Endpoint, r: nat)
    requires Dir(sigs, e, p) && r in p.log.handled && r in e.log.calls
    ensures FateOk(sigs, e.log.calls[r], p.log.handled[r]) && CallOk(sigs, e.log.calls[r])
  {
    hide Valid, AsksOk, OutgoingOk, TasksOk, MailsOk, FramesOk, FateOk, CallOk;
  }

  lemma {:induction false} FateIsSeen(sigs: Sigs, c: Call, fate: Fate, addr: nat)
    requires FateOk(sigs, c, fate) && CallOk(sigs, c) && MessageFits(sigs, c) && c.request.ActorCall?
    requires IsReply(OutcomeOf(ReplyOf(sigs, c.request, fate)))
    ensures Transparent(sigs, c, fate, OutcomeOf(ReplyOf(sigs, c.request, fate)), addr)
  {
    hide Codec.Decode, Codec.Encoding, Codec.EncodedLen, Codec.Fits, Codec.Lands, Typed;
    var sig := SigOf(sigs, c.request);
    match fate
    case Answered(at, msg, result) =>
      Codec.RoundTrip(sigs.kind, c.msg, sig.msg, at);
      if ResultFits(sigs, c, result) { Codec.RoundTrip(sigs.kind, result, sig.res, addr); }
    case Mute(at, _) => Codec.RoundTrip(sigs.kind, c.msg, sig.msg, at);
    case Undecodable(at) => Codec.RoundTrip(sigs.kind, c.msg, sig.msg, at);
    case Refused(_) =>
    case NodeReply(_) =>
  }

  /** If a handler answered request `r`, the lengths in its result are written in full. */
  predicate AnswerFits(w: World, side: bool, r: nat)
    requires Replied(w, side, r)
  {
    var handled := w.At(!side).log.handled;
    r in handled && handled[r].Answered? ==> ResultFits(w.Serves(!side), w.At(side).log.calls[r], handled[r].result)
  }

  /** What the caller of request `r` is handed, if the bytes of an answer land at `addr`. */
  function SeenBy(w: World, side: bool, r: nat, addr: nat): Seen
    requires Replied(w, side, r) && MessageFits(w.Serves(!side), w.At(side).log.calls[r])
  {
    CallerSees(w.Serves(!side), w.At(side).log.calls[r], w.At(side).table.channels[r].sent.value, addr)
  }

  /** The message of request `r` can be read where it landed, or its result `v`. */
  predicate MessageLands(w: World, side: bool, r: nat, at: nat)
    requires Replied(w, side, r) && MessageFits(w.Serves(!side), w.At(side).log.calls[r])
  {
    var sigs, c := w.Serves(!side), w.At(side).log.calls[r];
    Codec.Lands(sigs.kind, c.msg, SigOf(sigs, c.request).msg, at)
  }

  predicate ResultLands(w: World, side: bool, r: nat, v: Value, addr: nat)
    requires Replied(w, side, r) && ResultFits(w.Serves(!side), w.At(side).log.calls[r], v)
  {
    var sigs, c := w.Serves(!side), w.At(side).log.calls[r];
    Codec.Lands(sigs.kind, v, SigOf(sigs, c.request).res, addr)
  }

  /** A send resolves with a value exactly if the target's handler ran and answered and its result
      landed well, and then it is the result that the handler returned for that very message. */
  lemma {:induction false} ValueIsTheResult(w: World, steps: seq<Step>, w': World, side: bool, r: nat, addr: nat)
    requires Started(w) && Reaches(w, steps, w') && AllRoomy(w, steps)
    requires Replied(w', side, r) && MessageFits(w'.Serves(!side), w'.At(side).log.calls[r]) && AnswerFits(w', side, r)
    ensures r in w'.At(!side).log.handled
    ensures var fate, seen := w'.At(!side).log.handled[r], SeenBy(w', side, r, addr);
            && (seen.Got? <==> fate.Answered? && ResultLands(w', side, r, fate.result, addr))
            && (seen.Got? ==> fate.msg == w'.At(side).log.calls[r].msg && seen == Got(fate.result))
  {
    hide Started, Reaches, AllRoomy, CallerSees, Codec.Lands, Codec.Fits;
    LocationTransparency(w, steps, w', side, r, addr);
  }

  /** A send whose message reached the actor resolves with a decoding error exactly if the message
      or the result did not land well. */
  lemma {:induction false} DecodeErrorExactly(w: World, steps: seq<Step>, w': World, side: bool, r: nat, addr: nat)
    requires Started(w) && Reaches(w, steps, w') && AllRoomy(w, steps)
    requires Replied(w', side, r) && MessageFits(w'.Serves(!side), w'.At(side).log.calls[r]) && AnswerFits(w', side, r)
    ensures r in w'.At(!side).log.handled
    ensures var fate := w'.At(!side).log.handled[r];
            Executed(fate) || fate.Undecodable? ==>
              (SeenBy(w', side, r, addr) == NotDecoded <==>
                 !MessageLands(w', side, r, fate.addr) || (fate.Answered? && !ResultLands(w', side, r, fate.result, addr)))
  {
    hide Started, Reaches, AllRoomy, CallerSees, Codec.Lands, Codec.Fits;
    LocationTransparency(w, steps, w', side, r, addr);
  }

  /** With the prost codec decoding never fails: the caller of a handler that answered gets its
      result. */
  lemma {:induction false} ProstNeverFails(w: World, steps: seq<Step>, w': World, side: bool, r: nat, addr: nat)
    requires Started(w) && Reaches(w, steps, w') && AllRoomy(w, steps) && w'.Serves(!side).kind.Prost?
    requires Replied(w', side, r) && MessageFits(w'.Serves(!side), w'.At(side).log.calls[r]) && AnswerFits(w', side, r)
    ensures r in w'.At(!side).log.handled
    ensures var fate := w'.At(!side).log.handled[r];
            !fate.Undecodable? && (fate.Answered? ==> SeenBy(w', side, r, addr) == Got(fate.result))
  {
    hide Started, Reaches, AllRoomy, CallerSees, Codec.Fits;
    LocationTransparency(w, steps, w', side, r, addr);
  }

  // ----- Cleanup and order -----

  /** While a session runs, exactly one cleanup token exists: the flag, a sleeping timer, or a
      queued request. */
  lemma {:induction false} CleanupToken(w: World, steps: seq<Step>, w': World, side: bool)
    requires Started(w) && Reaches(w, steps, w') && w'.At(side).running
    ensures Tokens(w'.At(side)) == 1
  {
    hide Started, Reaches, OrderOk, AgesOk;
    StartInv(w);
    RunKept(w, steps, w');
  }

  /** If no sweep is more than `d` late, no request stays pending for the response timeout (60)
      plus the cleanup interval (15) plus `d`. */
  lemma {:induction false} TimeoutBound(w: World, steps: seq<Step>, w': World, side: bool, d: nat, k: nat)
    requires Started(w) && Reaches(w, steps, w') && AllPrompt(w, steps, d)
    requires w'.At(side).running && k in w'.At(side).table.pending
    ensures w'.now - w'.At(side).table.pending[k].since < 75 + d
  {
    hide Started, Reaches, AllPrompt, OrderOk, TokenOk;
    StartInv(w);
    assert OnTime(w.At(side), w.now, d);
    RunKept(w, steps, w');
    RunOnTime(w, steps, w', d, side);
    AgeBound(w'.At(side), w'.now, d, k);
  }

  /** Untagged messages enter the peer's mailboxes as an in-order, duplicate-free subsequence
      of the order in which the sending session handled them. */
  lemma {:induction false} UntaggedOrder(w: World, steps: seq<Step>, w': World, side: bool)
    requires Started(w) && Reaches(w, steps, w')
    ensures var casts, delivered := w'.At(side).log.casts, w'.At(!side).log.delivered;
            && (forall i :: 0 <= i < |delivered| ==> delivered[i].n < |casts| && delivered[i].cast == casts[delivered[i].n])
            && (forall i, j :: 0 <= i < j < |delivered| ==> delivered[i].n < delivered[j].n)
  {
    hide Started, Reaches, TokenOk, AgesOk;
    StartInv(w);
    RunKept(w, steps, w');
  }
}
