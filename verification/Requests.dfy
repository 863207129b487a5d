/**
 The request table of a session: the wrapping tag generator, the pending map and the
 oneshot channel of every request. Requests are numbered in the order in which they take
 their tags; the numbers never wrap and exist only to state what the tags achieve.
 */
module Requests {
  import opened Wire

  /** Seconds a request may be pending before a sweep resolves it with a timeout. */
  const RESPONSE_TIMEOUT: nat := 60

  /** What a response frame carries. */
  datatype Reply = Ok(bytes: Bytes) | Err(msg: string) | Missing

  /** What the sender of a request receives on its channel. */
  datatype Outcome = Answer(bytes: Bytes) | RemoteError(msg: string) | BadResponse | SendFailed | TimedOut

  /** A oneshot channel: what was sent on it, and whether its receiver still exists. */
  datatype Channel = Channel(sent: Option<Outcome>, rxOpen: bool)

  /** Why the sending half of a channel is gone although nothing was sent: the receiver was
      closed, another request took the tag, or the session stopped. */
  datatype Loss = Discarded | Overwritten | Dropped

  datatype Entry = Entry(req: nat, since: nat)

  datatype Table = Table(
    issued: nat,
    tag: nat,
    pending: map<nat, Entry>,
    channels: map<nat, Channel>,
    losses: map<nat, Loss>)

  const EMPTY := Table(0, 0, map[], map[], map[])

  // ----- Operations -----

  function NextTag(tag: nat): nat {
    (tag + 1) % TWO64
  }

  /** Sends on the channel of a request; a closed receiver makes the send fail. */
  function Send(t: Table, req: nat, o: Outcome): Table
    requires req in t.channels
  {
    if t.channels[req].rxOpen then t.(channels := t.channels[req := t.channels[req].(sent := Some(o))])
    else t.(losses := t.losses[req := Discarded])
  }

  /** Takes a tag for a new request. If its frame could not be sent the error goes to the
      channel, otherwise the channel becomes pending. Its receiver may be gone already. */
  function Issue(t: Table, now: nat, delivered: bool, rxOpen: bool): Table {
    var t1 := t.(
      issued := t.issued + 1,
      tag := NextTag(t.tag),
      channels := t.channels[t.issued := Channel(None, rxOpen)]);
    if !delivered then Send(t1, t.issued, SendFailed)
    else
      t1.(pending := t.pending[t.tag := Entry(t.issued, now)],
          losses := if t.tag in t.pending then t.losses[t.pending[t.tag].req := Overwritten] else t.losses)
  }

  function OutcomeOf(reply: Reply): Outcome {
    match reply
    case Ok(bytes) => Answer(bytes)
    case Err(msg) => RemoteError(msg)
    case Missing => BadResponse
  }

  /** A response resolves the request that is pending under its tag; an unknown tag changes
      nothing. */
  function Respond(t: Table, tag: nat, reply: Reply): Table
    requires forall k :: k in t.pending ==> t.pending[k].req in t.channels
  {
    if tag !in t.pending then t
    else Send(t.(pending := t.pending - {tag}), t.pending[tag].req, OutcomeOf(reply))
  }

  predicate Expired(t: Table, tag: nat, now: nat)
    requires tag in t.pending && t.pending[tag].req in t.channels
  {
    !t.channels[t.pending[tag].req].rxOpen || now - t.pending[tag].since >= RESPONSE_TIMEOUT
  }

  /** The requests a sweep takes out of the pending map. */
  function ExpiredRequests(t: Table, now: nat): set<nat>
    requires forall k :: k in t.pending ==> t.pending[k].req in t.channels
  {
    set k | k in t.pending && Expired(t, k, now) :: t.pending[k].req
  }

  /** Resolves every expired request that still has a receiver with a timeout. */
  function Sweep(t: Table, now: nat): Table
    requires forall k :: k in t.pending ==> t.pending[k].req in t.channels
  {
    var gone := ExpiredRequests(t, now);
    t.(pending := map k | k in t.pending && !Expired(t, k, now) :: t.pending[k],
       channels := map r | r in t.channels ::
         if r in gone && t.channels[r].rxOpen then t.channels[r].(sent := Some(TimedOut)) else t.channels[r],
       losses := t.losses + map r | r in gone && r in t.channels && !t.channels[r].rxOpen :: Discarded)
  }

  /** The receiver of a request is dropped. */
  function Close(t: Table, req: nat): Table
    requires req in t.channels
  {
    t.(channels := t.channels[req := t.channels[req].(rxOpen := false)])
  }

  /** The session stops and drops its pending map. */
  function Stop(t: Table): Table {
    var left := PendingRequests(t);
    t.(pending := map[], losses := t.losses + map r | r in left :: Dropped)
  }

  function PendingRequests(t: Table): set<nat> {
    set k | k in t.pending :: t.pending[k].req
  }

  // ----- Every request is in exactly one place -----

  /** The tag of the request with number `r`. */
  function TagOf(r: nat): nat {
    r % TWO64
  }

  predicate IsPending(t: Table, r: nat) {
    TagOf(r) in t.pending && t.pending[TagOf(r)].req == r
  }

  predicate IsResolved(t: Table, r: nat) {
    r in t.channels && t.channels[r].sent.Some?
  }

  predicate ExactlyOne(a: bool, b: bool, c: bool) {
    (a && !b && !c) || (!a && b && !c) || (!a && !b && c)
  }

  /** The table is consistent: the generator counts the requests modulo 2^64, an entry sits
      under the tag of its request, and every request so far is in exactly one place. */
  ghost predicate Valid(t: Table) {
    && t.tag == TagOf(t.issued)
    && (forall r :: r in t.channels <==> 0 <= r < t.issued)
    && (forall k :: k in t.pending ==> t.pending[k].req < t.issued && k == TagOf(t.pending[k].req))
    && (forall r :: r in t.losses ==> r < t.issued)
    && (forall r :: 0 <= r < t.issued ==> ExactlyOne(IsPending(t, r), IsResolved(t, r), r in t.losses))
    && (forall r :: r in t.losses && t.losses[r] == Discarded ==> !t.channels[r].rxOpen)
  }

  lemma {:induction false} TagWraps(n: nat)
    ensures NextTag(TagOf(n)) == TagOf(n + 1)
  {
  }

  lemma {:induction false} SendValid(t: Table, u: Table, r: nat, o: Outcome)
    requires r in t.channels && u == Send(t, r, o)
    // `t` is valid but for `r`, whose sending half is in hand
    requires t.tag == TagOf(t.issued)
    requires forall q :: q in t.channels <==> 0 <= q < t.issued
    requires forall k :: k in t.pending ==> t.pending[k].req < t.issued && k == TagOf(t.pending[k].req)
    requires forall q :: q in t.losses ==> q < t.issued
    requires forall q :: 0 <= q < t.issued && q != r ==> ExactlyOne(IsPending(t, q), IsResolved(t, q), q in t.losses)
    requires forall q :: q in t.losses && t.losses[q] == Discarded ==> !t.channels[q].rxOpen
    requires !IsPending(t, r) && !IsResolved(t, r) && r !in t.losses
    ensures Valid(u)
  {
    hide TagOf;
    forall q | 0 <= q < u.issued
      ensures ExactlyOne(IsPending(u, q), IsResolved(u, q), q in u.losses)
    {
      if q != r { assert ExactlyOne(IsPending(t, q), IsResolved(t, q), q in t.losses); }
    }
  }

  lemma {:induction false} IssueValid(t: Table, now: nat, delivered: bool, rxOpen: bool)
    requires Valid(t)
    ensures Valid(Issue(t, now, delivered, rxOpen))
  {
    hide TagOf, NextTag;
    TagWraps(t.issued);
    if delivered {
      IssuePendingValid(t, now, rxOpen);
    } else {
      var t1 := t.(issued := t.issued + 1, tag := NextTag(t.tag), channels := t.channels[t.issued := Channel(None, rxOpen)]);
      forall q | 0 <= q < t.issued
        ensures ExactlyOne(IsPending(t1, q), IsResolved(t1, q), q in t1.losses)
      {
        assert ExactlyOne(IsPending(t, q), IsResolved(t, q), q in t.losses);
      }
      SendValid(t1, Issue(t, now, delivered, rxOpen), t.issued, SendFailed);
    }
  }

  lemma {:induction false} IssuePendingValid(t: Table, now: nat, rxOpen: bool)
    requires Valid(t)
    ensures Valid(Issue(t, now, true, rxOpen))
  {
    hide TagOf, NextTag;
    TagWraps(t.issued);
    var u := Issue(t, now, true, rxOpen);
    if t.tag in t.pending {
      var r := t.pending[t.tag].req;
      assert ExactlyOne(IsPending(t, r), IsResolved(t, r), r in t.losses);
    }
    forall q | 0 <= q < u.issued
      ensures ExactlyOne(IsPending(u, q), IsResolved(u, q), q in u.losses)
    {
      if q < t.issued { assert ExactlyOne(IsPending(t, q), IsResolved(t, q), q in t.losses); }
    }
  }

  lemma {:induction false} RespondValid(t: Table, tag: nat, reply: Reply)
    requires Valid(t)
    ensures Valid(Respond(t, tag, reply))
  {
    hide TagOf;
    if tag in t.pending {
      var r := t.pending[tag].req;
      var t1 := t.(pending := t.pending - {tag});
      forall q | 0 <= q < t.issued && q != r
        ensures ExactlyOne(IsPending(t1, q), IsResolved(t1, q), q in t1.losses)
      {
        assert ExactlyOne(IsPending(t, q), IsResolved(t, q), q in t.losses);
      }
      assert ExactlyOne(IsPending(t, r), IsResolved(t, r), r in t.losses);
      SendValid(t1, Respond(t, tag, reply), r, OutcomeOf(reply));
    }
  }

  lemma {:induction false} WhatExpires(t: Table, now: nat, q: nat)
    requires Valid(t)
    ensures q in ExpiredRequests(t, now) <==> IsPending(t, q) && Expired(t, TagOf(q), now)
    ensures q in PendingRequests(t) <==> IsPending(t, q)
  {
    hide TagOf;
  }

  /** What a sweep does to one request: it leaves a pending request alone unless its
      receiver is closed or it is old enough, and then discards it or times it out. */
  lemma {:induction false} SweepOne(t: Table, now: nat, q: nat)
    requires Valid(t) && q < t.issued
    ensures var u := Sweep(t, now);
            var expired := IsPending(t, q) && Expired(t, TagOf(q), now);
            && (IsPending(u, q) <==> IsPending(t, q) && !expired)
            && u.channels[q] == (if expired && t.channels[q].rxOpen then t.channels[q].(sent := Some(TimedOut))
                                 else t.channels[q])
            && (q in u.losses <==> q in t.losses || (expired && !t.channels[q].rxOpen))
  {
    hide TagOf, ExpiredRequests, ExactlyOne;
    WhatExpires(t, now, q);
  }

  lemma {:induction false} SweepLosses(t: Table, now: nat, q: nat)
    requires Valid(t) && q in Sweep(t, now).losses
    ensures q < t.issued
    ensures Sweep(t, now).losses[q] == Discarded ==> !t.channels[q].rxOpen
  {
    hide TagOf, ExpiredRequests, ExactlyOne, IsResolved, IsPending;
    WhatExpires(t, now, q);
  }

  lemma {:induction false} SweepValid(t: Table, now: nat)
    requires Valid(t)
    ensures Valid(Sweep(t, now))
  {
    hide TagOf, ExpiredRequests, Expired, IsPending;
    var u := Sweep(t, now);
    forall q | 0 <= q < t.issued
      ensures ExactlyOne(IsPending(u, q), IsResolved(u, q), q in u.losses)
    {
      SweepOne(t, now, q);
      assert ExactlyOne(IsPending(t, q), IsResolved(t, q), q in t.losses);
    }
    forall q | q in u.losses
      ensures q < u.issued && (u.losses[q] == Discarded ==> !u.channels[q].rxOpen)
    {
      SweepLosses(t, now, q);
      SweepOne(t, now, q);
    }
  }

  lemma {:induction false} StopValid(t: Table)
    requires Valid(t)
    ensures Valid(Stop(t))
  {
    hide TagOf;
    var u := Stop(t);
    forall q | 0 <= q < t.issued
      ensures ExactlyOne(IsPending(u, q), IsResolved(u, q), q in u.losses)
    {
      WhatExpires(t, 0, q);
      assert ExactlyOne(IsPending(t, q), IsResolved(t, q), q in t.losses);
    }
  }

  lemma {:induction false} CloseValid(t: Table, req: nat)
    requires Valid(t) && req in t.channels
    ensures Valid(Close(t, req))
  {
    hide TagOf, ExactlyOne;
    var u := Close(t, req);
    forall q | 0 <= q < t.issued
      ensures ExactlyOne(IsPending(u, q), IsResolved(u, q), q in u.losses)
    {
      assert IsPending(u, q) == IsPending(t, q);
      assert IsResolved(u, q) == IsResolved(t, q);
      assert ExactlyOne(IsPending(t, q), IsResolved(t, q), q in t.losses);
    }
  }
}
