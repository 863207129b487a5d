/**
 Where a request is, and what each operation of the table does to every request: a second
 account of the table, request by request.
 */
module Places {
  import opened Wire
  import opened Requests

  datatype Place = Pending(since: nat) | Resolved(outcome: Outcome) | Lost(loss: Loss) | Unknown

  function PlaceOf(t: Table, r: nat): Place {
    if IsPending(t, r) then Pending(t.pending[TagOf(r)].since)
    else if IsResolved(t, r) then Resolved(t.channels[r].sent.value)
    else if r in t.losses then Lost(t.losses[r])
    else Unknown
  }

  /** A request whose channel is closed is lost, and otherwise resolved. */
  function Delivered(rxOpen: bool, o: Outcome): Place {
    if rxOpen then Resolved(o) else Lost(Discarded)
  }

  /** A new request is pending from now on if its frame was sent; otherwise the sender is told. A
      pending request with the same tag is lost to it; all others stay where they are. */
  lemma {:induction false} IssuePlaces(t: Table, now: nat, delivered: bool, rxOpen: bool, q: nat)
    requires Valid(t) && q <= t.issued
    ensures var u := Issue(t, now, delivered, rxOpen);
            && u.issued == t.issued + 1 && q in u.channels
            && u.channels[q].rxOpen == (if q == t.issued then rxOpen else t.channels[q].rxOpen)
            && PlaceOf(u, q) ==
                 if q == t.issued then (if delivered then Pending(now) else Delivered(rxOpen, SendFailed))
                 else if delivered && PlaceOf(t, q).Pending? && TagOf(q) == TagOf(t.issued) then Lost(Overwritten)
                 else PlaceOf(t, q)
  {
    hide TagOf, NextTag;
    if q < t.issued { assert ExactlyOne(IsPending(t, q), IsResolved(t, q), q in t.losses); }
    if t.tag in t.pending {
      var r := t.pending[t.tag].req;
      assert ExactlyOne(IsPending(t, r), IsResolved(t, r), r in t.losses);
    }
  }

  /** A response resolves the request that is pending under its tag with what it carries, and
      moves no other. */
  lemma {:induction false} RespondPlaces(t: Table, tag: nat, reply: Reply, q: nat)
    requires Valid(t) && q < t.issued
    ensures var u := Respond(t, tag, reply);
            && u.issued == t.issued && q in u.channels && u.channels[q].rxOpen == t.channels[q].rxOpen
            && PlaceOf(u, q) ==
                 if PlaceOf(t, q).Pending? && TagOf(q) == tag then
                   Delivered(t.channels[q].rxOpen,
                             match reply { case Ok(bytes) => Answer(bytes) case Err(msg) => RemoteError(msg) case Missing => BadResponse })
                 else PlaceOf(t, q)
  {
    hide TagOf;
    assert ExactlyOne(IsPending(t, q), IsResolved(t, q), q in t.losses);
    if tag in t.pending {
      var r := t.pending[tag].req;
      assert ExactlyOne(IsPending(t, r), IsResolved(t, r), r in t.losses);
    }
  }

  /** Where a sweep leaves a request: a pending one whose receiver is gone is discarded, one that
      is as old as the response timeout is timed out, and a younger one stays pending. */
  function AfterSweep(p: Place, rxOpen: bool, now: nat): Place {
    match p
    case Pending(since) =>
      if !rxOpen then Lost(Discarded) else if now < since + RESPONSE_TIMEOUT then p else Resolved(TimedOut)
    case _ => p
  }

  lemma {:induction false} SweepPlaces(t: Table, now: nat, q: nat)
    requires Valid(t) && q < t.issued
    ensures var u := Sweep(t, now);
            && u.issued == t.issued && q in u.channels && u.channels[q].rxOpen == t.channels[q].rxOpen
            && PlaceOf(u, q) == AfterSweep(PlaceOf(t, q), t.channels[q].rxOpen, now)
  {
    hide TagOf, ExpiredRequests;
    assert ExactlyOne(IsPending(t, q), IsResolved(t, q), q in t.losses);
    WhatExpires(t, now, q);
  }

  /** A stopping session drops what is pending and leaves the rest. */
  lemma {:induction false} StopPlaces(t: Table, q: nat)
    requires Valid(t) && q < t.issued
    ensures var u := Requests.Stop(t);
            && u.issued == t.issued && q in u.channels && u.channels[q].rxOpen == t.channels[q].rxOpen
            && PlaceOf(u, q) == (if PlaceOf(t, q).Pending? then Lost(Dropped) else PlaceOf(t, q))
  {
    hide TagOf;
    assert ExactlyOne(IsPending(t, q), IsResolved(t, q), q in t.losses);
    WhatExpires(t, 0, q);
  }

  /** Dropping a receiver closes its channel and moves no request. */
  lemma {:induction false} ClosePlaces(t: Table, req: nat, q: nat)
    requires Valid(t) && req in t.channels && q < t.issued
    ensures var u := Close(t, req);
            && u.issued == t.issued && q in u.channels
            && u.channels[q].rxOpen == (q != req && t.channels[q].rxOpen)
            && PlaceOf(u, q) == PlaceOf(t, q)
  {
    hide TagOf;
  }
}
