/**
 The generated dispatcher of a remote addressable actor: a match over message ids, in the order
 of the declared messages, guarded by a check that the ids are pairwise distinct.
 */
module Dispatcher {
  import opened Wire
  import Network

  ghost predicate Distinct(ids: seq<nat>) {
    forall i, j :: 0 <= i < j < |ids| ==> ids[i] != ids[j]
  }

  /** The arm that a message id selects: the first one with that id. */
  function Arm(ids: seq<nat>, id: nat): Option<nat>
    decreases ids
  {
    if ids == [] then None
    else if ids[0] == id then Some(0)
    else
      var rest := Arm(ids[1..], id);
      if rest.Some? then Some(rest.value + 1) else None
  }

  lemma {:induction false} ArmIsFirst(ids: seq<nat>, id: nat)
    ensures match Arm(ids, id)
            case Some(k) => k < |ids| && ids[k] == id && (forall i :: 0 <= i < k ==> ids[i] != id)
            case None => id !in ids
    decreases ids
  {
    if ids != [] && ids[0] != id {
      ArmIsFirst(ids[1..], id);
      assert ids == [ids[0]] + ids[1..];
    }
  }

  /** Every message reaches its own handler if and only if the ids are distinct. */
  lemma {:induction false} OwnHandlerExactly(ids: seq<nat>)
    ensures Distinct(ids) <==> forall k :: 0 <= k < |ids| ==> Arm(ids, ids[k]) == Some(k)
  {
    forall k | 0 <= k < |ids| && Distinct(ids) ensures Arm(ids, ids[k]) == Some(k) {
      ArmIsFirst(ids, ids[k]);
    }
    if !Distinct(ids) {
      var i, j :| 0 <= i < j < |ids| && ids[i] == ids[j];
      assert Arm(ids, ids[i]) == Some(i) ==> Arm(ids, ids[j]) != Some(j);
    }
  }

  /** The table that the declared messages make: id by id, later ones replacing earlier ones. */
  function TableOf(ids: seq<nat>, types: seq<Network.Sig>): map<nat, Network.Sig>
    requires |ids| == |types|
    decreases ids
  {
    if ids == [] then map[]
    else TableOf(ids[..|ids| - 1], types[..|ids| - 1])[ids[|ids| - 1] := types[|ids| - 1]]
  }

  lemma {:induction false} TableKeys(ids: seq<nat>, types: seq<Network.Sig>, id: nat)
    requires |ids| == |types|
    ensures id in TableOf(ids, types) <==> id in ids
    decreases ids
  {
    if ids != [] {
      var n := |ids| - 1;
      TableKeys(ids[..n], types[..n], id);
      assert ids == ids[..n] + [ids[n]];
    }
  }

  lemma {:induction false} TableAt(ids: seq<nat>, types: seq<Network.Sig>, k: nat)
    requires |ids| == |types| && Distinct(ids) && k < |ids|
    ensures ids[k] in TableOf(ids, types) && TableOf(ids, types)[ids[k]] == types[k]
    decreases ids
  {
    var n := |ids| - 1;
    if k < n {
      assert ids[k] != ids[n];
      TableAt(ids[..n], types[..n], k);
    }
  }

  /** With distinct ids, the arm that dispatches a request is the entry that a session looks up
      for it, and a message of the k-th type is sent, and decoded, as that type. */
  lemma {:induction false} ArmIsLookup(ids: seq<nat>, types: seq<Network.Sig>, sigs: Network.Sigs, request: Network.Request)
    requires |ids| == |types| && Distinct(ids) && request.ActorCall?
    requires request.actor in sigs.actors && sigs.actors[request.actor] == TableOf(ids, types)
    ensures Network.Known(sigs, request) <==> Arm(ids, request.msgId).Some?
    ensures Network.Known(sigs, request) ==>
              var k := Arm(ids, request.msgId).value;
              k < |ids| && ids[k] == request.msgId && Network.SigOf(sigs, request) == types[k]
  {
    hide TableOf;
    ArmIsFirst(ids, request.msgId);
    var arm := Arm(ids, request.msgId);
    TableKeys(ids, types, request.msgId);
    if arm.Some? { TableAt(ids, types, arm.value); }
  }

  /** The generated check accepts exactly the distinct ids. */
  method UniquenessCheck(ids: seq<nat>) returns (accepted: bool)
    ensures accepted <==> Distinct(ids)
  {
    var i := 0;
    while i < |ids|
      invariant 0 <= i <= |ids|
      invariant forall a, b :: 0 <= a < i && a < b < |ids| ==> ids[a] != ids[b]
    {
      var j := i + 1;
      while j < |ids|
        invariant i + 1 <= j <= |ids|
        invariant forall b :: i < b < j ==> ids[i] != ids[b]
      {
        if ids[i] == ids[j] { return false; }
        j := j + 1;
      }
      i := i + 1;
    }
    accepted := true;
  }
}
