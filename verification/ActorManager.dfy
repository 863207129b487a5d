/**
 The registry and the actor manager in their own form: maps updated in place. Other threads may
 act before every atomic operation; what they do is a parameter.
 */
module ActorManager {
  import opened Wire
  import opened Registry

  /** The shared registry, and what is true of the mailboxes in it. */
  class RemoteMailboxRegistry {
    var inner: map<nat, nat>
    var closed: set<nat>
    var known: set<nat>

    constructor ()
      ensures inner == map[] && closed == {} && known == {}
    {
      inner, closed, known := map[], {}, {};
    }

    method Get(index: nat) returns (r: Option<nat>)
      modifies this`inner
      ensures inner == Evict(old(inner), closed, index)
      ensures r == if index in inner then Some(inner[index]) else None
    {
      if index !in inner { return None; }
      if inner[index] in closed {
        inner := inner - {index};
        return None;
      }
      r := Some(inner[index]);
    }

    method ContainsIndex(index: nat) returns (r: bool)
      modifies this`inner
      ensures inner == Evict(old(inner), closed, index) && r == (index in inner)
    {
      var mailbox := Get(index);
      r := mailbox.Some?;
    }

    method Remove(index: nat) returns (r: Option<nat>)
      modifies this`inner
      ensures inner == old(inner) - {index}
      ensures r == if index in old(inner) then Some(old(inner)[index]) else None
    {
      if index !in inner {
        assert inner - {index} == inner;
        return None;
      }
      r := Some(inner[index]);
      inner := inner - {index};
    }

    method InsertMailbox(index: nat) returns (added: bool)
      modifies this`inner
      ensures inner == Insert(old(inner), index) && added == (index !in old(inner))
    {
      added := index !in inner;
      if added { inner := inner[index := index]; }
    }
  }

  /** What other threads do, as steps. */
  function Steps(others: seq<Other>): seq<Step>
    decreases others
  {
    if others == [] then [] else [Meanwhile(others[0])] + Steps(others[1..])
  }

  lemma {:induction false} OneOther(b: Books, others: seq<Other>, i: nat)
    requires i < |others|
    ensures DoAll(b, Steps(others[i..])) == DoAll(DoOther(b, others[i]), Steps(others[i + 1..]))
  {
    assert others[i..][1..] == others[i + 1..];
    assert Steps(others[i..])[1..] == Steps(others[i + 1..]);
  }

  lemma {:induction false} OthersKeepDoing(b: Books, others: seq<Other>)
    ensures var c := DoAll(b, Steps(others));
            c.doing == b.doing && c.labels == b.labels && b.known <= c.known
    decreases others
  {
    if others != [] {
      OthersKeepDoing(DoOther(b, others[0]), others[1..]);
      assert Steps(others)[1..] == Steps(others[1..]);
    }
  }

  /** While other threads act, the manager stays in its cleanup. */
  lemma {:induction false} OthersInSweep(b: Books, others: seq<Other>)
    requires InSweep(b)
    ensures AllInSweep(b, Steps(others))
    decreases others
  {
    if others != [] {
      OthersInSweep(DoOther(b, others[0]), others[1..]);
      assert Steps(others)[1..] == Steps(others[1..]);
    }
  }

  class ActorMgr {
    const registry: RemoteMailboxRegistry
    var labels: map<string, nat>
    ghost var doing: Doing

    ghost function Snapshot(): Books
      reads this, registry
    {
      Books(registry.inner, labels, registry.known, registry.closed, doing)
    }

    ghost predicate Ok()
      reads this, registry
    {
      BooksOk(Snapshot())
    }

    constructor (registry: RemoteMailboxRegistry)
      requires registry.inner == map[] && registry.closed == {} && registry.known == {}
      ensures this.registry == registry && Ok() && Snapshot() == EMPTY
    {
      this.registry := registry;
      labels, doing := map[], Idle;
    }

    /** Other threads act. */
    method Interfere(others: seq<Other>)
      modifies registry
      ensures Snapshot() == DoAll(old(Snapshot()), Steps(others))
    {
      var i := 0;
      while i < |others|
        invariant 0 <= i <= |others|
        invariant DoAll(Snapshot(), Steps(others[i..])) == DoAll(old(Snapshot()), Steps(others))
      {
        hide DoAll, Steps;
        OneOther(Snapshot(), others, i);
        match others[i] {
          case Spawn(id) => registry.known := registry.known + {id};
          case Close(id) => if id in registry.known { registry.closed := registry.closed + {id}; }
          case Register(id) => if id in registry.known { var _ := registry.InsertMailbox(id); }
          case Find(id) => var _ := registry.Get(id);
        }
        i := i + 1;
      }
      assert others[i..] == [];
    }

    /** Interference leaves the books in order and the manager where it stands. */
    method Await(others: seq<Other>)
      requires Ok()
      modifies registry
      ensures Ok() && Snapshot() == DoAll(old(Snapshot()), Steps(others))
      ensures old(registry.known) <= registry.known
    {
      hide BooksOk, Do, DoAll, Steps;
      RunKeeps(Snapshot(), Steps(others));
      OthersKeepDoing(Snapshot(), others);
      Interfere(others);
    }

    /** Adds an actor under a label, unless the label is taken or the actor is registered. */
    method AddActor(name: string, id: nat, first: seq<Other>, second: seq<Other>) returns (added: bool)
      requires Ok() && doing == Idle && id in registry.known
      modifies this, registry
      ensures Ok() && doing == Idle
      ensures labels == if added then old(labels)[name := id] else old(labels)
      ensures added <==> name !in old(labels) && id !in DoAll(Do(old(Snapshot()), BeginAdd(name, id)), Steps(first)).registry
      ensures added ==> id in registry.inner || id in registry.closed
      ensures name !in old(labels) ==>
                Snapshot() == Do(DoAll(Do(DoAll(Do(old(Snapshot()), BeginAdd(name, id)), Steps(first)), InsertNow), Steps(second)), LabelNow)
    {
      hide BooksOk, DoAll, Steps;
      if name in labels { return false; }
      StepKeeps(Snapshot(), BeginAdd(name, id));
      doing := Inserting(name, id, false);
      Await(first);
      OthersKeepDoing(old(Do(Snapshot(), BeginAdd(name, id))), first);
      StepKeeps(Snapshot(), InsertNow);
      ghost var b := Snapshot();
      added := registry.InsertMailbox(id);
      doing := if added then Labeling(name, id) else Idle;
      assert Snapshot() == Do(b, InsertNow);
      ghost var c := Snapshot();
      Await(second);
      OthersKeepDoing(c, second);
      StepKeeps(Snapshot(), LabelNow);
      if added {
        labels := labels[name := id];
        doing := Idle;
        Registered(Snapshot(), name);
      }
    }

    /** Creates an actor under a free label; the registry's answer is ignored. */
    method CreateActor(name: string, created: Option<nat>, first: seq<Other>, second: seq<Other>) returns (r: Option<nat>)
      requires Ok() && doing == Idle
      requires created.Some? ==> created.value !in registry.known
      modifies this, registry
      ensures Ok() && doing == Idle
      ensures r == if name in old(labels) then None else created
      ensures labels == if r.Some? then old(labels)[name := r.value] else old(labels)
      ensures r.Some? ==> r.value in registry.inner || r.value in registry.closed
      ensures r.Some? ==>
                var b := DoAll(Do(Do(old(Snapshot()), BeginCreate(name)), Created(r.value)), Steps(first));
                Snapshot() == Do(DoAll(Do(b, InsertNow), Steps(second)), LabelNow)
    {
      hide BooksOk, DoAll, Steps;
      if name in labels { return None; }
      if created.None? { return None; }
      var id := created.value;
      ghost var start := Snapshot();
      StepKeeps(start, BeginCreate(name));
      StepKeeps(Do(start, BeginCreate(name)), Created(id));
      registry.known := registry.known + {id};
      doing := Inserting(name, id, true);
      ghost var a := Snapshot();
      Await(first);
      OthersKeepDoing(a, first);
      StepKeeps(Snapshot(), InsertNow);
      ghost var b := Snapshot();
      var _ := registry.InsertMailbox(id);
      doing := Labeling(name, id);
      assert Snapshot() == Do(b, InsertNow);
      ghost var c := Snapshot();
      Await(second);
      OthersKeepDoing(c, second);
      StepKeeps(Snapshot(), LabelNow);
      labels := labels[name := id];
      doing := Idle;
      Registered(Snapshot(), name);
      r := Some(id);
    }

    /** Finds the mailbox of a label; it never returns the mailbox of another actor. */
    method GetActor(name: string, meanwhile: seq<Other>) returns (r: Option<nat>)
      requires Ok() && doing == Idle
      modifies this, registry
      ensures Ok() && doing == Idle && labels == old(labels)
      ensures r.Some? <==> name in labels && labels[name] !in registry.closed
      ensures r.Some? ==> r.value == labels[name]
      ensures name in labels ==>
                var b := DoAll(Do(old(Snapshot()), BeginGet(name)), Steps(meanwhile)).registry;
                registry.inner == if r.Some? then b else b - {labels[name]}
    {
      hide BooksOk, DoAll, Steps;
      if name !in labels { return None; }
      StepKeeps(Snapshot(), BeginGet(name));
      doing := Looking(labels[name]);
      ghost var a := Snapshot();
      Await(meanwhile);
      OthersKeepDoing(a, meanwhile);
      Registered(Snapshot(), name);
      StepKeeps(Snapshot(), LookNow);
      r := registry.Get(labels[name]);
      doing := Idle;
    }

    /** Removes an actor and all its labels. */
    method RemoveActor(id: nat, meanwhile: seq<Other>) returns (removed: bool)
      requires Ok() && doing == Idle
      modifies this, registry
      ensures Ok() && doing == Idle && id !in registry.inner
      ensures labels == map l | l in old(labels) && old(labels)[l] != id :: old(labels)[l]
      ensures var b := DoAll(Do(old(Snapshot()), BeginRemove(id)), Steps(meanwhile)).registry;
              registry.inner == b - {id} && (removed <==> id in b)
    {
      hide BooksOk, DoAll, Steps;
      StepKeeps(Snapshot(), BeginRemove(id));
      labels := map l | l in labels && labels[l] != id :: labels[l];
      doing := Removing(id);
      ghost var a := Snapshot();
      Await(meanwhile);
      OthersKeepDoing(a, meanwhile);
      StepKeeps(Snapshot(), RemoveNow);
      var mailbox := registry.Remove(id);
      removed := mailbox.Some?;
      doing := Idle;
    }

    method RemoveLabel(name: string, meanwhile: seq<Other>) returns (removed: bool)
      requires Ok() && doing == Idle
      modifies this, registry
      ensures Ok() && doing == Idle && labels == old(labels) - {name}
      ensures name !in old(labels) ==> !removed && registry.inner == old(registry.inner)
      ensures name in old(labels) ==>
                var id, b := old(labels)[name], DoAll(Do(old(Snapshot()), BeginRemoveLabel(name)), Steps(meanwhile)).registry;
                registry.inner == b - {id} && (removed <==> id in b)
    {
      hide BooksOk, DoAll, Steps;
      if name !in labels {
        assert labels - {name} == labels;
        return false;
      }
      StepKeeps(Snapshot(), BeginRemoveLabel(name));
      var id := labels[name];
      labels := labels - {name};
      doing := Removing(id);
      ghost var a := Snapshot();
      Await(meanwhile);
      OthersKeepDoing(a, meanwhile);
      StepKeeps(Snapshot(), RemoveNow);
      var mailbox := registry.Remove(id);
      removed := mailbox.Some?;
      doing := Idle;
    }

    /** The periodic cleanup: first the registry, then the labels, entry by entry. Before the
        i-th entry other threads do `meanwhile(i)`. */
    method Task(meanwhile: nat -> seq<Other>)
      requires Ok() && doing == Idle
      modifies this, registry
      ensures Ok() && doing == Idle
      ensures forall l :: l in old(labels) && old(labels)[l] in old(registry.closed) ==> l !in labels
      ensures forall l :: l in old(labels) && old(labels)[l] !in registry.closed ==> l in labels && labels[l] == old(labels)[l]
      ensures forall k :: k in old(registry.inner) && k !in registry.closed ==> k in registry.inner
      ensures forall k :: k in old(registry.closed) && NeverBack(k, meanwhile) ==> k !in registry.inner
    {
      hide BooksOk, DoAll, AllInSweep, Do, Sweeping, EntriesLeave, NeverBack;
      ghost var start := Snapshot();
      StepKeeps(start, BeginSweep);
      SweepBegins(start, meanwhile);
      doing := SweepingRegistry(registry.inner.Keys);
      var i := 0;
      var keys := registry.inner.Keys;
      while keys != {}
        invariant Ok() && Sweeping(start, Snapshot()) && doing == SweepingRegistry(keys)
        invariant EntriesLeave(start, Snapshot(), meanwhile)
        decreases |keys|
      {
        var k :| k in keys;
        SweepOneEntry(start, k, meanwhile, i);
        i, keys := i + 1, keys - {k};
      }
      StepKeeps(Snapshot(), TurnToLabels);
      SweepStep(start, Snapshot(), TurnToLabels);
      StepLeaves(start, Snapshot(), TurnToLabels, meanwhile);
      TurnFields(Snapshot());
      doing := SweepingLabels(labels.Keys);
      var names := labels.Keys;
      while names != {}
        invariant Ok() && Sweeping(start, Snapshot()) && doing == SweepingLabels(names) && names <= labels.Keys
        invariant EntriesLeave(start, Snapshot(), meanwhile)
        decreases |names|
      {
        var name :| name in names;
        SweepOneLabel(start, name, meanwhile, i);
        i, names := i + 1, names - {name};
      }
      StepKeeps(Snapshot(), EndSweep);
      SweepStep(start, Snapshot(), EndSweep);
      StepLeaves(start, Snapshot(), EndSweep, meanwhile);
      EndFields(Snapshot());
      doing := Idle;
      Swept(start, Snapshot());
      AllLeft(start, Snapshot(), meanwhile);
    }

    method SweepOneEntry(ghost start: Books, k: nat, meanwhile: nat -> seq<Other>, i: nat)
      requires BooksOk(start) && Ok() && Sweeping(start, Snapshot()) && doing.SweepingRegistry? && k in doing.keys
      requires EntriesLeave(start, Snapshot(), meanwhile)
      modifies this, registry
      ensures EntriesLeave(start, Snapshot(), meanwhile)
      ensures Ok() && Sweeping(start, Snapshot()) && doing == SweepingRegistry(old(doing.keys) - {k})
    {
      hide BooksOk, DoAll, Sweeping, Steps, EntriesLeave;
      OthersSweep(start, Snapshot(), meanwhile(i));
      OthersLeave(start, Snapshot(), meanwhile, i);
      OthersKeepDoing(Snapshot(), meanwhile(i));
      Await(meanwhile(i));
      StepKeeps(Snapshot(), SweepEntry(k));
      SweepStep(start, Snapshot(), SweepEntry(k));
      StepLeaves(start, Snapshot(), SweepEntry(k), meanwhile);
      var _ := registry.ContainsIndex(k);
      doing := SweepingRegistry(doing.keys - {k});
    }

    method SweepOneLabel(ghost start: Books, name: string, meanwhile: nat -> seq<Other>, i: nat)
      requires BooksOk(start) && Ok() && Sweeping(start, Snapshot()) && doing.SweepingLabels? && name in doing.labels
      requires doing.labels <= labels.Keys && EntriesLeave(start, Snapshot(), meanwhile)
      modifies this, registry
      ensures EntriesLeave(start, Snapshot(), meanwhile)
      ensures Ok() && Sweeping(start, Snapshot()) && doing == SweepingLabels(old(doing.labels) - {name})
      ensures doing.labels <= labels.Keys
    {
      hide BooksOk, DoAll, Sweeping, Steps, EntriesLeave;
      OthersSweep(start, Snapshot(), meanwhile(i));
      OthersLeave(start, Snapshot(), meanwhile, i);
      OthersKeepDoing(Snapshot(), meanwhile(i));
      Await(meanwhile(i));
      StepKeeps(Snapshot(), SweepLabel(name));
      SweepStep(start, Snapshot(), SweepLabel(name));
      StepLeaves(start, Snapshot(), SweepLabel(name), meanwhile);
      var found := registry.ContainsIndex(labels[name]);
      if !found { labels := labels - {name}; }
      doing := SweepingLabels(doing.labels - {name});
    }
  }

  lemma {:induction false} Registered(b: Books, name: string)
    requires BooksOk(b) && name in b.labels
    ensures b.labels[name] in b.registry || b.labels[name] in b.closed
    ensures b.labels[name] in b.registry ==> b.registry[b.labels[name]] == b.labels[name]
  {
  }

  lemma {:induction false} SweepBegins(b: Books, meanwhile: nat -> seq<Other>)
    requires BooksOk(b) && b.doing.Idle?
    ensures Do(b, BeginSweep) == b.(doing := SweepingRegistry(b.registry.Keys))
    ensures Sweeping(b, Do(b, BeginSweep)) && EntriesLeave(b, Do(b, BeginSweep), meanwhile)
  {
  }

  lemma {:induction false} TurnFields(b: Books)
    requires b.doing == SweepingRegistry({})
    ensures Do(b, TurnToLabels) == b.(doing := SweepingLabels(b.labels.Keys))
  {
  }

  lemma {:induction false} EndFields(b: Books)
    requires b.doing == SweepingLabels({})
    ensures Do(b, EndSweep) == b.(doing := Idle)
  {
  }

  lemma {:induction false} OthersSweep(start: Books, b: Books, others: seq<Other>)
    requires BooksOk(start) && BooksOk(b) && Sweeping(start, b) && InSweep(b)
    ensures Sweeping(start, DoAll(b, Steps(others)))
  {
    hide BooksOk, Sweeping, Do, DoAll, Steps;
    OthersInSweep(b, others);
    SweepRun(start, b, Steps(others));
  }

  /** Nobody registers the actor while a cleanup goes on. */
  ghost predicate NeverBack(k: nat, meanwhile: nat -> seq<Other>) {
    forall i :: Register(k) !in meanwhile(i)
  }

  /** The entries of all actors that were closed at the start and are not registered again. */
  ghost predicate EntriesLeave(start: Books, b: Books, meanwhile: nat -> seq<Other>) {
    forall k :: k in start.closed && NeverBack(k, meanwhile) ==> EntryLeaves(b, k)
  }

  lemma {:induction false} StepLeaves(start: Books, b: Books, st: Step, meanwhile: nat -> seq<Other>)
    requires BooksOk(b) && InSweep(b) && !st.Meanwhile? && EntriesLeave(start, b, meanwhile)
    ensures EntriesLeave(start, Do(b, st), meanwhile)
  {
    hide BooksOk, Do, EntryLeaves, NeverBack;
    forall k | k in start.closed && NeverBack(k, meanwhile) ensures EntryLeaves(Do(b, st), k) {
      EntryStep(b, st, k);
    }
  }

  lemma {:induction false} StepsAre(others: seq<Other>, o: Other)
    ensures Meanwhile(o) in Steps(others) ==> o in others
    decreases others
  {
    if others != [] {
      assert Steps(others)[1..] == Steps(others[1..]);
      StepsAre(others[1..], o);
    }
  }

  lemma {:induction false} OthersLeave(start: Books, b: Books, meanwhile: nat -> seq<Other>, i: nat)
    requires BooksOk(b) && InSweep(b) && EntriesLeave(start, b, meanwhile)
    ensures EntriesLeave(start, DoAll(b, Steps(meanwhile(i))), meanwhile)
  {
    hide BooksOk, Do, DoAll, EntryLeaves, Steps, AllInSweep;
    OthersInSweep(b, meanwhile(i));
    forall k | k in start.closed && NeverBack(k, meanwhile)
      ensures EntryLeaves(DoAll(b, Steps(meanwhile(i))), k)
    {
      StepsAre(meanwhile(i), Register(k));
      EntryRun(b, Steps(meanwhile(i)), k);
    }
  }

  lemma {:induction false} AllLeft(start: Books, b: Books, meanwhile: nat -> seq<Other>)
    requires EntriesLeave(start, b, meanwhile) && b.doing == Idle
    ensures forall k :: k in start.closed && NeverBack(k, meanwhile) ==> k !in b.registry
  {
    hide NeverBack;
  }

  /** What a finished cleanup means. */
  lemma {:induction false} Swept(start: Books, b: Books)
    requires Sweeping(start, b) && b.doing == Idle
    ensures forall l :: l in start.labels && start.labels[l] in start.closed ==> l !in b.labels
    ensures forall l :: l in start.labels && start.labels[l] !in b.closed ==> l in b.labels && b.labels[l] == start.labels[l]
    ensures forall k :: k in start.registry && k !in b.closed ==> k in b.registry
  {
  }
}
