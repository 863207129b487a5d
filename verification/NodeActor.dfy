/**
 The node and its context in their own form: collections updated in place by handlers, and the
 loop of the context.
 */
module NodeActor {
  import opened Wire
  import opened NodeTables
  import opened DoubleMaps

  class NodeActor {
    var listenerLabels: set<string>
    var listeners: seq<string>
    var actorMgr: Option<nat>
    const sessions: DoubleMap<nat, string, nat>
    var children: set<nat>
    ghost var born: set<nat>

    ghost function Kin(): Family
      reads this, sessions
    {
      Family(actorMgr, sessions.Contents(), children, born)
    }

    /** The session table is in order, and so are sessions and children. */
    ghost predicate Settled()
      reads this, sessions
    {
      sessions.Valid() && FamilyOk(Kin())
    }

    constructor ()
      ensures fresh(sessions) && sessions.Valid()
      ensures listenerLabels == {} && listeners == [] && Kin() == Family(None, {}, {}, {})
    {
      sessions := new DoubleMap();
      listenerLabels, listeners, actorMgr, children, born := {}, [], None, {}, {};
    }

    /** Adds a listener before the start, in place of one with the same label. */
    method WithListener(name: string)
      modifies this`listenerLabels, this`listeners
      ensures Doors(listenerLabels, listeners, []) == NodeTables.WithListener(old(Doors(listenerLabels, listeners, [])), name)
      ensures name in listenerLabels && listeners != [] && listeners[|listeners| - 1] == name
    {
      if name in listenerLabels {
        listeners := Retain(listeners, Not(name));
      } else {
        listenerLabels := listenerLabels + {name};
      }
      listeners := listeners + [name];
    }

    /** `post_start`: the actor manager is the first child. */
    method PostStart(mgr: nat)
      modifies this`actorMgr, this`children
      ensures Kin() == StartManager(old(Kin()), mgr)
    {
      children := children + {mgr};
      actorMgr := Some(mgr);
    }

    method AddListener(name: string) returns (added: bool)
      modifies this`listenerLabels, this`listeners
      ensures added == (name !in old(listenerLabels))
      ensures forall tasks :: Doors(listenerLabels, listeners, tasks) == NodeTables.AddListener(old(Doors(listenerLabels, listeners, tasks)), name)
    {
      if name in listenerLabels { return false; }
      listenerLabels, listeners := listenerLabels + {name}, listeners + [name];
      added := true;
    }

    /** Creates a session; the outcome of the insertion into the session table is discarded, and
        it is always a success. */
    method CreateSession(id: nat, name: string, starts: bool) returns (created: bool)
      requires Settled() && NewId(Kin(), id)
      modifies this`children, this`born, sessions
      ensures Kin() == NodeTables.CreateSession(old(Kin()), id, name, starts) && Settled()
      ensures created == (!Has2(old(Kin()).sessions, name) && starts)
      ensures Kin().sessions == if created then old(Kin()).sessions + {Triple(id, name, id)} else old(Kin()).sessions
    {
      hide Unique, Inserted, Meet, Inverse;
      CreateKeeps(Kin(), id, name, starts);
      var taken := sessions.GetByKey2(name);
      if taken.Some? || actorMgr.None? || !starts { return false; }
      InsertionSucceeds(Kin(), id, name);
      var inserted := sessions.Insert(id, name, id);
      assert inserted == InsertResult.Ok(None);
      children, born := children + {id}, born + {id};
      created := true;
    }

    /** A session reported its end. */
    method SessionTerminated(id: nat)
      requires Settled() && id in born
      modifies this`children, sessions
      ensures Kin() == EndSession(old(Kin()), id) && Settled()
    {
      hide Unique, Inverse;
      EndKeeps(Kin(), id);
      ghost var before := sessions.Contents();
      sessions.Retain((t: Triple<nat, string, nat>) => Verdict(t.value != id, t.value));
      assert sessions.Contents() == Others(before, id);
      children := children - {id};
    }
  }

  /** `Vec::retain`, front to back. */
  method Retain(s: seq<string>, ok: string -> bool) returns (r: seq<string>)
    ensures r == Keep(s, ok)
  {
    r := [];
    var i := 0;
    assert s[0..] == s && [] + Keep(s, ok) == Keep(s, ok);
    while i < |s|
      invariant 0 <= i <= |s| && r + Keep(s[i..], ok) == Keep(s, ok)
    {
      hide Keep;
      KeepFrom(s, ok, i, r);
      if ok(s[i]) { r := r + [s[i]]; }
      i := i + 1;
    }
  }

  lemma {:induction false} KeepFrom(s: seq<string>, ok: string -> bool, i: nat, r: seq<string>)
    requires i < |s|
    ensures r + Keep(s[i..], ok) == (if ok(s[i]) then r + [s[i]] else r) + Keep(s[i + 1..], ok)
  {
    assert s[i..][1..] == s[i + 1..];
    var rest := Keep(s[i + 1..], ok);
    assert r + ([s[i]] + rest) == (r + [s[i]]) + rest;
    assert [] + rest == rest;
  }

  class NodeContext {
    var running: bool
    var acceptTasks: seq<string>

    constructor ()
      ensures running && acceptTasks == []
    {
      running, acceptTasks := true, [];
    }

    ghost function Snapshot(node: NodeActor): Node
      reads this, node, node.sessions
    {
      Node(Doors(node.listenerLabels, node.listeners, acceptTasks), node.Kin(), running)
    }

    ghost predicate Ok(node: NodeActor)
      reads this, node, node.sessions
    {
      NodeOk(Snapshot(node)) && node.sessions.Valid()
    }

    method AbortAcceptTask(name: string)
      modifies this`acceptTasks
      ensures acceptTasks == Without(old(acceptTasks), name)
    {
      acceptTasks := Retain(acceptTasks, Not(name));
    }

    method RemoveListener(node: NodeActor, name: string) returns (removed: bool)
      modifies this`acceptTasks, node`listenerLabels
      ensures removed == (name in old(node.listenerLabels))
      ensures Snapshot(node).doors == NodeTables.RemoveListener(old(Snapshot(node)).doors, name)
    {
      removed := name in node.listenerLabels;
      if removed {
        node.listenerLabels := node.listenerLabels - {name};
        AbortAcceptTask(name);
      }
    }

    /** What the context does before it waits: afterwards no listener is without a task, and the
        tasks carry each label exactly once. */
    method PrepareToWait(node: NodeActor)
      requires Ok(node)
      modifies this`acceptTasks, node`listeners
      ensures Snapshot(node) == Wait(old(Snapshot(node))) && Ok(node)
      ensures node.listeners == [] && Once(acceptTasks, node.listenerLabels)
    {
      hide Once;
      RespawnReady(Snapshot(node).doors);
      var kept := Retain(acceptTasks, In(node.listenerLabels));
      var listeners := node.listeners;
      node.listeners := [];
      acceptTasks := kept;
      var i := 0;
      while i < |listeners|
        invariant 0 <= i <= |listeners| && acceptTasks == kept + listeners[..i] && node.listeners == []
      {
        acceptTasks := acceptTasks + [listeners[i]];
        i := i + 1;
      }
      assert listeners[..i] == listeners;
    }

    /** A finished accept task is taken out and replaced. */
    method ReplaceTask(i: nat)
      requires i < |acceptTasks|
      modifies this`acceptTasks
      ensures acceptTasks == old(acceptTasks)[..i] + old(acceptTasks)[i + 1..] + [old(acceptTasks)[i]]
    {
      var name := acceptTasks[i];
      acceptTasks := acceptTasks[..i] + acceptTasks[i + 1..];
      acceptTasks := acceptTasks + [name];
    }

    /** An accept task finished with a connection. */
    method Accept(node: NodeActor, i: nat, name: string, id: nat, starts: bool)
      requires Ok(node) && i < |acceptTasks| && NewId(node.Kin(), id)
      modifies this`acceptTasks, node`children, node`born, node.sessions
      ensures Snapshot(node) == old(Snapshot(node)).(
                doors := Replace(old(Snapshot(node)).doors, i),
                family := NodeTables.CreateSession(old(node.Kin()), id, name, starts))
      ensures node.sessions.Valid()
    {
      hide FamilyOk, Ready, NodeTables.CreateSession, Inverse, Triples;
      ReplaceTask(i);
      var _ := node.CreateSession(id, name, starts);
    }

    /** An accept task panicked: its listener is gone and the node stops. */
    method Panic(node: NodeActor, i: nat)
      requires i < |acceptTasks|
      modifies this, node`listenerLabels
      ensures Snapshot(node) == old(Snapshot(node)).(doors := Lose(old(Snapshot(node)).doors, i), running := false)
    {
      node.listenerLabels := node.listenerLabels - {acceptTasks[i]};
      acceptTasks := acceptTasks[..i] + acceptTasks[i + 1..];
      running := false;
    }

    /** Handles what the node waited for. */
    method HandleEvent(node: NodeActor, ev: Event)
      requires Ok(node) && node.listeners == [] && Possible(Snapshot(node), ev)
      modifies this, node, node.sessions
      ensures Snapshot(node) == Handle(old(Snapshot(node)), ev) && Ok(node)
    {
      hide Ready, FamilyOk, NodeTables.AddListener, NodeTables.RemoveListener, NodeTables.CreateSession, EndSession, Inverse, Triples;
      HandleKeeps(Snapshot(node), ev);
      match ev
      case Add(name) =>
        ghost var doors := Snapshot(node).doors;
        var _ := node.AddListener(name);
        assert Snapshot(node).doors == NodeTables.AddListener(doors, name);
      case Remove(name) => var _ := RemoveListener(node, name);
      case Connect(name, id, starts) => var _ := node.CreateSession(id, name, starts);
      case SessionTerminated(id) => node.SessionTerminated(id);
      case OtherMessage =>
      case StopMessage => running := false;
      case MailboxDropped => running := false;
      case Accepted(i, name, id, starts) => Accept(node, i, name, id, starts);
      case AcceptFailed(i) => ReplaceTask(i);
      case AcceptPanicked(i) => Panic(node, i);
    }

    /** The loop over a script of events; when it is left, all accept tasks are aborted. */
    method RunLoop(node: NodeActor, events: seq<Event>)
      requires Ok(node) && AllPossible(Snapshot(node), events)
      modifies this, node, node.sessions
      ensures Snapshot(node) == Closed(Loop(old(Snapshot(node)), events))
      ensures !running ==> acceptTasks == []
    {
      hide NodeOk, Handle, Possible, Wait, Once;
      ghost var n := Snapshot(node);
      var i := 0;
      while i < |events| && running
        invariant 0 <= i <= |events| && Ok(node) && AllPossible(Snapshot(node), events[i..])
        invariant Loop(Snapshot(node), events[i..]) == Loop(n, events)
      {
        assert events[i..][0] == events[i] && events[i..][1..] == events[i + 1..];
        PrepareToWait(node);
        HandleEvent(node, events[i]);
        i := i + 1;
      }
      if !running { acceptTasks := []; }
    }
  }
}
