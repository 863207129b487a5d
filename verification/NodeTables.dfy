/**
 The tables of a node: listeners with their accept tasks, and sessions with the child actors.
 A node waits for an event, handles it to completion, and waits again.
 */
module NodeTables {
  import opened Wire
  import opened DoubleMaps

  // ----- Listeners and accept tasks -----

  /** The labels of all listeners, the listeners without an accept task yet, and the tasks. */
  datatype Doors = Doors(labels: set<string>, listeners: seq<string>, tasks: seq<string>)

  /** `Vec::retain`. */
  function Keep(s: seq<string>, ok: string -> bool): seq<string>
    decreases s
  {
    if s == [] then [] else (if ok(s[0]) then [s[0]] else []) + Keep(s[1..], ok)
  }

  function Not(name: string): string -> bool {
    x => x != name
  }

  function In(labels: set<string>): string -> bool {
    x => x in labels
  }

  function Without(s: seq<string>, name: string): seq<string> {
    Keep(s, Not(name))
  }

  /** Before the start, a listener replaces one with the same label. */
  function WithListener(d: Doors, name: string): Doors {
    if name in d.labels then d.(listeners := Without(d.listeners, name) + [name])
    else d.(labels := d.labels + {name}, listeners := d.listeners + [name])
  }

  function AddListener(d: Doors, name: string): Doors {
    if name in d.labels then d else d.(labels := d.labels + {name}, listeners := d.listeners + [name])
  }

  function RemoveListener(d: Doors, name: string): Doors {
    if name in d.labels then d.(labels := d.labels - {name}, tasks := Without(d.tasks, name)) else d
  }

  /** Before the node waits: tasks of unknown labels are aborted, new listeners get tasks. */
  function Respawn(d: Doors): Doors {
    Doors(d.labels, [], Keep(d.tasks, In(d.labels)) + d.listeners)
  }

  /** A finished task is replaced by a new one for the same listener. */
  function Replace(d: Doors, i: nat): Doors
    requires i < |d.tasks|
  {
    d.(tasks := d.tasks[..i] + d.tasks[i + 1..] + [d.tasks[i]])
  }

  /** A task that panicked took its listener with it. */
  function Lose(d: Doors, i: nat): Doors
    requires i < |d.tasks|
  {
    d.(labels := d.labels - {d.tasks[i]}, tasks := d.tasks[..i] + d.tasks[i + 1..])
  }

  // ----- Sessions and children -----

  /** Sessions by id and by label; the value is the address, which is the id again. */
  type Sessions = set<Triple<nat, string, nat>>

  /** The actor manager, the sessions, the ids of the children, and as history all session ids
      so far. */
  datatype Family = Family(mgr: Option<nat>, sessions: Sessions, children: set<nat>, born: set<nat>)

  function StartManager(f: Family, id: nat): Family {
    f.(mgr := Some(id), children := f.children + {id})
  }

  /** Creates a session under a free label, if there is an actor manager and the actor starts.
      Whether the insertion into the two-key map succeeds is not looked at. */
  ghost function CreateSession(f: Family, id: nat, name: string, starts: bool): Family {
    if Has2(f.sessions, name) || f.mgr.None? || !starts then f
    else
      f.(sessions := Inserted(f.sessions, Triple(id, name, id)),
         children := f.children + {id},
         born := f.born + {id})
  }

  /** The sessions but for those with the address of an ended one. */
  function Others(sessions: Sessions, id: nat): Sessions {
    set t | t in sessions && t.value != id
  }

  function EndSession(f: Family, id: nat): Family {
    f.(sessions := Others(f.sessions, id), children := f.children - {id})
  }

  // ----- The loop -----

  datatype Node = Node(doors: Doors, family: Family, running: bool)

  /** What a node waits for. */
  datatype Event =
    | Add(name: string)
    | Remove(name: string)
    | Connect(name: string, id: nat, starts: bool)
    | SessionTerminated(id: nat)
    | OtherMessage
    | StopMessage
    | MailboxDropped
    | Accepted(i: nat, name: string, id: nat, starts: bool)
    | AcceptFailed(i: nat)
    | AcceptPanicked(i: nat)

  /** An actor id is new when the actor is created, and only sessions report as sessions. */
  predicate Possible(n: Node, ev: Event) {
    match ev
    case Connect(_, id, _) => NewId(n.family, id)
    case SessionTerminated(id) => id in n.family.born
    case Accepted(i, _, id, _) => i < |n.doors.tasks| && NewId(n.family, id)
    case AcceptFailed(i) => i < |n.doors.tasks|
    case AcceptPanicked(i) => i < |n.doors.tasks|
    case _ => true
  }

  predicate NewId(f: Family, id: nat) {
    id !in f.born && f.mgr != Some(id)
  }

  function Wait(n: Node): Node {
    n.(doors := Respawn(n.doors))
  }

  ghost function Handle(n: Node, ev: Event): Node
    requires Possible(n, ev)
  {
    match ev
    case Add(name) => n.(doors := AddListener(n.doors, name))
    case Remove(name) => n.(doors := RemoveListener(n.doors, name))
    case Connect(name, id, starts) => n.(family := CreateSession(n.family, id, name, starts))
    case SessionTerminated(id) => n.(family := EndSession(n.family, id))
    case OtherMessage => n
    case StopMessage => n.(running := false)
    case MailboxDropped => n.(running := false)
    case Accepted(i, name, id, starts) =>
      n.(doors := Replace(n.doors, i), family := CreateSession(n.family, id, name, starts))
    case AcceptFailed(i) => n.(doors := Replace(n.doors, i))
    case AcceptPanicked(i) => n.(doors := Lose(n.doors, i), running := false)
  }

  /** The loop over a script of events; it ends with an impossible one. */
  ghost function Loop(n: Node, events: seq<Event>): Node
    decreases events
  {
    if events == [] || !n.running || !Possible(Wait(n), events[0]) then n
    else Loop(Handle(Wait(n), events[0]), events[1..])
  }

  /** A script of events that can happen one after the other. */
  ghost predicate AllPossible(n: Node, events: seq<Event>)
    decreases events
  {
    events == [] || !n.running || (
      Possible(Wait(n), events[0]) && AllPossible(Handle(Wait(n), events[0]), events[1..]))
  }

  /** After the loop no accept task is left. */
  function Closed(n: Node): Node {
    if n.running then n else n.(doors := n.doors.(tasks := []))
  }

  function Listeners(d: Doors, names: seq<string>): Doors
    decreases names
  {
    if names == [] then d else Listeners(WithListener(d, names[0]), names[1..])
  }

  /** A node built with listeners, after its actor manager was started. */
  function Built(names: seq<string>, mgr: nat): Node {
    Node(Listeners(Doors({}, [], []), names), StartManager(Family(None, {}, {}, {}), mgr), true)
  }

  // ----- What the loop keeps -----

  /** Each label occurs exactly once in `s`. */
  ghost predicate Once(s: seq<string>, labels: set<string>) {
    && (forall i, j :: 0 <= i < j < |s| ==> s[i] != s[j])
    && (forall x :: x in labels <==> x in s)
  }

  /** Every label has exactly one listener, which waits for a task or has one. */
  ghost predicate Ready(d: Doors) {
    Once(d.tasks + d.listeners, d.labels)
  }

  lemma {:induction false} KeepWhat(s: seq<string>, ok: string -> bool)
    ensures forall x :: x in Keep(s, ok) <==> x in s && ok(x)
    decreases s
  {
    if s != [] {
      KeepWhat(s[1..], ok);
      assert s == [s[0]] + s[1..];
    }
  }

  lemma {:induction false} KeepOnce(s: seq<string>, ok: string -> bool, labels: set<string>)
    requires Once(s, labels)
    ensures Once(Keep(s, ok), set x | x in labels && ok(x))
    decreases s
  {
    KeepWhat(s, ok);
    if s != [] {
      var rest := Keep(s[1..], ok);
      KeepWhat(s[1..], ok);
      assert s == [s[0]] + s[1..];
      forall x ensures x in labels - {s[0]} <==> x in s[1..] { }
      KeepOnce(s[1..], ok, labels - {s[0]});
      assert s[0] !in s[1..];
    }
  }

  lemma {:induction false} KeepAll(s: seq<string>, ok: string -> bool)
    requires forall x :: x in s ==> ok(x)
    ensures Keep(s, ok) == s
    decreases s
  {
    if s != [] { KeepAll(s[1..], ok); }
  }

  lemma {:induction false} RespawnReady(d: Doors)
    requires Ready(d)
    ensures Ready(Respawn(d)) && Respawn(d).listeners == [] && Once(Respawn(d).tasks, d.labels)
  {
    forall x | x in d.tasks ensures x in d.labels { assert x in d.tasks + d.listeners; }
    KeepAll(d.tasks, In(d.labels));
    assert d.tasks + d.listeners + [] == d.tasks + d.listeners;
  }

  lemma {:induction false} OnceMore(s: seq<string>, labels: set<string>, name: string)
    requires Once(s, labels) && name !in labels
    ensures Once(s + [name], labels + {name})
  {
  }

  lemma {:induction false} KeepOthers(s: seq<string>, labels: set<string>, name: string)
    requires Once(s, labels)
    ensures Once(Without(s, name), labels - {name})
  {
    hide Once;
    KeepOnce(s, Not(name), labels);
    assert (set x | x in labels && Not(name)(x)) == labels - {name};
  }

  lemma {:induction false} WithListenerReady(d: Doors, name: string)
    requires Ready(d) && d.tasks == []
    ensures Ready(WithListener(d, name)) && WithListener(d, name).tasks == []
  {
    hide Once, Keep;
    assert [] + d.listeners == d.listeners;
    var e := WithListener(d, name);
    assert [] + e.listeners == e.listeners;
    if name in d.labels {
      KeepOthers(d.listeners, d.labels, name);
      OnceMore(Without(d.listeners, name), d.labels - {name}, name);
      assert d.labels - {name} + {name} == d.labels;
    } else {
      OnceMore(d.listeners, d.labels, name);
    }
  }

  lemma {:induction false} AddReady(d: Doors, name: string)
    requires Ready(d)
    ensures Ready(AddListener(d, name))
  {
    hide Once;
    var all, e := d.tasks + d.listeners, AddListener(d, name);
    if name !in d.labels {
      assert e.tasks + e.listeners == all + [name];
      OnceMore(all, d.labels, name);
    }
  }

  lemma {:induction false} RemoveReady(d: Doors, name: string)
    requires Ready(d) && d.listeners == []
    ensures Ready(RemoveListener(d, name))
  {
    assert d.tasks + [] == d.tasks;
    var e := RemoveListener(d, name);
    assert e.tasks + e.listeners == e.tasks;
    if name in d.labels { KeepOthers(d.tasks, d.labels, name); }
  }

  lemma {:induction false} ReplaceReady(d: Doors, i: nat)
    requires Ready(d) && d.listeners == [] && i < |d.tasks|
    ensures Ready(Replace(d, i))
  {
    assert d.tasks + [] == d.tasks;
    var e := Replace(d, i);
    assert e.tasks + e.listeners == e.tasks;
    assert d.tasks == d.tasks[..i] + [d.tasks[i]] + d.tasks[i + 1..];
    forall x ensures x in d.labels <==> x in e.tasks { assert x in d.tasks <==> x in e.tasks; }
  }

  lemma {:induction false} LoseReady(d: Doors, i: nat)
    requires Ready(d) && d.listeners == [] && i < |d.tasks|
    ensures Ready(Lose(d, i))
  {
    assert d.tasks + [] == d.tasks;
    var e := Lose(d, i);
    assert e.tasks + e.listeners == e.tasks;
    assert d.tasks == d.tasks[..i] + [d.tasks[i]] + d.tasks[i + 1..];
    forall x ensures x in e.labels <==> x in e.tasks {
      assert x in d.tasks <==> x in e.tasks || x == d.tasks[i];
    }
  }

  ghost function Ids(sessions: Sessions): set<nat> {
    set t | t in sessions :: t.key1
  }

  /** The children are the sessions and the actor manager, and no two sessions share an id or a
      label. */
  ghost predicate FamilyOk(f: Family) {
    && f.mgr.Some? && f.mgr.value !in f.born
    && (forall t :: t in f.sessions ==> t.key1 in f.born && t.value == t.key1)
    && f.children == Ids(f.sessions) + {f.mgr.value}
    && Unique(f.sessions)
  }

  /** The insertion whose outcome is discarded never fails: neither key is in the map. */
  lemma {:induction false} InsertionSucceeds(f: Family, id: nat, name: string)
    requires FamilyOk(f) && NewId(f, id) && !Has2(f.sessions, name)
    ensures Meet(f.sessions, id, name) == Fresh
    ensures Inserted(f.sessions, Triple(id, name, id)) == f.sessions + {Triple(id, name, id)}
  {
    hide Unique;
  }

  lemma {:induction false} CreateKeeps(f: Family, id: nat, name: string, starts: bool)
    requires FamilyOk(f) && NewId(f, id)
    ensures FamilyOk(CreateSession(f, id, name, starts))
  {
    if !Has2(f.sessions, name) && starts {
      InsertionSucceeds(f, id, name);
      InsertedUnique(f.sessions, Triple(id, name, id));
      hide Unique, Inserted, Has2;
      assert Ids(f.sessions + {Triple(id, name, id)}) == Ids(f.sessions) + {id};
    }
  }

  lemma {:induction false} EndKeeps(f: Family, id: nat)
    requires FamilyOk(f) && id in f.born
    ensures FamilyOk(EndSession(f, id))
  {
    assert Ids(Others(f.sessions, id)) == Ids(f.sessions) - {id};
  }

  ghost predicate NodeOk(n: Node) {
    Ready(n.doors) && FamilyOk(n.family)
  }

  lemma {:induction false} HandleKeeps(n: Node, ev: Event)
    requires NodeOk(n) && n.doors.listeners == [] && Possible(n, ev)
    ensures NodeOk(Handle(n, ev))
  {
    hide Ready, FamilyOk, AddListener, RemoveListener, Replace, Lose, CreateSession, EndSession;
    match ev
    case Add(name) => AddReady(n.doors, name);
    case Remove(name) => RemoveReady(n.doors, name);
    case Connect(name, id, starts) => CreateKeeps(n.family, id, name, starts);
    case SessionTerminated(id) => EndKeeps(n.family, id);
    case Accepted(i, name, id, starts) =>
      ReplaceReady(n.doors, i);
      CreateKeeps(n.family, id, name, starts);
    case AcceptFailed(i) => ReplaceReady(n.doors, i);
    case AcceptPanicked(i) => LoseReady(n.doors, i);
    case _ =>
  }

  lemma {:induction false} LoopKeeps(n: Node, events: seq<Event>)
    requires NodeOk(n)
    ensures NodeOk(Loop(n, events))
    decreases events
  {
    hide Ready, FamilyOk, Handle, Possible, Respawn;
    RespawnReady(n.doors);
    if events != [] && n.running && Possible(Wait(n), events[0]) {
      HandleKeeps(Wait(n), events[0]);
      LoopKeeps(Handle(Wait(n), events[0]), events[1..]);
    }
  }

  lemma {:induction false} BuiltOk(d: Doors, names: seq<string>)
    requires Ready(d) && d.tasks == []
    ensures Ready(Listeners(d, names))
    decreases names
  {
    hide Ready, WithListener;
    if names != [] {
      WithListenerReady(d, names[0]);
      BuiltOk(WithListener(d, names[0]), names[1..]);
    }
  }

  /** Whenever a node waits, whatever happened before: no listener is without a task, the tasks
      carry each label exactly once, the children are the sessions and the actor manager, and a
      new session under a free label will be inserted. */
  lemma {:induction false} NodeWaits(names: seq<string>, mgr: nat, events: seq<Event>)
    ensures var n := Wait(Loop(Built(names, mgr), events));
            && n.doors.listeners == []
            && Once(n.doors.tasks, n.doors.labels)
            && n.family.mgr.Some? && n.family.mgr.value !in Ids(n.family.sessions)
            && n.family.children == Ids(n.family.sessions) + {n.family.mgr.value}
            && (forall id: nat, name :: NewId(n.family, id) && !Has2(n.family.sessions, name) ==>
                  Meet(n.family.sessions, id, name) == Fresh)
  {
    hide Once, Loop, Listeners, Respawn, Unique, Meet, Has2;
    assert Ready(Doors({}, [], [])) by { NoDoors(); }
    BuiltOk(Doors({}, [], []), names);
    assert FamilyOk(Built(names, mgr).family) by { FirstFamily(mgr); }
    LoopKeeps(Built(names, mgr), events);
    var n := Loop(Built(names, mgr), events);
    RespawnReady(n.doors);
    RespawnLabels(n.doors);
    forall id: nat, name | NewId(n.family, id) && !Has2(n.family.sessions, name)
      ensures Meet(n.family.sessions, id, name) == Fresh
    {
      InsertionSucceeds(n.family, id, name);
    }
  }

  lemma {:induction false} FirstFamily(mgr: nat)
    ensures FamilyOk(StartManager(Family(None, {}, {}, {}), mgr))
  {
  }

  lemma {:induction false} NoDoors()
    ensures Ready(Doors({}, [], []))
  {
  }

  lemma {:induction false} RespawnLabels(d: Doors)
    ensures Respawn(d).labels == d.labels
  {
  }

  // ----- What an event does -----

  /** The labels of the listeners after an event, and whether the node still runs: listeners are
      added and removed, one is lost with its task, and only a stopping message, a dropped mailbox
      and a lost listener stop the node. */
  lemma {:induction false} EventDoors(n: Node, ev: Event)
    requires Possible(Wait(n), ev)
    ensures var m := Handle(Wait(n), ev);
            && m.doors.labels == (
                 match ev
                 case Add(name) => n.doors.labels + {name}
                 case Remove(name) => n.doors.labels - {name}
                 case AcceptPanicked(i) => n.doors.labels - {Wait(n).doors.tasks[i]}
                 case _ => n.doors.labels)
            && m.running == (n.running && !ev.StopMessage? && !ev.MailboxDropped? && !ev.AcceptPanicked?)
            && (!ev.Connect? && !ev.Accepted? && !ev.SessionTerminated? ==> m.family == n.family)
  {
    hide CreateSession;
    match ev
    case _ =>
  }

  /** A node is built with exactly the listeners it was given; the newest comes last. */
  lemma {:induction false} BuiltLabels(d: Doors, names: seq<string>)
    ensures forall x :: x in Listeners(d, names).labels <==> x in d.labels || x in names
    ensures var ls := Listeners(d, names).listeners;
            names != [] ==> ls != [] && ls[|ls| - 1] == names[|names| - 1]
    decreases names
  {
    if names != [] {
      BuiltLabels(WithListener(d, names[0]), names[1..]);
      assert names == [names[0]] + names[1..];
    }
  }

  /** A connection, made or accepted, under a free label makes a session and a child if its actor
      starts, and otherwise nothing. */
  lemma {:induction false} ConnectionMakesSession(n: Node, ev: Event)
    requires FamilyOk(n.family) && Possible(Wait(n), ev) && (ev.Connect? || ev.Accepted?)
    ensures var f, g := n.family, Handle(Wait(n), ev).family;
            if (exists t :: t in f.sessions && t.key2 == ev.name) || !ev.starts then g == f
            else g == f.(sessions := f.sessions + {Triple(ev.id, ev.name, ev.id)}, children := f.children + {ev.id}, born := f.born + {ev.id})
  {
    hide Respawn, Replace, Unique, Inserted, FamilyOk;
    if !Has2(n.family.sessions, ev.name) && ev.starts {
      InsertionSucceeds(n.family, ev.id, ev.name);
      assert n.family.mgr.Some? by { ManagerThere(n.family); }
    }
  }

  lemma {:induction false} ManagerThere(f: Family)
    requires FamilyOk(f)
    ensures f.mgr.Some?
  {
  }

  /** The end of a session removes it, and no other: neither a session nor a child with its id is
      left, and its label is free again. */
  lemma {:induction false} SessionGone(n: Node, id: nat)
    requires FamilyOk(n.family) && Possible(Wait(n), SessionTerminated(id))
    ensures var f, g := n.family, Handle(Wait(n), SessionTerminated(id)).family;
            && id !in Ids(g.sessions) && id !in g.children
            && (forall t :: t in f.sessions && t.key1 == id ==> !Has2(g.sessions, t.key2))
            && (forall t :: t in g.sessions <==> t in f.sessions && t.key1 != id)
            && (forall k :: k in g.children <==> k in f.children && k != id)
  {
    hide Respawn;
    var f, g := n.family, Handle(Wait(n), SessionTerminated(id)).family;
    forall t, u | t in f.sessions && t.key1 == id && u in g.sessions ensures u.key2 != t.key2 {
      assert u in f.sessions && u.key1 != id;
    }
  }

  /** The loop handles event after event while the node runs. */
  lemma {:induction false} LoopInTurn(n: Node, evs: seq<Event>, ev: Event)
    requires AllPossible(n, evs + [ev])
    ensures var m := Loop(n, evs);
            && (m.running ==> Possible(Wait(m), ev) && Loop(n, evs + [ev]) == Handle(Wait(m), ev))
            && (!m.running ==> Loop(n, evs + [ev]) == m)
    ensures Loop(n, []) == n
    decreases evs
  {
    hide Handle, Possible, Wait;
    if evs == [] {
      assert evs + [ev] == [ev] && [ev][1..] == [];
    } else {
      assert (evs + [ev])[1..] == evs[1..] + [ev] && (evs + [ev])[0] == evs[0];
      if n.running { LoopInTurn(Handle(Wait(n), evs[0]), evs[1..], ev); }
    }
  }
}
