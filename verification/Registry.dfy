/**
 The label table of the actor manager and the mailbox registry that it shares with every
 session, as a step system.

 A registry operation on one key is atomic; between any two of them other threads may spawn
 and close actors, register addresses and look mailboxes up, which evicts closed ones. The
 manager handles one message at a time and is the only one to touch the labels.
 */
module Registry {
  import opened Wire

  /** Where the manager stands in the message it handles. */
  datatype Doing =
    | Idle
    | Creating(name: string)
    | Inserting(name: string, id: nat, created: bool)
    | Labeling(name: string, id: nat)
    | Looking(id: nat)
    | Removing(id: nat)
    | SweepingRegistry(keys: set<nat>)
    | SweepingLabels(labels: set<string>)

  /** The registry maps a key to the index of the mailbox stored under it; `known` and `closed`
      are the actors spawned so far and those whose mailbox is closed. */
  datatype Books = Books(
    registry: map<nat, nat>,
    labels: map<string, nat>,
    known: set<nat>,
    closed: set<nat>,
    doing: Doing)

  const EMPTY := Books(map[], map[], {}, {}, Idle)

  // ----- Registry operations -----

  function Insert(registry: map<nat, nat>, index: nat): map<nat, nat> {
    if index in registry then registry else registry[index := index]
  }

  /** A lookup drops the entry of a closed mailbox. */
  function Evict(registry: map<nat, nat>, closed: set<nat>, key: nat): map<nat, nat> {
    if key in registry && registry[key] in closed then registry - {key} else registry
  }

  // ----- Steps -----

  /** What other threads do. */
  datatype Other = Spawn(id: nat) | Close(id: nat) | Register(id: nat) | Find(id: nat)

  datatype Step =
    | Meanwhile(other: Other)
    | BeginCreate(name: string)
    | Created(id: nat)
    | CreateFails
    | BeginAdd(name: string, id: nat)
    | InsertNow
    | LabelNow
    | BeginGet(name: string)
    | LookNow
    | BeginRemove(id: nat)
    | BeginRemoveLabel(name: string)
    | RemoveNow
    | BeginSweep
    | SweepEntry(key: nat)
    | TurnToLabels
    | SweepLabel(name: string)
    | EndSweep

  function DoOther(b: Books, o: Other): Books {
    match o
    case Spawn(id) => b.(known := b.known + {id})
    case Close(id) => if id in b.known then b.(closed := b.closed + {id}) else b
    case Register(id) => if id in b.known then b.(registry := Insert(b.registry, id)) else b
    case Find(id) => b.(registry := Evict(b.registry, b.closed, id))
  }

  /** A step that the manager cannot take now changes nothing. An address exists only of a
      spawned actor, and a factory returns a new one. */
  function Do(b: Books, st: Step): Books {
    match st
    case Meanwhile(o) => DoOther(b, o)
    case BeginCreate(name) => if b.doing.Idle? && name !in b.labels then b.(doing := Creating(name)) else b
    case Created(id) =>
      if b.doing.Creating? && id !in b.known then b.(known := b.known + {id}, doing := Inserting(b.doing.name, id, true)) else b
    case CreateFails => if b.doing.Creating? then b.(doing := Idle) else b
    case BeginAdd(name, id) =>
      if b.doing.Idle? && name !in b.labels && id in b.known then b.(doing := Inserting(name, id, false)) else b
    case InsertNow => if b.doing.Inserting? then DoInsert(b) else b
    case LabelNow =>
      if b.doing.Labeling? then b.(labels := b.labels[b.doing.name := b.doing.id], doing := Idle) else b
    case BeginGet(name) => if b.doing.Idle? && name in b.labels then b.(doing := Looking(b.labels[name])) else b
    case LookNow =>
      if b.doing.Looking? then b.(registry := Evict(b.registry, b.closed, b.doing.id), doing := Idle) else b
    case BeginRemove(id) =>
      if b.doing.Idle? then b.(labels := map l | l in b.labels && b.labels[l] != id :: b.labels[l], doing := Removing(id)) else b
    case BeginRemoveLabel(name) =>
      if b.doing.Idle? && name in b.labels then b.(labels := b.labels - {name}, doing := Removing(b.labels[name])) else b
    case RemoveNow => if b.doing.Removing? then b.(registry := b.registry - {b.doing.id}, doing := Idle) else b
    case BeginSweep => if b.doing.Idle? then b.(doing := SweepingRegistry(b.registry.Keys)) else b
    case SweepEntry(key) =>
      if b.doing.SweepingRegistry? && key in b.doing.keys
      then b.(registry := Evict(b.registry, b.closed, key), doing := SweepingRegistry(b.doing.keys - {key})) else b
    case TurnToLabels =>
      if b.doing.SweepingRegistry? && b.doing.keys == {} then b.(doing := SweepingLabels(b.labels.Keys)) else b
    case SweepLabel(name) =>
      if b.doing.SweepingLabels? && name in b.doing.labels && name in b.labels then DoSweepLabel(b, name) else b
    case EndSweep => if b.doing.SweepingLabels? && b.doing.labels == {} then b.(doing := Idle) else b
  }

  /** A factory's actor is labelled in any case, an added one only if it was not registered. */
  function DoInsert(b: Books): Books
    requires b.doing.Inserting?
  {
    b.(registry := Insert(b.registry, b.doing.id),
       doing := if b.doing.created || b.doing.id !in b.registry then Labeling(b.doing.name, b.doing.id) else Idle)
  }

  /** A label whose actor is not found is dropped. */
  function DoSweepLabel(b: Books, name: string): Books
    requires b.doing.SweepingLabels? && name in b.labels
  {
    var registry := Evict(b.registry, b.closed, b.labels[name]);
    b.(registry := registry,
       labels := if b.labels[name] in registry then b.labels else b.labels - {name},
       doing := SweepingLabels(b.doing.labels - {name}))
  }

  function DoAll(b: Books, steps: seq<Step>): Books
    decreases steps
  {
    if steps == [] then b else DoAll(Do(b, steps[0]), steps[1..])
  }

  // ----- What every step keeps -----

  predicate Open(b: Books, id: nat) {
    id !in b.closed
  }

  /** Every key is the index of its mailbox. */
  ghost predicate KeysOk(b: Books) {
    forall k :: k in b.registry ==> b.registry[k] == k && k in b.known
  }

  /** An open actor that has a label is registered. */
  ghost predicate LabelsOk(b: Books) {
    forall l :: l in b.labels ==> b.labels[l] in b.known && (Open(b, b.labels[l]) ==> b.labels[l] in b.registry)
  }

  /** An open actor has at most one label. */
  ghost predicate OneLabel(b: Books) {
    forall l, m :: l in b.labels && m in b.labels && b.labels[l] == b.labels[m] && Open(b, b.labels[l]) ==> l == m
  }

  /** No label of `id` yet, unless it is closed. */
  ghost predicate NoLabel(b: Books, id: nat) {
    forall l :: l in b.labels && Open(b, id) ==> b.labels[l] != id
  }

  ghost predicate DoingOk(b: Books) {
    match b.doing
    case Creating(name) => name !in b.labels
    case Inserting(name, id, created) => name !in b.labels && id in b.known && (created ==> NoLabel(b, id))
    case Labeling(name, id) => name !in b.labels && id in b.known && NoLabel(b, id) && (Open(b, id) ==> id in b.registry)
    case Removing(id) => NoLabel(b, id)
    case SweepingLabels(labels) => labels <= b.labels.Keys
    case _ => true
  }

  ghost predicate BooksOk(b: Books) {
    KeysOk(b) && LabelsOk(b) && OneLabel(b) && DoingOk(b)
  }

  lemma {:induction false} OtherKeeps(b: Books, o: Other)
    requires BooksOk(b)
    ensures BooksOk(DoOther(b, o))
  {
  }

  lemma {:induction false} InsertKeeps(b: Books)
    requires BooksOk(b) && b.doing.Inserting?
    ensures BooksOk(DoInsert(b))
  {
  }

  lemma {:induction false} SweepLabelKeeps(b: Books, name: string)
    requires BooksOk(b) && b.doing.SweepingLabels? && name in b.labels && name in b.doing.labels
    ensures BooksOk(DoSweepLabel(b, name))
  {
  }

  lemma {:induction false} RemovalKeeps(b: Books, st: Step)
    requires BooksOk(b) && (st.BeginRemove? || st.BeginRemoveLabel? || st.RemoveNow?)
    ensures BooksOk(Do(b, st))
  {
  }

  lemma {:induction false} StepKeeps(b: Books, st: Step)
    requires BooksOk(b)
    ensures BooksOk(Do(b, st))
  {
    hide DoOther, DoInsert, DoSweepLabel;
    if st.BeginRemove? || st.BeginRemoveLabel? || st.RemoveNow? {
      RemovalKeeps(b, st);
    } else if st.Meanwhile? {
      OtherKeeps(b, st.other);
    } else if st.InsertNow? {
      if b.doing.Inserting? { InsertKeeps(b); }
    } else if st.SweepLabel? {
      if b.doing.SweepingLabels? && st.name in b.doing.labels && st.name in b.labels { SweepLabelKeeps(b, st.name); }
    } else {
      QuietKeeps(b, st);
    }
  }

  lemma {:induction false} QuietKeeps(b: Books, st: Step)
    requires BooksOk(b)
    requires !st.BeginRemove? && !st.BeginRemoveLabel? && !st.RemoveNow? && !st.Meanwhile? && !st.InsertNow? && !st.SweepLabel?
    ensures BooksOk(Do(b, st))
  {
    hide DoOther, DoInsert, DoSweepLabel;
    match st
    case _ =>
  }

  lemma {:induction false} RunKeeps(b: Books, steps: seq<Step>)
    requires BooksOk(b)
    ensures BooksOk(DoAll(b, steps))
    decreases steps
  {
    hide BooksOk, Do;
    if steps != [] {
      StepKeeps(b, steps[0]);
      RunKeeps(Do(b, steps[0]), steps[1..]);
    }
  }

  /** In every run: a registry key is its mailbox's index, the actor of a label is registered or
      closed, and two labels share an actor only if it is closed. */
  lemma {:induction false} LabelsAndRegistry(steps: seq<Step>)
    ensures var b := DoAll(EMPTY, steps);
            && (forall k :: k in b.registry ==> b.registry[k] == k)
            && (forall l :: l in b.labels ==> b.labels[l] in b.registry || b.labels[l] in b.closed)
            && (forall l, m :: l in b.labels && m in b.labels && l != m && b.labels[l] == b.labels[m] ==> b.labels[l] in b.closed)
  {
    hide Do, DoingOk;
    assert BooksOk(EMPTY) by { EmptyOk(); }
    RunKeeps(EMPTY, steps);
  }

  lemma {:induction false} EmptyOk()
    ensures BooksOk(EMPTY)
  {
  }

  /** A cleanup step drops a label exactly if its actor is closed. */
  lemma {:induction false} SweepLabelExactly(b: Books, name: string)
    requires BooksOk(b) && b.doing.SweepingLabels? && name in b.doing.labels && name in b.labels
    ensures name in Do(b, SweepLabel(name)).labels <==> Open(b, b.labels[name])
  {
  }

  // ----- A whole cleanup -----

  /** A cleanup that began at `b0` and has come to `b`: no open actor has lost its label or its
      entry, and labels of actors that were closed at the start are gone or still to come. */
  ghost predicate Sweeping(b0: Books, b: Books) {
    && b0.closed <= b.closed
    && (forall l :: l in b.labels ==> l in b0.labels && b.labels[l] == b0.labels[l])
    && (forall l :: l in b0.labels && Open(b, b0.labels[l]) ==> l in b.labels)
    && (forall k :: k in b0.registry && Open(b, k) ==> k in b.registry)
    && (forall l :: l in b.labels && !Open(b0, b.labels[l]) && !b.doing.SweepingRegistry? ==>
          b.doing.SweepingLabels? && l in b.doing.labels)
  }

  predicate InSweep(b: Books) {
    b.doing.SweepingRegistry? || b.doing.SweepingLabels?
  }

  lemma {:induction false} SweepOther(b0: Books, b: Books, o: Other)
    requires BooksOk(b0) && BooksOk(b) && Sweeping(b0, b)
    ensures Sweeping(b0, DoOther(b, o))
  {
    hide LabelsOk, OneLabel, DoingOk;
  }

  lemma {:induction false} SweepOneLabel(b0: Books, b: Books, name: string)
    requires BooksOk(b0) && BooksOk(b) && Sweeping(b0, b) && b.doing.SweepingLabels? && name in b.doing.labels && name in b.labels
    ensures Sweeping(b0, DoSweepLabel(b, name))
  {
    hide OneLabel, DoingOk;
  }

  lemma {:induction false} SweepStep(b0: Books, b: Books, st: Step)
    requires BooksOk(b0) && BooksOk(b) && Sweeping(b0, b) && InSweep(b)
    ensures Sweeping(b0, Do(b, st))
  {
    hide DoOther, DoSweepLabel, OneLabel, LabelsOk;
    match st
    case Meanwhile(o) => SweepOther(b0, b, o);
    case SweepLabel(name) =>
      if b.doing.SweepingLabels? && name in b.doing.labels && name in b.labels { SweepOneLabel(b0, b, name); }
    case _ =>
  }

  /** The manager is in its cleanup before each of the steps. */
  ghost predicate AllInSweep(b: Books, steps: seq<Step>)
    decreases steps
  {
    steps == [] || (InSweep(b) && AllInSweep(Do(b, steps[0]), steps[1..]))
  }

  lemma {:induction false} SweepRun(b0: Books, b: Books, steps: seq<Step>)
    requires BooksOk(b0) && BooksOk(b) && Sweeping(b0, b) && AllInSweep(b, steps)
    ensures Sweeping(b0, DoAll(b, steps))
    decreases steps
  {
    hide BooksOk, Do, Sweeping;
    if steps != [] {
      StepKeeps(b, steps[0]);
      SweepStep(b0, b, steps[0]);
      SweepRun(b0, Do(b, steps[0]), steps[1..]);
    }
  }

  /** A whole cleanup, whatever other threads do meanwhile: every label whose actor was closed
      when it began is gone, and no actor that is still open at its end lost label or entry. */
  lemma {:induction false} Cleanup(b: Books, steps: seq<Step>)
    requires BooksOk(b) && b.doing.Idle?
    requires AllInSweep(Do(b, BeginSweep), steps) && DoAll(Do(b, BeginSweep), steps).doing.Idle?
    ensures var c := DoAll(Do(b, BeginSweep), steps);
            && (forall l :: l in b.labels && b.labels[l] in b.closed ==> l !in c.labels)
            && (forall l :: l in b.labels && b.labels[l] !in c.closed ==> l in c.labels && c.labels[l] == b.labels[l])
            && (forall k :: k in b.registry && k !in c.closed ==> k in c.registry)
  {
    hide DoAll, AllInSweep, OneLabel, LabelsOk;
    StepKeeps(b, BeginSweep);
    SweepRun(b, Do(b, BeginSweep), steps);
  }

  /** What other threads do: a registered actor has an entry, a closed one is closed, and a lookup
      evicts the entry of a closed mailbox and no other. */
  lemma {:induction false} OtherDoes(b: Books, id: nat)
    requires KeysOk(b)
    ensures id in DoOther(b, Spawn(id)).known
    ensures id in b.known ==> id in DoOther(b, Register(id)).registry && id in DoOther(b, Close(id)).closed
    ensures forall k :: k in DoOther(b, Find(id)).registry <==> k in b.registry && !(k == id && k in b.closed)
  {
  }

  /** The entry of a closed actor is gone, or a cleanup still has to come to it. */
  ghost predicate EntryLeaves(b: Books, k: nat) {
    && KeysOk(b) && k in b.closed
    && (k in b.registry ==> b.doing.SweepingRegistry? && k in b.doing.keys)
  }

  lemma {:induction false} EntryStep(b: Books, st: Step, k: nat)
    requires BooksOk(b) && InSweep(b) && EntryLeaves(b, k) && st != Meanwhile(Register(k))
    ensures EntryLeaves(Do(b, st), k)
  {
    hide LabelsOk, OneLabel, DoingOk;
    StepKeeps(b, st);
  }

  lemma {:induction false} EntryRun(b: Books, steps: seq<Step>, k: nat)
    requires BooksOk(b) && AllInSweep(b, steps) && EntryLeaves(b, k) && Meanwhile(Register(k)) !in steps
    ensures EntryLeaves(DoAll(b, steps), k)
    decreases steps
  {
    hide BooksOk, Do, EntryLeaves, InSweep;
    if steps != [] {
      assert steps[0] in steps;
      StepKeeps(b, steps[0]);
      EntryStep(b, steps[0], k);
      EntryRun(Do(b, steps[0]), steps[1..], k);
    }
  }

  /** A whole cleanup also drops the entry of every actor that was closed when it began, unless
      someone registers that actor again meanwhile. */
  lemma {:induction false} CleanupEntries(b: Books, steps: seq<Step>, k: nat)
    requires BooksOk(b) && b.doing.Idle? && k in b.closed
    requires AllInSweep(Do(b, BeginSweep), steps) && DoAll(Do(b, BeginSweep), steps).doing.Idle?
    requires Meanwhile(Register(k)) !in steps
    ensures k !in DoAll(Do(b, BeginSweep), steps).registry
  {
    hide DoAll, AllInSweep, OneLabel, LabelsOk;
    StepKeeps(b, BeginSweep);
    EntryRun(Do(b, BeginSweep), steps, k);
  }
}
