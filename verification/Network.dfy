/**
 Two sessions joined by a connection, each client and server at once, as a step system.

 A session handles one mail or one frame at a time, to completion. Serving a tagged request
 spawns a task; tasks finish in any order and hand their reply to the session as a mail.
 Handlers, mailbox lookups, failing sends and stops are free choices of a step. What is kept
 only as history (`log`, `swept`, `due` and the request numbers) decides no step.
 */
module Network {
  import opened Wire
  import opened Values
  import opened Requests
  import Codec = Codecs

  /** Seconds between two sweeps of the pending map. */
  const CLEANUP_INTERVAL: nat := 15

  /** The types of a message and of its result. */
  datatype Sig = Sig(msg: Ty, res: Ty)

  /** What a process serves: for every actor of its own the messages it accepts, by message id,
      and the codec. An address of such an actor is typed with the same table. */
  datatype Sigs = Sigs(kind: Codec.Kind, actors: map<nat, map<nat, Sig>>)

  datatype Request =
    | ActorCall(actor: nat, msgId: nat, bytes: Bytes)
    | CreateActor
    | GetActor

  /** A request and the message it was made from. */
  datatype Call = Call(request: Request, msg: Value)

  /** An untagged message. */
  datatype Cast = Cast(actor: nat, msgId: nat, bytes: Bytes)

  datatype Frame =
    | Ask(req: nat, tag: nat, request: Request)
    | Tell(n: nat, cast: Cast)
    | Response(req: nat, tag: nat, reply: Reply)

  datatype Mail =
    | Outgoing(call: Call, rxOpen: bool)
    | OutgoingCast(cast: Cast)
    | Finished(req: nat, tag: nat, reply: Reply)
    | RequireCleanup

  /** How far the task that serves a request has come. */
  datatype Stage =
    | Forwarding(request: Request, found: bool)
    | Waiting(request: Request)
    | Creating
    | Done(reply: Reply)

  datatype Task = Task(req: nat, tag: nat, stage: Stage)

  /** What became of a request at its server: a handler ran on the message decoded from bytes at
      some address and answered with a result, or it ran and gave no answer (it panicked, or it
      dropped the channel), the bytes could not be decoded there, the request was refused before
      that, or the node itself answered. */
  datatype Fate =
    | Answered(addr: nat, msg: Value, result: Value)
    | Mute(addr: nat, msg: Value)
    | Undecodable(addr: nat)
    | Refused(error: string)
    | NodeReply(bytes: Bytes)

  datatype Told = Told(n: nat, cast: Cast)

  /** The cleanup flag and timers, and when the last sweep was and the next is due. */
  datatype Clock = Clock(cleanup: bool, timers: seq<nat>, swept: nat, due: nat)

  /** What happened so far; `runs` lists the requests for which a handler ran, run by run. */
  datatype Log = Log(
    calls: map<nat, Call>,
    casts: seq<Cast>,
    served: nat,
    handled: map<nat, Fate>,
    delivered: seq<Told>,
    runs: seq<nat>)

  datatype Endpoint = Endpoint(
    running: bool,
    table: Table,
    clock: Clock,
    mailbox: seq<Mail>,
    out: seq<Frame>,
    tasks: map<nat, Task>,
    spawned: nat,
    log: Log)

  datatype World = World(now: nat, leftSigs: Sigs, rightSigs: Sigs, left: Endpoint, right: Endpoint) {
    function At(side: bool): Endpoint {
      if side then left else right
    }

    /** What the process on a side serves. */
    function Serves(side: bool): Sigs {
      if side then leftSigs else rightSigs
    }

    function With(side: bool, e: Endpoint): World {
      if side then this.(left := e) else this.(right := e)
    }
  }

  function Start(now: nat): Endpoint {
    Endpoint(true, EMPTY, Clock(true, [], now, now), [], [], map[], 0, Log(map[], [], 0, map[], [], []))
  }

  // ----- Handlers of one session -----

  /** A frame is sent, unless the connection refuses it. */
  function Sent(out: seq<Frame>, f: Frame, ok: bool): seq<Frame> {
    if ok then out + [f] else out
  }

  predicate CanHandle(e: Endpoint) {
    e.running && !e.clock.cleanup
  }

  /** Every pending request has a channel. */
  ghost predicate HasChannels(t: Table) {
    forall k :: k in t.pending ==> t.pending[k].req in t.channels
  }

  function HandleMail(e: Endpoint, now: nat, ok: bool): Endpoint
    requires e.mailbox != []
  {
    var rest := e.mailbox[1..];
    match e.mailbox[0]
    case Outgoing(call, rxOpen) =>
      var r := e.table.issued;
      e.(mailbox := rest, table := Issue(e.table, now, ok, rxOpen), log := e.log.(calls := e.log.calls[r := call]),
         out := Sent(e.out, Ask(r, e.table.tag, call.request), ok))
    case OutgoingCast(cast) =>
      e.(mailbox := rest, log := e.log.(casts := e.log.casts + [cast]), out := Sent(e.out, Tell(|e.log.casts|, cast), ok))
    case Finished(req, tag, reply) =>
      e.(mailbox := rest, out := Sent(e.out, Response(req, tag, reply), ok))
    case RequireCleanup => e.(mailbox := rest, clock := e.clock.(cleanup := true))
  }

  /** `found` is the answer of the mailbox lookup, for an untagged message also of the
      mailbox; `bytes` and `ok` are the reply to a lookup request and the fate of its frame. */
  function HandleFrame(e: Endpoint, f: Frame, found: bool, bytes: Bytes, ok: bool): Endpoint
    requires HasChannels(e.table)
  {
    match f
    case Ask(req, tag, request) =>
      (match request
       case ActorCall(_, _, _) =>
         e.(log := e.log.(served := req + 1), spawned := e.spawned + 1,
            tasks := e.tasks[e.spawned := Task(req, tag, Forwarding(request, found))])
       case CreateActor =>
         e.(log := e.log.(served := req + 1), spawned := e.spawned + 1, tasks := e.tasks[e.spawned := Task(req, tag, Creating)])
       case GetActor =>
         e.(log := e.log.(served := req + 1, handled := e.log.handled[req := NodeReply(bytes)]),
            out := Sent(e.out, Response(req, tag, Ok(bytes)), ok)))
    case Tell(n, cast) => if found then e.(log := e.log.(delivered := e.log.delivered + [Told(n, cast)])) else e
    case Response(_, tag, reply) => e.(table := Respond(e.table, tag, reply))
  }

  function SweepNow(e: Endpoint, now: nat): Endpoint
    requires HasChannels(e.table)
  {
    e.(table := Sweep(e.table, now),
       clock := Clock(false, e.clock.timers + [now + CLEANUP_INTERVAL], now, now + CLEANUP_INTERVAL))
  }

  function Fire(e: Endpoint, i: nat): Endpoint
    requires i < |e.clock.timers|
  {
    e.(clock := e.clock.(timers := e.clock.timers[..i] + e.clock.timers[i + 1..]),
       mailbox := if e.running then e.mailbox + [RequireCleanup] else e.mailbox)
  }

  function StopNow(e: Endpoint): Endpoint {
    e.(running := false, table := Stop(e.table), mailbox := [])
  }

  // ----- Tasks -----

  /** The free choices of a task step: whether the actor took the message, where its bytes landed,
      whether its handler answered and with what result, and the reply to a creation request. */
  datatype Choice = Choice(ok: bool, addr: nat, answers: bool, result: Value, bytes: Bytes)

  const NO_ANSWER := "no answer from the actor"
  const NOT_DECODED := "could not decode the message"

  predicate Known(sigs: Sigs, request: Request) {
    request.ActorCall? && request.actor in sigs.actors && request.msgId in sigs.actors[request.actor]
  }

  function SigOf(sigs: Sigs, request: Request): Sig
    requires Known(sigs, request)
  {
    sigs.actors[request.actor][request.msgId]
  }

  /** A value can be encoded: it has its type and a machine-sized encoding. */
  predicate Encodable(kind: Codec.Kind, v: Value, ty: Ty) {
    Typed(v, ty) && Codec.EncodedLen(kind, v, ty) < TWO64
  }

  /** The actor takes the message off its mailbox: an unknown id or undecodable bytes are
      errors; otherwise the handler runs. */
  function DispatchFate(sigs: Sigs, request: Request, addr: nat, answers: bool, result: Value): Fate {
    if !Known(sigs, request) then Refused("unknown message id")
    else
      var msg := Codec.Decode(sigs.kind, Slice(addr, request.bytes), SigOf(sigs, request).msg);
      if msg.None? then Undecodable(addr)
      else if answers then Answered(addr, msg.value, result) else Mute(addr, msg.value)
  }

  /** The reply that a fate makes; the result of a handler is encoded. */
  function ReplyOf(sigs: Sigs, request: Request, fate: Fate): Reply {
    match fate
    case Answered(_, _, result) =>
      if Known(sigs, request) && Typed(result, SigOf(sigs, request).res)
      then Ok(Codec.Encoding(sigs.kind, result, SigOf(sigs, request).res)) else Missing
    case Mute(_, _) => Err(NO_ANSWER)
    case Undecodable(_) => Err(NOT_DECODED)
    case Refused(error) => Err(error)
    case NodeReply(bytes) => Ok(bytes)
  }

  /** A handler returns a result of the message's result type. */
  predicate TaskEnabled(sigs: Sigs, e: Endpoint, k: nat, c: Choice) {
    && k in e.tasks
    && (e.tasks[k].stage.Waiting? && c.ok && Known(sigs, e.tasks[k].stage.request) ==>
          Encodable(sigs.kind, c.result, SigOf(sigs, e.tasks[k].stage.request).res))
  }

  /** What a task decides about its request, or nothing yet. */
  function TaskFate(sigs: Sigs, stage: Stage, c: Choice): Option<Fate> {
    match stage
    case Forwarding(_, found) => if found && c.ok then None else Some(Refused("could not forward the message"))
    case Waiting(request) =>
      Some(if c.ok then DispatchFate(sigs, request, c.addr, c.answers, c.result) else Refused(NO_ANSWER))
    case Creating => Some(NodeReply(c.bytes))
    case Done(_) => None
  }

  function RequestOf(stage: Stage): Request {
    match stage
    case Forwarding(request, _) => request
    case Waiting(request) => request
    case _ => CreateActor
  }

  /** A handler ran. */
  predicate Executed(fate: Fate) {
    fate.Answered? || fate.Mute?
  }

  /** The fate of a request is decided and recorded. */
  function Decide(sigs: Sigs, e: Endpoint, k: nat, fate: Fate): Endpoint
    requires k in e.tasks
  {
    var task := e.tasks[k];
    e.(tasks := e.tasks[k := task.(stage := Done(ReplyOf(sigs, RequestOf(task.stage), fate)))],
       log := e.log.(handled := e.log.handled[task.req := fate],
                     runs := if Executed(fate) then e.log.runs + [task.req] else e.log.runs))
  }

  function StepTask(sigs: Sigs, e: Endpoint, k: nat, c: Choice): Endpoint
    requires TaskEnabled(sigs, e, k, c)
  {
    var task := e.tasks[k];
    var fate := TaskFate(sigs, task.stage, c);
    if task.stage.Done? then
      e.(tasks := e.tasks - {k},
         mailbox := if e.running then e.mailbox + [Finished(task.req, task.tag, task.stage.reply)] else e.mailbox)
    else if fate.Some? then Decide(sigs, e, k, fate.value)
    else e.(tasks := e.tasks[k := task.(stage := Waiting(RequestOf(task.stage)))])
  }

  // ----- Steps -----

  datatype Step =
    | Submit(side: bool, actor: nat, msgId: nat, msg: Value)
    | SubmitNode(side: bool, create: bool)
    | SubmitCast(side: bool, cast: Cast)
    | Mailbox(side: bool, ok: bool)
    | Receive(side: bool, found: bool, bytes: Bytes, ok: bool)
    | Cleanup(side: bool)
    | TimerFires(side: bool, i: nat)
    | TaskMoves(side: bool, k: nat, choice: Choice)
    | DropReceiver(side: bool, req: nat)
    | DropQueued(side: bool, i: nat)
    | LoseFrames(side: bool, keep: nat)
    | StopSession(side: bool)
    | Tick

  predicate Enabled(w: World, st: Step) {
    match st
    case Submit(s, actor, msgId, msg) =>
      && w.At(s).running
      && actor in w.Serves(!s).actors && msgId in w.Serves(!s).actors[actor]
      && Encodable(w.Serves(!s).kind, msg, w.Serves(!s).actors[actor][msgId].msg)
    case SubmitNode(s, _) => w.At(s).running
    case SubmitCast(s, _) => w.At(s).running
    case Mailbox(s, _) => CanHandle(w.At(s)) && w.At(s).mailbox != []
    case Receive(s, _, _, _) => CanHandle(w.At(s)) && w.At(!s).out != []
    case Cleanup(s) => w.At(s).running && w.At(s).clock.cleanup
    case TimerFires(s, i) => i < |w.At(s).clock.timers| && w.At(s).clock.timers[i] <= w.now
    case TaskMoves(s, k, c) => TaskEnabled(w.Serves(s), w.At(s), k, c)
    case DropReceiver(s, req) => req in w.At(s).table.channels
    case DropQueued(s, i) => i < |w.At(s).mailbox| && w.At(s).mailbox[i].Outgoing?
    case LoseFrames(s, keep) => keep <= |w.At(s).out|
    case StopSession(s) => w.At(s).running
    case Tick => true
  }

  ghost predicate Consistent(w: World) {
    HasChannels(w.left.table) && HasChannels(w.right.table)
  }

  function Push(e: Endpoint, m: Mail): Endpoint {
    e.(mailbox := e.mailbox + [m])
  }

  /** The receiver of a call that waits in the mailbox is dropped. */
  function CloseQueued(e: Endpoint, i: nat): Endpoint
    requires i < |e.mailbox| && e.mailbox[i].Outgoing?
  {
    e.(mailbox := e.mailbox[i := e.mailbox[i].(rxOpen := false)])
  }

  /** The remote address encodes the message before it hands it to the session. */
  function OutgoingCall(sigs: Sigs, actor: nat, msgId: nat, msg: Value): Call
    requires actor in sigs.actors && msgId in sigs.actors[actor] && Typed(msg, sigs.actors[actor][msgId].msg)
  {
    Call(ActorCall(actor, msgId, Codec.Encoding(sigs.kind, msg, sigs.actors[actor][msgId].msg)), msg)
  }

  function Do(w: World, st: Step): World
    requires Enabled(w, st) && Consistent(w)
  {
    match st
    case Submit(s, actor, msgId, msg) =>
      w.With(s, Push(w.At(s), Outgoing(OutgoingCall(w.Serves(!s), actor, msgId, msg), true)))
    case SubmitNode(s, create) =>
      w.With(s, Push(w.At(s), Outgoing(Call(if create then CreateActor else GetActor, VUnit), true)))
    case SubmitCast(s, cast) => w.With(s, Push(w.At(s), OutgoingCast(cast)))
    case Mailbox(s, ok) => w.With(s, HandleMail(w.At(s), w.now, ok))
    case Receive(s, found, bytes, ok) =>
      var p := w.At(!s);
      w.With(s, HandleFrame(w.At(s), p.out[0], found, bytes, ok)).With(!s, p.(out := p.out[1..]))
    case Cleanup(s) => w.With(s, SweepNow(w.At(s), w.now))
    case TimerFires(s, i) => w.With(s, Fire(w.At(s), i))
    case TaskMoves(s, k, c) => w.With(s, StepTask(w.Serves(s), w.At(s), k, c))
    case DropReceiver(s, req) => w.With(s, w.At(s).(table := Close(w.At(s).table, req)))
    case DropQueued(s, i) => w.With(s, CloseQueued(w.At(s), i))
    case LoseFrames(s, keep) => w.With(s, w.At(s).(out := w.At(s).out[..keep]))
    case StopSession(s) => w.With(s, StopNow(w.At(s)))
    case Tick => w.(now := w.now + 1)
  }
}
