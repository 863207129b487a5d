# Verification of acktor

A Dafny model of the parts of the acktor actor framework where state, concurrency and wire
formats meet, with proofs of what they promise. Statements are about all values, all scripts of
free choices and all runs.

**Sessions.** `Requests` is the request table of a session: a wrapping 64-bit tag, the pending
map and one channel per request. `Network` joins two sessions by a FIFO connection as a step
system: both are client and server, tagged requests are served by tasks that finish in any
order, time passes, receivers are dropped, frames are lost from the end of the stream, sessions
stop. `Correlation`, `Transparency` and `Housekeeping` hold the invariants, `Sessions` the
theorems about whole runs. `Places` says of each operation what it does to each request,
`SessionEffects` what each step sends, delivers, decides and resolves, and `SessionRuns` which runs
complete. `SessionActor` is the session and its context as classes; its methods
equal the functions of the step system, and its loop, interleaved with whatever others do while it
waits, is a run of it (`LoopIsRun`). The codec is a choice of the build (the feature `prost-codec`,
off by default): `Codecs` puts both behind one interface, each process serves with one of them,
and bytes land at any address. `Dispatcher` is the generated match over message ids.

**Lives of actors.** `Lifecycle` is the default context (hooks, saved errors, message loop,
drain) and `Cron` the context with a repetitive task, as functions over scripts that fix what
arrives, what handlers do and what hooks answer. `LifecycleRuns` and `CronRuns` hold the
theorems, `LifecycleEffects` and `CronEffects` what a turn comes to, seen from its script,
`ContextActor` and `CronActor` the classes with their loops.

**Codecs.** `Wire` has the protobuf primitives (section names of the Protocol Buffers encoding
guide: "Base 128 Varints", "Signed Integers", "Length-Delimited Records", "Packed Repeated
Fields"); `ZigZag`, `ProstCodec`, `CommonCodec` and `DefaultCodec` are the two codecs over a
closed universe of types (`Values`: unit, bool, integers, strings, vectors, Option, Result and
tuples of 2 to 10, nested at will); `Encoders` has the encoders as loops that append to a buffer, and `KnownBytes` spells encodings
out byte by byte.
Slices carry the address of their first byte because the default codec rejects a vector that is
not aligned to its elements.

**Tables.** `DoubleMaps` is the two-key map, refined to a set of triples. `Registry` and
`ActorManager` are the label table and the mailbox registry under interference by other threads.
`NodeTables` and `NodeActor` are the tables of a node.

Where the code and its documentation disagree, the model follows the code:

- The comment at acktor/src/context.rs:139-140 says that a saved error wins over an error of
  `stopping`. The code, `result.or(Err(e))`, returns the error of `stopping` if one was saved and
  no error if none was. `Lifecycle.AsWritten` and `Lifecycle.AsDocumented` are the two rules;
  `LifecycleRuns.WhereLivesAgree` and, for the same comment at acktor/src/cron.rs:235-236,
  `CronRuns.CronWhereLivesAgree` say exactly where they agree; `SavedErrorLost`,
  `StoppingErrorVanishes` and `TaskErrorLost` are lives in which they do not.
- The comments at acktor-ipc/src/node/actor_mgr.rs:125-126, 154-155 and 184-185 say that all
  writes of the registry happen in the actor manager. Sessions write it too, when they register
  an address and when a lookup evicts a closed mailbox; the theorems of `Registry` hold in spite
  of that.
- A drain may discard the signal of a cron timer, so a cron task that sleeps may stay asleep for
  ever: `CronRuns.DrainLosesSignal` is an instance, `CronRuns.DrainBreaksPromise` the exact
  condition.
- The default codec writes element lengths as 32-bit numbers without a check, so an element of
  2^32 bytes or more does not come back: `DefaultCodec.RoundTripExactly` has the exact condition,
  and `DefaultCodec.OversizeElement` is a tuple that decodes to another value, without an error. A
  vector that is not aligned where it lands is an error (`DefaultCodec.MisalignedExample`); a
  remote send with this codec then resolves with a decoding error (`Sessions.DecodeErrorExactly`).

## Model

| member | source | states |
|---|---|---|
| Sessions.LocationTransparency | acktor/src/address/remote.rs:97-214 | in every run with room for its tags, with either codec and wherever bytes land, a send whose message fits and that its peer replied to resolves with what became of that very message: the result of the handler that ran on it and answered, a decoding error exactly if message or result did not land well, or the peer's error |
| Sessions.ValueIsTheResult | acktor/src/address/remote.rs:97-132 | so a send resolves with a value if and only if the handler ran and answered and its result landed well, and the value is the handler's result for that message |
| Sessions.DecodeErrorExactly | acktor-derive/src/remote_addressable.rs:77-108 | a send whose message reached the actor resolves with a decoding error if and only if the message or the result did not land well |
| Sessions.ProstNeverFails | acktor/src/codec/prost_codec.rs:78-278 | with the prost codec decoding never fails: the caller of a handler that answered gets its result |
| Codecs.RoundTrip | acktor/src/codec.rs:30-34 | with either codec a value that fits comes back if it lands well and is an error otherwise, never another value |
| Sessions.ExecutedOnce | acktor-ipc/src/session.rs:262-323 | in every reachable state the runs of handlers for tagged requests, listed run by run, are for pairwise different requests, and those are the requests whose fate says that a handler ran, with or without an answer |
| Sessions.HandledOnce | acktor-ipc/src/session.rs:286-320 | the fate recorded for a request never changes |
| Sessions.TagCorrelation | acktor-ipc/src/session.rs:341-374 | in every such run no pending entry was overwritten, and a response on its way finds the entry of its own request or, if that is no longer pending, none |
| Sessions.RequestConservation | acktor-ipc/src/session.rs:97-121 | in every reachable state, with or without room for tags, each issued request is in exactly one of pending, resolved, lost; the three counts add up to the number issued |
| Sessions.ResolvedOnce | acktor-ipc/src/session.rs:341-374 | what a caller received on its channel never changes afterwards |
| Sessions.CleanupToken | acktor-ipc/src/session/context.rs:85-105 | while a session runs exactly one of flag, timers, queued cleanup requests exists, counted together |
| Sessions.TimeoutBound | acktor-ipc/src/session.rs:46-52 | if no sweep is more than d seconds late, no pending entry reaches the age of 75 + d seconds, the response timeout and the cleanup interval together |
| Sessions.UntaggedOrder | acktor-ipc/src/session.rs:325-337 | untagged messages enter mailboxes as an in-order subsequence without duplicates of those the sending session handled |
| SessionEffects.AnswerIsTheReply | acktor-derive/src/remote_addressable.rs:77-108 | a handler that runs on what its bytes decode to and answers makes the encoding of its result the reply; no answer, undecodable bytes, an unknown id and an actor that does not take the message each make their own error, exactly then |
| SessionEffects.ForwardEffect | acktor-ipc/src/session.rs:286-301 | a message is forwarded exactly if its actor is found and takes it, and is refused otherwise |
| SessionEffects.FinishEffect | acktor-ipc/src/session.rs:301-320 | a finished task hands its reply, under its tag, to its session if that still runs; a creation is answered with what the actor manager says |
| SessionEffects.MailSends | acktor-ipc/src/session.rs:555-647 | every mail but a cleanup request sends exactly one frame if the connection takes it: the request under the next tag, the untagged message, or the response with its tag |
| SessionEffects.FrameDoes | acktor-ipc/src/session.rs:262-337 | an untagged message is delivered exactly if its mailbox is found, a lookup is answered at once, and any other request gets a task of its own |
| SessionEffects.ClockDoes | acktor-ipc/src/session/context.rs:85-147 | a session that stops has nothing pending and no mail, a timer that fires asks for a cleanup, a cleanup lowers the flag and starts a timer of 15 seconds, and nothing else changes |
| SessionEffects.NoEarlyTimeout | acktor-ipc/src/session.rs:97-115 | in every run, no request is resolved with a timeout before it is 60 seconds old |
| SessionRuns.UnansweredTimesOut | acktor-ipc/src/session.rs:97-115 | a pending request that nobody answers is resolved with a timeout by a cleanup, once enough time has passed |
| SessionRuns.UntaggedComplete | acktor-ipc/src/session.rs:325-337 | in every run without losses the untagged messages delivered and on their way are all messages handled by the sending session, in order |
| SessionRuns.SendCompletes | acktor/src/address/remote.rs:97-132 | over an idle connection a send completes: for every message whose bytes land well and every result there is a run that resolves it with the encoding of that result, its handler having run on that message |
| SessionRuns.CreationCompletes | acktor-ipc/src/session.rs:160-220 | over an idle connection a creation is resolved with what the actor manager of the other node answers |
| SessionRuns.LookupCompletes | acktor-ipc/src/session.rs:222-258 | over an idle connection a lookup is resolved with the answer of the other node |
| SessionRuns.DroppedInMailbox | acktor-ipc/src/session.rs:577-600 | a call whose receiver was dropped in the mailbox and whose frame is refused is discarded |
| Correlation.StepKeeps | acktor-ipc/src/session.rs:376-395 | every step keeps the invariant that ties calls, frames, tasks, mails and handler runs of both directions together |
| Transparency.ResponseFindsItsOwn | acktor-ipc/src/session.rs:341-354 | a response finds an entry if and only if its own request is pending, and then it is that entry |
| Transparency.LateResponseIgnored | acktor-ipc/src/session.rs:348-354 | a response to a request that is no longer pending leaves the table as it is |
| Transparency.OverwriteExactly | acktor-ipc/src/session.rs:577-602 | taking a tag loses a pending request if and only if one has the new number modulo 2^64 |
| Transparency.TagsDistinct | acktor-ipc/src/session.rs:117-121 | two requests among the last 2^64 with one tag are one request |
| Places.SweepPlaces | acktor-ipc/src/session.rs:97-115 | a sweep leaves a pending request with an open receiver pending while it is younger than the response timeout, times it out from then on, discards it if its receiver is gone, and moves no other request |
| Places.IssuePlaces | acktor-ipc/src/session.rs:573-603 | a new request is pending from now on if its frame was sent, otherwise its caller is told; a pending request under the same tag is lost to it, and no other moves |
| Places.RespondPlaces | acktor-ipc/src/session.rs:341-374 | a response resolves exactly the request pending under its tag, with the answer, the remote error or the bad response that it carries, or finds the receiver gone |
| Places.StopPlaces | acktor-ipc/src/session/context.rs:107-147 | a stopping session drops exactly what is pending |
| Places.ClosePlaces | acktor-ipc/src/session.rs:97-115 | dropping a receiver closes its channel and moves no request |
| Requests.IssueValid | acktor-ipc/src/session.rs:573-603 | taking a tag keeps every request in exactly one place, also when it wraps and overwrites |
| Requests.RespondValid | acktor-ipc/src/session.rs:341-374 | a response keeps every request in exactly one place |
| Requests.SweepValid | acktor-ipc/src/session.rs:97-115 | a sweep keeps every request in exactly one place |
| Requests.StopValid | acktor-ipc/src/session/context.rs:107-147 | stopping keeps every request in exactly one place |
| Housekeeping.StepKept | acktor-ipc/src/session/context.rs:20-26 | every step keeps the cleanup token, the bound on ages at the last sweep and the order of untagged messages |
| SessionActor.Session.NextTag | acktor-ipc/src/session.rs:117-121 | returns the current tag and advances it, wrapping at 2^64 |
| SessionActor.Session.HandleCall | acktor-ipc/src/session.rs:422-466 | a request takes a tag, sends its frame and becomes pending only if the frame was sent, whether or not its receiver is still there; the table changes as in the step system |
| SessionActor.Session.HandleCast | acktor-ipc/src/session.rs:605-620 | an untagged message is sent, or lost without a report |
| SessionActor.Session.HandleMessageResponse | acktor-ipc/src/session.rs:341-374 | the entry of the tag is removed and its channel resolved; an unknown tag and a closed receiver are reported as errors |
| SessionActor.Session.HandleIpcMessage | acktor-ipc/src/session.rs:376-395 | one frame has exactly the effect of the step system on table, frames, tasks, fates and deliveries; bytes that are no frame have none |
| SessionActor.Session.HandleRequest | acktor-ipc/src/session.rs:160-323 | a tagged request spawns a task that forwards or creates, and a lookup is answered at once |
| SessionActor.Session.CleanupMessageResTxMap | acktor-ipc/src/session.rs:97-115 | the loop over expired entries computes the sweep, and leaves every request where its age and its receiver put it: pending when young, timed out, or discarded |
| SessionActor.Session.Drop | acktor-ipc/src/session/context.rs:107-147 | a stopped session loses exactly its pending requests |
| SessionActor.SessionContext.HandleFirst | acktor-ipc/src/session.rs:625-647 | handling the first mail has exactly the effect of the step system |
| SessionActor.SessionContext.RunLoop | acktor-ipc/src/session/context.rs:85-148 | the loop computes the fold of its turns, each with what others do before it sweeps and while it waits, at two times, until a source fails; it fails only on a connection error that is not a closed connection |
| SessionActor.SeenIsAll | acktor-ipc/src/session/context.rs:90-105 | a step that is not the loop's own changes a session exactly by what the loop's specification lets others do |
| SessionActor.TurnIsRun | acktor-ipc/src/session/context.rs:90-144 | one turn of the loop, with all steps of others before and during its wait, is a run of the step system that ends in the state the turn computes |
| SessionActor.LoopIsRun | acktor-ipc/src/session/context.rs:85-148 | the whole loop, interleaved with any steps of others, is a run of the step system that ends in the state the loop computes, so all run theorems hold of the class |
| Dispatcher.UniquenessCheck | acktor-derive/src/remote_addressable.rs:223-239 | the nested loops accept exactly the pairwise distinct ids |
| Dispatcher.OwnHandlerExactly | acktor-derive/src/remote_addressable.rs:77-108 | every message reaches its own arm if and only if the ids are distinct |
| Dispatcher.ArmIsLookup | acktor-derive/src/remote_addressable.rs:184-200 | with distinct ids the arm that dispatches a request is the entry that the step system looks up, with the types of that message |
| LifecycleRuns.LifeInOrder | acktor/src/actor.rs:416-480 | if handlers call at most one of stop and terminate, the states are Starting, then Stopped or Running (Stopping Running)* [Stopping] Stopped; an unfinished life is running |
| LifecycleRuns.LifeReported | acktor/src/actor.rs:332-389 | every finished life is reported exactly once, last, and `post_stop` ran once if and only if the loop began and ended without a panic |
| LifecycleRuns.ErrorFate | acktor/src/context.rs:119-164 | if handlers save at most one error each and `stopping` does not fail, each saved error is reported exactly once and in order, in a warning or in the termination report, and wins over an error of `post_stop` |
| LifecycleRuns.WhereRulesAgree | acktor/src/context.rs:139-154 | code and comment agree on the loop's result if and only if `stopping` did not fail or failed with the saved error |
| LifecycleRuns.WhereLivesAgree | acktor/src/actor.rs:457-478 | they agree on a whole life if and only if, in addition, `post_stop` hides the difference |
| LifecycleRuns.NoFailNoDifference | acktor/src/context.rs:137-154 | if `stopping` never fails the loop never ends where they differ |
| LifecycleRuns.SavedErrorLost | acktor/src/context.rs:137-154 | for all errors e and f: a handler that saves e and stops, with `stopping` failing with f, ends in a report of f where the comment promises e |
| LifecycleRuns.StoppingErrorVanishes | acktor/src/context.rs:137-154 | for all errors f: a handler that stops without saving, with `stopping` failing with f, ends in a report of success where the comment promises f |
| LifecycleRuns.MailboxAccount | acktor/src/context.rs:119-129 | dispatched, drained and queued messages are together the messages sent, in order; without draining the dispatched ones are a prefix |
| LifecycleRuns.DrainExact | acktor/src/drain.rs:91-113 | a drain removes exactly what was queued when the handler began, and nothing that arrived during it |
| LifecycleRuns.DiscardExact | acktor/src/drain.rs:105-112 | popping no more messages than are queued removes exactly the first ones |
| LifecycleEffects.HandlerLeaves | acktor/src/actor.rs:260-273 | a handler leaves its actor in the state that it asked for last, with the error that it saved last, and every state it entered reported in order |
| LifecycleEffects.TurnGoesOn | acktor/src/context.rs:120-160 | in a turn that takes a message a stopping actor, or one with a saved error, leaves the loop with that error if `stopping` answers Stop, and goes on Running with a warning exactly of a saved error if it answers Continue; a stopped one leaves with its error, a running one goes on |
| LifecycleEffects.TurnOutcome | acktor/src/context.rs:120-160 | the same seen from the script of the turn alone: its calls of stop and terminate, its saved errors and the answer of `stopping` |
| LifecycleEffects.EmptyTurn | acktor/src/context.rs:121-135 | without a message a closed mailbox stops the actor with its saved error, and an open one blocks it |
| LifecycleEffects.TurnMailbox | acktor/src/drain.rs:91-113 | a turn enqueues all that arrives, dispatches the first message waiting, and with a drain removes exactly what waited behind it |
| LifecycleEffects.LoopInTurn | acktor/src/context.rs:119-164 | a loop takes its turns one by one while its actor runs |
| LifecycleEffects.LifeRecord | acktor/src/actor.rs:416-478 | the whole record of a life: a failed start is reported with its error, a panic as a panic wherever it happened, and otherwise the error of the loop or else of `post_stop`, after `post_stop` was called |
| ContextActor.Context.ApplyDrain | acktor/src/drain.rs:101-112 | the popping loop computes the drain and its `try_recv` never fails |
| ContextActor.Context.Recv | acktor/src/context.rs:121-125 | takes the first message and counts those behind it |
| ContextActor.Context.Handle | acktor/src/context.rs:120-129 | a handler changes the context as the fold of its actions |
| ContextActor.Context.Resolve | acktor/src/context.rs:137-159 | the answer of `stopping` decides as specified; `LifecycleEffects.TurnGoesOn` says what that is |
| ContextActor.Context.TakeTurn | acktor/src/context.rs:120-160 | one turn of the loop equals its specification |
| ContextActor.Context.RunLoop | acktor/src/context.rs:119-164 | the loop equals the fold of its turns, and its result is the one the code computes |
| ContextActor.Context.End | acktor/src/actor.rs:443-478 | the end of a run: state Stopped, `post_stop` unless the loop panicked, one report |
| ContextActor.Context.BeginRun | acktor/src/actor.rs:422-437 | a failing or panicking `post_start` stops the actor at once |
| ContextActor.Context.Spawn | acktor/src/actor.rs:332-389 | a failing `pre_start` has no effect, otherwise the context lives the specified life |
| CronRuns.CronTimers | acktor/src/cron.rs:123-188 | in every life: not paused implies no stored timer, at most one timer sleeps, after an interval the task runs again only after a resumption, and without draining a sleeping task not paused since has a sleeping timer or its signal queued |
| CronRuns.DrainLosesSignal | acktor/src/cron.rs:160-168 | with draining there is a life in which the task sleeps, no timer sleeps and no signal is queued |
| CronRuns.DrainBreaksPromise | acktor/src/cron.rs:356-367 | a handler that leaves the task alone breaks the promise of a wake-up if and only if it drains, the timer was not asleep when it began and no signal to resume, of whatever sender, arrives meanwhile |
| CronRuns.CronLifeInOrder | acktor/src/cron.rs:225-260 | if task and handler of a turn together call stop or terminate at most once, the states of a spawned cron actor follow the order of any actor |
| CronRuns.CronLoopInOrder | acktor/src/cron.rs:158-187 | under the same condition a loop on whatever mailbox keeps the states in order if and only if in no turn the task terminates the actor and then the mailbox is found empty and closed |
| CronRuns.OwnMailbox | acktor/src/cron.rs:93-106 | the loop of a context on its own mailbox, of which it holds an address, never finds it closed |
| CronRuns.ForeignCollision | acktor/src/cron.rs:167-182 | a task that terminates the actor, in a loop called on a foreign mailbox that is empty and closed, is such a turn |
| CronRuns.CronLifeReported | acktor/src/cron.rs:225-260 | a finished cron actor is reported exactly once, last, with `post_stop` as for any actor |
| CronRuns.CronErrorFate | acktor/src/cron.rs:225-257 | if each turn raises at most one error, by its task or its handler, and `stopping` does not fail, each error is reported exactly once and in order |
| CronRuns.CronWhereLivesAgree | acktor/src/cron.rs:225-260 | code and comment agree on the life of a cron actor if and only if `stopping` did not fail, failed with the error raised by task or handler, or `post_stop` hides the difference |
| CronRuns.CronNoFailNoDifference | acktor/src/cron.rs:233-250 | if `stopping` never fails the loop never ends where they differ |
| CronRuns.TaskErrorLost | acktor/src/cron.rs:123-131 | for all errors e and f: a task that fails with e, with `stopping` failing with f, ends in a report of f where the comment promises e |
| CronRuns.CronMailboxAccount | acktor/src/cron.rs:158-186 | the mailbox of a cron actor is accounted for like any other |
| CronRuns.CronDrainExact | acktor/src/cron.rs:160-181 | a drain in a cron actor removes exactly what was queued when the handler began |
| CronRuns.BaseOfActs | acktor/src/cron.rs:123-188 | what handlers, the task and timers do to a cron context is on its common part a list of plain actions |
| CronEffects.SwitchEffect | acktor/src/cron.rs:290-302 | pausing and resuming set the state of the task, take the stored timer out and put it to an end if it still sleeps, and leave other timers alone |
| CronEffects.SignalEffect | acktor/src/cron.rs:356-367 | a turn that takes a signal to resume ends with the task resumed and no timer stored; one that takes a signal to pause ends with it paused and its stored timer asleep no more |
| CronEffects.SignalWakesTask | acktor/src/cron.rs:123-188 | after a handled signal of its timer the task runs first in the next turn |
| CronEffects.SignalHears | acktor/src/cron.rs:340-367 | handling a signal pauses or resumes and does nothing else, whatever arrives meanwhile |
| CronEffects.ArrivalInTurn | acktor/src/cron.rs:136-153 | a message that arrives is enqueued; a timer that sleeps fires once and enqueues its signal, any other does nothing |
| CronEffects.TaskInTurn | acktor/src/cron.rs:123-134 | a task does what it does in order: calls of its context, pausing and resuming itself, while messages arrive |
| CronEffects.TaskRunsFirst | acktor/src/cron.rs:123-157 | the task runs first in a turn exactly if it is not paused, and goes to sleep exactly if it asked for an interval |
| CronEffects.AgainOrAfter | acktor/src/cron.rs:123-187 | without a message a task that asks to run at once goes on to its next turn without waiting, one that asks for an interval waits with its own timer asleep, and a failing one goes on as any failed turn |
| CronEffects.CronTurnGoesOn | acktor/src/cron.rs:225-257 | a turn that takes a message takes the first one waiting and goes on from what its handler left as in a plain actor, by the answer of `stopping` |
| CronEffects.CronLoopInTurn | acktor/src/cron.rs:225-260 | a loop takes its turns one by one while its actor runs |
| CronEffects.CronLifeRecord | acktor/src/actor.rs:416-478 | the whole record of a cron life, as for a plain one |
| CronEffects.ForeignClosed | acktor/src/cron.rs:167-187 | a foreign mailbox that is found empty and closed stops the actor with its saved error |
| CronActor.CronContext.PauseTask | acktor/src/cron.rs:290-295 | aborts the stored timer unless it fired, and pauses |
| CronActor.CronContext.ResumeTask | acktor/src/cron.rs:297-302 | aborts the stored timer unless it fired, and resumes |
| CronActor.CronContext.SpawnTimer | acktor/src/cron.rs:136-153 | pauses the task and stores the handle of a new sleeping timer |
| CronActor.CronContext.Receive | acktor/src/cron.rs:158-187 | waiting for or looking for a message, handling it and draining equal their specification; `CronEffects.SignalEffect` says what signals do |
| CronActor.CronContext.TakeTurn | acktor/src/cron.rs:123-188 | one turn, with its task, timer, message and errors, equals its specification |
| CronActor.CronContext.RunLoop | acktor/src/cron.rs:225-260 | the loop equals the fold of its turns |
| CronActor.CronContext.Spawn | acktor/src/actor.rs:332-389 | the context lives the specified life |
| ZigZag.EncodeMeaning | acktor/src/codec/prost_codec.rs:12-20 | the shift and exclusive-or form is 2n for n >= 0 and -2n-1 otherwise, below 2^bits |
| ZigZag.Bijection | acktor/src/codec/prost_codec.rs:12-20 | ZigZag and sint decoding are inverse bijections between the signed numbers and the bit patterns of a width |
| Wire.VarintRoundTrip | acktor/src/codec/prost_codec.rs:44-48 | a varint is read back with exactly its own bytes, whatever follows |
| Wire.TagTable | acktor/src/codec/protobuf_helper.rs:7-24 | every table entry is the one-byte key of its field with wire type 2 |
| Wire.ReadRecords | acktor/src/codec/prost_codec.rs:243-256 | a list of length-delimited records is parsed back into exactly its fields, with their addresses |
| ProstCodec.PackedRoundTrip | acktor/src/codec/prost_codec.rs:34-49 | a packed list of varints of any length is read back unchanged |
| ProstCodec.LengthExact | acktor/src/codec/prost_codec.rs:22-76 | the announced length is the length of the encoding, at any nesting |
| ProstCodec.RoundTrip | acktor/src/codec/prost_codec.rs:78-278 | every typed value comes back from its encoding, at any nesting, including Some(None), Ok(()) and empty vectors |
| ProstCodec.DecodeTyped | acktor/src/codec/prost_codec.rs:121-126 | whatever the bytes, a decoded value has its type |
| ProstCodec.EncodingInjective | acktor/src/codec/common_codec.rs:73-224 | two values of one type with one encoding are equal |
| CommonCodec.LastBytesWin | acktor/src/codec/common_codec.rs:213-224 | the scan for an optional field fails if and only if a field in range has another wire type, and otherwise finds the last one with the number |
| DefaultCodec.LengthExact | acktor/src/codec/default_codec.rs:14-211 | the announced length is the length of the encoding, at any nesting |
| DefaultCodec.IntRoundTrip | acktor/src/codec/default_codec.rs:14-41 | a fixed-width little-endian integer comes back |
| DefaultCodec.VecRoundTrip | acktor/src/codec/default_codec.rs:178-211 | the elements of a vector come back in order |
| DefaultCodec.FittingRoundTrip | acktor/src/codec/default_codec.rs:323-391 | if every element fits its frame, the value comes back when every vector is aligned, and an error otherwise, never another value |
| DefaultCodec.RoundTripExactly | acktor/src/codec/default_codec.rs:323-391 | a value comes back if and only if every frame fits in 32 bits and every vector is aligned |
| DefaultCodec.DecodeBounds | acktor/src/codec/default_codec.rs:338-351 | whatever the bytes, a decoded value has its type, is no longer than the bytes and fits its frames |
| DefaultCodec.MisalignedExample | acktor/src/codec/default_codec.rs:198-209 | a vector of one two-byte number at address 1 decodes to an error |
| DefaultCodec.OversizeElement | acktor/src/codec/default_codec.rs:323-351 | every pair of a vector of 2^32 booleans and unit decodes, without an error, to the pair of the empty vector and unit |
| KnownBytes.ProstScalars | acktor/src/codec/prost_codec.rs:130-143 | an integer, a boolean and unit are field 1 as a varint, or no bytes for a default value: 150 is 08 96 01 |
| KnownBytes.ProstBytes | acktor/src/codec/prost_codec.rs:144-145 | a short string or byte vector is 0A, its length and its bytes |
| KnownBytes.ProstPacked | acktor/src/codec/prost_codec.rs:34-49 | a vector is 0A, the length of its packed elements and these |
| KnownBytes.ProstVector | acktor/src/codec/prost_codec.rs:34-49 | 3, 270 and 86942 are the bytes that the encoding guide gives |
| KnownBytes.ProstSigned | acktor/src/codec/prost_codec.rs:12-20 | 0, -1 and 1 in a vector are 0, 1 and 2 |
| KnownBytes.ProstParts | acktor/src/codec/common_codec.rs:73-212 | the part of an Option or a successful Result is field 1, nothing is no bytes |
| KnownBytes.ProstError | acktor/src/codec/common_codec.rs:73-156 | the error of a Result is field 2 |
| KnownBytes.ProstPair | acktor/src/codec/prost_codec.rs:242-256 | the elements of a pair are fields 1 and 2, each with its length |
| KnownBytes.LastScalarWins | acktor/src/codec/prost_codec.rs:121-126 | of several occurrences of a scalar the last counts, other fields are skipped, none means zero, and another wire type is an error |
| KnownBytes.RepeatedInTurn | acktor/src/codec/prost_codec.rs:121-126 | a repeated field collects its occurrences in order, packed or single |
| KnownBytes.OneOfInTurn | acktor/src/codec/common_codec.rs:144-158 | of several results the last counts, be it a value or an error |
| KnownBytes.WideNumber | acktor/src/codec/prost_codec.rs:121-126 | a number too wide for its type is an error |
| KnownBytes.DefaultNumbers | acktor/src/codec/default_codec.rs:14-41 | a number has its low byte first, a negative one its two's complement |
| KnownBytes.DefaultVector | acktor/src/codec/default_codec.rs:178-211 | a vector is its elements one after the other |
| KnownBytes.DefaultPair | acktor/src/codec/default_codec.rs:323-375 | each element of a pair has its length in four bytes, low byte first, before it |
| KnownBytes.DefaultBooleans | acktor/src/codec/default_codec.rs:66-89 | a boolean is one byte, any byte but 0 is true, and a wrong number of bytes is an error |
| Encoders.EncodePackedVarint | acktor/src/codec/prost_codec.rs:34-49 | the loop appends exactly the packed field and leaves the buffer before it alone |
| Encoders.SumVarintLens | acktor/src/codec/prost_codec.rs:22-32 | the summing loop computes the length of the packed payload |
| Encoders.ProstEncode | acktor/src/codec/prost_codec.rs:242-256 | appends exactly the encoding, of exactly the announced length |
| Encoders.ProstEncodeToBytes | acktor/src/codec/common_codec.rs:115-141 | yields the bytes that `encode` appends |
| Encoders.DefaultEncode | acktor/src/codec/default_codec.rs:363-375 | appends exactly the encoding, of exactly the announced length |
| Encoders.EncodeElement | acktor/src/codec/default_codec.rs:323-336 | appends the length modulo 2^32 and the element |
| Encoders.DecodeElement | acktor/src/codec/default_codec.rs:338-351 | splits one frame off the buffer, or fails without one |
| Encoders.DefaultDecodeTuple | acktor/src/codec/default_codec.rs:377-391 | the element by element decoder computes the specified decoding |
| DoubleMaps.MeetByLookup | acktor-ipc/src/double_map.rs:429-509 | the lookups in the two maps decide how a pair of keys meets the set of triples |
| DoubleMaps.MeaningUnique | acktor-ipc/src/double_map.rs:416-509 | what two inverse maps mean is unique in both keys |
| DoubleMaps.PrimaryDecides | acktor-ipc/src/double_map.rs:531-540 | equal primary maps have equal secondary maps, and primary equality is equality of the sets |
| DoubleMaps.InsertedUnique | acktor-ipc/src/double_map.rs:480-509 | insertion keeps both keys unique |
| DoubleMaps.InsertedExactly | acktor-ipc/src/double_map.rs:480-509 | after an insertion the new triple is there if its keys belong to one triple or to none, the one that it replaces is gone, and every other one is there exactly as before |
| DoubleMaps.ExtendLast | acktor-ipc/src/double_map.rs:633-643 | extending by one triple more inserts it last, with the same effect |
| DoubleMaps.DoubleMap.Len | acktor-ipc/src/double_map.rs:113-115 | the number of triples |
| DoubleMaps.DoubleMap.Clear | acktor-ipc/src/double_map.rs:129-132 | no triple is left in either map |
| DoubleMaps.DoubleMap.GetByKey1 | acktor-ipc/src/double_map.rs:181-187 | finds the value of the triple with that first key if there is one |
| DoubleMaps.DoubleMap.GetByKey2 | acktor-ipc/src/double_map.rs:190-197 | finds the value of the triple with that second key if there is one |
| DoubleMaps.DoubleMap.GetByKeys | acktor-ipc/src/double_map.rs:202-215 | finds the value of the triple with both keys if there is one |
| DoubleMaps.DoubleMap.RemoveEntryByKey1 | acktor-ipc/src/double_map.rs:370-378 | removes exactly the triple with that first key and returns it |
| DoubleMaps.DoubleMap.RemoveEntryByKey2 | acktor-ipc/src/double_map.rs:382-393 | removes exactly the triple with that second key and returns it; its `expect` never fails |
| DoubleMaps.DoubleMap.RemoveEntryByKeys | acktor-ipc/src/double_map.rs:399-413 | removes the triple with both keys, or leaves both maps as they were |
| DoubleMaps.DoubleMap.Insert | acktor-ipc/src/double_map.rs:480-509 | on success the new triple is stored, with its new value, and every triple under other keys is as before; the old value under the same keys is returned; a rejection names the conflict and leaves both maps as they were |
| DoubleMaps.DoubleMap.Entry | acktor-ipc/src/double_map.rs:429-469 | classifies keys exactly like `insert` |
| DoubleMaps.DoubleMap.OrInsert | acktor-ipc/src/double_map/entry.rs:51-57 | returns the stored value, after inserting it if the entry was vacant |
| DoubleMaps.DoubleMap.RemoveOccupied | acktor-ipc/src/double_map/entry.rs:242-246 | removes and returns exactly the triple of the entry |
| DoubleMaps.DoubleMap.Retain | acktor-ipc/src/double_map.rs:141-152 | leaves exactly the kept triples with their new values, in both maps, for any decisions of the closure, which sees each entry once |
| DoubleMaps.DoubleMap.Extend | acktor-ipc/src/double_map.rs:633-643 | equals the left fold of insertion |
| DoubleMaps.DoubleMap.Equals | acktor-ipc/src/double_map.rs:537-539 | comparing the primary maps decides equality of the sets and of both maps |
| Registry.LabelsAndRegistry | acktor-ipc/src/node/actor_mgr.rs:66-203 | in every run with concurrent registration, eviction and closing: keys are mailbox indices, a label's actor is registered or closed, two labels share only a closed actor |
| Registry.StepKeeps | acktor-ipc/src/remote/registry.rs:82-160 | every atomic step of the manager and of other threads keeps the books in order |
| Registry.SweepLabelExactly | acktor-ipc/src/node/actor_mgr.rs:69-70 | a cleanup step drops a label if and only if its actor is closed |
| Registry.Cleanup | acktor-ipc/src/node/actor_mgr.rs:66-74 | whatever happens meanwhile, a cleanup drops every label whose actor was closed when it began, and no label or entry of an actor still open at its end |
| Registry.CleanupEntries | acktor-ipc/src/node/actor_mgr.rs:66-70 | a cleanup drops the registry entry of every actor that was closed when it began, unless someone registers it again meanwhile |
| Registry.OtherDoes | acktor-ipc/src/remote/registry.rs:97-160 | a registered actor has an entry, and a lookup evicts the entry of a closed mailbox and no other |
| ActorManager.RemoteMailboxRegistry.Get | acktor-ipc/src/remote/registry.rs:97-110 | returns an open mailbox, evicts a closed one |
| ActorManager.RemoteMailboxRegistry.InsertMailbox | acktor-ipc/src/remote/registry.rs:151-160 | inserts under the mailbox's own index unless present |
| ActorManager.RemoteMailboxRegistry.ContainsIndex | acktor-ipc/src/remote/registry.rs:118-130 | tells whether an open mailbox is registered, evicts a closed one |
| ActorManager.RemoteMailboxRegistry.Remove | acktor-ipc/src/remote/registry.rs:137-139 | removes and returns the entry of an index |
| ActorManager.ActorMgr.CreateActor | acktor-ipc/src/node/actor_mgr.rs:76-119 | labels a new actor under a free label; it is then registered or closed, whatever other threads did |
| ActorManager.ActorMgr.GetActor | acktor-ipc/src/node/actor_mgr.rs:121-141 | finds the mailbox of a label if and only if its actor is open, never another actor's, and evicts at most the entry of a closed one |
| ActorManager.ActorMgr.AddActor | acktor-ipc/src/node/actor_mgr.rs:143-174 | adds the label if and only if it is free and the actor is not registered by then, and changes no label otherwise; the actor is then registered or closed |
| ActorManager.ActorMgr.RemoveActor | acktor-ipc/src/node/actor_mgr.rs:190-194 | drops exactly the labels of the actor, and exactly its entry from what others left of the registry |
| ActorManager.ActorMgr.RemoveLabel | acktor-ipc/src/node/actor_mgr.rs:195-201 | drops the label and the entry of its actor |
| ActorManager.ActorMgr.Task | acktor-ipc/src/node/actor_mgr.rs:66-74 | the two retain loops, interleaved with other threads, drop every label and every entry of actors that were closed at the start, but for entries that are registered again, and none of an actor still open |
| NodeTables.NodeWaits | acktor-ipc/src/node/context.rs:66-123 | whenever a node waits: no listener is without a task, tasks carry each label exactly once, children are the sessions and the actor manager, and a new session under a free label meets neither of its keys in the two-key map |
| NodeTables.InsertionSucceeds | acktor-ipc/src/node.rs:154-198 | the insertion whose outcome is discarded never fails |
| NodeTables.HandleKeeps | acktor-ipc/src/node/context.rs:155-197 | handling any event keeps the tables in order |
| NodeTables.EventDoors | acktor-ipc/src/node.rs:256-298 | what each event does to the labels of the listeners, and which events stop the node |
| NodeTables.BuiltLabels | acktor-ipc/src/node.rs:102-115 | a node is built with exactly the listeners that it was given, the newest last |
| NodeTables.ConnectionMakesSession | acktor-ipc/src/node.rs:154-198 | a connection under a free label makes exactly one session and one child if its actor starts, and otherwise nothing |
| NodeTables.SessionGone | acktor-ipc/src/node.rs:441-456 | an ended session, its label and its child are gone, and all others stay |
| NodeTables.LoopInTurn | acktor-ipc/src/node/context.rs:155-200 | a node handles its events one by one, each after it started the tasks of new listeners |
| NodeActor.NodeActor.WithListener | acktor-ipc/src/node.rs:102-115 | a listener replaces one with the same label |
| NodeActor.NodeActor.AddListener | acktor-ipc/src/node.rs:256-278 | adds a listener unless its label is taken |
| NodeActor.NodeActor.PostStart | acktor-ipc/src/node.rs:221-234 | the actor manager becomes a child |
| NodeActor.NodeActor.CreateSession | acktor-ipc/src/node.rs:154-198 | creates a session under a free label in the two-key map and among the children; the discarded insertion is a success |
| NodeActor.NodeActor.SessionTerminated | acktor-ipc/src/node.rs:441-456 | removes an ended session from both tables |
| NodeActor.NodeContext.RemoveListener | acktor-ipc/src/node.rs:280-298 | removes a label and aborts its accept task |
| NodeActor.NodeContext.AbortAcceptTask | acktor-ipc/src/node/context.rs:55-64 | removes exactly the tasks of a label |
| NodeActor.NodeContext.PrepareToWait | acktor-ipc/src/node/context.rs:66-84 | afterwards no listener is without a task and each label has exactly one task |
| NodeActor.NodeContext.HandleEvent | acktor-ipc/src/node/context.rs:160-192 | handling an event equals its specification and keeps the tables in order |
| NodeActor.NodeContext.Panic | acktor-ipc/src/node/context.rs:114-119 | a panicked accept task takes its label with it and the node stops |
| NodeActor.NodeContext.RunLoop | acktor-ipc/src/node/context.rs:155-200 | the loop equals the fold of its events, and aborts all tasks when it is left |

## Left out

- Transports (pipes, web sockets), the process boundary and socket errors: a connection is a FIFO of frames that may refuse a frame, lose its tail or break.
- prost, zerocopy, tokio and DashMap themselves: the model uses the protobuf encoding rules, an alignment check, channels, clocks and atomic map operations. Deprecated protobuf groups are rejected by the reader.
- Floating point values in both codecs, and the packed fixed encoder, which serves only them.
- Machines whose `usize` is not 64 bits wide; encodings of 2^64 bytes or more.
- Error values of the codecs: a failed decoding is `None`. The error of a `Result` is its rendered string, as on the wire.
- The frame codec and the control message codec over generated prost types: frames travel as values.
- The contents of creation and lookup replies, and the panics of a session's handlers.
- `ActorAdaptor`, stable type ids, the other derive macros, observers, logging.
- Local send variants, permits and recipients; a full mailbox delays a sender, which the free order of arrivals covers.
- Calls of context methods from hooks: hooks only return, fail or panic. The task of a cron actor may call them.
- Capacity methods and iterators of the two-key map; value-only forms of its removals, which project the returned triple; mutable lookups.
- The node's commands that only forward to the actor manager or to a session, and a node whose actor manager does not start.
