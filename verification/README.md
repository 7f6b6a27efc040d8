# Verification of the directive proxy's core

A Dafny model of the parts of the proxy whose correctness is hardest to see, with proofs. `dfyconfig.toml` lists the
whole project.

- **Replay body store** (`Admission`, `ControllerImpl`, `ReplayLog`, `StoreImpl`, `MemoryBound`). The FIFO memory
  allocator with its race between grant and timeout, the reference-counted single-writer, many-reader
  log, and the two together: any number of stores on one controller stay within the configured memory.
- **Exchange and recovery** (`ExchangeTrace`, `ExchangeImpl`, `FinishRace`). The phase machine, the recovery cycle and the
  transport's retry loop report facts to a monitor. The methods prove that every run is accepted by it; the
  lemmas say what acceptance means for a whole run.
- **SSE parser** (`SseParser`, `SseParserImpl`, `SseChunks`, `SseLongLines`, `SseCutSensitivity`, `SseEvents`,
  `SseMeaning`). The incremental parser against a line-by-line reading of the whole stream, for every way of cutting it,
  that reading against the block semantics of section 9.2.6 of the WHATWG HTML Standard with the parser's own size
  limit, and both against what lines and events say in terms of their bytes.
- **Event dispatcher** (`Dispatcher`, `DispatcherImpl`). Two atomic counters, per-worker channels and reference-counted
  records, one atomic operation per step.
- **Module lanes** (`Lane`, `LaneImpl`). Handlers on callers' goroutines and on an ordered lane, barriers, the failed flag, Finish.
- **Redis client cache** (`ClientCache`, `ClientCacheImpl`). A bounded cache with leases and eviction of idle entries.
- **Body stages** (`BodyStages`, `BodyStagesImpl`). The mutated request body, the observed response body and the captured response.

`Prelude` and `Sums` hold what they share.

Concurrency is modelled as a state machine: each critical section or atomic operation is one step and a run is any
interleaving of steps. Objects that the source updates in place are classes whose methods are proved against the
same steps. Contexts, clocks, the upstream, the controller, module handlers and map iteration order are parameters
or free choices. Sizes and times are mathematical integers.

## What turned out false

Each of these is proved with a concrete input or schedule and with the exact condition under which the expected
property does hold.

- The end of a round trip need not be reported before RequestFinished: a body's finisher that has won the closed flag
  but not yet dispatched can be overtaken by Complete. Complete is safe exactly when the body's end has been reported
  (`FinishRace.SafeToComplete`). The repository's handler is on the safe side: it defers Complete
  (internal/core/proxy/handler.go:164 and 181), and the response body is read and closed on the same goroutine before
  (`HandlerIsInOrder`).
- A line longer than the maximum plus 64 bytes that is not a data field can make the callbacks depend on how the stream
  is cut. A comment is reported clipped, an open event is flagged truncated, and outside any event a line that merely
  begins with "data" is reported as an event that does not exist (`SseCutSensitivity.PhantomEvent`). Without any flag, an
  event's type, its retry time, and the last id, which outlives the event, can be clipped when their line comes before
  the data, as it usually does (`SilentLoss`). The exact condition on the line is `CutSafety`, on a whole stream
  `StreamSafety`, on the line's bytes `SseLongLines.WhatLinesSay`.
- A store without a source that was declared a positive length ends cleanly after no bytes (`ReplayLog.SourcelessIsEmpty`).
- A handler on a caller's goroutine can start after another handler of the instance failed, because the flag is stored
  after the handler returns and checked before it starts (`Lane.FailureStopsAll`).
- A failed chunk mutation is reported as the end of the body when the same read also returned EOF; the store's
  readers never do that (`BodyStages.FailureIsReported`, `StoreHidesNothing`).
- A cache release function called twice takes another lease's reference (`ClientCache.ReleaseKeeps`).

## Model

| member | source | states |
|---|---|---|
| `Admission.NoLostWakeup` | internal/core/bodystore/controller.go:188-243 | In every state reachable by any interleaving of critical sections, `used` is the sum of the outstanding reservations, it and the queue are within their limits, and a non-empty queue means that its head does not fit and somebody holds memory |
| `Admission.RunKeeps` | internal/core/bodystore/controller.go:171-303 | The allocator invariant (exact accounts, queue lists exactly the waiting calls in arrival order, no overtaking, settled head) survives every run |
| `Admission.StepKeeps` | internal/core/bodystore/controller.go:171-303 | Each single critical section (arrival, grant taken, wait ended, reservation closed) keeps that invariant |
| `Admission.DispatchKeeps` | internal/core/bodystore/controller.go:293-303 | Dispatching settles the queue and changes a call only by granting a waiting one |
| `Admission.ClampUnreachable` | internal/core/bodystore/controller.go:283-291 | A release of an outstanding reservation never makes `used` negative: the clamp is dead code |
| `Admission.GrantsFollowArrival` | internal/core/bodystore/controller.go:188-243 | Over any two consecutive runs, a later arrival is granted only after an earlier waiter was granted or gave up |
| `Admission.FailureCostsNothing` | internal/core/bodystore/controller.go:209-243 | A call that ended in an error or was given back contributes nothing to `used`, whatever raced its timeout |
| `Admission.ExpiredWaitFails` | internal/core/bodystore/controller.go:216-243 | When a wait ends, with or without a grant racing it, the call fails and the memory accounted is that of the other calls |
| `Admission.RunAdvances` | internal/core/bodystore/controller.go:171-243 | A call keeps its size, moves only forward and ends in one final state: each admission has one outcome |
| `Admission.RemoveExact` | internal/core/bodystore/controller.go:222-232 | Taking a cancelled waiter out keeps the others, in order |
| `Admission.HeadCanBeServed` | internal/core/bodystore/controller.go:283-303 | No deadlock: in every state that keeps the invariant, the holders taking and giving back what they have is a run that serves whoever waits at the head |
| `Admission.WaitMayEnd` | internal/core/bodystore/controller.go:209-243 | A wait may end at any time before its reservation is taken, and its critical sections, run undisturbed, are the whole context branch of admit |
| `ControllerImpl.Controller.DispatchLocked` | internal/core/bodystore/controller.go:293-303 | The popping loop computes the dispatch function of the specification |
| `ControllerImpl.Controller.Admit` | internal/core/bodystore/controller.go:171-204 | Each size gets the answer of the code, in its order: too large, over capacity, unmetered, reserved at once, waiting, or queue full; the new accounts and queue are spelled out and the invariant is kept |
| `ControllerImpl.Controller.Collect` | internal/core/bodystore/controller.go:212-221 | A reservation received in time is held and nothing else changes; one received too late is closed and the call failed |
| `ControllerImpl.Controller.Expire` | internal/core/bodystore/controller.go:222-243 | Leaving the queue, or giving a raced grant back, refines the undisturbed expired wait |
| `ControllerImpl.Controller.RemoveWaiter` | internal/core/bodystore/controller.go:224-230 | The search loop removes exactly the first occurrence of the waiter |
| `ControllerImpl.Controller.Close` | internal/core/bodystore/controller.go:133-138 | Closing a reservation releases once and dispatches; further calls change nothing |
| `ReplayLog.ReadersSeeTheStream` | internal/core/bodystore/store.go:238-434 | For every interleaving of ingest, append, open, read, close and retire, a reader has been given exactly the first `offset` bytes of the ingested stream, and one that saw EOF the whole body, of the declared length if one was declared |
| `ReplayLog.ReservationLifetime` | internal/core/bodystore/store.go:135-192 | `refs` is owner plus ingester plus live readers; discarded or cleaned storage has no live reader; the reservation is held exactly while the owner or a reader needs the bytes, and released once |
| `ReplayLog.StreamGrows` | internal/core/bodystore/store.go:301-321 | Bytes given stay given, the stream only grows, and after finish neither the stream nor the terminal error changes |
| `ReplayLog.SourcelessIsEmpty` | internal/core/bodystore/store.go:61-69 | Readers of a store without a source get nothing and then end-of-file; that is a body of the declared length if and only if no positive length was declared |
| `ReplayLog.RunKeeps` | internal/core/bodystore/store.go:83-447 | The store invariant holds in every state of every run |
| `ReplayLog.StepKeeps` | internal/core/bodystore/store.go:83-447 | Each critical section of the store keeps it |
| `ReplayLog.DropKeepsCount` | internal/core/bodystore/store.go:348-375 | Dropping one reference of an exact count leaves an exact count and the right discard, cleanup and reservation flags |
| `ReplayLog.IngestJudges` | internal/core/bodystore/store.go:238-299 | A chunk is taken over exactly when it fits the declared length and the maximum and the observer agrees, and otherwise stops ingest with the reason; the source’s end is an error exactly when the declared length was not reached |
| `ReplayLog.OpensWhileOwned` | internal/core/bodystore/store.go:148-165 | A reader at the start of the stream is handed out exactly while the owner has not retired the store |
| `ReplayLog.ReadGives` | internal/core/bodystore/store.go:377-416 | A read gives the next bytes as far as they have come, the terminal error at the end of a finished stream, and otherwise nothing yet |
| `ReplayLog.ReadsReachTheEnd` | internal/core/bodystore/store.go:377-416 | Once ingest is past finish, a live reader with b bytes to go has been given the whole stream and its terminal error after at most b + 1 reads of any size |
| `ReplayLog.WholeBodyIsServed` | internal/core/bodystore/store.go:238-416 | Every body within the limits, of the declared length if any, is served whole: ingest, finish, open and reads of any size are a run that gives a reader every byte and a clean end |
| `ReplayLog.IngestEnds` | internal/core/bodystore/store.go:238-299 | From any state ingest can come to its end and give its reference back, whatever owner and readers do |
| `ReplayLog.ClosesDown` | internal/core/bodystore/store.go:167-192 | From any state, ingest coming to its end, the readers closing and the owner retiring are a run that leaves no bytes, no reader and no reservation |
| `StoreImpl.KeptIsPrefix` | internal/core/bodystore/store.go:238-299 | Whatever the source does, ingest keeps a prefix of what it delivered within both limits, and succeeds only on the declared length |
| `StoreImpl.IngestStoresKept` | internal/core/bodystore/store.go:238-310 | Unless the bytes are discarded, the store holds exactly what ingest kept |
| `StoreImpl.IngestStopsWhere` | internal/core/bodystore/store.go:238-299 | Ingest keeps everything up to the first turn that stops it and ends with that turn’s reason: its context, a body longer than declared or allowed, the observer, or the source’s own end |
| `StoreImpl.ScriptIsRun` | internal/core/bodystore/store.go:238-299 | For every script of source answers the loop is a run of the replay log’s ingest steps with the same log, the same bytes and the same verdict |
| `StoreImpl.Store.Stream` | internal/core/bodystore/store.go:120-139 | A store with a source starts with the owner’s and the ingester’s references and its reservation |
| `StoreImpl.Store.OpenReader` | internal/core/bodystore/store.go:148-165 | A reader is handed out, at offset zero, exactly when the store is neither cleaned nor retired |
| `StoreImpl.Store.RetireOwner` | internal/core/bodystore/store.go:167-177 | The owner’s reference is dropped once |
| `StoreImpl.Store.ReleaseRefLocked` | internal/core/bodystore/store.go:348-363 | Refines the reference-dropping section of the specification |
| `StoreImpl.Store.CleanupLocked` | internal/core/bodystore/store.go:365-375 | Refines cleanup; a second call changes nothing |
| `StoreImpl.Store.AppendChunk` | internal/core/bodystore/store.go:301-310 | Appends unless the store is cleaned or discarding |
| `StoreImpl.Store.FinishResult` | internal/core/bodystore/store.go:312-321 | Only the first result is recorded |
| `StoreImpl.Store.IngestTurn` | internal/core/bodystore/store.go:249-292 | One turn of the loop judges the bytes as the specification does |
| `StoreImpl.Store.Ingest` | internal/core/bodystore/store.go:238-299 | The ingest loop, for every script of source answers, computes the recursive specification and then finishes and leaves once |
| `StoreImpl.Store.ReadAtLocked` | internal/core/bodystore/store.go:418-434 | Copying from the chunk list into an array yields the requested window of the whole body and touches nothing else |
| `StoreImpl.Store.CopyChunk` | internal/core/bodystore/store.go:421-432 | The loop body extends the copied window by one chunk |
| `StoreImpl.Reader.Read` | internal/core/bodystore/store.go:377-416 | One pass yields the next bytes, or the terminal error or the end of the wait and the reader’s reference back, or waits; at the end of a complete store it ends with the stored error, of an incomplete one it waits; an empty buffer and a closed reader change nothing |
| `StoreImpl.Reader.Close` | internal/core/bodystore/store.go:436-447 | The reader’s reference is dropped once |
| `MemoryBound.RetainedBytesAreReserved` | internal/core/bodystore/store.go:102-118 | For any number of stores sharing one controller, the bytes retained by all of them, plus one chunk for each store that still counts, are at most `used`, which is at most the configured maximum |
| `MemoryBound.NothingLeaks` | internal/core/bodystore/store.go:348-375 | When every reservation is given back or sits behind a store nobody needs, nothing is in use, nothing retained, and nobody waits |
| `MemoryBound.AdmittedFits` | internal/core/bodystore/store.go:83-118 | What admission reserves for a request is the least that satisfies the stream built for it, and admission refuses for size exactly what stream would refuse |
| `MemoryBound.LimitsInForce` | internal/core/bodystore/store.go:83-118 | The request’s own positive limit and chunk size are in force, then the configured ones, then 64 KiB; the reservation is the declared length, or else the limit, and one chunk |
| `MemoryBound.PlacedAsChecked` | internal/core/bodystore/store.go:102-139 | A held reservation of the right size becomes a store with those limits, one that is too small is given back, and a request that is too large leaves it with its holder |
| `MemoryBound.RunKeeps` | internal/core/bodystore/store.go:83-375 | Each store’s ceiling plus one chunk is at most its reservation in every state of every run of the whole system |
| `MemoryBound.ControlSpares` | internal/core/bodystore/controller.go:171-303 | Admission traffic never touches a reservation that a store holds or has returned |
| `MemoryBound.ControlIsFree` | internal/core/bodystore/controller.go:171-303 | Admission goes on whatever the stores do; only a store gives back its own reservation |
| `MemoryBound.StoreRunsFreely` | internal/core/bodystore/store.go:83-447 | Every run of a store on its own is a run of it among any number of others, which do not notice |
| `SseParserImpl.Parser.Feed` | internal/core/sse/parser.go:40-68 | The in-place loop, with its CR look-ahead and clipping, computes the functional parser |
| `SseParserImpl.Parser.ClipPending` | internal/core/sse/parser.go:46-56 | An unterminated line is bounded and an open event flagged, as in the specification |
| `SseParserImpl.Parser.Close` | internal/core/sse/parser.go:70-79 | Closing ends a pending CR line and nothing else |
| `SseParserImpl.Parser.ProcessLine` | internal/core/sse/parser.go:81-120 | One line updates exactly the fields the specification says |
| `SseParserImpl.Parser.ApplyField` | internal/core/sse/parser.go:98-119 | A field updates data, type, id or retry |
| `SseParserImpl.Parser.AppendData` | internal/core/sse/parser.go:122-129 | A data value is kept or cut and counted |
| `SseParserImpl.Parser.Dispatch` | internal/core/sse/parser.go:131-152 | An event is reported, numbered, exactly when there is data or something was cut; its data is the kept lines joined by line feeds |
| `SseParserImpl.Parser.ResetEvent` | internal/core/sse/parser.go:154-160 | Everything but the last id and the numbering starts afresh |
| `SseChunks.WholeFeed` | internal/core/sse/parser.go:40-79 | A stream fed in one call gives the callbacks of its lines, however long they are |
| `SseChunks.ChunksDoNotMatter` | internal/core/sse/parser.go:40-79 | Every way of cutting a stream, inside CRLF too, gives the callbacks of the whole, if each terminated line is safe where it stands: at most the maximum plus 64 bytes, a data field of any length, or a line that does the same however it is clipped and whose clipping flags nothing |
| `SseChunks.FittingIsSafe` | internal/core/sse/parser.go:46-56 | Lines of at most the maximum plus 64 bytes and data fields are safe wherever they stand |
| `SseChunks.FeedAllNear` | internal/core/sse/parser.go:40-68 | However such a stream is cut, after each part the parser has processed the decided lines, and what is pending is the open line, whole or without some of its bytes past the limit |
| `SseChunks.DecidedRun` | internal/core/sse/parser.go:42-56 | Draining a buffer processes exactly the lines that are decided and leaves the open tail |
| `SseChunks.TailExtends` | internal/core/sse/parser.go:42-56 | Decided lines stay decided when more bytes arrive |
| `SseCutSensitivity.CutSafety` | internal/core/sse/parser.go:40-79 | After any whole lines that are safe, in whatever state they leave the event: the stream goes on with a further line and anything safe, and can be cut anywhere, if and only if that line is safe; an empty data field and the end of its event are the one continuation that decides |
| `SseCutSensitivity.StreamSafety` | internal/core/sse/parser.go:40-79 | For every stream, with any number of overlong lines: all its lines are safe if and only if after each number of them the deciding continuation can follow and be cut anywhere |
| `SseLongLines.WhatLinesSay` | internal/core/sse/parser.go:81-120 | Exactly which overlong lines do the same however they are clipped: unknown fields always, comments and types never, an id if a NUL is kept or its kept bytes are the present id and it ends in a NUL, a retry time if the kept bytes set none, or zero by zeros only, or the present one that no ending of the lost bytes changes |
| `SseCutSensitivity.PhantomEvent` | internal/core/sse/parser.go:46-56 | A single overlong line that begins with "data" but is no data field means no callback; cut before its terminator it is reported as a truncated, empty event |
| `SseCutSensitivity.SilentLoss` | internal/core/sse/parser.go:46-56 | An overlong type, id or retry time before its data is reported whole from one piece, and clipped, with no flag, when the stream is cut behind its line |
| `SseCutSensitivity.StatesArise` | internal/core/sse/parser.go:122-152 | Safe lines lead to all states of an event: none, begun, and begun and flagged |
| `SseEvents.ParserMeetsSpecification` | internal/core/sse/parser.go:40-160 | Fed in any pieces, the parser reports exactly the blocks of a stream whose lines are safe: per block its comments and one event with type, data, id, retry and flag taken from the block as a whole |
| `SseEvents.KeptIsLongest` | internal/core/sse/parser.go:122-129 | An event’s data is the longest prefix of its data values whose lengths sum to at most the maximum |
| `SseEvents.NumberedInOrder` | internal/core/sse/parser.go:131-152 | Events are numbered consecutively, across blocks that report none |
| `SseEvents.RunRenders` | internal/core/sse/parser.go:81-160 | Line-by-line processing from any clean state gives the block meaning of the lines |
| `SseEvents.ReferenceRenders` | internal/core/sse/parser.go:81-160 | The callbacks of a stream are those of its blocks, the byte-order mark dropped |
| `SseEvents.BlankLineFires` | internal/core/sse/parser.go:131-152 | The empty line after a block reports its one event, if it had data, and starts afresh |
| `SseMeaning.AnyTerminator` | internal/core/sse/parser.go:45-65 | CR, LF and CRLF end lines alike, in any mixture |
| `SseMeaning.BomIsDropped` | internal/core/sse/parser.go:81-85 | A byte-order mark before the stream changes nothing |
| `SseMeaning.FieldOfLine` | internal/core/sse/parser.go:96-101 | A field’s name goes up to the first colon and its value is the rest less one space; without a colon the value is empty |
| `SseMeaning.FieldMeans` | internal/core/sse/parser.go:96-129 | What a field line does to the event in progress, by its name and value, with or without the space |
| `SseMeaning.CommentMeans` | internal/core/sse/parser.go:86-101 | A line that starts with a colon is a comment with the rest as its text |
| `SseMeaning.ValuesOfLine` | internal/core/sse/parser.go:96-129 | A field line adds its value to the values of its own name in its block, and to no other, and no comment |
| `SseMeaning.ValuesOfComment` | internal/core/sse/parser.go:86-95 | A comment line adds its text to the comments of its block and no value |
| `SseMeaning.ParseIntReads` | internal/core/sse/parser.go:111-118 | Digits whose number fits 64 bits are read, with or without a sign, and larger ones are not |
| `SseMeaning.ParseIntRejects` | internal/core/sse/parser.go:111-118 | Nothing but digits after at most one sign is read |
| `SseMeaning.JoinComesApart` | internal/core/sse/parser.go:131-152 | Data lines joined for an event come apart again |
| `SseMeaning.EventSays` | internal/core/sse/parser.go:122-152 | A block has an event exactly if it has data; its data gives back the longest prefix of the data values that fits the maximum, the flag says whether that is all, and type, id and retry time are the latest valid ones |
| `SseMeaning.EventsComeFromBlocks` | internal/core/sse/parser.go:131-160 | Every event the lines stand for is the event of one of their blocks |
| `SseMeaning.ReportedData` | internal/core/sse/parser.go:40-160 | Fed in any pieces, every event reported belongs to a block of the stream, and its data gives back that block’s data lines, as many from the first as the maximum admits |
| `ExchangeTrace.Numbered` | internal/core/exchange/exchange.go:108-148 | In an accepted trace round trips number at most the budget and all but an open last one are closed |
| `ExchangeTrace.BeginsInOrder` | internal/core/exchange/exchange.go:108-148 | Round trip n is the n-th to begin and begins with every earlier one closed |
| `ExchangeTrace.RetriesAreEarned` | internal/core/exchange/exchange.go:150-189 | Round trip n + 1 begins only after n was closed and a retry decided and accepted: below the round-trip budget, replayable, within the time budget, its delay below what remained, and no response of n handed out |
| `ExchangeTrace.NothingAfterResponse` | internal/core/proxy/recovery_transport.go:153-220 | Once a response is handed out, or the request is finished, no round trip or recovery begins |
| `ExchangeTrace.CyclesBalance` | internal/core/exchange/recovery.go:43-213 | Every recovery cycle started is decided at most once and finished once, with retry_requested exactly when its retry was accepted |
| `ExchangeTrace.CyclesEndFirst` | internal/core/proxy/recovery_transport.go:274-303 | No round trip is closed or begun, no response handed out and no request finished with a recovery cycle open |
| `ExchangeTrace.AlwaysJustified` | internal/core/exchange/exchange.go:150-189 | In every accepted trace the facts that justify the latest state are on record for the latest round trip |
| `ExchangeImpl.BudgetTightens` | internal/core/proxy/recovery_transport.go:224-240 | The effective budget is the smaller of the policy’s and the server’s where both are set, the one that is set otherwise, and never less than one round trip; it does not depend on the policy being limited first |
| `ExchangeImpl.EffectiveCapture` | internal/core/proxy/recovery_transport.go:224-240 | The capture limit is lowered to the server’s and nothing else of the policy changes |
| `ExchangeImpl.Exchange.Configure` | internal/core/exchange/program.go:15-65 | Accepted once, before any round trip; a program that does not start leaves the exchange configured |
| `ExchangeImpl.Exchange.ConfigureRecovery` | internal/core/exchange/exchange.go:191-210 | Sets the tightest of policy and server budgets |
| `ExchangeImpl.Exchange.BeginRoundTrip` | internal/core/exchange/exchange.go:108-148 | Begins exactly when nothing forbids it, with the error of the first thing that does, and then numbers the round trip next |
| `ExchangeImpl.Exchange.BeginUpstream` | internal/core/exchange/program.go:185-211 | Only the current round trip moves on to awaiting its response |
| `ExchangeImpl.Exchange.BeginRecovery` | internal/core/exchange/exchange.go:212-224 | Accepted for the current round trip before its response streams |
| `ExchangeImpl.Exchange.RequestRecoveryRetry` | internal/core/exchange/exchange.go:150-189 | Commits a retry exactly when no refusal applies; each refusal has its error |
| `ExchangeImpl.Exchange.RecoveryContext` | internal/core/exchange/exchange.go:233-254 | What the controller is told holds when it answers: a retry is allowed exactly when requesting one now would not be refused, an allowed retry is not refused while time remains, and nothing remains just when no time budget is set or it is spent |
| `ExchangeImpl.Exchange.FinishRoundTrip` | internal/core/exchange/program.go:213-253 | Retry, streaming or end, and the round trip closed unless it streams |
| `ExchangeImpl.Exchange.FinishLifecycle` | internal/core/exchange/program.go:297-319 | The end of a round trip is reported by the first caller only |
| `ExchangeImpl.Exchange.FinishUpstream` | internal/core/exchange/response.go:78-90 | The body’s end closes its round trip and clears it |
| `ExchangeImpl.Exchange.Complete` | internal/core/exchange/exchange.go:256-293 | Closes what is open, then finishes the request once |
| `ExchangeImpl.RecoveryCycle.Finish` | internal/core/exchange/recovery.go:200-213 | A cycle is finished by the first caller only |
| `ExchangeImpl.RecoveryCycle.Decide` | internal/core/exchange/recovery.go:74-149 | A cycle decides once; it reports the decision and how it fails: controller error, invalid, over budget, or interrupted |
| `ExchangeImpl.RecoveryCycle.Apply` | internal/core/exchange/recovery.go:151-198 | Turns a standing decision into a retry, a forward or a failure and ends the cycle; without one it fails and reports nothing |
| `ExchangeImpl.RunCycle` | internal/core/exchange/recovery.go:74-213 | For any controller answer the cycle ends as it must, and a retry is reported exactly when it ends in retry_requested |
| `ExchangeImpl.HowCyclesEnd` | internal/core/exchange/recovery.go:74-198 | How a cycle ends, by exact conditions on the action, its delay, the interruption, the elapsed times and the budgets: a retry is requested, a failure or a forward carried out, the decision invalid, the controller unreachable |
| `ExchangeImpl.Recover` | internal/core/proxy/recovery_transport.go:274-303 | With a controller a cycle is opened for the round trip and ends as the answer and the budgets say; without one nothing happens |
| `ExchangeImpl.Prepare` | internal/core/proxy/recovery_transport.go:77-137 | A round trip is sent exactly when nothing outside or in the budgets objects, and otherwise the error of the first objection comes out and what was begun is closed |
| `ExchangeImpl.Attempt` | internal/core/proxy/recovery_transport.go:77-221 | One pass comes to exactly one outcome, given by what it was told from outside and the budgets, and leaves the exchange between round trips or hands it on |
| `ExchangeImpl.Conclude` | internal/core/proxy/recovery_transport.go:142-221 | Everything after the upstream answered comes to what the triggers, the controller’s answer, the capture and the modules make of it |
| `ExchangeImpl.Consulted` | internal/core/proxy/recovery_transport.go:153-165 | With a controller a cycle is opened and ended; the pass goes round again if and only if a retry was asked for, the request may be repeated, its delay passed undisturbed and both budgets hold, and it fails if and only if a failure was asked for and its delay passed |
| `ExchangeImpl.OnError` | internal/core/proxy/recovery_transport.go:143-166 | An error consults the controller exactly when the trigger that fits it, timeout or transport error, is enabled; a retry or fail decision is carried out and anything else returns the error |
| `ExchangeImpl.OnUnexpected` | internal/core/proxy/recovery_transport.go:167-192 | A response that cannot be captured ends the pass, with the recovery error if it has no body or the limit is not positive and the read error otherwise; a captured one consults the controller, whose retry or failure is carried out |
| `ExchangeImpl.RoundTrip` | internal/core/proxy/recovery_transport.go:52-222 | For any answers from outside the result is that of the first pass that does not go round again; at most the policy’s budget tightened by the server’s limit begins, one without a policy, and none unconfigured; its trace is accepted |
| `ExchangeImpl.RetriesAreCarriedOut` | internal/core/proxy/recovery_transport.go:153-220 | After k undisturbed passes whose recovery was triggered and whose retry was asked for within every limit, round trip k + 1 is sent: its response is delivered, and a fail decision on it aborts the request |
| `ExchangeImpl.Serve` | internal/core/exchange/exchange.go:256-293 | Over the transport, the end of the body and Complete, every round trip begun is closed once, every cycle started is finished, the last fact is the single end of the request, and the result is the transport’s |
| `ExchangeImpl.Handle` | internal/core/proxy/handler.go:158-233 | The same for a whole request, from a new exchange through Configure: within the tightened budgets, with the error of configuring or of the missing body if there is one |
| `ExchangeImpl.CompleteExchange` | internal/core/exchange/exchange.go:256-293 | Complete closes whatever the transport handed on |
| `FinishRace.ReportedOnce` | internal/core/exchange/program.go:297-319 | However the end of a body and Complete interleave, the end of the round trip is reported at most once; three operations of one and four of the other bring both to their end, with one report and the request finished |
| `FinishRace.SafeToComplete` | internal/core/exchange/exchange.go:256-293 | When Complete is about to be called: under every continuation the round trip’s end precedes RequestFinished, if and only if the body’s end has been reported already |
| `FinishRace.HandlerIsInOrder` | internal/core/proxy/handler.go:158-233 | In the handler’s order, where the body was closed or never handed out before the deferred Complete, the round trip’s end is never reported late |
| `FinishRace.Overtaken` | internal/core/exchange/program.go:297-319 | Otherwise a schedule exists in which the round trip’s end is reported after the request’s |
| `Dispatcher.CountersAreExact` | internal/core/event/dispatcher.go:88-151 | Under every interleaving the two counters equal what is reserved, queued or in flight, stay within their limits, and a send after a reservation finds room |
| `Dispatcher.SinkOrder` | internal/core/event/trace.go:56-83 | The sink sees the records of a trace in strictly increasing sequence order, each once, for any number of workers |
| `Dispatcher.ReleasedOnce` | internal/core/event/record.go:31-51 | An owned record’s callback runs at most once, never before the sink’s Write returned, and once for every record refused or written |
| `Dispatcher.Drained` | internal/core/event/dispatcher.go:136-151 | When emitters have returned and channels are drained, nothing is reserved and every callback has run |
| `Dispatcher.ClosedTraceEnds` | internal/core/event/trace.go:38-83 | Once no emit of a closed trace is on its way to the lock, the sink sees no record of the trace but those numbered by then, whatever other traces and the workers do |
| `Dispatcher.RunKeeps` | internal/core/event/dispatcher.go:88-151 | The dispatcher invariant holds in every state of every run |
| `Dispatcher.Shard` | internal/core/event/dispatcher.go:223-230 | A trace’s records all go to one existing worker |
| `Dispatcher.ShardSpreads` | internal/core/event/dispatcher.go:223-230 | Two traces share a worker exactly when their hashes agree modulo the number of workers |
| `DispatcherImpl.EventDispatcher.constructor` | internal/core/event/dispatcher.go:37-63 | Non-positive settings fall back to one worker, 1024 records and 64 MiB |
| `DispatcherImpl.EventDispatcher.Reserve` | internal/core/event/dispatcher.go:114-134 | Both limits are taken or neither |
| `DispatcherImpl.EventDispatcher.Enqueue` | internal/core/event/dispatcher.go:88-112 | Accepted exactly when both limits have room; the send’s default branch is dead |
| `DispatcherImpl.EventDispatcher.Emit` | internal/core/event/trace.go:56-83 | Numbers the record next in its trace; a record not accepted is released once and leaves the counters alone; on a closed trace the callback runs at once and nothing else happens |
| `DispatcherImpl.EventDispatcher.CloseTrace` | internal/core/event/trace.go:38-42 | Closing marks the trace and leaves counters, channels and the records under way alone |
| `DispatcherImpl.EventDispatcher.HandleNext` | internal/core/event/dispatcher.go:138-142 | One item is written, released and given back |
| `DispatcherImpl.EventDispatcher.Run` | internal/core/event/dispatcher.go:136-151 | The worker loop hands its whole channel to the sink in order |
| `Lane.LaneOrder` | internal/core/program/scope.go:489-527 | For any schedule, lane handlers run in the order their tasks were accepted, and a handler at most once per dispatch |
| `Lane.NothingAfterRecord` | internal/core/program/scope.go:438-459 | Once a failure is recorded no handler of the instance starts |
| `Lane.FailureStopsAll` | internal/core/program/scope.go:438-459 | No handler starts after one returned an error, under every schedule, if and only if the instance has no handler on callers’ goroutines, or only those and dispatches exclude each other |
| `Lane.CallersOverlap` | internal/core/program/scope.go:317-321 | Two overlapping caller dispatches: the second handler starts after the first one failed |
| `Lane.CallerPassesWorker` | internal/core/program/scope.go:317-333 | A caller handler starts after the lane’s handler failed, dispatches excluding each other or not |
| `Lane.BarrierWaits` | internal/core/program/scope.go:328-346 | A before-commit dispatch whose wait was not cut short returns after every task accepted before it is over |
| `Lane.FinishDrains` | internal/core/program/scope.go:170-186 | Finish finishes the instance at most once and, unless its context ended, after the lane is drained; no handler starts afterwards |
| `Lane.EveryDispatchReturns` | internal/core/program/scope.go:300-543 | No dispatch waits in vain: from every state that keeps the invariant there is a run after which all dispatches have returned and their tasks are over or were refused |
| `Lane.FinishCompletes` | internal/core/program/scope.go:170-186 | Once all dispatches have returned, Finish begins, finds the lane drained and finishes the instance |
| `Lane.FinishGivesUp` | internal/core/program/scope.go:170-186 | A Finish whose context ends while it waits finishes the instance all the same |
| `Lane.FailureIsRecorded` | internal/core/program/scope.go:438-459 | A handler that returned an error has its failure recorded next |
| `Lane.FullLane` | internal/core/program/scope.go:489-516 | At a full lane a dispatch is refused at once unless its policy makes it wait; that wait may be cut short, and then its task is refused |
| `Lane.BarrierMayBeCutShort` | internal/core/program/scope.go:328-346 | A barrier dispatch waits until its task is over or its wait is cut short; any other dispatch of an accepted task may return at once |
| `Lane.RunKeeps` | internal/core/program/scope.go:300-543 | The invariant of instance, lane and log holds in every state of every run |
| `LaneImpl.UpToFailureIsPrefix` | internal/core/program/scope.go:438-459 | The handlers that run are a prefix of the tasks in which only the last may fail, and all of them if none does |
| `LaneImpl.Instance.Submit` | internal/core/program/scope.go:489-516 | A full lane drops, fails or makes the submitter wait, by policy; otherwise the task is queued last |
| `LaneImpl.Instance.Call` | internal/core/program/scope.go:438-459 | A failed instance skips the handler; a handler’s error fails the instance |
| `LaneImpl.Instance.Run` | internal/core/program/scope.go:518-527 | After any number of turns the worker has run the handlers of what it took, up to the first failure, whose error is kept |
| `LaneImpl.Instance.Finish` | internal/core/program/scope.go:170-186 | Closes the lane and finishes the instance, once, after the lane is drained or, if the context ends first, with the rest still queued |
| `ClientCache.CacheIsSound` | internal/adapter/directiveredis/client_cache.go:40-127 | In every history whose leases are each released once: within capacity, references equal outstanding leases, a leased client is open until the cache is closed, no client is closed twice, every client made is cached or closed |
| `ClientCache.ReleaseKeeps` | internal/adapter/directiveredis/client_cache.go:74-83 | Calling a release function keeps the books if and only if its lease is held or its entry is gone |
| `ClientCache.DoubleReleaseClosesLeased` | internal/adapter/directiveredis/client_cache.go:74-112 | A release function called twice lets eviction close a leased client |
| `ClientCache.RefusedWhenAllLeased` | internal/adapter/directiveredis/client_cache.go:60-68 | An open cache refuses a key exactly when it is not cached, or lapsed, and the entries that have not lapsed fill the cache and are all leased; a refusal closes only lapsed ones |
| `ClientCache.EvictsLeastRecentlyUsed` | internal/adapter/directiveredis/client_cache.go:85-112 | What acquiring evicts is not leased, and either lapsed or, when there was no room, one whose latest lease was handed out or released no later than that of any other without a lease |
| `ClientCache.StampIsLastUse` | internal/adapter/directiveredis/client_cache.go:40-83 | In every history a cached entry carries the time of the latest lease handed out or released for its key |
| `ClientCache.AcquireServes` | internal/adapter/directiveredis/client_cache.go:40-72 | Acquiring an open cache closes every lapsed client and, unless refused, leases the current client of the key or a new one |
| `ClientCache.AcquireEnabled` | internal/adapter/directiveredis/client_cache.go:97-112 | In every state some choice of victim is possible |
| `ClientCache.RunKeeps` | internal/adapter/directiveredis/client_cache.go:40-127 | The cache invariant survives every history |
| `ClientCache.WithoutMore` | internal/adapter/directiveredis/client_cache.go:85-95 | Evicting entries one at a time, in any order, closes each client once |
| `ClientCacheImpl.Cache.Acquire` | internal/adapter/directiveredis/client_cache.go:40-72 | The call refines the specification for some choice of victim and succeeds exactly when not refused |
| `ClientCacheImpl.Cache.EvictIdle` | internal/adapter/directiveredis/client_cache.go:85-95 | The walk evicts every stale entry and nothing else, in whatever order |
| `ClientCacheImpl.Cache.EvictOldestIdle` | internal/adapter/directiveredis/client_cache.go:97-112 | The walk evicts an oldest idle entry, or reports that there is none |
| `ClientCacheImpl.Cache.Release` | internal/adapter/directiveredis/client_cache.go:74-83 | Gives one reference back and stamps the entry with the present time, if it is still there; called again for an entry that is there, it leaves every state that proper use reaches |
| `ClientCacheImpl.Cache.Close` | internal/adapter/directiveredis/client_cache.go:114-127 | Closes every cached client once; a second call does nothing |
| `ClientCacheImpl.Cache.EvictAll` | internal/adapter/directiveredis/client_cache.go:122-125 | The closing loop empties the cache |
| `BodyStages.MutatedConcatenates` | internal/core/proxy/recovery_transport.go:384-415 | The mutated body is the mutated chunks in order, up to and including the turn that ends it |
| `BodyStages.FailureIsReported` | internal/core/proxy/recovery_transport.go:391-403 | A failed mutation reaches the reader if and only if the same read did not also end the source with another error |
| `BodyStages.FailureCanBeHidden` | internal/core/proxy/recovery_transport.go:391-403 | A chunk that arrives with EOF: its failed mutation looks like the end of the body |
| `BodyStages.StoreHidesNothing` | internal/core/proxy/recovery_transport.go:384-415 | Over a store’s reader, a mutated body ends in EOF exactly when every chunk was mutated and the source ended |
| `BodyStages.ObservedConcatenates` | internal/core/exchange/response.go:171-199 | The observed body is the processed chunks in order up to the first error; a chunk whose processing fails is dropped |
| `BodyStages.NothingAfterFinish` | internal/core/exchange/response.go:54-76 | Once the round trip is finished, further reads yield errors only |
| `BodyStages.DataPlaysNoPart` | internal/core/proxy/recovery_transport.go:383-410 | What the source’s bytes are plays no part in what either body yields: only the callback’s answers come out |
| `BodyStages.WhatComesOut` | internal/core/proxy/recovery_transport.go:383-410 | At the turn that ends the body: the mutated body is the answers in order, with that turn’s, and the source’s error or else the callback’s; the observed body drops a failed callback’s answer and reports its failure |
| `BodyStages.AllAnswersArrive` | internal/core/exchange/response.go:172-200 | If every chunk is answered and the source ends cleanly, both bodies yield exactly the answers in order and a clean end |
| `BodyStages.RefusedWhenOver` | internal/core/exchange/response.go:172-200 | Once the round trip is over, the first chunk of the source is refused and dropped |
| `BodyStagesImpl.MutatingBody.Read` | internal/core/proxy/recovery_transport.go:384-415 | Reads of any size hand out the mutated body in order, then its error once, then EOF |
| `BodyStagesImpl.MutatingBody.Refill` | internal/core/proxy/recovery_transport.go:391-403 | The refill loop loses and adds nothing |
| `BodyStagesImpl.ObservedBody.Read` | internal/core/exchange/response.go:171-199 | Reads of any size hand out the processed bytes in order; the first error finishes the round trip with that error, once |
| `BodyStagesImpl.ObservedBody.Refill` | internal/core/exchange/response.go:175-198 | The loop loses nothing but a chunk whose processing failed |
| `BodyStagesImpl.ObservedBody.Close` | internal/core/exchange/response.go:201-215 | A close before the end finishes the round trip as broken off, once |
| `BodyStagesImpl.Response.Capture` | internal/core/proxy/recovery_transport.go:305-329 | A captured response read to its end equals the original for every limit and length; the captured part is its prefix up to the limit, truncated exactly when longer |
| `BodyStagesImpl.Response.ReadUpTo` | internal/core/proxy/recovery_transport.go:309-312 | Reading through the limited reader takes a prefix of the limit’s length or everything, and reports a real error |
| `BodyStagesImpl.Response.Read` | internal/core/proxy/recovery_transport.go:316-321 | Reading the replaced body continues where the captured bytes end |

## Left out

- Machine integers: `used + size`, `expected + chunk` and milliseconds times a million are taken not to overflow.
- Allocated memory: retained bytes are logical lengths; a chunk sliced from a larger buffer keeps that buffer alive.
- Wake-ups and liveness: notify channels, waiting and fairness are not modelled beyond "a step may happen"; a read that would block says so.
- Digests, request sizes in metrics, snapshots, counters, logging and health reports.
- ExchangeImpl.Serve: the end of the body does not overlap Complete in it; that race is `FinishRace`.
- HTTP itself: building requests, headers, status codes, the writers towards the client, downstream projections.
- Overlapping Read and Close of one reader: the source's loop re-reads its store pointer, so the two are taken not to overlap.
- Store.Close waits for the ingest goroutine; only its first half, retiring the owner, is a step. Cancellation reaches ingest as an answer of its source.
- Round trips are known by their numbers, waiters and reservations by arrival, clients by creation order, instead of by pointers.
- ReplayLog.ReadersSeeTheStream: speaks of stores with a source; `SourcelessIsEmpty` covers the others, which hold no reservation.
- ExchangeImpl.RoundTrip: resolving the directive and its policy happen before; a request without an exchange, which is sent once, is not modelled.
- ExchangeImpl.Exchange.BeginRecovery: accepts a round trip whose retry was already accepted, as the source does; the transport never asks.
- SseParserImpl.Parser.Feed: both callbacks are taken to be set; the parser's strings are byte sequences.
- Dispatcher during and after its own Close.
- DispatcherImpl.EventDispatcher.Emit: reads the closed flag and takes the lock in one call; an emit that overlaps Close may still number a record, and `Dispatcher.ClosedTraceEnds` speaks of the time after it.
- Dispatcher.CountersAreExact: the compare-and-swap loops are one step each, taken when they succeed or give up; cloning borrowed data and estimating sizes are not modelled.
- Lane.FinishDrains: dispatches are taken to have returned before Finish begins, as the exchange's lifecycle lock ensures; otherwise a send could meet the closed channel.
- Lane: the order in which a dispatch visits instances, event sequence numbers, payload clones and panics, which count as errors.
- ClientCache: URL parsing and its error; the fingerprint stands for the URL, so digest collisions are excluded. Errors of closing a client are ignored as in the source, except that close joins them.
- BodyStagesImpl.MutatingBody.Read: the reused buffer is not modelled; pending bytes are a value.
- BodyStagesImpl.ObservedBody.Close: what the closed source returns to later reads is left to the script.
- Sources that return neither bytes nor an error for ever, in captured responses.
- The React workbench, configuration and payload validators, token and directive encoding, the HTTP, Redis and file readers, the Fluent sink.
