# Verification of an event-sourced agent kernel

The kernel keeps append-only logs. A fold turns each log into a state or refuses it, and drivers
append only after reading the state the log folds to. This project models those folds and drivers
in Dafny and proves what every log, every run and every interleaving keeps.

Each component has a module of values (its state, its steps, what a step does) with the theorems,
and, where the source changes an object in place or loops over variables, a class or methods whose
contracts tie every call to a function of that module.

| component | value model and theorems | imperative form |
|---|---|---|
| governed scheduler | Scheduler.dfy | SchedulerClass.dfy |
| governed execution | GovernedExecution.dfy | GovernedExecutionClass.dfy |
| delegated runtime: facts, host, hosts interleaved | DelegatedRuntime.dfy, DelegatedHost.dfy, DelegatedSystem.dfy | DelegatedHostClass.dfy |
| agent message store | MessageStore.dfy, MessageStoreRuns.dfy | MessageStoreClass.dfy |
| session log fold | SessionFold.dfy, SessionStream.dfy, SessionRows.dfy, SessionContinuation.dfy, SessionWorkflow.dfy | SessionReplayLoops.dfy |
| agent runtime: settling a cancellation | SessionSettle.dfy | AgentRuntimeClass.dfy |
| workflow engine | SessionWorkflow.dfy | WorkflowEngineClass.dfy |
| context budget, and its events in the session log | ContextBudget.dfy, SessionContext.dfy | ContextAssemblerClass.dfy |
| session logs that show what goes wrong | SessionTraces.dfy, SessionFilled.dfy | |
| fork tree and causation | ForkTree.dfy | SessionStoreClass.dfy |
| cancellation traversal and settling | Traversal.dfy, ForkedTrees.dfy | SubagentProviderClass.dfy |
| canonical JSON | CanonicalJson.dfy | in the same file (the scan) |
| SSE frames | SseSplitter.dfy | in the same file |

Outcomes.dfy holds Option and Result; Ordering.dfy holds stable sorting and the order of strings.

Common assumptions. A ledger is a sequence that grows only by compare-and-append at an expected
version, and one store operation is one atomic step. Timestamps are integers. Ids and digests derived
by SHA-256 are what they are derived from, so that they are equal exactly when those are. A
provider, a policy callback, a clock reading, a failing disk and a renderer of text are arguments:
the theorems hold for every answer they may give.

## What the code does that its description does not say

Each of these is a theorem or a concrete run in the table below.

- After `close`, a queued cancellation that ends does not pump the queue. A non-cancellable item
  behind it is then stranded and `drain` never resolves: exactly in that state
  (`StrandsExactlyWhen`), shown by a trace (`StuckTrace`), and mended only by a second `close` that
  withdraws queued work (`OnlyCloseRescues`).
- The first outcome of a call and its replays agree on the code but for two branches: a deadline that
  passes before dispatch is told as such and replays as a cancellation, and a clock that throws after
  the start facts is told with its own code and replays as in doubt. Exactly then they differ
  (`FirstOutcomeAgreesIff`), and both happen (`MisreportsHappen`).
- A thrown value of which nothing can be said, such as the empty string, is answered with an envelope
  that fails the port's own check: exactly then (`EveryEnvelopeCanonicalIff`), shown by a run
  (`EmptyThrowNotCanonical`).
- With the default causation ids, `cancelQueued` and `execute` of one idempotency key never have the
  same scope, so the later of the two is answered with a conflict (`DefaultCausationsConflict`).
- `parkWorker` does not compare the park reason with the drain reason; the fold refuses the fact
  (`ParkExactlyWhen`). A draining worker can never extend its lease, although both host and fold
  have a branch for it (`DrainingCannotHeartbeat`, `HeartbeatExactlyWhen`).
- `resumeAndSend` compares the message with the pending turn before it reattaches the provider and not
  after, so a turn recorded meanwhile under the same request id is dispatched with this host's
  message (`OtherMessageCanBeSent`). It cannot happen when callers use a request id for one turn only
  (`SendsRecordedTurn`).
- The driver decides about compaction from the profile and the assessment at hand, the fold from what is
  durable. After a compaction was recorded, a next step built under another profile or assessment is
  refused: exactly when the driver does not compact and a record is durable (`DriverMatchesFoldIff`,
  `DriverStepTakenIff`), shown by a log (`ChangedPolicyRefused`).
- The assembler sorts history by sequence, the fold lists it turn by turn. The two events of a
  compaction are taken exactly when the two orders agree and no source from outside goes by a compacted
  reference (`CompactedContextTakenIff`); a log of overlapping turns shows the refusal
  (`OverlapRefused`).
- A turn that reports output gives back the rest of its reservation at once. If another turn is
  assembled on that and the first one reports again, the session goes past its tokens
  (`SessionOverspends`). Assembling a turn makes that possible exactly when the inputs and the larger of
  reservation and report of all turns, with this one, are more than the maximum (`AssemblyOpensIff`,
  `OverspendsIff`); sessions that avoid it stay within their tokens (`SessionStaysWithin`).
- A release does not fence its phases: a checkpoint is accepted right after it exactly when it would
  have been before (`PhaseTakenDespiteRelease`), and a log shows one (`PhaseAfterRelease`).
- Step ids may repeat from one turn to another. The ledger then refuses the settling pass; it takes the
  whole pass exactly when no two of its events are for equal step ids and none of its ids is in the log
  (`LedgerTakesPassIff`), and a log shows the refusal (`TwinsRefused`).
- A plain append may attach any name as a child. Only forked children name their parent
  (`ChildrenAreForks`), and only with them is the cancellation order sure to list descendants first:
  in general it does exactly when no listed session lies under itself (`DescendantsFirstIff`), and two
  sessions that name each other break it (`MutualAttachment`).
- Settling lists the sessions before it waits. A child spawned meanwhile under a listed session is not
  asked, and success is reported although it is not terminal: all that is reachable by then is terminal
  exactly when what was attached meanwhile is (`SettledTreeIff`, `SettledLedgerIff`), which it need not
  be (`LateChildEscapes`, `LateChildHappens`).
- A model terminal event of more than 8191 bytes is refused on a step filled up to the reserve, which a
  stored log shows (`LongEndRefused`).
- A child may be attached by a name that has no log. The traversal reads it as a session without
  children (`LoglessListed`), counts it towards its bound (`ListedIffSmall`), and settling then
  succeeds only if that log is begun and ended meanwhile (`LoglessMustEnd`).
- The SSE splitter replaces CR LF anew at every chunk. With a CR before a CR LF, the cut into chunks
  can change the frames (`ChunkingCanShow`, `NormTwiceIffNoCrCrLf`). Where CR CR LF ends a line of data
  before a frame boundary, a cut there shows unless both readings are refused for one reason
  (`KeptCrShowsIff`).

## Model

| member | source | states |
|---|---|---|
| `GovernedScheduler.Run` | packages/governed-execution/scheduler.js:106-345 | every state a scheduler can reach by any turns, from its start, satisfies the invariant |
| `GovernedScheduler.StepKeepsInv` | packages/governed-execution/scheduler.js:106-347 | every turn (enqueue, abort, cancel, resolve, settle, close, drain) keeps the invariant: items in one place each, FIFO order, barriers counted, concurrency bound, accounting, and while accepting the pump has nothing left to do |
| `GovernedScheduler.EveryRun` | packages/governed-execution/scheduler.js:106-345 | in every reachable state: starts in enqueue order; each accepted item in exactly one of queue, active, settled; a promise resolves at most once, and has resolved when settled; an exclusive item runs alone; at most maxConcurrency run; enqueue calls = rejected + started + withdrawn + queued; while accepting, queued work has something active to wake it; no idle scheduler has drain waiters |
| `GovernedScheduler.StepChanges` | packages/governed-execution/scheduler.js:200-215 | whatever a turn starts, it starts with no queued cancellation in flight and behind settled barriers; settled items and all identities stay as they are |
| `GovernedScheduler.BarriersOverRuns` | packages/governed-execution/scheduler.js:200-245 | at the turn in which an item starts: if it is exclusive, every earlier item has settled; every earlier exclusive item has settled in any case |
| `GovernedScheduler.PumpQueueStarts` | packages/governed-execution/scheduler.js:200-215 | pumping only appends starts from the front of the queue, and leaves queued work only if something is active |
| `GovernedScheduler.StrandsExactlyWhen` | packages/governed-execution/scheduler.js:305-312 | work is stranded by exactly one kind of turn: the end of a queued cancellation after close, when it was the last active item and the queue is not empty |
| `GovernedScheduler.OnlyCloseRescues` | packages/governed-execution/scheduler.js:247-276 | stranded non-cancellable work is pumped again exactly by a close that withdraws queued work |
| `GovernedScheduler.StuckTrace` | packages/governed-execution/scheduler.js:190-193 | six turns after which a non-cancellable item is stranded and the drain that close awaits never resolves |
| `GovernedScheduler.WithoutIncreasing` | packages/governed-execution/scheduler.js:279-281 | removing an item from the queue removes that one only and keeps the order |
| `GovernedSchedulerClass.GovernedExecutionScheduler.constructor` | packages/governed-execution/scheduler.js:70-96 | a new scheduler is the initial state, which satisfies the invariant |
| `GovernedSchedulerClass.GovernedExecutionScheduler.EnqueueRequest` | packages/governed-execution/scheduler.js:106-194 | one enqueue: refused, withdrawn at once, or queued and pumped, and which of these |
| `GovernedSchedulerClass.GovernedExecutionScheduler.PumpItems` | packages/governed-execution/scheduler.js:200-215 | the pump loop starts from the front what the barriers and the bound allow |
| `GovernedSchedulerClass.GovernedExecutionScheduler.StartItem` | packages/governed-execution/scheduler.js:217-245 | the synchronous part of a start |
| `GovernedSchedulerClass.GovernedExecutionScheduler.ResolveDrainWaiters` | packages/governed-execution/scheduler.js:344-347 | drain waiters are released exactly when nothing is queued or active |
| `GovernedSchedulerClass.GovernedExecutionScheduler.SpliceOut` | packages/governed-execution/scheduler.js:279-281 | the search and splice leave the queue without that item |
| `GovernedSchedulerClass.GovernedExecutionScheduler.CancelQueued` | packages/governed-execution/scheduler.js:278-315 | a queued item becomes a cancellation barrier; anything else is left alone |
| `GovernedSchedulerClass.GovernedExecutionScheduler.CancelHandle` | packages/governed-execution/scheduler.js:176-187 | the handle cancels exactly an item that is cancellable and not yet cancelled, settled or aborted |
| `GovernedSchedulerClass.GovernedExecutionScheduler.HaltQueue` | packages/governed-execution/scheduler.js:317-337 | every queued item is settled and resolved once, and nothing more is accepted |
| `GovernedSchedulerClass.GovernedExecutionScheduler.FailEach` | packages/governed-execution/scheduler.js:319-336 | the loop settles exactly the listed items, once each |
| `GovernedSchedulerClass.GovernedExecutionScheduler.SettleRun` | packages/governed-execution/scheduler.js:236-244 | the end of a running item frees its place and pumps |
| `GovernedSchedulerClass.GovernedExecutionScheduler.ResolveCancellation` | packages/governed-execution/scheduler.js:291-304 | a cancellation that was not persisted halts the queue |
| `GovernedSchedulerClass.GovernedExecutionScheduler.SettleCancellation` | packages/governed-execution/scheduler.js:305-312 | the end of a cancellation pumps only while the scheduler accepts |
| `GovernedSchedulerClass.GovernedExecutionScheduler.CloseQueue` | packages/governed-execution/scheduler.js:247-261 | close withdraws what is cancellable, refuses the rest, and pumps |
| `GovernedSchedulerClass.GovernedExecutionScheduler.CancelEach` | packages/governed-execution/scheduler.js:250-259 | the loop over the copied queue withdraws or refuses each item in turn |
| `CanonicalJson.AssertWellFormedString` | packages/managed-governance-contracts/canonical-json.js:14-27 | the surrogate scan accepts exactly the UTF-16 encodings of sequences of Unicode scalar values |
| `CanonicalJson.ScanAcceptsExactlyUtf16` | packages/managed-governance-contracts/canonical-json.js:14-27 | the same for the specification of the scan, both directions, with the decoded scalars |
| `CanonicalJson.RoundTrip` | packages/managed-governance-contracts/canonical-json.js:29-106 | a parser reads back any printed value, followed by anything that cannot extend a numeral, up to key order |
| `CanonicalJson.PrintsAlike` | packages/managed-governance-contracts/canonical-json.js:29-110 | two values print alike exactly when they are equal up to key order; insertion order changes neither text nor error |
| `CanonicalJson.PrintsExactly` | packages/managed-governance-contracts/canonical-json.js:29-106 | printing succeeds on exactly the values with well-formed strings and keys and safe finite numbers |
| `CanonicalJson.EncodeNormal` | packages/managed-governance-contracts/canonical-json.js:78-104 | printing sees only the value with its keys sorted |
| `CanonicalJson.SortOrdered` | packages/managed-governance-contracts/canonical-json.js:78-104 | keys are printed in strictly increasing order of UTF-16 code units (section 3.2.3 of RFC 8785) |
| `CanonicalJson.UnescapeAll` | packages/managed-governance-contracts/canonical-json.js:29-50 | string escapes (section 7 of RFC 8259) are undone by the parser, whatever follows the closing quote |
| `CanonicalJson.SameNormal` | packages/managed-governance-contracts/canonical-json.js:78-104 | values equal up to key order have one normal form |
| `CanonicalJson.NormalSame` | packages/managed-governance-contracts/canonical-json.js:78-104 | values with one normal form are equal up to key order |
| `SseSplitter.ParseSse` | packages/model-providers/openai-compatible-provider.js:68-110 | the chunk loop yields the frames and the end of the specified reading, including the buffer limit |
| `SseSplitter.DrainBuffer` | packages/model-providers/openai-compatible-provider.js:83-105 | the inner loop yields exactly the complete frames of the buffer and keeps the rest |
| `SseSplitter.ChunkingDoesNotShow` | packages/model-providers/openai-compatible-provider.js:68-110 | with no CR CR LF in the text, frames and end do not depend on the cut into chunks, but for stopping early at the buffer limit after some of those frames |
| `SseSplitter.RunIsWhole` | packages/model-providers/openai-compatible-provider.js:77-109 | the same from any buffer between two chunks |
| `SseSplitter.TwoCutsAgree` | packages/model-providers/openai-compatible-provider.js:68-110 | two cuts of one text without CR CR LF neither of which meets the limit give the same frames and end |
| `SseSplitter.SmallTextsFit` | packages/model-providers/openai-compatible-provider.js:77-82 | no cut of a text that fits the buffer as a whole meets the limit |
| `SseSplitter.SmallTextsAgree` | packages/model-providers/openai-compatible-provider.js:68-110 | all cuts of a text without CR CR LF that fits the buffer give the same frames and end |
| `SseSplitter.NormAgain` | packages/model-providers/openai-compatible-provider.js:82-82 | replacing CR LF in a prefix first changes nothing when no CR stands before a CR LF |
| `SseSplitter.NormTwiceIffNoCrCrLf` | packages/model-providers/openai-compatible-provider.js:82-82 | replacing CR LF a second time is harmless exactly when no CR stands before a CR LF |
| `SseSplitter.ChunkingCanShow` | packages/model-providers/openai-compatible-provider.js:77-109 | a text with CR CR LF whose frames change with one empty chunk more |
| `SseSplitter.KeptCrShowsIff` | packages/model-providers/openai-compatible-provider.js:77-109 | for every text whose CR CR LF ends a line of data before the frame boundary: read at once and cut there it looks alike exactly when the value is refused for one reason with its CR and without it |
| `SseSplitter.DrainMore` | packages/model-providers/openai-compatible-provider.js:83-105 | more text only adds to what a buffer yields |
| `DelegatedRuntime.EveryStateOk` | packages/delegated-runtime-host/index.js:176-339 | in every accepted log the worker, the provider binding, the turn and the version are consistent |
| `DelegatedRuntime.AtMostOneDispatch` | packages/delegated-runtime-host/index.js:226-241 | an accepted log has at most one turn request and one dispatch, for that request; after the dispatch no park and no turn follows |
| `DelegatedRuntime.LeasesHandOver` | packages/delegated-runtime-host/index.js:244-335 | epochs strictly increase, and a worker attaches only after the earlier lease was parked by its holder or orphaned past its expiry or drain deadline |
| `DelegatedRuntime.SupersededRefused` | packages/delegated-runtime-host/index.js:170-174 | once a later epoch has attached, no fact with an earlier epoch is accepted |
| `DelegatedRuntime.DrainingCannotHeartbeat` | packages/delegated-runtime-host/index.js:263-282 | while a worker drains every heartbeat fact is refused |
| `DelegatedRuntime.EventsInOrder` | packages/delegated-runtime-host/index.js:186-225 | runtime events are numbered without gaps, come from the bound session, and only the last ends the run |
| `DelegatedHost.AppendExactly` | packages/delegated-runtime-host/index.js:379-421 | an append takes effect only at the last version, and then the new log folds to the state it returns |
| `DelegatedHost.ExpireExactly` | packages/delegated-runtime-host/index.js:811-829 | expiry orphans exactly a worker past its expiry or deadline and changes nothing else |
| `DelegatedHost.ClaimExactlyWhen` | packages/delegated-runtime-host/index.js:455-481 | a claim succeeds exactly for a live bound session whose lease, if any, has ended and whose last retired worker is another; the new worker is the next epoch with a full lease |
| `DelegatedHost.HeartbeatExactlyWhen` | packages/delegated-runtime-host/index.js:483-510 | a heartbeat succeeds exactly for the holder of a running, undrained lease that it takes further |
| `DelegatedHost.DrainExactlyWhen` | packages/delegated-runtime-host/index.js:512-546 | a drain succeeds exactly for the holder of a running lease, or repeats the recorded drain; its window is open and ends by the expiry |
| `DelegatedHost.ParkExactlyWhen` | packages/delegated-runtime-host/index.js:548-580 | a park succeeds exactly in the open drain window with no dispatch in doubt and the reason of the drain; another reason is refused by the fold, not by the host |
| `DelegatedHost.RetireExactlyWhen` | packages/delegated-runtime-host/index.js:611-629 | retiring needs the current token, and an ended session or a worker at rest |
| `DelegatedHost.ShutdownParksOnce` | packages/delegated-runtime-host/index.js:582-604 | one shutdown call parks exactly when its second step falls in the window its first step opened, and a repeated call changes nothing |
| `DelegatedHost.EndedLeaseCanBeTaken` | packages/delegated-runtime-host/index.js:455-481 | once a lease has ended a worker can claim the session, and the dead token is refused from then on |
| `DelegatedSystem.SendsAtMostOnce` | packages/delegated-runtime-host/index.js:680-733 | over all interleavings of hosts, retries and crashes the provider is called at most once per session, after a dispatch fact under the then current lease, for the requested turn |
| `DelegatedSystem.SendsRecordedTurn` | packages/delegated-runtime-host/index.js:680-733 | when a request id names one turn, what is sent is the turn on record |
| `DelegatedSystem.OtherMessageCanBeSent` | packages/delegated-runtime-host/index.js:684-716 | without that, a run in which a message is sent that the log does not hold |
| `DelegatedSystem.NextKeepsSystem` | packages/delegated-runtime-host/index.js:680-733 | every step of any host keeps what links the hosts, the log and the calls made |
| `DelegatedHostClass.SessionState.ApplyFact` | packages/delegated-runtime-host/index.js:176-339 | one row, field by field in place: the state is the one of the fold, or the row is refused |
| `DelegatedHostClass.SessionState.ApplySessionFact` | packages/delegated-runtime-host/index.js:186-242 | the facts of the session and its turn, in place |
| `DelegatedHostClass.SessionState.ApplyWorkerFact` | packages/delegated-runtime-host/index.js:243-336 | the facts of the worker, in place |
| `DelegatedHostClass.DelegatedRuntimeStore.Read` | packages/delegated-runtime-host/index.js:368-373 | the loop over the rows folds the log |
| `DelegatedHostClass.DelegatedRuntimeStore.Append` | packages/delegated-runtime-host/index.js:379-421 | compare-and-append: the row is taken at the expected version when the log still folds |
| `DelegatedHostClass.DelegatedRuntimeHost.ExpireWorkerIfNeeded` | packages/delegated-runtime-host/index.js:811-829 | the store and answer of an expiry |
| `DelegatedHostClass.DelegatedRuntimeHost.ClaimWorker` | packages/delegated-runtime-host/index.js:455-481 | the store and answer of a claim |
| `DelegatedHostClass.DelegatedRuntimeHost.HeartbeatWorker` | packages/delegated-runtime-host/index.js:483-510 | the store and answer of a heartbeat |
| `DelegatedHostClass.DelegatedRuntimeHost.DrainWorker` | packages/delegated-runtime-host/index.js:512-546 | the store and answer of a drain |
| `DelegatedHostClass.DelegatedRuntimeHost.ParkWorker` | packages/delegated-runtime-host/index.js:548-580 | the store and answer of a park |
| `DelegatedHostClass.DelegatedRuntimeHost.DrainAndParkWorker` | packages/delegated-runtime-host/index.js:582-604 | the store and answer of a shutdown in two steps |
| `DelegatedHostClass.DelegatedRuntimeHost.SweepWorker` | packages/delegated-runtime-host/index.js:606-609 | the store and answer of a sweep |
| `DelegatedHostClass.DelegatedRuntimeHost.RetireWorker` | packages/delegated-runtime-host/index.js:611-629 | the store and answer of a retirement |
| `DelegatedHostClass.DelegatedRuntimeHost.DrainToTerminal` | packages/delegated-runtime-host/index.js:875-882 | the loop records a prefix of the events the provider gives, in order; it succeeds exactly when the log then is terminal, and fails with the refusal of the next event or because there is none |
| `DelegatedHostClass.DelegatedRuntimeHost.RecordRuntimeEvent` | packages/delegated-runtime-host/index.js:903-911 | one event is recorded at the end of the log, or it is refused for the reason the append gives and nothing changes |
| `GovernedExecution.AtMostOneProviderCall` | packages/governed-execution/runtime.js:459-735 | over any interleaving of calls on one operation the provider runs at most once; the stream is empty, authorised and started, or those and one terminal fact that says whether the provider was called |
| `GovernedExecution.ReplaysAgree` | packages/governed-execution/runtime.js:135-197 | the first outcome and every later replay agree on ok, result, error, and evidence; for the deadline path before dispatch, on everything but the code and message |
| `GovernedExecution.FirstOutcomeAgreesIff` | packages/governed-execution/runtime.js:539-735 | a call that returned after its start facts were stored and its replays agree on ok and error code, unless it returned at the check before dispatch by a passed deadline with its terminal fact stored or by a clock that threw another code than in-doubt: then they never do |
| `GovernedExecution.MisreportsHappen` | packages/governed-execution/runtime.js:555-577 | a run for each of those branches, for any well-formed request that is not queued |
| `GovernedExecution.ScopeConflictExactly` | packages/governed-execution/runtime.js:135-164 | a later request is refused as a conflict exactly when its scope or lineage differs from the first one |
| `GovernedExecution.DefaultCausationsConflict` | packages/governed-execution/runtime.js:276-300 | with default causations a queued cancellation and an execution never have one scope |
| `GovernedExecution.InDoubtForGood` | packages/governed-execution/runtime.js:166-197 | when the owner died or could not store its outcome, everybody is told the outcome is in doubt, for good, and the provider is not called again |
| `GovernedExecution.EveryEnvelopeCanonicalIff` | packages/governed-execution/canonical-envelope.js:38-89 | over any run, every envelope returned passes the canonical envelope check exactly when no step surfaces an error without message and text |
| `GovernedExecution.NextCanonicalIff` | packages/governed-execution/runtime.js:239-735 | step by step: the envelopes stay canonical exactly when the error this step returns, if any, has a message or a text |
| `GovernedExecution.EmptyThrowNotCanonical` | packages/governed-execution/runtime.js:462-480 | the run of a resolver of approvals that throws the empty string, whose envelope fails the check |
| `GovernedExecution.EndAgrees` | packages/governed-execution/runtime.js:585-735 | for every provider answer, the stored terminal fact replays as the envelope that was returned |
| `GovernedExecution.ReadOwned` | packages/governed-execution/runtime.js:135-197 | what a stored stream answers to any request |
| `GovernedExecution.NextKeeps` | packages/governed-execution/runtime.js:371-735 | every step of any call keeps the shape of the stream and its link to its owner |
| `GovernedExecution.DistinctAgain` | packages/governed-execution/canonical-envelope.js:11-20 | evidence stored twice is reported once, in the same place |
| `GovernedExecutionClass.GovernedExecutionRuntime.Scan` | packages/governed-execution/runtime.js:139-170 | one pass finds the first authorisation, the last terminal fact, and all evidence |
| `GovernedExecutionClass.GovernedExecutionRuntime.ReadExisting` | packages/governed-execution/runtime.js:135-197 | the reading of the stream for a request |
| `GovernedExecutionClass.GovernedExecutionRuntime.Append` | packages/governed-execution/runtime.js:199-207 | facts are taken at the version they were made for, or the stream is unchanged |
| `GovernedExecutionClass.GovernedExecutionRuntime.Conclude` | packages/governed-execution/runtime.js:209-237 | the terminal fact is stored and its envelope returned, or the loss is reported |
| `GovernedExecutionClass.GovernedExecutionRuntime.Execute` | packages/governed-execution/runtime.js:459-735 | a whole call is a run of the model: envelope, stream and number of provider calls |
| `GovernedExecutionClass.GovernedExecutionRuntime.Dispatch` | packages/governed-execution/runtime.js:462-735 | the part from approval on |
| `GovernedExecutionClass.GovernedExecutionRuntime.Proceed` | packages/governed-execution/runtime.js:539-735 | the part from the start facts on |
| `GovernedExecutionClass.GovernedExecutionRuntime.CancelQueued` | packages/governed-execution/runtime.js:239-369 | a whole queued cancellation, which never calls the provider |
| `MessageStore.ReadTells` | packages/agent-message-transport/index.js:126-229 | what a message that folds says of its rows: their number, whether it was acknowledged or expired, and its first request |
| `MessageStore.TransitOk` | packages/agent-message-transport/index.js:452-465 | a legal transition is accepted, folds, and moves that message only |
| `MessageStore.MoveEachOk` | packages/agent-message-transport/index.js:474-481 | a pass in which every chosen move is legal takes them all |
| `MessageStore.ExpireOk` | packages/agent-message-transport/index.js:474-489 | expiry never fails on a store the program built |
| `MessageStore.FindExactly` | packages/agent-message-transport/index.js:443-450 | a sender and key name one message or none |
| `MessageStore.ResendExactly` | packages/agent-message-transport/index.js:491-512 | the same request under a used key returns its message; any other is refused |
| `MessageStore.SendExactly` | packages/agent-message-transport/index.js:491-556 | a new key enters a message exactly within the bounds, well formed, with a new id and a valid decision; what the store then holds |
| `MessageStore.EnterExactly` | packages/agent-message-transport/index.js:524-556 | the same without the expiry before it |
| `MessageStore.AcknowledgeExactly` | packages/agent-message-transport/index.js:558-576 | an acknowledgement is taken exactly from the recipient of a delivered live message |
| `MessageStore.FlushExactly` | packages/agent-message-transport/index.js:578-603 | a flush succeeds exactly when the policy decides on every held live message of the recipient; what the store then holds |
| `MessageStoreRuns.EveryStore` | packages/agent-message-transport/index.js:339-603 | every reachable store is the rows of a list of messages within their bounds |
| `MessageStoreRuns.WhatIsWrittenReads` | packages/agent-message-transport/index.js:389-417 | every message of every reachable store folds on the next read |
| `MessageStoreRuns.AtMostFourEvents` | packages/agent-message-transport/index.js:126-229 | a message has at most four events; acknowledged and expired exclude each other |
| `MessageStoreRuns.TrafficIsBounded` | packages/agent-message-transport/index.js:513-535 | in every closed window a sender has at most its rate; a recipient has at most its inbox of live unacknowledged messages |
| `MessageStoreRuns.NothingDueAfterExpiry` | packages/agent-message-transport/index.js:474-489 | after expiry at t no live message of a reachable store is due |
| `MessageStoreRuns.KeyNamesOneMessage` | packages/agent-message-transport/index.js:491-512 | once a request was taken, its key returns that message with that content at any later time, and refuses any other request |
| `MessageStoreClass.SqliteAgentMessageStore.ReadUnsafe` | packages/agent-message-transport/index.js:389-401 | the loop over the rows of one message folds them |
| `MessageStoreClass.SqliteAgentMessageStore.MessageIds` | packages/agent-message-transport/index.js:407-411 | the distinct ids in order of first row |
| `MessageStoreClass.SqliteAgentMessageStore.StatesUnsafe` | packages/agent-message-transport/index.js:407-417 | every message is read, within the bound on their number |
| `MessageStoreClass.SqliteAgentMessageStore.InsertRow` | packages/agent-message-transport/index.js:339-375 | a row is inserted exactly when it clashes with none |
| `MessageStoreClass.SqliteAgentMessageStore.TransitionUnsafe` | packages/agent-message-transport/index.js:452-465 | one transition row is inserted and read back |
| `MessageStoreClass.SqliteAgentMessageStore.MoveAll` | packages/agent-message-transport/index.js:474-481 | the loop over the states read before it moves each chosen one |
| `MessageStoreClass.SqliteAgentMessageStore.ExpireRows` | packages/agent-message-transport/index.js:474-481 | the expiry pass |
| `MessageStoreClass.SqliteAgentMessageStore.Expire` | packages/agent-message-transport/index.js:483-489 | expiry in a transaction |
| `MessageStoreClass.SqliteAgentMessageStore.FindByIdempotency` | packages/agent-message-transport/index.js:443-450 | the search by sender and key |
| `MessageStoreClass.SqliteAgentMessageStore.CountStates` | packages/agent-message-transport/index.js:513-535 | the filters count the messages they name |
| `MessageStoreClass.SqliteAgentMessageStore.EnforceBounds` | packages/agent-message-transport/index.js:513-535 | the rate window and the inbox bound |
| `MessageStoreClass.SqliteAgentMessageStore.EnterRows` | packages/agent-message-transport/index.js:536-556 | the two rows of a new message |
| `MessageStoreClass.SqliteAgentMessageStore.SendRows` | packages/agent-message-transport/index.js:498-556 | resend or entry, after expiry |
| `MessageStoreClass.SqliteAgentMessageStore.AtomicSend` | packages/agent-message-transport/index.js:491-556 | a send in a transaction: on failure the store is unchanged |
| `MessageStoreClass.SqliteAgentMessageStore.AcknowledgeAtomic` | packages/agent-message-transport/index.js:558-576 | an acknowledgement in a transaction |
| `MessageStoreClass.SqliteAgentMessageStore.FlushHeldAtomic` | packages/agent-message-transport/index.js:578-603 | a flush in a transaction |
| `ContextBudget.BudgetKeeps` | packages/agent-context/context-assembler.js:221-367 | the retry loop converges; every result is within the limit, splits the ordered history into a compacted or omitted prefix and a retained suffix, and accounts for every source once |
| `ContextBudget.SelectionIsMaximal` | packages/agent-context/context-assembler.js:257-277 | history is kept greedily: one more entry would not fit |
| `ContextBudget.AttemptsKeep` | packages/agent-context/context-assembler.js:311-367 | from any attempt the loop ends within its bound, each rejection retaining one source less |
| `ContextBudget.CompactionAcceptedIffInSequence` | packages/agent-session-store/replay.js:271-310 | whatever the budget compacts, the result meets the fold's checks of history exactly when durable history is in order of sequence and no outside source goes by a compacted reference |
| `ContextBudget.CompactionAcceptedIff` | packages/agent-session-store/replay.js:532-548 | the same for any result that is within the limit and accounts for its sources |
| `ContextBudget.OrdinaryAccepted` | packages/agent-session-store/replay.js:287-310 | without a compaction, history in order of sequence is always accepted |
| `ContextBudget.OrdinaryAcceptedIff` | packages/agent-session-store/replay.js:287-310 | without a compaction, a request is accepted exactly when the suffix kept reads like that of the log and each entry of the durable suffix is kept or goes by the reference of an outside source |
| `ContextBudget.CompleteAcceptedIff` | packages/agent-session-store/replay.js:294-310 | a request with the whole history is accepted exactly when the ordered messages read like the durable ones |
| `SessionContext.AssemblyTakenIff` | packages/agent-context/context-assembler.js:378-470 | the events the assembler appends to a stored log are taken by the ledger exactly when its result meets the fold's checks of history |
| `SessionContext.CompactedContextTakenIff` | packages/agent-context/context-assembler.js:378-470 | a log and the two events of a compaction is a log of the ledger exactly when its durable history is in order of sequence and no outside source goes by a compacted reference |
| `SessionContext.PlainContextTakenIff` | packages/agent-context/context-assembler.js:378-470 | and without a compaction exactly when the suffix kept reads like that of the log, with each of its entries kept or named from outside |
| `SessionContext.ContextTakenByInput` | packages/agent-context/context-assembler.js:378-470 | by what goes in alone, where no outside source goes by a reference of the log: with something to compact exactly when the durable history is in order of sequence, otherwise exactly when what is kept is its end, word for word |
| `SessionContext.HistoryDurable` | packages/agent-session-store/replay.js:105-132 | what the assembler reads from a stored log has distinct ids, references and sequences, and no system message |
| `SessionTraces.OverlapRefused` | packages/agent-session-store/replay.js:532-548 | a stored log of two overlapping turns, and an input to a third turn whose compaction is made and refused |
| `ContextBudget.SessionStaysWithin` | packages/agent-context/context-assembler.js:125-141 | however turns overlap and report: when each assembly keeps the inputs and the larger of reservation and report of all turns within the session's tokens, no more is ever spent, but for what is reported beyond reservations |
| `ContextBudget.OverspendsIff` | packages/agent-context/context-assembler.js:125-141 | from any state, some reports within reservations take the session past its tokens exactly when the inputs and the larger of reservation and report of all turns are more |
| `ContextBudget.AssemblyOpensIff` | packages/agent-context/context-assembler.js:125-141 | so assembling a turn opens the door to it exactly when that sum, with this turn, is more than the maximum |
| `ContextBudget.SessionOverspends` | packages/agent-context/context-assembler.js:125-141 | four events after which a session has spent twice its tokens less one, no turn more than was reserved for it |
| `ContextBudget.PickKeeps` | packages/agent-context/context-assembler.js:273-277 | memory is picked by priority, each kept while it fits, and every one is picked or omitted |
| `ContextAssemblerClass.ContextAssembler.Count` | packages/agent-context/context-assembler.js:169-178 | a counter that changes its mind about a text is refused |
| `ContextAssemblerClass.ContextAssembler.SelectHistory` | packages/agent-context/context-assembler.js:257-272 | the loop from the newest entry back selects the suffix and lists the rest |
| `ContextAssemblerClass.ContextAssembler.SelectMemory` | packages/agent-context/context-assembler.js:273-277 | the loop over ordered memory picks and omits as specified |
| `ContextAssemblerClass.ContextAssembler.Compact` | packages/agent-context/context-assembler.js:290-367 | the retry loop is the specified sequence of attempts, within the limit when it succeeds |
| `Traversal.OrderIsTheTree` | packages/agent-orchestration/local-subagent-provider.js:166-179 | a successful traversal lists exactly the sessions reachable from the requested children, each once |
| `Traversal.OrderedExactlyWhen` | packages/agent-orchestration/local-subagent-provider.js:166-179 | it succeeds exactly when a readable closed set of at most 4096 sessions holds the requested children |
| `Traversal.OrderedIffSmall` | packages/agent-orchestration/local-subagent-provider.js:166-179 | it succeeds exactly when every session it comes to can be read and they are at most 4096 |
| `Traversal.DescendantsFirstIff` | packages/agent-orchestration/local-subagent-provider.js:166-179 | whatever lies under a listed session is listed before it exactly when no listed session lies under itself |
| `Traversal.GrownReach` | packages/agent-orchestration/local-subagent-provider.js:181-230 | what is reachable later, when nothing was detached: the listed sessions, those attached to them since, and all under these |
| `SubagentProviderClass.CancellationWalk.VisitChild` | packages/agent-orchestration/local-subagent-provider.js:169-176 | the recursive visit updates the visited set and the list in place as specified |
| `SubagentProviderClass.OrderForCancellation` | packages/agent-orchestration/local-subagent-provider.js:166-179 | the loop over the requested children |
| `SubagentProviderClass.LocalSubagentProvider.Settle` | packages/agent-orchestration/local-subagent-provider.js:181-230 | one call, with the second pass after a deadline: success exactly when the requested sessions are attached, the tree could be listed, and the listed sessions are terminal after the wait with no cancellation failed and no task rejected; who was asked to cancel; what stays active |
| `SubagentProviderClass.AllTerminal` | packages/agent-orchestration/local-subagent-provider.js:213-216 | the check that all of them are terminal |
| `SubagentProviderClass.SettledTree` | packages/agent-orchestration/local-subagent-provider.js:181-230 | after a cancellation that reports success everything reachable when it began is terminal, and exactly what was not terminal before was asked to cancel |
| `SubagentProviderClass.SettledTreeIff` | packages/agent-orchestration/local-subagent-provider.js:181-230 | everything reachable after the wait is terminal exactly when what was attached to listed sessions meanwhile is, with all under it |
| `ForkedTrees.SettledLedgerIff` | packages/agent-orchestration/local-subagent-provider.js:181-230 | the same between any two states of a ledger of appends and forks; and what was attached meanwhile was attached to sessions that were asked to cancel |
| `ForkedTrees.LateChildEscapes` | packages/agent-orchestration/local-subagent-provider.js:181-230 | from any ledger with a child that can still fork and under which all has ended: it forks and ends while settling waits, success is reported, and the grandchild, reachable by then, has not ended |
| `ForkedTrees.LateChildHappens` | packages/agent-orchestration/local-subagent-provider.js:181-230 | such a ledger there is |
| `ForkedTrees.ForkedTreesAreOrdered` | packages/agent-orchestration/local-subagent-provider.js:166-179 | where the children of listed sessions were forked from them or have no log, cancellation reaches whatever lies under a session before the session |
| `ForkedTrees.ListedIffSmall` | packages/agent-orchestration/local-subagent-provider.js:166-179 | on every ledger the traversal succeeds exactly when at most 4096 names can be reached, with or without a log |
| `ForkedTrees.LoglessListed` | packages/agent-orchestration/local-subagent-provider.js:166-179 | one append that names a child nobody has begun, after which the child is listed |
| `ForkedTrees.LoglessMustEnd` | packages/agent-orchestration/local-subagent-provider.js:181-230 | a cancellation that reaches a name without a log asks it to cancel, and reports success only if its log was begun and ended meanwhile |
| `ForkedTrees.MutualAttachment` | packages/agent-session-store/session-event-store.js:224-328 | two appends after which two sessions are children of each other and the order lists one before its child |
| `ForkTree.EveryLedger` | packages/agent-session-store/session-event-store.js:205-503 | every ledger written by any default-causation appends and forks keeps its logs linked and its families linked to them |
| `ForkTree.EveryLogReads` | packages/agent-session-store/session-event-store.js:154-202 | every such log passes the reader: one trace, every cause the event before or the fork that made it, and children within the limit |
| `ForkTree.DescendantsInherit` | packages/agent-session-store/session-event-store.js:387-503 | a descendant has the authority and policy of every ancestor, and no limit wider |
| `ForkTree.ChildrenAreForks` | packages/agent-session-store/session-event-store.js:387-503 | the children of a session are those an append named and those forked from it; the forked ones are exactly those whose own log names it as parent, and they began after it |
| `ForkTree.AppendKeeps` | packages/agent-session-store/session-event-store.js:224-328 | an append with default causation, of any events the fold takes, keeps all of that and only extends the ledger |
| `ForkTree.ForkKeeps` | packages/agent-session-store/session-event-store.js:387-503 | so does a fork, also one that finds its attachment or its child on record |
| `ForkTree.AttachmentFound` | packages/agent-session-store/session-event-store.js:162-202 | the attachment a fork goes by, new or on record, is the one the reader finds, caused by the event forked from |
| `ForkTree.EndedForGood` | packages/agent-session-store/replay.js:184-189 | a session that has ended attaches no more children, whatever follows |
| `SessionStoreClass.RelationalSessionEventStore.AssertSessionCausation` | packages/agent-session-store/session-event-store.js:162-202 | the loop with its growing set accepts exactly the linked logs |
| `SessionStoreClass.RelationalSessionEventStore.AssertUniformTrace` | packages/agent-session-store/session-event-store.js:154-160 | the loop accepts exactly the logs of one trace |
| `SessionStoreClass.RelationalSessionEventStore.Read` | packages/agent-session-store/session-event-store.js:343-350 | a read fails on trace, then on causation |
| `SessionStoreClass.RelationalSessionEventStore.AppendEvents` | packages/agent-session-store/session-event-store.js:224-328 | an append extends one stream, repeats what is stored, or changes nothing, and why it is refused |
| `SessionStoreClass.RelationalSessionEventStore.ForkSession` | packages/agent-session-store/session-event-store.js:387-503 | a fork writes both streams in one batch, finds them written, or changes nothing, and why it is refused |
| `SessionStoreClass.RelationalSessionEventStore.PrepareChild` | packages/agent-session-store/session-event-store.js:224-328 | the checks of the child's first events, next to the parent's rows of the same batch |
| `SessionStoreClass.RelationalSessionEventStore.AppendBatch` | packages/agent-session-store/session-event-store.js:501-502 | both streams in one batch: rows stored already have to be the same |
| `SessionReplayLoops.ReplaySessionEvents` | packages/agent-session-store/replay.js:148-801 | the loop over the events, stopping at the first refused one, is the fold |
| `SessionReplayLoops.AssembledToolCalls` | packages/agent-session-store/replay.js:54-87 | the gathering loop and the parsing loop are the assembled calls, in order of first mention |
| `SessionReplayLoops.DurableHistoryBefore` | packages/agent-session-store/replay.js:105-132 | the loop over the turns lists the durable history before the current one |
| `SessionStream.EveryStateOk` | packages/agent-session-store/replay.js:148-801 | in every accepted log steps, turns, requests and executions are consistent, and versions count events |
| `SessionStream.StreamBytesAreExact` | packages/agent-session-store/replay.js:399-463 | the byte count kept as events arrive is the length of the canonical JSON array of the events, and no step exceeds its bounds |
| `SessionStream.TerminalAlwaysFits` | packages/agent-session-store/replay.js:440-453 | an open step always has a slot and room for one terminal event of up to 8191 bytes |
| `SessionFilled.LongEndRefused` | packages/agent-session-store/replay.js:440-453 | a stored log whose open step is filled up to the reserve: the ledger takes a terminal event there exactly when it has at most 8191 bytes |
| `SessionFilled.Filled` | packages/agent-session-store/replay.js:440-462 | every stream of events within the fold's bounds is that of a stored log's open step |
| `SessionStream.DriverEventTaken` | packages/agent-runtime/runtime.js:589-600 | every event of a stream that the driver lets through is accepted by the fold, and no other when the driver's caps are the maximal ones |
| `SessionStream.StepsFormAChain` | packages/agent-session-store/replay.js:337-398 | the steps of a turn extend the assembled request step by step; only the last can be open |
| `SessionSettle.EveryCancellableLogSettles` | packages/agent-runtime/runtime.js:320-442 | from every accepted log with a cancellation request, every event of the settling pass is accepted and the last ends the session with nothing open or pending, as failed or cancelled as the code says |
| `SessionSettle.StreamsEnd` | packages/agent-runtime/runtime.js:324-377 | every open step and legacy stream is ended by an accepted event, and nothing else changes |
| `SessionSettle.ToolsEnd` | packages/agent-runtime/runtime.js:378-412 | every pending execution is given up by an accepted event, and nothing else changes |
| `SessionSettle.EndTaken` | packages/agent-runtime/runtime.js:413-440 | with nothing open and nothing pending the terminal event is accepted |
| `SessionSettle.WorksAre` | packages/agent-runtime/runtime.js:324-377 | however turns are listed, every open stream is ended once |
| `SessionSettle.PendingToolsAre` | packages/agent-runtime/runtime.js:380-381 | however executions are listed, every pending one is given up once |
| `SessionSettle.CancelLength` | packages/agent-runtime/runtime.js:334-345 | the event that ends a stream has fewer than 1000 bytes, so it fits the reserve |
| `SessionSettle.PassIdsDifferExactly` | packages/agent-runtime/runtime.js:327-411 | the ids of one pass are distinct exactly when no two of its events are for equal step ids or equal calls of equal step ids |
| `SessionSettle.LedgerTakesPassIff` | packages/agent-runtime/runtime.js:320-442 | from a stored log with a cancellation request, the ledger takes the whole pass exactly when it has no such twins and none of the derived ids stands in the log |
| `SessionTraces.TwinsRefused` | packages/agent-runtime/runtime.js:327-411 | a stored log with one step id open in two turns and a cancellation, whose settling pass the ledger refuses, however ids are derived |
| `AgentRuntimeClass.AgentRuntime.Append` | packages/agent-runtime/runtime.js:183-200 | the event takes the next sequence and is stored exactly when it folds and its id is new |
| `AgentRuntimeClass.AgentRuntime.EndStreams` | packages/agent-runtime/runtime.js:324-377 | the loop over the turns appends exactly the specified events |
| `AgentRuntimeClass.AgentRuntime.EndTurn` | packages/agent-runtime/runtime.js:325-376 | the steps of one turn and its legacy stream |
| `AgentRuntimeClass.AgentRuntime.EndSteps` | packages/agent-runtime/runtime.js:325-349 | the loop over the steps of a turn |
| `AgentRuntimeClass.AgentRuntime.EndStepIfOpen` | packages/agent-runtime/runtime.js:326-348 | its body: only an open step is ended |
| `AgentRuntimeClass.AgentRuntime.GiveUpTools` | packages/agent-runtime/runtime.js:380-412 | the loop over the executions appends exactly the specified events |
| `AgentRuntimeClass.AgentRuntime.EndSession` | packages/agent-runtime/runtime.js:413-440 | the terminal event, chosen by what was uncertain and by the source of the cancellation |
| `AgentRuntimeClass.AgentRuntime.SettleTools` | packages/agent-runtime/runtime.js:378-442 | tools and terminal event, from the log read after the streams |
| `AgentRuntimeClass.AgentRuntime.Settle` | packages/agent-runtime/runtime.js:320-442 | the three parts from the state that was read |
| `AgentRuntimeClass.AgentRuntime.SettleCancellation` | packages/agent-runtime/runtime.js:320-442 | the whole pass appends the specified events and closes the session exactly when the ids of the log it aims at are unique |
| `SessionContinuation.DriverMatchesFoldIff` | packages/agent-runtime/runtime.js:753-877 | for what the driver chooses from profile, assessment and durable record, its continuation equals the fold's exactly when it compacts or nothing is compacted yet for these outcomes |
| `SessionContinuation.DriverStepTakenIff` | packages/agent-runtime/runtime.js:753-877 | the step the driver starts, after it has recorded what it compacted, is taken by the ledger exactly then |
| `SessionContinuation.RepeatedAssessmentTaken` | packages/agent-runtime/runtime.js:753-877 | while what was compacted once is compacted again, every step the driver starts is taken |
| `SessionTraces.ChangedPolicyRefused` | packages/agent-runtime/runtime.js:770-877 | a stored log with a durable compaction, after which a step started under another profile or assessment is refused |
| `SessionRows.ToolCompactionsDiffer` | packages/agent-session-store/replay.js:549-604 | in every accepted log no two tool compactions of a turn are of the same outcomes |
| `SessionRows.EveryRow` | packages/agent-session-store/replay.js:148-801 | in every log with unique ids what the state says of events stands in the log: each recorded id is the row of that kind and sequence |
| `SessionRows.StoredPush` | tools/mcp-project-state/lib/execution-event-ledger.js:268-275 | a stored log grows by exactly the events that fold and whose id is new |
| `SessionContinuation.ContinuationTaken` | packages/agent-session-store/replay.js:345-411 | a continuation that says what the fold derives is accepted, under new ids |
| `SessionContinuation.EveryStateLinked` | packages/agent-session-store/replay.js:464-503 | in every accepted log each call points to its execution and every recorded event id is one the fold has seen |
| `SessionContinuation.ExecutionsFound` | packages/agent-runtime/runtime.js:753-800 | the executions the driver looks up are the fold's, with the same messages and ids in the same order |
| `SessionWorkflow.ReservationsBounded` | packages/agent-session-store/replay.js:637-734 | at most one reservation is unreleased; all reserved steps are within the session limit; checkpointed steps of a workflow are within its reservation |
| `SessionWorkflow.StaleClaimRefused` | packages/agent-session-store/replay.js:668-703 | once a workflow has a later claim, no checkpoint, reclaim or release naming an earlier one is accepted |
| `SessionWorkflow.ClaimsHandOver` | packages/agent-session-store/replay.js:637-683 | of two claims on a workflow with none between them, the later one reclaims the earlier by name, after that has expired |
| `SessionWorkflow.PhaseTakenDespiteRelease` | packages/agent-session-store/replay.js:684-734 | a phase is taken right after its workflow was released exactly when it would have been taken before |
| `SessionTraces.PhaseAfterRelease` | packages/agent-session-store/replay.js:700-734 | a stored log in which a workflow is released as cancelled and then checkpoints a phase |
| `SessionWorkflow.ReserveAccepted` | packages/agent-orchestration/workflow-engine.js:123-204 | every reservation or reclaim the engine decides on is accepted by the fold |
| `SessionWorkflow.EveryBudgetOk` | packages/agent-session-store/replay.js:637-734 | every accepted log keeps the budgets of reservations and phases |
| `SessionWorkflow.PhaseRecordedOnce` | packages/agent-session-store/replay.js:700-734 | whatever crashes, resumes and reclaims there were, an accepted log checkpoints a phase of a workflow once at most, and all its phases under one definition |
| `WorkflowEngineClass.WorkflowEngine.Append` | packages/agent-orchestration/workflow-engine.js:73-76 | one event is stored exactly when it folds and its id is new |
| `WorkflowEngineClass.WorkflowEngine.Interleave` | packages/agent-orchestration/workflow-engine.js:277-301 | events of others are taken when the ledger takes them and only extend the log |
| `WorkflowEngineClass.WorkflowEngine.ReserveWorkflow` | packages/agent-orchestration/workflow-engine.js:123-204 | the engine's decision is what happens: a claim kept, a claim made durable unless its id was used, or the reason for neither |
| `WorkflowEngineClass.WorkflowEngine.ReleaseWorkflow` | packages/agent-orchestration/workflow-engine.js:206-239 | the release is made, was made, or is refused for the engine's reason, or by an ended session or a used id; after success the workflow is released with this status |
| `WorkflowEngineClass.WorkflowEngine.CheckpointNext` | packages/agent-orchestration/workflow-engine.js:399-400 | after others have interleaved: the phase is recorded exactly when it settled, the claim is still the current one, the session has not ended, the id is new and the checkpoint fits; otherwise which of these failed |
| `WorkflowEngineClass.WorkflowEngine.JoinDurable` | packages/agent-orchestration/workflow-engine.js:357-371 | a phase that was durable before is joined and not recorded again |
| `WorkflowEngineClass.WorkflowEngine.RunPhase` | packages/agent-orchestration/workflow-engine.js:356-408 | one phase: kept if durable, recorded under the claim if not |
| `WorkflowEngineClass.WorkflowEngine.RunPhases` | packages/agent-orchestration/workflow-engine.js:356-408 | the loop keeps the durable phases and records the others in order under the claim; it reaches the end exactly when every phase is good in the state it is decided on, which is that of the log up to the row it is recorded in |
| `WorkflowEngineClass.WorkflowEngine.RunClaimed` | packages/agent-orchestration/workflow-engine.js:355-423 | under a claim: the run completes exactly when every phase is good and the release is taken; then every phase is in the log exactly once |
| `WorkflowEngineClass.WorkflowEngine.Undo` | packages/agent-orchestration/workflow-engine.js:412-423 | a run that fails or is cancelled releases with that status, or reports the orphan or the lost claim |
| `WorkflowEngineClass.WorkflowEngine.Execute` | packages/agent-orchestration/workflow-engine.js:324-427 | a whole run: which error keeps it from starting; it completes exactly when every phase is good in the state it is decided on, one prefix of the log after the other, and the release is taken; an ended run is released with its own status; it never stays active |
| `WorkflowEngineClass.WorkflowEngine.Run` | packages/agent-orchestration/workflow-engine.js:429-462 | the same, unless the workflow is active already or its parent has another active one: then nothing happens; a run leaves neither mark behind |

## Left out

- GovernedExecution.ReplaysAgree: says for overdue calls only how the two answers differ, because the code gives a deadline code first and a cancellation on replay; calls that returned without their outcome stored are in GovernedExecution.FirstOutcomeAgreesIff.
- SseSplitter.ChunkingDoesNotShow: allows a cut that keeps more text in the buffer to stop early at the buffer limit, because the code measures the buffer after each chunk and before it splits off frames.
- DelegatedSystem.SendsRecordedTurn: takes the hypothesis that a request id names one turn, because without it the property is false (DelegatedSystem.OtherMessageCanBeSent).
- SessionWorkflow.StaleClaimRefused: takes event ids as unique on the ledger, because the fold records seen ids and never rejects a repeated one.
- SubagentProviderClass.LocalSubagentProvider.Settle: takes what each session was before and is after the wait, and what was spawned meanwhile, as an argument, because the sessions run on their own.
- SubagentProviderClass.SettledTreeIff: says nothing of sessions attached after the wait, because settling has read the ledger by then.
- SseSplitter.KeptCrShowsIff: is about a CR CR LF that ends a line of data before a frame boundary and not about every one, because elsewhere whether a kept CR reaches a value depends on the lines around it.
- AgentRuntimeClass.AgentRuntime.SettleCancellation: the loops visit turns and executions in an order given as an argument, because the order of object keys depends on how the ids are spelled.
- GovernedExecution: the fixed texts and codes are names, and long messages are not spelled out; a provider outcome named after an object prototype key, such as `constructor`, is not distinguished from another unknown one.
- GovernedExecution: the checks of a request that touch no ledger (tool contract, policy decision, schemas) are made before the model's call arrives; a rejected one writes no fact.
- Scheduler: contract resolution that calls back into the scheduler; an abort signal that fires is one step and may fire more than once; what the port returns is whether it succeeded.
- Delegated runtime: creation and cancellation against a provider (`create`, `resumeAndCancel`) appear as facts in the log and not as host operations; timeouts and closing of providers are absent.
- Message store: a policy callback that writes to the store while it decides (so the second look at the bounds after it is the first one again); subscriptions, the relay's idle notices and the adapter.
- Session fold: schemas are the predicates the fold's theorems use; the canonical text of a model event is a field of its own; error codes are one refusal except where a theorem tells them apart; compaction digests are the sources themselves, and their byte statistics a function; the prefix checks of a continuation that its later equality implies are not repeated.
- Agent runtime: the drive loop, token budget and provider streams (`#drive`, `#startStep`, `#streamStep`) except for the bounds they respect and the continuation they build; tool execution through the governed port.
- Workflow engine: it runs on one parent; spawning and joining children and the groups within a phase, which only tell whether the phase settles; the comparison of authority, limits, parallelism and duration with the parent (ForkTree has the first two); cancelling children.
- Context budget: rendering of instructions and memory; tokens are any function of the included sources, counted once per text.
- Fork tree: appends with a causation of the caller's choice; an attachment whose own event id is spelled like the root anchor of its child; when a session may end, and events other than creation, fork, attachment, request, end and a generic one; the times of events.
- Canonical JSON: numerals of numbers that are not integers in the safe range (the double printing of section 7.1.12.1 of ECMA-262), cycles, sparse arrays, accessors, symbols and prototypes; the digest.
- SSE: decoding of bytes to text, and JSON parsing, which is any predicate.
- Rows of a relational log are in order of position, and position within a stream is its version.
- Ledger acceptance of byte-identical retries outside appends and forks of the session store, sensitive-key scanning, trace formatting, deep freezing, processes, sandboxes, network and timers: they add no property to the ones above.
- Policy lattice, registries, circuit breaker, snapshot store, preflight, hosted and protocol providers, tools and scripts: short lookups or input and output.
