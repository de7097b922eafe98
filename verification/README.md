# Swift Agent, modelled and verified

This project models the protocols at the core of Swift Agent, a real-time agent runtime, and proves
what they keep. `dafny verify dfyconfig.toml` checks all of it.

| file | what it is about |
|---|---|
| `Loop.dfy`, `Transcript.dfy`, `History.dfy`, `Rows.dfy` | one run of the agent loop: rounds, event stream, tool calls, terminal classification, rows |
| `RunService.dfy` | the execution service: starts, setups, drives and cancels over the session lock and the run registry |
| `Deadlines.dfy` | composed abort signals and which cause they report |
| `SpendLedger.dfy`, `Mediator.dfy`, `RateLimit.dfy` | the playground's money: reserve and settle under row locks, guest counters, the sliding window |
| `Idempotency.dfy`, `RemoteExecutor.dfy` | at-most-once tool execution over a lossy channel |
| `Gateway.dfy`, `Fanout.dfy` | delivery to sockets, to late joiners and across instances |
| `Calculate.dfy` | the arithmetic tokenizer, parser and evaluator |
| `DriftCheck.dfy`, `Introspection.dfy`, `LiveCheck.dfy`, `Catalog.dfy`, `Sorting.dfy` | the structural diff, schema assembly from catalog rows, and the check on the rows its queries return |
| `ContextBuilder.dfy` | model context from history, with last-n trimming |
| `StreamAssembly.dfy` | tool-call deltas into calls |
| `Paging.dfy` | cursor pagination |

How the concurrent parts are modelled. Code that awaits is cut into the segments between its awaits.
A segment is a class method, whose contract ties it to a function on values (`Do`), and the theorems
are about every sequence of enabled segments (`Possible`, `Reached`, `After`). What the code cannot
control is arbitrary: which write throws, which timer fires, what the model streams, what the network
loses. Clocks, generated ids and the fate of each call are parameters or nondeterministic choices.

Several promises in the source's own comments hold only under a condition. The model follows the code,
and each of these is stated with its exact condition:

- The run's deadlines: `packages/runtime/src/deadlines.ts:6-7` says that any deadline ends the run as
  timed out. A model deadline does so only if the call throws (`Loop.Run.ModelCall`); a provider stream
  that ends normally after its timer fired is a success. The deadline of the whole run is looked at only at
  the top of a round, before each chunk and when something throws: one that fires later, while the final
  text and the status are written, leaves the run completed.
- The rows of a run: a setup that fails after the insert leaves a row that nothing ever finishes
  (`RunService.LeftRunningExactly`, `RunService.FailedSetupLeavesItsRow`).
- The cancellation set: it is cleaned up for every run except one cancelled during a setup that fails
  (`RunService.CancelsDrainedIff`, `RunService.CancelLeaks`).
- The message cap: `apps/playground/backend/src/mediator/mediator.ts:364-366` says that a burst cannot
  race past the caps. Per socket it cannot; a guest with k sockets can send k - 1 more
  (`Mediator.MessageBound`, `Mediator.MessageBoundIsExact`).
- The idempotency cache: a rejection deletes by key, not by execution
  (`Idempotency.StaleRejectionDropsARunningEntry`). The wrapper of tool handlers never rejects, and then
  the cache is exact (`Idempotency.SharesExactlyWhileRecent`).
- The replay buffer: it is cleared by every send that ends, also by one refused with a conflict while the
  run goes on; late joiners then miss events and a cancel finds no run (`Gateway.LateJoinerSees`,
  `Gateway.CancelTarget`).
- The channel count: a socket that closes before its close listener is installed, while its token is checked
  or its acquire is waiting, is never released, and neither is one whose acquire was rejected
  (`Fanout.ChannelFreedExactly`, `Fanout.GoneSocketKeepsTheChannel`, `Fanout.UnheardCloseKeepsTheChannel`).
- The channel subscription: a positive count is not a subscription, and a count of zero does not end one. Peer
  events published before the broker confirmed are lost, after a rejected subscribe the channel is not
  subscribed again, and after a rejected unsubscribe it stays subscribed (`Fanout.EachEventOnce`,
  `Fanout.SubscribedExactly`, `Fanout.RejectedAcquireIsNotRetried`, `Fanout.RejectedReleaseStaysSubscribed`).
- The drift check: an index on expressions alone always shows as drift, and so does a foreign key of several
  columns or one whose name another table uses too (`Introspection.ExpressionIndexAlwaysDrifts`,
  `LiveCheck.CompositeKeyAlwaysDrifts`, `LiveCheck.LiveRoundTripExactly`).
- The tool messages of a context: a tool that returned nothing leaves a message without the id and the name
  of its call (`ContextBuilder.ToolResultsFollowTheirCalls`, `ContextBuilder.VoidToolLosesItsCall`).
- The memory bound: a bound of zero keeps everything (`ContextBuilder.TrimIsTail`); configuration
  requires a positive one.

## Model

| member | source | states |
|---|---|---|
| Loop.Run.RunAgentLoop | packages/runtime/src/loop.ts:81-487 | A whole run over any model stream, any write failure and any abort: the stream is `message_started`, rounds that follow the model, at most one call left open and then only before `run_failed`, and one terminal event unless torn down; that event names the persisted status unless its write was lost; the failure it names is exactly what had aborted when it was classified (timed out, cancelled, or an error under its own code, `INTERNAL` when it has none) and the first cause to abort is never misreported; no token goes out and no round passes its abort check after an abort of the run; every completed call is the model's, in order: a rejected one failed unexecuted, an accepted one was executed once, it is completed exactly when its execution returned an output, and its stored result is that output or else the error text, and beyond these there is at most one execution and one missing result, those of the call the run stopped in; a fired tool deadline is on record unless the write before it threw; no tool-call row stays `started` unless a finalizing write was lost |
| Loop.CompletedCallIsRight | packages/runtime/src/loop.ts:237-351 | The k-th completed call of round r is the k-th call of that round's model stream: rejected, failed and unexecuted, or executed under its own id, name and arguments, completed exactly when the execution returned an output, with the output or the error text as its result |
| Loop.Run.Drive | packages/runtime/src/run-execution-service.ts:75-106 | After the late cancel of `drive` the terminal event still names the final status of the row; only a run whose terminal write was lost, or that was torn down, is left running or cancelled |
| Loop.Run.Conclude | packages/runtime/src/loop.ts:81-459 | The `try` and `catch` blocks end in a settled stream and status, whatever throws where, and the failure reported is exactly the cause on the signals at that moment |
| Loop.Run.Body | packages/runtime/src/loop.ts:81-422 | Inside the `try` block a run ends delivered and `completed`, or at the iteration limit and `failed`, or leaves with the row still `running` |
| Loop.Run.Iterate | packages/runtime/src/loop.ts:124-365 | At most `maxToolIterations` rounds; all but the last went through their whole stream and made calls; the loop ends with an answer or at the limit |
| Loop.Run.OneRound | packages/runtime/src/loop.ts:124-352 | One pass: it begins only when the run has not aborted, and either answers or completes every call and goes back to the top |
| Loop.Run.AskModel | packages/runtime/src/loop.ts:124-202 | The abort check comes before the round is begun; then the reads and the model call |
| Loop.Run.ModelCall | packages/runtime/src/loop.ts:143-202 | One round relays exactly the tokens of its stream and collects exactly its calls; a deadline becomes the run's only when the call throws and the merged signal aborted with a timeout |
| Loop.Run.StreamChunks | packages/runtime/src/loop.ts:160-184 | The stream loop: tokens out in order, calls kept in order; a chunk is handled only while the run has not aborted, and an abort leaves the loop with its cause |
| Loop.Run.RelayToken | packages/runtime/src/loop.ts:164-173 | One token is appended to the text and to the stream |
| Loop.Run.PersistCalls | packages/runtime/src/loop.ts:217-235 | The assistant record carries every call with its provider id and name, before any tool runs |
| Loop.Run.RunTools | packages/runtime/src/loop.ts:217-352 | Every call is started, settled, completed and its result stored, in order, before the next one starts; the books balance after each |
| Loop.Run.RunTool | packages/runtime/src/loop.ts:238-351 | One call keeps the pairing of events, the open set and the correlation of messages, however it ends; when it goes through, its execution if any, its status and its stored result are added to the books together |
| Loop.Run.StartCall | packages/runtime/src/loop.ts:238-246 | A started event leaves exactly one call open in the stream |
| Loop.Run.CreateRow | packages/runtime/src/loop.ts:248-255 | The row and the open-set entry appear together or, when the write throws, not at all |
| Loop.Run.SettleCall | packages/runtime/src/loop.ts:257-321 | A rejected call fails without being executed; an accepted one is executed once and its row and result are those of that execution; if the first abort of the merged signal is a deadline it is promoted to the run, and otherwise nothing is |
| Loop.Run.Execute | packages/runtime/src/loop.ts:277-316 | One execution under a fresh tool timer, recorded with its result and with the deadline its signal carried |
| Loop.Run.FinishRow | packages/runtime/src/loop.ts:269-270 | The guarded row write and the removal from the open set go together |
| Loop.Run.CompleteCall | packages/runtime/src/loop.ts:323-331 | The completed event closes the open call and names the status of its row |
| Loop.Run.CloseCall | packages/runtime/src/loop.ts:323-347 | The completed event and the stored result of a call are those of its execution, or of its rejection; the result alone may be missing |
| Loop.Run.PersistResult | packages/runtime/src/loop.ts:333-347 | The k-th result record answers the k-th call of its assistant record; a result that serializes to nothing leaves the record without one |
| Loop.Run.PersistText | packages/runtime/src/loop.ts:398-407 | The final text is persisted once, and only when there is any |
| Loop.Run.FinishRun | packages/runtime/src/loop.ts:409-415 | A terminal write applies only to a running row, or throws without effect |
| Loop.Run.HandleError | packages/runtime/src/loop.ts:423-459 | Timed out exactly with a deadline on record or on the signal, cancelled exactly with a cancel on it and no deadline on record, otherwise the error's own code or `INTERNAL`; the row gets the matching status unless the write is lost |
| Loop.Run.Finalize | packages/runtime/src/loop.ts:460-466 | After the `finally` block rows are as they were except that started ones failed, and none is started unless a write threw |
| Loop.ClassifyFirst | packages/runtime/src/loop.ts:74-79 | If a cancel aborted first the run is never classified as a timeout, and if the total deadline did, never as a cancellation |
| Loop.TimeoutIsFirst | packages/runtime/src/loop.ts:193-200 | A timeout reason on the run's signal means that a deadline was the first to abort |
| Loop.BlockAppend | packages/runtime/src/loop.ts:333-347 | Appending the result of the next call keeps every result correlated with its call |
| Transcript.StreamShape | packages/runtime/src/loop.ts:81-459 | Event by event: only the first is `message_started`, only the last is terminal, a started call is followed at once by its own completion or by the run's failure, and a completion directly follows its start |
| Transcript.FlatWithCall | packages/runtime/src/loop.ts:240-331 | A completed call extends the stream by its started and completed events and nothing else |
| Transcript.FlatPaired | packages/runtime/src/loop.ts:237-352 | Inside the rounds starts and completions alternate, call by call |
| History.AppendAnswer | packages/runtime/src/loop.ts:333-347 | A history stays correlated when the next result of its last call block is appended |
| History.AppendOther | packages/runtime/src/loop.ts:217-234 | A history stays correlated when any other record is appended |
| Rows.RunRepo.Create | packages/db/src/repositories/run-repo.ts:8-24 | A run row is inserted once |
| Rows.RunRepo.Transition | packages/db/src/repositories/run-repo.ts:40-81 | A terminal transition applies exactly to a running row and to no other row |
| Rows.FirstTerminalWriteWins | packages/db/src/repositories/run-repo.ts:40-81 | After any interleaving of terminal writes a running row has the status of the first write aimed at it, and a terminal row is unchanged |
| RunService.SessionLock.Acquire | packages/runtime/src/session-lock.ts:13-25 | A conflict exactly when the session is held, with no effect |
| RunService.SessionLock.Release | packages/runtime/src/session-lock.ts:27-32 | The holder's own release frees the session and no other; any other release has no effect |
| RunService.Service.BeginStart | packages/runtime/src/run-execution-service.ts:109-116 | The synchronous start of `start`: lock, controller and registry slot together, or a conflict with no effect |
| RunService.Service.InsertRow | packages/runtime/src/run-execution-service.ts:119-135 | The row of a run that holds its lock |
| RunService.Service.EnterDrive | packages/runtime/src/run-execution-service.ts:144-150 | After the setup the run is driven; lock and slot stay |
| RunService.Service.WriteTerminal | packages/db/src/repositories/run-repo.ts:40-81 | A terminal write of the loop applies to a running row only |
| RunService.Service.AbandonSetup | packages/runtime/src/run-execution-service.ts:136-142 | A failed setup gives up the slot and the lock, and nothing else |
| RunService.Service.EnterFinally | packages/runtime/src/run-execution-service.ts:85-105 | A drained run leaves at once, or first waits for its late cancel |
| RunService.Service.LeaveFinally | packages/runtime/src/run-execution-service.ts:93-105 | The late cancel is guarded by the row's status and then everything is given up, whether or not it threw |
| RunService.Service.Cancel | packages/runtime/src/run-execution-service.ts:158-172 | A cancel marks and aborts a registered run and is accepted in every case |
| RunService.RegistryIsLock | packages/runtime/src/run-execution-service.ts:57-142 | In every interleaving the registered runs are exactly the runs that hold a lock |
| RunService.MutualExclusion | packages/runtime/src/run-execution-service.ts:109-154 | At most one run of a session is live |
| RunService.LoserWritesNoRow | packages/runtime/src/run-execution-service.ts:110-113 | A start that lost the race has no row, then or later |
| RunService.NoForeignRelease | packages/runtime/src/session-lock.ts:27-32 | No step of another run takes the lock from a run that stays live |
| RunService.NothingWedged | packages/runtime/src/run-execution-service.ts:101-105 | When every run has ended, lock map and registry are empty |
| RunService.CancelsDrainedIff | packages/runtime/src/run-execution-service.ts:60-62 | When every run has ended, the pending cancellations are empty exactly when no run was cancelled during a setup that then failed |
| RunService.CancelLeaks | packages/runtime/src/run-execution-service.ts:136-142 | Such a run: the cancellation of a failed setup is never removed |
| RunService.OrdinaryRun | packages/runtime/src/run-execution-service.ts:64-154 | A run that goes through ends with its status, and its lock and slot are given up |
| RunService.InsertedOnce | packages/runtime/src/run-execution-service.ts:123-127 | A run has one row |
| RunService.TerminalIsFinal | packages/runtime/src/run-execution-service.ts:86-98 | A terminal row is the same after any further steps |
| RunService.CancelledRunEndsTerminal | packages/runtime/src/run-execution-service.ts:86-100 | After the late cancel the row is terminal: cancelled if it was still running, otherwise as it was |
| RunService.RunningUntilWritten | packages/runtime/src/run-execution-service.ts:86-98 | At every moment exactly the rows that no terminal write was aimed at are running |
| RunService.LeftRunningExactly | packages/runtime/src/run-execution-service.ts:119-142 | When every run has ended the rows still running are those of runs whose setup failed after the insert and of runs that no terminal write reached |
| RunService.FailedSetupLeavesItsRow | packages/runtime/src/run-execution-service.ts:119-142 | Such a run: a setup that fails after the insert leaves its row running |
| Deadlines.DeadlineController.Elapse | packages/runtime/src/deadlines.ts:56-75 | A timer aborts its controller with its own scope, and never after it was disposed or without a positive timeout |
| Deadlines.DeadlineController.Dispose | packages/runtime/src/deadlines.ts:66-74 | A disposal aborts nothing and is kept, so no later timer step aborts |
| Deadlines.AbortsExactlyInTime | packages/runtime/src/deadlines.ts:51-75 | Over any steps a timer aborts exactly when it is armed and its time is up before it is disposed |
| Deadlines.DiscardedStays | packages/runtime/src/deadlines.ts:68-74 | Nothing that happens to a disposed timer changes its controller |
| Deadlines.FirstCauseStable | packages/runtime/src/deadlines.ts:104-111 | A later abort never revises the cause |
| Deadlines.AnyFreshMeans | packages/runtime/src/deadlines.ts:92-102 | Merging a signal with a fresh timer adds that timer to the sources the signal reports the first of |
| Deadlines.CancelMeans | packages/runtime/src/run-execution-service.ts:71-73 | The signal of `drive` reports a cancellation exactly when one of its two sources aborted |
| Deadlines.FirstCauseWins | packages/runtime/src/engine.ts:129-142 | The nested composition a run builds reports, at every moment, the first of all its sources to abort, on the run's signal and on every call's |
| SpendLedger.Repo.Reserve | packages/db/src/repositories/playground-spend-repo.ts:49-115 | An invalid amount and a refused one change nothing; an accepted one adds its row and its amount together |
| SpendLedger.Repo.AttachRun | packages/db/src/repositories/playground-spend-repo.ts:117-130 | Only the row of that id without a run gets one, and it is the row returned; all other rows stay |
| SpendLedger.Repo.Settle | packages/db/src/repositories/playground-spend-repo.ts:132-159 | Only a reserved row of that id is settled, and it is the row returned; all other rows and all totals stay |
| SpendLedger.Repo.SweepAbandoned | packages/db/src/repositories/playground-spend-repo.ts:161-178 | Exactly the reserved rows older than the cutoff become abandoned, they are the rows returned, in order, and all other rows stay |
| SpendLedger.BookkeepingMovesNoMoney | packages/db/src/repositories/playground-spend-repo.ts:117-178 | Attach, settle and sweep change no day's sum |
| SpendLedger.FirstSettlementStands | packages/db/src/repositories/playground-spend-repo.ts:117-178 | After any attaches, settlements and sweeps a row has its money, the first run attached to it and the first settlement made of it |
| SpendLedger.StepKeepsInv | packages/db/src/repositories/playground-spend-repo.ts:59-108 | Each statement of a reserve transaction under row locks keeps totals equal to sums, the gate's reading current and accepted totals within their ceilings |
| SpendLedger.Serializable | packages/db/src/repositories/playground-spend-repo.ts:59-108 | Every interleaving of the transactions ends in the state of running them one at a time, each at its commit or refusal |
| SpendLedger.SomebodyMoves | packages/db/src/repositories/playground-spend-repo.ts:59-108 | No deadlock: a running transaction can go on, or waits for one of its day that can |
| SpendLedger.ReserveRuns | packages/db/src/repositories/playground-spend-repo.ts:49-115 | The statements of one undisturbed transaction charge the day and add the row, or roll back, as one call of `reserve` does |
| SpendLedger.OthersWait | packages/db/src/repositories/playground-spend-repo.ts:59-79 | Whoever inserts or updates the row of a day makes the other transactions of that day wait |
| SpendLedger.BookkeepingNeverWaits | packages/db/src/repositories/playground-spend-repo.ts:117-178 | Attaching, settling and sweeping are possible at any time and leave transactions, totals and locks alone |
| SpendLedger.CeilingHolds | packages/db/src/repositories/playground-spend-repo.ts:66-79 | In every interleaving a day total is the sum of that day's committed reservations and within the ceiling |
| SpendLedger.ExactlyTheRoom | packages/db/src/repositories/playground-spend-repo.ts:66-79 | On a day whose reserves share one amount and one ceiling exactly the smaller of the attempts and the room is accepted, however they interleave and whatever happens on other days |
| SpendLedger.AcceptedCount | packages/db/src/repositories/playground-spend-repo.ts:66-79 | The count of a day's accepted reservations from the final state alone |
| SpendLedger.RoomBounds | packages/db/src/repositories/playground-spend-repo.ts:66-79 | How often an amount fits under a ceiling |
| Mediator.Guest.CheckInbound | apps/playground/backend/src/mediator/mediator.ts:398-450 | The enforcement chain in its order; a refused frame changes nothing |
| Mediator.EnforceIs | apps/playground/backend/src/mediator/mediator.ts:398-450 | What each refusal says and what passes: within the length, the message cap and the token cap |
| Mediator.Guest.AcceptInbound | apps/playground/backend/src/mediator/mediator.ts:471-473 | An accepted reservation is queued, counted and its message forwarded, together |
| Mediator.Guest.DropInbound | apps/playground/backend/src/mediator/mediator.ts:460-468 | A refused reservation counts nothing and forwards nothing |
| Mediator.Guest.ObserveStarted | apps/playground/backend/src/mediator/mediator.ts:481-491 | The first event of a run takes the oldest pending reservation; a replayed one takes nothing |
| Mediator.Guest.ObserveToken | apps/playground/backend/src/mediator/mediator.ts:493-514 | Tokens are estimated by rounding up, and the first breach alone asks for a cancellation |
| Mediator.Guest.BeginSettle | apps/playground/backend/src/mediator/mediator.ts:521-525 | A run's reservation is taken out once |
| Mediator.EstimatedTokens | apps/playground/backend/src/mediator/mediator.ts:495 | The estimate is the number of four-character groups, rounded up |
| Mediator.MessagesAreReservations | apps/playground/backend/src/mediator/mediator.ts:471-491 | Pending plus attached reservations, messages counted, messages forwarded and reservations accepted are the same number in every run |
| Mediator.AttachmentOneToOne | apps/playground/backend/src/mediator/mediator.ts:476-525 | The i-th run to take a reservation took the i-th accepted one; none is shared, none is taken twice, none is settled twice |
| Mediator.MessageBound | apps/playground/backend/src/mediator/mediator.ts:364-374 | With k sockets over a guest's life at most the cap plus k - 1 messages go out |
| Mediator.MessageBoundIsExact | apps/playground/backend/src/mediator/mediator.ts:428-473 | For every k a run that reaches that bound, so the cap itself holds for one socket only |
| Mediator.OneCancel | apps/playground/backend/src/mediator/mediator.ts:496-512 | The token cap asks for at most one cancellation |
| Mediator.Link.Forward | apps/playground/backend/src/mediator/mediator.ts:274-277 | A frame is sent or queued, never both |
| Mediator.Link.BecomeReady | apps/playground/backend/src/mediator/mediator.ts:268-273 | The queue goes out in order, nothing lost or repeated |
| Mediator.Link.Close | apps/playground/backend/src/mediator/mediator.ts:314-317 | A closed upstream queues again |
| RateLimit.Limiter.Check | apps/playground/backend/src/mediator/rate-limit.ts:30-44 | The verdict that the history of the key's checks calls for, with the hits it leaves; other keys untouched |
| RateLimit.Limiter.Forget | apps/playground/backend/src/mediator/rate-limit.ts:46-48 | A forgotten key has no history, other keys untouched |
| RateLimit.CeilSeconds | apps/playground/backend/src/mediator/rate-limit.ts:37 | Milliseconds rounded up to whole seconds |
| RateLimit.RetryAfter | apps/playground/backend/src/mediator/rate-limit.ts:36-37 | The fewest whole seconds, and at least one, until the oldest counted hit leaves |
| RateLimit.StoredIsEnough | apps/playground/backend/src/mediator/rate-limit.ts:31-42 | Dropping old hits never changes a verdict |
| RateLimit.AllowedIffRoom | apps/playground/backend/src/mediator/rate-limit.ts:34-43 | A check is allowed exactly when fewer than `max` accepted hits lie in the window behind it |
| RateLimit.WindowBound | apps/playground/backend/src/mediator/rate-limit.ts:30-44 | Any half-open window of the given length holds at most `max` accepted hits |
| RateLimit.NothingAccepted | apps/playground/backend/src/mediator/rate-limit.ts:34-39 | With `max` not positive nothing is ever accepted |
| RateLimit.RefusalAcceptsNothing | apps/playground/backend/src/mediator/rate-limit.ts:34-39 | A refused check adds no accepted hit |
| RateLimit.OldestRefuser | apps/playground/backend/src/mediator/rate-limit.ts:36-37 | The hit that the retry time waits for |
| RateLimit.RetryAfterIsSound | apps/playground/backend/src/mediator/rate-limit.ts:36-38 | After the announced wait with nothing accepted in between a check is allowed, exactly when the limiter accepts anything at all |
| RateLimit.RetryAfterIsShortest | apps/playground/backend/src/mediator/rate-limit.ts:36-38 | The announced wait is the shortest in whole seconds: a check a second or more before its end is refused too |
| Idempotency.Cache.Run | packages/sdk/src/tool-runner.ts:59-86 | A lookup shares the resident, fresh execution or starts one, moves the key to the young end and evicts from the old end |
| Idempotency.Cache.EvictIfNeeded | packages/sdk/src/tool-runner.ts:88-94 | Only the newest `maxEntries` entries stay |
| Idempotency.Cache.Settle | packages/sdk/src/tool-runner.ts:73-76 | A fulfilled execution stamps its own entry wherever it is |
| Idempotency.Cache.Reject | packages/sdk/src/tool-runner.ts:77-81 | A rejected execution drops whatever entry its key has |
| Idempotency.LookKeepsInv | packages/sdk/src/tool-runner.ts:59-86 | A lookup keeps entries in order of last use, sharing the latest execution, and every missing key accounted for |
| Idempotency.SettleKeepsInv | packages/sdk/src/tool-runner.ts:73-76 | So does a settlement |
| Idempotency.RejectKeepsInv | packages/sdk/src/tool-runner.ts:77-81 | So does a rejection |
| Idempotency.ReexecutionHasACause | packages/sdk/src/tool-runner.ts:36-86 | In every run the cache stays within its bound, a hit shares the latest execution, and a second execution means that the first settled `ttlMs` ago, that `maxEntries` other keys came since, or that an execution of the key rejected |
| Idempotency.SharesExactlyWhileRecent | packages/sdk/src/tool-runner.ts:255-282 | When no handler promise rejects, a known key is shared if and only if its outcome is younger than `ttlMs` and fewer than `maxEntries` other keys came since |
| Idempotency.ResidentHasFewOthers | packages/sdk/src/tool-runner.ts:88-94 | A resident key has been followed by fewer other keys than there are younger entries plus one |
| Idempotency.StaleRejectionDropsARunningEntry | packages/sdk/src/tool-runner.ts:77-81 | A rejection of an evicted execution drops the entry of a later one that is still running, so a third starts beside it |
| RemoteExecutor.ReadBoundedText | packages/runtime/src/tool-executor-remote.ts:236-262 | The whole body, or nothing exactly when it is longer than the bound |
| RemoteExecutor.WireContract | packages/runtime/src/tool-executor-remote.ts:198-234 | Outputs arrive as outputs, failed handlers and server errors ask for a retry, client errors are final, and only a success status with a success body is a success |
| RemoteExecutor.SomeAreFaithful | packages/sdk/src/tool-runner.ts:242-248 | There are serialisations and parsers that agree, so the promises are about something |
| RemoteExecutor.JudgedIs | packages/runtime/src/tool-executor-remote.ts:143-234 | Fate by fate: what is tried again and what it leaves as the last error, and what every other fate makes of the call |
| RemoteExecutor.Runner.Arrive | packages/sdk/src/tool-runner.ts:237-240 | A request is looked up whenever it arrives, under the time of that moment, and awaits an execution of its own key |
| RemoteExecutor.Runner.TurnAway | packages/sdk/src/tool-runner.ts:160-226 | A request refused before the lookup starts nothing |
| RemoteExecutor.Runner.OtherLookup | packages/sdk/src/tool-runner.ts:237-240 | Other calls share the cache: the other key is looked up and no request of this call changes |
| RemoteExecutor.Runner.Finish | packages/sdk/src/tool-runner.ts:255-282 | A handler ends once, with an outcome |
| RemoteExecutor.Runner.Receive | packages/sdk/src/tool-runner.ts:242-248 | A success reply is the rendering of the outcome the request awaited |
| RemoteExecutor.Attempt | packages/runtime/src/tool-executor-remote.ts:143-183 | One attempt, sent once; what it delivers as a success is the output of the execution its request awaited |
| RemoteExecutor.SendWithRetries | packages/runtime/src/tool-executor-remote.ts:133-196 | At most 1 + maxRetries attempts; connection errors, an attempt's own timeout, server errors and odd statuses are tried again and nothing else is; an over-long reply, an invalid one, a success or a client error ends the call with its own result; the last attempt names the reason when none is left; no attempt after the first is sent once the call was aborted; a success is the output of an execution of this call |
| RemoteExecutor.AtMostOnceExactly | packages/sdk/src/tool-runner.ts:36-44 | Over any traffic the handler of a key runs at most once if and only if its outcome was still kept at each arrival of its requests |
| RemoteExecutor.OnceAndItsOutput | packages/runtime/src/tool-executor-remote.ts:144-146 | A call is never executed more often than it was sent; while its outcome is kept it is executed once; and the output handed to the loop is that execution's |
| Gateway.ConnectionManager.Add | packages/gateway/src/connection-manager.ts:12-20 | The socket joins its session and no other |
| Gateway.ConnectionManager.Remove | packages/gateway/src/connection-manager.ts:22-30 | The socket leaves its session; empty sessions are not kept |
| Gateway.ConnectionManager.SafeSend | packages/gateway/src/connection-manager.ts:101-111 | A live socket gets the frame once, a dead one is dropped |
| Gateway.ConnectionManager.SendAll | packages/gateway/src/connection-manager.ts:41-43 | Every live socket of the set gets the frame exactly once, the dead ones are dropped |
| Gateway.ConnectionManager.Broadcast | packages/gateway/src/connection-manager.ts:32-44 | The same for all sockets of a session, and nobody else gets anything |
| Gateway.SessionBridge.OnEvent | packages/gateway/src/session-bridge.ts:160-188 | An event is buffered for its run up to the limit and delivered once to each attached live socket, other sessions unaffected |
| Gateway.SessionBridge.FinishSend | packages/gateway/src/session-bridge.ts:192-218 | The end of a send clears the buffer and tells the sender alone, everyone or nobody, by how it ended |
| Gateway.WhoIsTold | packages/gateway/src/session-bridge.ts:192-218 | Nobody when the run drained, the sender alone of a conflict and of a failure before the first event, every attached socket of a failure after it |
| Gateway.SessionBridge.HandleCancel | packages/gateway/src/session-bridge.ts:229-233 | A cancel is forwarded for the buffered run, if any |
| Gateway.SessionBridge.ReplayEvents | packages/gateway/src/session-bridge.ts:239-249 | The buffer is sent in order to the one socket |
| Gateway.SessionBridge.Connect | packages/gateway/src/plugin.ts:148-153 | Registration and replay with nothing in between |
| Gateway.SessionBridge.Disconnect | packages/gateway/src/plugin.ts:212-214 | A closed socket is detached, and the run goes on |
| Gateway.BufferIs | packages/gateway/src/session-bridge.ts:163-173 | After any run the buffer is the start of what the latest run emitted since a send last ended |
| Gateway.AttachedSeesAll | packages/gateway/src/session-bridge.ts:175-180 | An attached live socket gets every event once and in order |
| Gateway.DeadGetsNothing | packages/gateway/src/connection-manager.ts:101-111 | A dead socket receives nothing more |
| Gateway.LateJoinerSees | packages/gateway/src/session-bridge.ts:235-249 | After any earlier runs, a socket that joins when the latest run has emitted i events, c of them before a send last ended, gets events c to c + max and then all later ones; that is the run's stream exactly when c = 0, i is at most max and nothing of an earlier run is still buffered, which takes that no send ended after it |
| Gateway.CancelTarget | packages/gateway/src/session-bridge.ts:221-233 | A cancel reaches the latest run heard of; right after a send on the session ended, even with a conflict, it reaches none until the next event |
| Gateway.ConflictHidesTheRun | packages/gateway/src/session-bridge.ts:192-218 | Such a run: a conflict clears the buffer of a run still going on, a late joiner misses its first event, and a cancel finds no run |
| Fanout.ChannelRegistry.AcquireChannel | packages/gateway/src/channel-registry.ts:95-107 | The first holder alone installs the handler and sends a subscribe, which is then on its way; later holders only add to the count |
| Fanout.ChannelRegistry.ReleaseChannel | packages/gateway/src/channel-registry.ts:114-124 | The count goes down to zero at least, the last holder unsubscribes, and a release without a hold is harmless |
| Fanout.ChannelRegistry.BrokerAnswers | packages/gateway/src/channel-registry.ts:104-123 | The await of a subscribe or unsubscribe: accepted it changes what the broker queues, rejected it changes nothing, not even the count |
| Fanout.ChannelRegistry.Announce | packages/gateway/src/session-bridge.ts:175-187 | An event reaches every attached local socket at once and, under the id of its instance, the queue of every confirmed subscription |
| Fanout.ChannelRegistry.PeerPublishes | packages/gateway/src/channel-registry.ts:86-89 | A peer's event is queued exactly while the subscription is confirmed |
| Fanout.ChannelRegistry.Receive | packages/gateway/src/channel-registry.ts:139-148 | The oldest queued message is taken and forwarded |
| Fanout.ChannelRegistry.Forward | packages/gateway/src/channel-registry.ts:139-148 | An own or unreadable message is dropped, a peer's is broadcast |
| Fanout.ChannelRegistry.SocketJoins | packages/gateway/src/plugin.ts:148-153 | A live socket that joins is attached, and no other socket changes |
| Fanout.ChannelRegistry.SocketLeaves | packages/gateway/src/plugin.ts:212-214 | A socket that closes is detached, and no other socket changes |
| Fanout.ChannelsDiffer | packages/gateway/src/channel-registry.ts:76-78 | Sessions do not share channels |
| Fanout.EachEventOnce | packages/gateway/src/channel-registry.ts:86-148 | A socket that holds its channel gets each publisher's events once and in order: its own instance's at once, those of a peer with another id exactly when they were published while the subscription was confirmed |
| Fanout.CountIsHolders | packages/gateway/src/plugin.ts:155-164 | The count is the number of sockets that acquired and did not release, those of a rejected or unheard acquire included |
| Fanout.SubscribedExactly | packages/gateway/src/channel-registry.ts:95-124 | With nothing on its way a channel is subscribed if and only if somebody holds it and no acquire of it was rejected, or the last unsubscribe was rejected and no command was accepted since |
| Fanout.RejectedForever | packages/gateway/src/channel-registry.ts:103-106 | After a rejected acquire the channel stays held and its subscription never changes: there is none, unless an unsubscribe had been rejected before |
| Fanout.RejectedAcquireIsNotRetried | packages/gateway/src/channel-registry.ts:97-106 | Such a run: a later socket joins the rejected channel and is not subscribed |
| Fanout.ChannelFreedExactly | packages/gateway/src/plugin.ts:143-245 | With no socket open the count is zero if and only if every socket closed after its close listener was installed and none was rejected |
| Fanout.UnheardCloseKeepsTheChannel | packages/gateway/src/plugin.ts:155-223 | Such a run: the only socket closes before its acquire returns and the channel stays subscribed |
| Fanout.GoneSocketKeepsTheChannel | packages/gateway/src/plugin.ts:143-222 | Such a run: the only socket closes while its token is checked and the channel stays held and subscribed |
| Fanout.RejectedReleaseStaysSubscribed | packages/gateway/src/channel-registry.ts:119-124 | A run in which nobody holds the channel and the broker, having rejected the unsubscribe, still has it |
| Calculate.Evaluator.ParseExpr | apps/playground/backend/src/tools/calculate.ts:27-35 | The value of the longest sum at the position, and the position behind it |
| Calculate.Evaluator.ParseTerm | apps/playground/backend/src/tools/calculate.ts:38-53 | The same for a product; a zero divisor fails |
| Calculate.Evaluator.ParseFactor | apps/playground/backend/src/tools/calculate.ts:56-62 | The same for a factor, with nested minus signs |
| Calculate.Evaluator.ParsePrimary | apps/playground/backend/src/tools/calculate.ts:65-79 | The same for a number or a parenthesis |
| Calculate.Evaluator.Consume | apps/playground/backend/src/tools/calculate.ts:17-24 | One token, or failure at the end |
| Calculate.EvaluateTokens | apps/playground/backend/src/tools/calculate.ts:81-89 | If the whole list has a derivation the result is its value, and a result means that it has one |
| Calculate.ParseSumSound | apps/playground/backend/src/tools/calculate.ts:26-35 | What the parser derives spells exactly what it consumed |
| Calculate.ParseSumComplete | apps/playground/backend/src/tools/calculate.ts:26-35 | Every derivation of a prefix is found again |
| Calculate.DerivationUnique | apps/playground/backend/src/tools/calculate.ts:26-64 | A token list has at most one derivation |
| Calculate.ParseIffDerives | apps/playground/backend/src/tools/calculate.ts:81-84 | The parser finds a tree exactly when it derives the whole list |
| Calculate.SumValueIsEval | apps/playground/backend/src/tools/calculate.ts:28-33 | The value of a derivation is that of the expression it stands for, left to right |
| Calculate.PrintParseInverse | apps/playground/backend/src/tools/calculate.ts:26-79 | The minimal printing of any expression derives that expression and nothing else |
| Calculate.PrintIsShortest | apps/playground/backend/src/tools/calculate.ts:26-79 | The printing has the fewest tokens: every other derivation of the same expression is longer |
| Calculate.Tokenize | apps/playground/backend/src/tools/calculate.ts:91-120 | The tokens of the text, or failure on an unexpected character or an empty list |
| Calculate.LexSpell | apps/playground/backend/src/tools/calculate.ts:91-115 | Spelling tokens and reading them back gives the tokens |
| Calculate.EvaluateExpression | apps/playground/backend/src/tools/calculate.ts:9-89 | From text: a result is the value of the unique derivation of its tokens; a numeral alone is worth itself, and the decimal spelling of a number is worth that number |
| Calculate.DecimalIsWorthItself | apps/playground/backend/src/tools/calculate.ts:74-78 | The decimal spelling of every natural number is worth that number |
| Calculate.PointMoves | apps/playground/backend/src/tools/calculate.ts:74 | Moving the point one digit to the right multiplies by ten |
| Calculate.PaddingIsWorthNothing | apps/playground/backend/src/tools/calculate.ts:74 | A point at the end and a zero in front change nothing |
| Calculate.NumeralForm | apps/playground/backend/src/tools/calculate.ts:74-78 | A token is a number exactly when it is digits with at most one point among them |
| Calculate.RemainderIs | apps/playground/backend/src/tools/calculate.ts:47-50 | The remainder is smaller than the divisor, has the sign of the dividend and leaves a whole multiple of the divisor |
| Calculate.EvaluatePrinted | apps/playground/backend/src/tools/calculate.ts:9-89 | Printing any expression and evaluating the text gives its value |
| DriftCheck.DiffMaps | packages/db/src/drift-check.ts:505-532 | The keyed comparison used for columns, indexes, foreign keys and enums: every missing, unexpected and differing name once, and nothing else |
| DriftCheck.DiffTable | packages/db/src/drift-check.ts:499-608 | All differences of two tables, each once |
| DriftCheck.DiffExpectedTable | packages/db/src/drift-check.ts:482-489 | What one expected table contributes |
| DriftCheck.DiffUnexpectedTables | packages/db/src/drift-check.ts:490-494 | The tables only the database has |
| DriftCheck.DiffSchemas | packages/db/src/drift-check.ts:457-497 | The reported differences are exactly the differences there are, each once; a column is reported as a mismatch exactly when its type or nullability differs, an index when its columns or uniqueness do, a foreign key when any of its columns, its table or an action does |
| DriftCheck.NoDifferenceExactly | packages/db/src/drift-check.ts:457-608 | There is no difference if and only if the schemas agree on everything compared |
| Introspection.AddColumns | packages/db/src/drift-check.ts:280-287 | A column is what its last row says |
| Introspection.AddIndexes | packages/db/src/drift-check.ts:290-299 | An index is the columns of its rows in order and the uniqueness of the first |
| Introspection.AddForeignKeys | packages/db/src/drift-check.ts:301-318 | A foreign key is its column pairs in order and the rest of its first row, actions normalized |
| Introspection.AddPrimaryKeys | packages/db/src/drift-check.ts:320-323 | A primary key is the columns of its rows |
| Introspection.SortPrimaryKeys | packages/db/src/drift-check.ts:324-326 | Primary keys in string order, nothing else changed |
| Introspection.AddEnums | packages/db/src/drift-check.ts:328-331 | An enum is its values in row order |
| Introspection.EnsureTables | packages/db/src/drift-check.ts:269-278 | Every listed table exists, empty |
| Introspection.AssembleLiveSchema | packages/db/src/drift-check.ts:266-334 | Where everything in the assembled schema comes from |
| Introspection.NormalizedStays | packages/db/src/drift-check.ts:111-114 | Normalizing an action twice is normalizing it once |
| Introspection.ActionIs | packages/db/src/drift-check.ts:111-114 | An absent action is `NO ACTION`, a given one is trimmed and in capitals |
| Introspection.TrimIs | packages/db/src/drift-check.ts:113 | Trimming takes the white space from both ends and nothing else |
| Introspection.CanonicalTypeIs | packages/db/src/drift-check.ts:240-259 | The canonical name of every kind of column type |
| Introspection.IndexRowsComeBack | packages/db/src/drift-check.ts:289-290 | The rows of an index in any order, with gaps in their numbers where it has expressions, sort back to its columns in order |
| Introspection.KeyRowsComeBack | packages/db/src/drift-check.ts:301 | The same for foreign keys |
| Introspection.PrimariesComeBack | packages/db/src/drift-check.ts:320-326 | The same for primary keys, which sort by name |
| Introspection.RoundTripExactly | packages/db/src/drift-check.ts:266-334 | A database described by the rows of a schema in any order agrees with it if and only if every index, foreign key and enum has an entry and the schema is in canonical form |
| Catalog.ExplodeDescribes | packages/db/src/drift-check.ts:336-441 | Every schema is described by some rows, so the round trip is about every schema |
| Catalog.ExplodeIsQueried | packages/db/src/drift-check.ts:336-441 | For every schema there are rows that the queries return for it |
| Introspection.IncompleteNeverMatches | packages/db/src/drift-check.ts:289-318 | A schema with an index, foreign key or enum without entries matches no database at all |
| Introspection.ExpressionIndexAlwaysDrifts | packages/db/src/drift-check.ts:146-155 | An index on expressions alone is projected to no columns and reported against every database |
| Introspection.KeyColumnsAreItsRows | packages/db/src/drift-check.ts:301-318 | A foreign key is assembled with as many columns as it has rows |
| LiveCheck.CompositeKeyAlwaysDrifts | packages/db/src/drift-check.ts:389-412 | The query pairs all columns of all foreign keys of a name, so a key of several columns or of a shared name is reported as a mismatch against the very database that has it |
| LiveCheck.LiveRoundTripExactly | packages/db/src/drift-check.ts:266-412 | On the rows the queries return for a database with the expected schema there is no difference if and only if the schema is complete and canonical and every foreign key has one column and a name of its own |
| Introspection.ProjectPrimaryKey | packages/db/src/drift-check.ts:126-144 | The projected key is the flagged columns and those of composite keys, sorted |
| LiveCheck.CheckDrift | packages/db/src/drift-check.ts:645-660 | A database that has a complete schema of simple keys passes the check if and only if that schema is the expected one, field by field; no drift means a complete schema; on the rows the queries return for a database with the expected schema drift is reported exactly for an incomplete schema or one with a foreign key that is composite or shares its name |
| LiveCheck.ShownIsAssembled | packages/db/src/drift-check.ts:266-334 | From the rows of a complete schema of simple keys exactly that schema is assembled |
| LiveCheck.AgreeIsEqual | packages/db/src/drift-check.ts:499-608 | Two schemas kept under their own names show no difference if and only if they are equal |
| Sorting.FilterSort | packages/db/src/drift-check.ts:290 | A stable sort may be done before or after selecting rows |
| Sorting.SortStrings | packages/db/src/drift-check.ts:325 | A permutation of sorted strings sorts to them |
| ContextBuilder.ContextBuilder.Build | packages/runtime/src/context-builder.ts:50-87 | The prompt if there is one, then one message for each kept record, of its role: a user record and a plain assistant record with their text, a record of calls with its text and call by call its arguments, name and provider id, a tool record that has a result and an id with that result under that id |
| ContextBuilder.ContextBuilder.MapAssistantMessage | packages/runtime/src/context-builder.ts:89-125 | Tool calls are rebuilt with their provider ids, and the names are remembered |
| ContextBuilder.ContextBuilder.MapToolMessage | packages/runtime/src/context-builder.ts:127-157 | A record with a result gets its id and its name, the name from the map for legacy records; one without a result is passed on as raw text |
| ContextBuilder.LegacyNameIsLatest | packages/runtime/src/context-builder.ts:159-166 | A tool record that names no tool gets the name of the latest kept call with its id, or none |
| ContextBuilder.TrimIsTail | packages/runtime/src/memory/last-n.ts:11-21 | Trimming keeps a tail of the non-system records; its bound holds exactly when it is positive or there is nothing to keep |
| ContextBuilder.NonSystemCorrelated | packages/runtime/src/memory/last-n.ts:14 | Dropping system records separates no result from its call |
| ContextBuilder.TailCorrelated | packages/runtime/src/memory/last-n.ts:20 | In a tail only the leading tool records can have lost their call |
| ContextBuilder.ToolResultsFollowTheirCalls | packages/runtime/src/context-builder.ts:50-157 | In the context of any history that loop runs wrote every tool message follows the message of its call, except one leading block whose call was trimmed away, and names the id and tool of that call if and only if its record has a result |
| ContextBuilder.UnansweredCallsAreLast | packages/runtime/src/context-builder.ts:50-157 | The calls of an assistant message that have a tool message are the first ones, as many as tool messages stand behind it; the rest, left by a run that stopped, have none |
| ContextBuilder.VoidToolLosesItsCall | packages/runtime/src/context-builder.ts:133-157 | Such a history: the message of a tool that returned nothing does not name its call |
| ContextBuilder.PlainTextComesBack | packages/runtime/src/context-builder.ts:89-125 | A stored assistant text comes back as itself if and only if it does not read as a record of tool calls |
| StreamAssembly.Generate | packages/models/src/providers/openai.ts:125-198 | Tokens as they come, then one call per index in increasing order, each with its joined arguments and last id and name, then one finish; nothing after the tokens when the stream throws |
| StreamAssembly.AccumulateAll | packages/models/src/providers/openai.ts:142-153 | The deltas of a chunk are added to the calls of their indices |
| StreamAssembly.Patch | packages/models/src/providers/openai.ts:150-152 | Whatever deltas a call was assembled from, the patched call is assembled from them and the new one |
| StreamAssembly.EmitCalls | packages/models/src/providers/openai.ts:171-184 | The accumulated calls in index order |
| StreamAssembly.CallIs | packages/models/src/providers/openai.ts:171-184 | A call keeps its id and name; its arguments are parsed, absent ones as an empty object, or kept as text |
| StreamAssembly.InterleavingIsIrrelevant | packages/models/src/providers/openai.ts:142-184 | Streams with the same deltas per index give the same calls however they are interleaved |
| Paging.ListMessages | packages/api/src/services/session-service.ts:112-126 | The messages after the cursor, at most `limit`; an error exactly for an unknown cursor; an empty cursor starts over |
| Paging.FollowCursors | packages/api/src/routes/messages.ts:16-25 | A client that follows cursors sees each message once and in order while the list grows, and all of them when a short page stops it; a list of n messages that does not change takes it n / limit + 1 requests |
| Paging.RequestsForFixedList | packages/api/src/routes/messages.ts:16-25 | The only number of requests whose last page is the first short one |

## Left out

- Floating point: `calculate` works on reals, so rounding, overflow to infinity and the last finiteness check are not modelled; its distinct error messages are one failure.
- The unprepared path of the loop, the legacy `AgentEngine.run` with its own lock and abort, and `executePreparedRun` before the loop starts, where a failed prerequisite check throws before any event.
- Token usage, tracing spans and the trace's final status, structured logging, the `swiftCallId` inside persisted content, and the text of a rejection.
- JSON, Zod and Ajv: content is what parsing makes of it, argument validation is an arbitrary predicate, and rendering and parsing of runner replies are a pair of functions that agree.
- RemoteExecutor.WireContract: error messages longer than the protocol's bound arrive cut, which the model does not show.
- JWT minting and checking, SSRF policy and IP pinning, API keys, size checks on requests before sending.
- Postgres and Redis themselves: a write applies or throws without effect, a transaction holds row locks from its first write to its end, and a broker delivers each published message in order to every instance subscribed at that moment.
- SQL introspection queries, except the join of the foreign-key query over foreign keys of one name (a primary-key, unique or check constraint that shares the name would join too); column defaults and their notes, which never count as drift; the text of differences; object keys that name inherited properties.
- Memory strategies other than last-n; the `lastN` option.
- Broadcast order among the sockets of one session; which key of a map a loop visits first.
- WebSocket authentication, the pre-auth frame buffer, heartbeats and shutdown.
- The mediator's minting of guests, per-IP limits, alerts, the day of a timestamp, the confirmation polling before a settlement, and ping timing.
- Providers other than OpenAI; a delta without an index.
- The order of messages created in the same instant, which the database leaves open; pages read from one list per request.
- React UI, reducers, scaffolding, configuration, provisioning, migrations, retention, metrics.
