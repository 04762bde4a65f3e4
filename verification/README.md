# Verified model of the buzz agent harness

This project models the parts of buzz in which a mistake would lose a message, run a channel twice,
or let a turn outlive its clock, and proves what those parts promise. It is written in Dafny 4.11;
`dafny verify dfyconfig.toml` checks all of it.

| file | component |
|---|---|
| `Basics.dfy` | options, instants, bounded arithmetic, small facts about sequences and maps |
| `Events.dfy` | events, batches, the stable sort by creation time |
| `QueueModel.dfy` | the per-channel event queue as a transition function on its nine tables |
| `QueueMeaning.dfy` | what each queue operation means, about whole events and without its definition |
| `EventQueues.dfy` | the queue as the mutable object of the program; every method refines `QueueModel` |
| `QueueRuns.dfy` | runs of the queue with the batches its callers hold, and a book of where events end; the state invariant |
| `Conservation.dfy` | no accepted event is lost or doubled |
| `Scheduling.dfy` | exclusion per channel, readiness, no starvation |
| `Retries.dfy` | backoff, dead letters, the delays along a run |
| `Witnesses.dfy` | two runs of a fresh queue that show a late completion and a lost merged batch |
| `CancelChains.dfy` | cancel-and-merge chains and the order of events in the prompt |
| `ReadLoop.dfy` | the ACP read loop as timestamped iterations: steer resolution, routing, time bounds |
| `LoopMeaning.dfy` | what one iteration does, by what was read and when: exits, acks, deadlines |
| `AcpClients.dfy` | the read loop as the mutable code of the program; every method refines `ReadLoop` |
| `SteerProtocol.dfy` | queue, read loops and acks composed, in every interleaving |
| `SteerAnswers.dfy` | every withheld event is answered for: none is orphaned |
| `SteerVerdicts.dfy` | an answered event is removed if and only if its delivery was reported |
| `TwoClocks.dfy` | the queue's in-flight deadline against the read loop's hard deadline |
| `CodexConfig.dfy` | the recursive JSON merge behind `CODEX_CONFIG` |
| `Rules.dfy` | rule matching, timeout counters, and the relay filters that must cover the matcher |
| `WakePool.dfy` | the lazy pool's wake state machine |
| `Resp.dfy` | the RESP writer and reader |
| `AudioTap.dfy` | the audio worklet's re-framing buffer |

Conventions. Time is a `real` number of seconds and every clock reading is a parameter. Where the
program iterates a hash map, the model leaves the choice open: a flush operation names the channel it
picked, and the theorems hold for every legal choice. Code that updates fields in place is a class
whose methods are proved equal to a function on values (`Model()`); the theorems are about those
functions, so they hold of the methods. `QueueMeaning` and `LoopMeaning` say what those functions mean
without naming their bodies. Recursive lemmas carry `{:induction false}`, so that each
proof is the one written.

## Where the code and its comments differ

The model follows the code. Each difference is stated by a member:

- The jitter is described as a factor between 0.8 and 1.2. It is computed from sub-second
  nanoseconds over `u32::MAX`, so it stays below 0.9 (`Retries.DelayBounds`).
- `mark_complete` names a channel, not a turn: a completion that arrives after its own turn expired
  ends the next turn, and the channel is dispatched while that turn runs. `Witnesses.LateCompletionReopens`
  is such a run of a queue with its default deadline; `Scheduling.InFlightStep` gives the exact
  operations that end a turn.
- `requeue` and `requeue_preserve_timestamps` put back `events` only; the carried-over
  `cancelled_events` of a merged batch are not put back. `Conservation.RequeueKeepsAll` and
  `Conservation.PreserveKeepsAll` say exactly when nothing is lost;
  `Witnesses.MergedBatchLosesCarriedEvents` is a run after which an accepted event is nowhere.
- `flush_next` is described as draining all events of the channel and as returning nothing when the
  queues are empty. It takes at most 50, and falls back to a cancelled batch
  (`EventQueues.EventQueue.DrainFront`, `Scheduling.ReadyIffMayFlush`).
- The overflow of `requeue` is described as dropping the oldest events. It drops from the back
  (`EventQueues.EventQueue.TrimBack`).
- The pending steer is described as answered on every return path. The two `?` exits of the dispatch
  drop its sender (`ReadLoop.DroppedWhen`, an if-and-only-if), and so does a control signal, which drops
  the whole read loop. The main loop then releases the event, so no event is lost by it
  (`SteerAnswers.NeverOrphaned`).
- The forced network flag replaces whatever was at its path, so a parent's leaves below it do not
  survive (`CodexConfig.LeafBelowForcedFlagIsLost`; `CodexConfig.BuiltMeaning` covers every path).
- A rule's channel list is compared as text by the matcher and parsed by the filter resolver, so a
  filter can be wider than the matcher, never narrower (`Rules.FilterCoversMatcher`).
- Wake attempt numbers restart at one after a pool is taken. As a state machine the lifecycle therefore
  accepts a late result of an earlier campaign after a take (`WakePool.StaleAcceptedAfterTake`) and,
  short of counter saturation, never before one (`WakePool.StaleNeedsTake`, an if-and-only-if). Today's
  caller cannot deliver such a result: it cancels a wake only when its task has panicked and so sends
  nothing (crates/buzz-acp/src/lib.rs:2608), and resets the lifecycle only with no wake task alive
  (crates/buzz-acp/src/lib.rs:3079-3106).
- The worklet throws exactly when a block is longer than the rest of the buffer plus one whole buffer
  (`AudioTap.ThrowsWhen`).

## Model

| member | source | states |
|---|---|---|
| Events.SortByCreatedCorrect | crates/buzz-acp/src/queue.rs:348-355 | the batch order is sorted by creation time, a permutation of what was drained, and stable: the events of each second keep their order |
| EventQueues.EventQueue.constructor | crates/buzz-acp/src/queue.rs:183-198 | a new queue has empty tables and the default in-flight deadline |
| EventQueues.EventQueue.WithInFlightDeadline | crates/buzz-acp/src/queue.rs:199-206 | the in-flight deadline becomes the max turn plus the 100 second buffer, nothing else changes |
| EventQueues.EventQueue.ExtendInFlightDeadline | crates/buzz-acp/src/queue.rs:208-228 | only an existing deadline moves, and only forward |
| EventQueues.EventQueue.Push | crates/buzz-acp/src/queue.rs:234-256 | drop mode refuses an in-flight channel; a full queue loses its head; otherwise the event is appended |
| EventQueues.EventQueue.TrimBack | crates/buzz-acp/src/queue.rs:491-501 | popping from the back until the cap holds keeps the first 500 |
| EventQueues.EventQueue.PushFrontAll | crates/buzz-acp/src/queue.rs:480-490 | pushing a list to the front back to front restores it in its order |
| EventQueues.EventQueue.RecoverWithheldForExpiredChannel | crates/buzz-acp/src/queue.rs:811-834 | withheld events return to the queue front in order, capped |
| EventQueues.EventQueue.AutoExpire | crates/buzz-acp/src/queue.rs:265-291 | the expiry loop, in whatever order, releases exactly the channels whose deadline has passed and recovers their withheld events |
| EventQueues.EventQueue.PickOldest | crates/buzz-acp/src/queue.rs:293-304 | the pick is eligible and no eligible channel has an older head; none only if no channel is eligible |
| EventQueues.EventQueue.PickCancelled | crates/buzz-acp/src/queue.rs:306-316 | some cancelled channel that is not in flight, if there is one |
| EventQueues.EventQueue.DispatchCancelled | crates/buzz-acp/src/queue.rs:317-336 | the cancelled batch is dispatched unsorted and uncapped under its reason |
| EventQueues.EventQueue.DrainFront | crates/buzz-acp/src/queue.rs:339-360 | at most 50 events leave the front, in prompt order; an emptied queue loses its entry |
| EventQueues.EventQueue.TakeCancelled | crates/buzz-acp/src/queue.rs:367-377 | the cancelled batch and its reason leave their tables together |
| EventQueues.EventQueue.DispatchQueued | crates/buzz-acp/src/queue.rs:339-385 | drained events, the carried-over batch and the three in-flight tables change together |
| EventQueues.EventQueue.FlushNext | crates/buzz-acp/src/queue.rs:264-385 | a batch is returned exactly when there is ready work after expiry, its channel is one that may be flushed, and a batch drained from a queue is sorted by creation time |
| EventQueues.EventQueue.MarkComplete | crates/buzz-acp/src/queue.rs:397-415 | the channel leaves the in-flight tables; its retry state survives only while the throttle is active |
| EventQueues.EventQueue.Requeue | crates/buzz-acp/src/queue.rs:434-504 | the batch goes back to the front under backoff, or comes back as a dead letter with the retry state cleared |
| EventQueues.EventQueue.RequeuePreserveTimestamps | crates/buzz-acp/src/queue.rs:514-536 | the batch goes back to the front without touching retry state |
| EventQueues.EventQueue.RequeueAsCancelled | crates/buzz-acp/src/queue.rs:549-555 | carried-over then current events are appended to the cancelled batch; the newest reason wins |
| EventQueues.EventQueue.HasFlushableWork | crates/buzz-acp/src/queue.rs:563-599 | it expires like a flush, and answers whether there is ready work |
| EventQueues.EventQueue.HasUndispatchedWork | crates/buzz-acp/src/queue.rs:617-631 | true exactly when a queue, cancelled batch or withheld list of a channel not in flight is not empty |
| EventQueues.EventQueue.DrainChannel | crates/buzz-acp/src/queue.rs:665-682 | all stored events and retry state of the channel go; the queued ids are returned in order |
| EventQueues.EventQueue.MarkNativeSteerPending | crates/buzz-acp/src/queue.rs:718-739 | one queued event moves to the side table, or nothing changes and the answer is false |
| EventQueues.EventQueue.ReleaseNativeSteer | crates/buzz-acp/src/queue.rs:748-775 | one withheld event returns to the queue front, or nothing changes |
| EventQueues.EventQueue.RemoveEvent | crates/buzz-acp/src/queue.rs:783-797 | every copy of the event leaves the side table and the queue |
| EventQueues.EventQueue.CompactExpiredState | crates/buzz-acp/src/queue.rs:852-863 | passed throttles go; counts stay for throttled, queued or in-flight channels |
| QueueMeaning.FlushMeaning | crates/buzz-acp/src/queue.rs:339-385 | a flush of an eligible channel takes the first 50 events or all if fewer, every field kept, sorted by creation time and stable within a second; the rest of the queue stays as it was; the cancelled batch comes along with its reason |
| QueueMeaning.CancelledFlushMeaning | crates/buzz-acp/src/queue.rs:306-336 | with nothing eligible, a cancelled batch is re-dispatched as it is, whatever the throttle, under its reason |
| QueueMeaning.PushMeaning | crates/buzz-acp/src/queue.rs:234-256 | the event is last, as it was given; the rest is the old queue, less its head at the cap |
| QueueMeaning.RefusalMeaning | crates/buzz-acp/src/queue.rs:234-241 | a push is refused exactly in drop mode while the channel is in flight, and then nothing changes |
| QueueMeaning.TrimMeaning | crates/buzz-acp/src/queue.rs:491-501 | trimming keeps the first 500 and loses the rest |
| QueueMeaning.PutBackMeaning | crates/buzz-acp/src/queue.rs:480-536 | after either put-back the queue is the batch, event by event with every field kept, and then the old queue, up to the cap; a dead letter changes no queue and clears the retry state |
| QueueMeaning.CancelMeaning | crates/buzz-acp/src/queue.rs:549-555 | a cancelled batch is kept behind what was cancelled before, carried-over events first, under the newest reason |
| QueueMeaning.OwnRun | crates/buzz-acp/src/queue.rs:234-256 | in every reachable state every stored event carries the channel it is stored under |
| QueueMeaning.FlushThenPutBack | crates/buzz-acp/src/queue.rs:339-360 | a flush and a put-back leave the same events, field for field: the drained ones first in batch order, the others as they were |
| QueueMeaning.CompletionMeaning | crates/buzz-acp/src/queue.rs:397-415 | a completion frees the channel, and resets its retry state exactly when no throttle is active |
| QueueMeaning.ExtensionMeaning | crates/buzz-acp/src/queue.rs:208-228 | an existing deadline becomes the later of itself and a full turn plus 100 seconds from now; none is created |
| QueueMeaning.CompactionMeaning | crates/buzz-acp/src/queue.rs:852-863 | exactly the passed throttles go, and exactly the counts of channels with no throttle, no queue and no turn |
| QueueMeaning.DrainMeaning | crates/buzz-acp/src/queue.rs:665-682 | after a drain nothing of the channel is stored, its retry state is gone, its turn is untouched, and its queued ids were returned in order |
| QueueMeaning.UndispatchedMeaning | crates/buzz-acp/src/queue.rs:617-631 | there is undispatched work exactly when a channel that is not in flight has an event stored |
| QueueMeaning.WithholdMeaning | crates/buzz-acp/src/queue.rs:718-739 | the first queued event with the id moves to the end of the side table and the others keep their order; an id that is not queued changes nothing |
| QueueMeaning.WithheldComesBackInOrder | crates/buzz-acp/src/queue.rs:718-834 | withhold any number of events from the front of a queue one by one, and let the turn expire: the queue is what it was |
| QueueMeaning.ReleaseMeaning | crates/buzz-acp/src/queue.rs:748-775 | the released event is the head of its queue, and the old queue follows up to the cap |
| QueueMeaning.ReleaseNothing | crates/buzz-acp/src/queue.rs:748-757 | releasing an id that is not withheld changes nothing |
| QueueMeaning.WithholdThenRelease | crates/buzz-acp/src/queue.rs:718-775 | withholding the head and releasing it changes nothing |
| QueueMeaning.RemovalKeepsOrder | crates/buzz-acp/src/queue.rs:783-797 | removal distributes over any split of a queue, so the other events keep their order |
| QueueMeaning.FootprintOfHandBack | crates/buzz-acp/src/queue.rs:434-555 | each way of handing a batch back changes its own tables and no other |
| QueueMeaning.FootprintOfFlush | crates/buzz-acp/src/queue.rs:339-385 | a flush changes neither retry nor withheld tables |
| QueueMeaning.FootprintOfSteer | crates/buzz-acp/src/queue.rs:718-797 | the steer operations change the queues and the side table only |
| QueueRuns.InvRun | crates/buzz-acp/src/queue.rs:214-534 | over every run: the three in-flight tables have equal keys, cancelled batches and reasons have equal keys, every stored queue holds 1 to 500 events, and no outstanding batch is empty |
| QueueRuns.Frame | crates/buzz-acp/src/queue.rs:234-863 | an operation on other channels leaves this channel's queue, withheld, cancelled, reason, in-flight, deadline and batch-size entries alone, and its retry entries too unless it is compaction |
| Conservation.BalanceRun | crates/buzz-acp/src/queue.rs:234-834 | over every run, for every channel and id, copies accepted equal copies stored plus copies in outstanding batches plus copies in the terminal buckets |
| Conservation.ExactlyOnePlace | crates/buzz-acp/src/queue.rs:234-834 | with distinct ids and each batch handed back at most once, an accepted event is at exactly one place in one copy, on one channel; an event never accepted is nowhere |
| Conservation.RequeueKeepsAll | crates/buzz-acp/src/queue.rs:480-504 | a requeue keeps every event if and only if the batch carries no cancelled events and the cap is not reached |
| Conservation.PreserveKeepsAll | crates/buzz-acp/src/queue.rs:514-536 | the same if-and-only-if for a batch put back without backoff |
| Witnesses.MergedBatchLosesCarriedEvents | crates/buzz-acp/src/queue.rs:514-536 | a run of a fresh queue (push, flush, cancel, complete, push, flush, put back) after which an accepted event is in no table and no batch |
| Scheduling.InFlightStep | crates/buzz-acp/src/queue.rs:214-226 | one operation leaves a turn in flight exactly when it neither completes nor expires it, and then its deadline does not shrink |
| Scheduling.NoSecondFlush | crates/buzz-acp/src/queue.rs:264-415 | between a flush of a channel and its completion or expiry no flush returns the channel and its deadline never decreases |
| Witnesses.LateCompletionReopens | crates/buzz-acp/src/queue.rs:397-401 | a run of a queue with its default 7300 second deadline in which a late completion lets a channel be flushed while its current turn, due at 14600, runs |
| Scheduling.ReadyIffMayFlush | crates/buzz-acp/src/queue.rs:293-336 | there is ready work exactly when some channel may be flushed |
| Scheduling.ExpireTwice | crates/buzz-acp/src/queue.rs:563-583 | an earlier expiry, as has_flushable_work performs, is invisible to a later one |
| Scheduling.ReadyStays | crates/buzz-acp/src/queue.rs:563-599 | work that is ready at one instant is ready at every later instant |
| Scheduling.QuietMeansEmpty | crates/buzz-acp/src/queue.rs:601-692 | in every reachable state, no undispatched work and nothing in flight means the queues, cancelled and withheld tables are empty, and conversely |
| Scheduling.WaitingIsReady | crates/buzz-acp/src/queue.rs:293-304 | while an eligible channel waits, a flush never comes back empty-handed |
| Scheduling.NoStarvation | crates/buzz-acp/src/queue.rs:293-360 | an eligible channel with head time t is flushed within N flushes, N being the stored events received by t, however many later events arrive |
| Retries.BackoffIsCappedDoubling | crates/buzz-acp/src/queue.rs:458-460 | the clamped shift computes 5 times 2 to the attempt minus one, at most 300 |
| Retries.DelayBounds | crates/buzz-acp/src/queue.rs:458-469 | the delay is within 0.8 and 1.2 times the backoff for any 32-bit entropy, and below 0.9 times it for sub-second nanoseconds |
| Retries.JitterIsLinear | crates/buzz-acp/src/queue.rs:462-468 | the jitter runs from 0.8 to 1.2 over 32 bits of entropy, in equal steps |
| Retries.VerdictsFrom | crates/buzz-acp/src/queue.rs:434-456 | from count k, under any interleaving of pushes, other channels and compaction, the i-th requeue puts back exactly while k plus i is below ten |
| Retries.RetryBound | crates/buzz-acp/src/queue.rs:397-456 | from a zero count exactly ten requeues put the batch back and the eleventh is the dead letter |
| Retries.CompletionRestartsRetries | crates/buzz-acp/src/queue.rs:397-415 | after a completion with no active throttle a failing batch gets its ten retries again, whatever the count was |
| Retries.RequeueThrottles | crates/buzz-acp/src/queue.rs:458-503 | a requeue holds the channel for the delay of its attempt; once the turn has ended the channel is eligible exactly from then on |
| Retries.DelaysAlong | crates/buzz-acp/src/queue.rs:434-504 | along a whole retry run the i-th hold is within 20% of the i-th capped doubling |
| CancelChains.LinkKeepsAll | crates/buzz-acp/src/queue.rs:306-385 | cancel, anything in between, flush: the next batch is the old one in order followed by what is newly drained, under the latest reason |
| CancelChains.ChainKeepsAll | crates/buzz-acp/src/queue.rs:538-555 | over any chain of cancels the last batch holds the first batch's events and everything drained since, in order |
| CancelChains.NumberedBlocks | crates/buzz-acp/src/queue.rs:1701-1756 | the numbered loop renders one block per event, in order, numbered from one |
| CancelChains.EventSections | crates/buzz-acp/src/queue.rs:1701-1756 | the prompt renders carried-over events first, then current events, each once; a lone current event is unnumbered |
| ReadLoop.EveryRequestResolvedOnce | crates/buzz-acp/src/acp.rs:1338-1728 | at most one steer is outstanding, none after exit; every other request taken got exactly one ack or had its sender dropped, which happens at most once and only when a handler failed |
| ReadLoop.DroppedWhen | crates/buzz-acp/src/acp.rs:1694-1724 | a sender is dropped if and only if a permission or unknown-method reply fails while a steer is pending |
| ReadLoop.Routing | crates/buzz-acp/src/acp.rs:1571-1690 | in every reachable state the prompt's outcome is returned exactly on the prompt's response, and a pending steer is answered from the wire exactly on its own response, which never ends the loop |
| ReadLoop.SuccessMeansDelivered | crates/buzz-acp/src/acp.rs:1587-1676 | a success ack is sent only for a goose success or an outcome of injected or startedNewTurn answering the pending steer |
| ReadLoop.HardDeadlineStep | crates/buzz-acp/src/acp.rs:1615-1647 | the hard deadline never moves back and one iteration renews it at most once |
| ReadLoop.TimeBound | crates/buzz-acp/src/acp.rs:1344-1382 | with k renewals and steps of at most d the loop is no further than H0 + k(M + d) + d, however many lines arrive |
| ReadLoop.IdleMeansSilent | crates/buzz-acp/src/acp.rs:1543-1564 | IdleTimeout is returned only after a full idle timeout without a valid JSON line, HardTimeout only past the hard deadline |
| LoopMeaning.BeginMeaning | crates/buzz-acp/src/acp.rs:1338-1347 | the loop is entered with a full idle timeout ahead, the caller's hard deadline, fresh ids, and nothing pending or resolved |
| LoopMeaning.ExitMeaning | crates/buzz-acp/src/acp.rs:1366-1728 | each way of leaving the loop happens for its own reason and no other: which deadline, which read, which response, which failed handler |
| LoopMeaning.SteerVerdict | crates/buzz-acp/src/acp.rs:1571-1676 | a steer response is acknowledged once: success if and only if it reports a delivery, the agent's error if and only if it carries one, outcome rejected otherwise |
| LoopMeaning.TakenMeaning | crates/buzz-acp/src/acp.rs:1401-1486 | goose with an active run, else the extension if supported; no transport and a failed write are answered at once, else the request is pending under a fresh id |
| LoopMeaning.NeutralOnExit | crates/buzz-acp/src/acp.rs:1366-1533 | leaving tells a pending steer that the prompt completed, unless a handler failed |
| LoopMeaning.RenewalMeaning | crates/buzz-acp/src/acp.rs:1615-1647 | the hard deadline moves exactly when a goose success or an injected outcome arrives, to a full turn from then, and never back |
| LoopMeaning.IdleMeaning | crates/buzz-acp/src/acp.rs:1543-1564 | the idle clock and the last-activity mark restart exactly on a valid JSON line, and again when a tool call starts |
| LoopMeaning.RunMeaning | crates/buzz-acp/src/acp.rs:1694-1706 | the active run is the one the agent reported last |
| AcpClients.Turn.constructor | crates/buzz-acp/src/acp.rs:1338-1347 | the loop starts with no pending steer and an idle deadline one idle timeout ahead |
| AcpClients.Turn.Return | crates/buzz-acp/src/acp.rs:1366-1382 | a return path first tells a pending steer that the prompt completed |
| AcpClients.Turn.Fail | crates/buzz-acp/src/acp.rs:1708-1710 | a failing handler leaves with the pending sender unanswered |
| AcpClients.Turn.TakeSteer | crates/buzz-acp/src/acp.rs:1401-1486 | the transport is chosen by run id, then by extension support; a request without either, or whose write fails, is answered at once; otherwise it becomes the pending one under a fresh id |
| AcpClients.Turn.RouteSteerResponse | crates/buzz-acp/src/acp.rs:1571-1676 | the ack and the deadline renewal follow transport, error and outcome |
| AcpClients.Turn.DispatchMethod | crates/buzz-acp/src/acp.rs:1694-1728 | tool calls restart the idle clock, run updates set the run id, failed replies leave the loop |
| AcpClients.Turn.OnMessage | crates/buzz-acp/src/acp.rs:1566-1728 | steer response first, then prompt response, then dispatch |
| AcpClients.Turn.TimeOut | crates/buzz-acp/src/acp.rs:1487-1503 | the error names the deadline that fires first |
| AcpClients.Turn.OnRead | crates/buzz-acp/src/acp.rs:1514-1564 | end of stream and read errors leave, blank and malformed lines are skipped, a JSON line restarts the idle clock |
| AcpClients.Turn.Iterate | crates/buzz-acp/src/acp.rs:1349-1512 | one iteration: the deadline check, then the arm that fired; the steer arm does nothing while a steer is pending |
| AcpClients.Turn.ReadUntilResponse | crates/buzz-acp/src/acp.rs:1315-1728 | the loop is the iterated step, stopping at the first exit |
| SteerProtocol.Projects | crates/buzz-acp/src/lib.rs:3340-3393 | the queue side of every interleaving is a run of the queue |
| SteerProtocol.DeletedOnlyIfDelivered | crates/buzz-acp/src/lib.rs:3340-3393 | the steer path deletes an event only after a goose success or an outcome of injected or startedNewTurn for it, in every interleaving |
| SteerProtocol.WithheldUntilReleased | crates/buzz-acp/src/queue.rs:694-834 | a withheld event stays withheld and is in no flushed batch until it is released, removed, drained or recovered by expiry |
| SteerProtocol.WithheldInEveryInterleaving | crates/buzz-acp/src/lib.rs:3722-3755 | the same in every interleaving of queue, read loops and ack handling |
| SteerProtocol.SteerSafety | crates/buzz-acp/src/queue.rs:694-834 | over whole runs no event is both withheld and queued, and every steer-deleted event had been delivered |
| SteerAnswers.NeverOrphaned | crates/buzz-acp/src/lib.rs:3340-3393 | in every interleaving, control signals included, a withheld event is an unread request or the pending steer of its channel's turn, or an answer for it is on its way to the main loop |
| SteerVerdicts.RemovedIffDelivered | crates/buzz-acp/src/lib.rs:3340-3393 | over every interleaving in which the event is steered at most once, handling its answer removes it if and only if the agent reported its delivery, and releases it otherwise |
| TwoClocks.NotExpired | crates/buzz-acp/src/queue.rs:265-291 | while a turn runs, waits to drain or drains, no queue call finds its deadline passed |
| TwoClocks.CleanupMeaning | crates/buzz-acp/src/acp.rs:959-980 | the drain deadline is the later of the inherited one and 30 seconds from now |
| TwoClocks.QueueNeverFiresFirst | crates/buzz-acp/src/acp.rs:954-1013 | if dispatch delay, ack delay, three step times and the 30 second drain fit the 100 second buffer, then through any number of renewals, and whether the turn drains after a timeout or a control signal, the queue never expires it and no flush returns its channel until it is over: two turns never run on one channel |
| CodexConfig.DeepMerge | crates/buzz-acp/src/acp.rs:222-242 | the loop over the overlay's entries, in any order, computes the recursive merge |
| CodexConfig.MergeFields | crates/buzz-acp/src/acp.rs:222-242 | objects merge to the union of their keys, a key on one side only keeps its value, and on any other pair of shapes the overlay stays |
| CodexConfig.MergeLeaf | crates/buzz-acp/src/acp.rs:222-242 | at every path the overlay decides if it defines the path or has a non-object at a prefix of it, else the base |
| CodexConfig.MergeIdempotent | crates/buzz-acp/src/acp.rs:222-242 | merging a value into itself changes nothing |
| CodexConfig.MergeAgain | crates/buzz-acp/src/acp.rs:222-242 | merging the same overlay again changes nothing |
| CodexConfig.MergeAllLeaf | crates/buzz-acp/src/acp.rs:271-359 | after merging any list of objects each path holds the last word spoken about it |
| CodexConfig.EarlierLeafKept | crates/buzz-acp/src/acp.rs:271-359 | an earlier source's leaf survives when no later source speaks about its path |
| CodexConfig.CollectEntries | crates/buzz-acp/src/acp.rs:282-287 | the loop keeps exactly the CODEX_CONFIG values, in order |
| CodexConfig.MergeEntries | crates/buzz-acp/src/acp.rs:316-320 | folding the merge over the parsed entries merges them all, first to last |
| CodexConfig.ForceNetwork | crates/buzz-acp/src/acp.rs:341-356 | the flag is set in an existing or new sandbox table; a sandbox value that is not an object is an error |
| CodexConfig.BuildCodexConfigEnv | crates/buzz-acp/src/acp.rs:271-359 | absence, each error and the built value, case by case |
| CodexConfig.ForceLeaf | crates/buzz-acp/src/acp.rs:341-356 | forcing the flag changes exactly the paths at and below it |
| CodexConfig.BuiltWhen | crates/buzz-acp/src/acp.rs:271-359 | a value is built if and only if there is a generated entry, all sources are objects, and the last word on the sandbox table is not a scalar |
| CodexConfig.EntriesMeaning | crates/buzz-acp/src/acp.rs:282-287 | collecting the entries distributes over any split of the environment and keeps exactly the CODEX_CONFIG values |
| CodexConfig.FailureMeaning | crates/buzz-acp/src/acp.rs:289-356 | each error if and only if its cause: the first faulty entry with its position, then the parent, then the sandbox table |
| CodexConfig.BuiltMeaning | crates/buzz-acp/src/acp.rs:271-359 | network access is on, and every path outside it holds the last word, so every parent leaf not at or below the flag is kept |
| CodexConfig.LeafBelowForcedFlagIsLost | crates/buzz-acp/src/acp.rs:271-359 | a concrete parent with a leaf below the flag loses it |
| Rules.Matcher.constructor | crates/buzz-acp/src/filter.rs:107-130 | every rule starts with a zero timeout counter |
| Rules.Matcher.MatchEvent | crates/buzz-acp/src/filter.rs:368-460 | the loop returns the match and updates the counters as the rule list prescribes |
| Rules.MatchedMeaning | crates/buzz-acp/src/filter.rs:376-459 | an index is returned exactly when that rule accepts and every earlier applicable rule evaluated to a definite false |
| Rules.CounterStep | crates/buzz-acp/src/filter.rs:376-459 | an event changes a counter only if that rule was evaluated: reset on a definite result, plus one on a timeout, unchanged on an error |
| Rules.CounterMeaning | crates/buzz-acp/src/filter.rs:336-459 | over every run each counter equals the timeouts since that rule's last definite result, and never exceeds five |
| Rules.DisabledForever | crates/buzz-acp/src/filter.rs:336-341 | a counter that reached five never changes again |
| Rules.DisabledFailsClosed | crates/buzz-acp/src/filter.rs:343-367 | an event passing a disabled rule's static checks matches an earlier rule or nothing |
| Rules.MergeRules | crates/buzz-acp/src/config.rs:1361-1407 | the merge loop computes the channel's merged filter |
| Rules.MergedMeaning | crates/buzz-acp/src/config.rs:1361-1407 | independent of rule order: a filter exists iff a rule applies, is unrestricted in kind iff an applying rule is, admits exactly the applying rules' kinds, and asks for a mention iff all do |
| Rules.TargetChannels | crates/buzz-acp/src/config.rs:1325-1333 | the overrides that parse and were discovered, or everything discovered |
| Rules.ResolveChannelFilters | crates/buzz-acp/src/config.rs:1316-1407 | in all three modes the batch resolver gives every discovered channel the dynamic resolver's answer |
| Rules.ResolveDynamicChannelFilter | crates/buzz-acp/src/config.rs:1418-1494 | the filter of one channel in each mode |
| Rules.PlainMeaning | crates/buzz-acp/src/config.rs:1338-1366 | outside Config mode a channel has a filter exactly when it is allowed; a mentions filter admits the mention kinds, and only mentions unless switched off; an all filter admits the override's kinds or everything |
| Rules.ConfigMeaning | crates/buzz-acp/src/config.rs:1367-1404 | in Config mode a filter admits an event if and only if some applying rule takes its kind and it has a mention or some applying rule needs none |
| Rules.ScopeMeaning | crates/buzz-acp/src/filter.rs:55-73 | "all" covers everything and any other text nothing; a list covers what it spells, canonically for the matcher and in any spelling for the resolver |
| Rules.FilterCoversMatcher | crates/buzz-acp/src/config.rs:1418-1507 | in Config mode whenever a rule matches, the channel has a filter that admits the event |
| WakePool.PoolLifecycle.constructor | crates/buzz-acp/src/pool_lifecycle.rs:28-30 | the pool starts listening |
| WakePool.PoolLifecycle.StartWakeIfDue | crates/buzz-acp/src/pool_lifecycle.rs:37-58 | a wake starts only with pending work, from listening or once the retry is due |
| WakePool.PoolLifecycle.TakeReadyPool | crates/buzz-acp/src/pool_lifecycle.rs:60-68 | a ready pool is handed over once; any other state is put back |
| WakePool.PoolLifecycle.Complete | crates/buzz-acp/src/pool_lifecycle.rs:99-119 | a result is accepted exactly for the waking attempt it names |
| WakePool.PoolLifecycle.CancelWake | crates/buzz-acp/src/pool_lifecycle.rs:91-97 | a cancel is a failed completion of that attempt |
| WakePool.RetryDelayIsCappedDoubling | crates/buzz-acp/src/pool_lifecycle.rs:121-132 | for every attempt the clamped computation is min(5·2^(a−1), 300) |
| WakePool.WakeProtocol | crates/buzz-acp/src/pool_lifecycle.rs:37-119 | over every run starts are accepted completions plus one if waking, accepted successes are pools taken plus one if ready, and a failed wake waits its full delay |
| WakePool.RetryIsSpaced | crates/buzz-acp/src/pool_lifecycle.rs:37-132 | a start after a failure comes at least the delay after the failed start; a rejected result changes nothing |
| WakePool.StartsWhen | crates/buzz-acp/src/pool_lifecycle.rs:37-58 | a wake starts exactly when there is work and the pool listens or its retry is due |
| WakePool.TakenOnce | crates/buzz-acp/src/pool_lifecycle.rs:60-68 | a completed wake hands its pool over once |
| WakePool.StaleNeedsTake | crates/buzz-acp/src/pool_lifecycle.rs:99-119 | some continuation without a take accepts the result of an older attempt if and only if the failed attempt stands at the top of the 32-bit counter |
| WakePool.StaleAcceptedAfterTake | crates/buzz-acp/src/pool_lifecycle.rs:60-68 | from every ready state, for every attempt number, a take and a later campaign lead to a state that accepts an old result with that number |
| Resp.ParseIntOfDigits | perf/relay_bus_scaling.py:112-115 | a written length parses back to itself |
| Resp.EncodeCommand | perf/relay_bus_scaling.py:110-117 | the appending loop writes the array header and one bulk string per part |
| Resp.Stream.Line | perf/relay_bus_scaling.py:120-126 | a line up to CR LF, or the end-of-stream or malformed-line error, and the stream stands after it |
| Resp.Stream.Number | perf/relay_bus_scaling.py:138-140 | a line as a Python integer, or an error |
| Resp.Stream.BulkBody | perf/relay_bus_scaling.py:141-147 | null, exactly the announced bytes with their terminator, or an error |
| Resp.Stream.Items | perf/relay_bus_scaling.py:148-152 | that many replies in a row, none for a non-positive count, or the first error |
| Resp.Stream.Next | perf/relay_bus_scaling.py:129-153 | the recursive reader terminates on every finite stream, agrees with the specification, and stands right after the reply |
| Resp.RoundTrip | perf/relay_bus_scaling.py:110-153 | any list of byte strings, CR and LF included, followed by any bytes, reads back as the list and leaves those bytes |
| Resp.PipelineRoundTrip | perf/relay_bus_scaling.py:110-153 | n commands written back to back read back as n lists, in order |
| Resp.SignedBack | perf/relay_bus_scaling.py:138-140 | a number with an optional sign and whitespace around it parses to its value |
| Resp.UnderscoreBack | perf/relay_bus_scaling.py:138-140 | a single underscore between digits is ignored, as Python's integers allow |
| Resp.SimpleReplies | perf/relay_bus_scaling.py:133-138 | a simple string, an error and an integer read as what they say and leave what follows |
| Resp.NullReplies | perf/relay_bus_scaling.py:139-151 | the null bulk string and the null array read as none |
| Resp.BadBulk | perf/relay_bus_scaling.py:143-146 | a bulk string cut short or wrongly terminated is malformed |
| Resp.BadPrefix | perf/relay_bus_scaling.py:129-153 | an unknown prefix is refused and an ended stream is closed |
| Resp.BadLine | perf/relay_bus_scaling.py:120-126 | a line without its end is malformed |
| Resp.RespLocal | perf/relay_bus_scaling.py:129-153 | a successful read consumed a prefix and gives the same reply whatever follows that prefix |
| Resp.ManyLocal | perf/relay_bus_scaling.py:148-152 | the same for a list of replies |
| AudioTap.SttTapProcessor.constructor | desktop/public/worklet.js:19-33 | an empty 960-sample buffer, transmitting |
| AudioTap.SttTapProcessor.PushToTalk | desktop/public/worklet.js:28-32 | only the flag changes |
| AudioTap.SttTapProcessor.Post | desktop/public/worklet.js:51-55 | the full buffer is handed over and a fresh one starts |
| AudioTap.SttTapProcessor.ProcessBlock | desktop/public/worklet.js:35-64 | the in-place fill agrees with the specification, and buffers posted before are never written again |
| AudioTap.ThrowsWhen | desktop/public/worklet.js:46-61 | copying the leftover overruns exactly when the block exceeds the rest of the buffer plus 960 |
| AudioTap.Reframed | desktop/public/worklet.js:35-64 | over every stretch without a gated block, posted samples then the live prefix equal what was there before then the input, in order |
| AudioTap.FramesAreTheInputCut | desktop/public/worklet.js:35-64 | over every run, gated blocks included, the frames posted are the stretches of input between gated blocks, each cut every 960 samples, one after the other |

## Left out

- Event content, signatures, hex and bech32 ids, thread tags: ids and creation times are numbers.
- Prompt wording, profile labels, channel descriptions, hints: only the order, number and numbering of event blocks is kept.
- Rounding of durations to nanoseconds and of the jitter to 64-bit floats: times are real numbers.
- The order of hash-map iteration: it is a free choice, never a fixed one.
- JSON text: a message is what its parse yields, and a CODEX_CONFIG entry is an object, an atom or unparseable.
- The expression engine of the rules: what evaluating a rule's expression yields is an input. Mention detection is an input too.
- The rule counters are updated by one matcher at a time; concurrent matchers sharing the atomic counters are not modelled.
- Process spawning, stdio, observer emission and logging: a write succeeds or fails as an input.
- Usage tracking, permission bookkeeping and session titles of the ACP client.
- The main loop and pool scheduling of lib.rs and pool.rs, beyond the steer send, the ack mapping and the hand-back of batches; the cancel-and-merge signal a failed steer may trigger appears only as an ordinary later cancel.
- SteerVerdicts.RemovedIffDelivered: assumes the event is steered at most once on its channel, as the mode gate does on arrival; a second steer of the same event could be answered first.
- Scheduling.NoStarvation: runs that put a failed batch back are excluded, since a put-back restores old events without bound; so are removals and steers of the waiting channel's own events.
- TwoClocks.QueueNeverFiresFirst: step time is counted three times, for the iteration that times out, the start of the drain, and the drain's last iteration.
- UTF-8 decoding of RESP payloads: replies are byte strings, and Python's recursion limit is not modelled.
- Ownership transfer of the posted audio buffer: it is modelled as never being written again.
- Engram fetching, audit, relay, desktop, mobile and web user interfaces, release and benchmark scripts: thin, or resting on services outside the repository.
