# Grants Stack indexer: a verified model of the processing pipeline

The indexer turns an ordered log of on-chain events into relational tables: rounds, applications,
donations, roles. This project models the parts of it in which mistakes are hard to see, and proves what
they keep.

**The event pipeline.** One orchestrator per chain keeps a durable cursor (the last processed block
number and log index), a circular queue that it refills only when it is empty, and one event in hand. It
runs the event's handler under a retry policy, applies the resulting changesets and the cursor update in
one transaction, and on any error records the event as processed anyway. `Pipeline` makes every awaited
operation one action of a state machine, so a crash, a shutdown signal or newly indexed events may fall
between any two of them; a run is any sequence of enabled actions. Both wirings of the cursor are
modelled: *Transactional*, where the cursor row is written inside the transaction, and *Detached*, the
wiring of production, where `DatabaseEventRegistry` drops the transaction argument and the cursor is
durable before the changes are. `PipelineSafety` proves one invariant of all runs and `PipelineTheorems`
reads the promises off it. `Orchestration` is the loop as a class that updates its queue, its cursor and
its context in place; each of its methods records the actions it takes in a ghost history, so every
theorem about runs is a theorem about that code. A process can be killed after any of its actions.
`LoopSpec` says in a few functions what the loop comes to, pass by pass and life by life; the class is
proved equal to it, and progress is proved of it.

**The retroactive processor** replays one strategy's history with a checkpoint of its own
(`Retroactive`, and as a class `RetroactiveProcessing`; `RetroactiveCommits` counts what commits twice).
`RetroactiveRun` has all strategies at work on the same tables and says what a run leaves to do; **the circular queue** refines a sequence, with
its space and its amortised cost (`CircularQueue`, `QueueCost`); **the indexer client's** fetch is proved
to return a prefix of what follows the cursor (`IndexerClient`).

**The tables** are maps and sequences with primary keys, foreign keys, money columns of five decimals and
rollback (`Tables`; updated in place in `DataLoading`, through which `Indexing.Index` runs). `Handlers` computes the changesets of each event;
`EventEffects` says what each kind of event leaves in the tables, and when it commits, without them.
`DonationStats`, `RoundRoles` and `ApplicationStatus` prove what each committed event keeps, against
definitions that do not mention the handlers (the stored donations, the history of grants, the snapshots),
and `Indexing` puts this together with the pipeline: it holds after every run, with crashes anywhere.

**The strategy registry, prices and token arithmetic** are `StrategyRegistry`, `Pricing` and `TokenMath`.

## What the code promises and what it does

Where the repository's comments and its code differ, the model follows the code.

- `retroactiveProcessor.ts` line 60 says "exactly-once". It is exactly once for a pass that is never cut
  short (`ExactlyOnceWithoutRestarts`) and at least once otherwise. `RetroactiveCommits` says which stops
  leave a repetition (`StopLeavesRepetitionIff`), which runs commit an event twice (`ExactlyOnceIff`) and
  that a stop costs one at most; `CanCommitTwice` is a run in which one crash does. If that event is a
  donation, its round is counted too high from then on (`StatsTrueIff`).
- The retroactive range is queried up to and including the last pointer, and the loop stops on reaching
  it, so an event at that very position is fetched and not processed (`InclusiveCoverageIff`).
- Each start of a pass reads the last position anew. A pass that was cut short and is started again after
  the orchestrator has moved on covers everything up to the new position (`Resumption`), so also events
  that the orchestrator, which has the handler by then, has committed itself. Roles stay right
  (`RolesAlwaysMatch`), a donation among them is counted twice (`StatsTrueIff`), and status histories are
  in order as long as no source's blocks go back (`HistoriesInOrder`).
- With the detached cursor, a crash while a transaction with changes is open and the cursor written loses
  the event for good; an event without changes has nothing to lose. `GapFreeIff` says exactly which runs have a gap and `GapOpensIff` which actions open one;
  `DetachedCanLose` is a run; `LostForever` says that no later run repairs it. A crash after the
  transaction was rolled back, while the catch block is still to save the cursor, leaves an event that
  failed and is recorded as processed, which is what the catch block would have made of it.
- After a shutdown signal `RetryHandler.execute` throws whether the operation never ran, failed or
  succeeded, and the catch block records the event. A signal passes over at most one event that was never
  applied (`CostOfSignalsAndCrashes`), and an event that was applied keeps its one verdict.
- `saveStrategyId` does not write when the cached `handled` flag is the same, even if the id is another
  one, and does not update the cache when the write throws, even if it took effect. The cache then
  disagrees with the table (`LateWrite`); `SaveStrategyId` says exactly when.
- The closest price is not checked for proximity when the target is before the first price
  (`ClosestMeans`).
- A fetch that disallows partial last blocks returns nothing, for ever, when one block holds more events
  than the limit (`StallsIff`).
- A role granted, revoked and granted again before its pool exists leaves two pending rows; the pool's
  creation then hits the primary key and rolls back (`PoolCreationCommitsIff`, `RegrantBlocksCreation`).
- The comment on the status handler speaks of statuses 1 to 3; the code accepts 1 to 5.
- A donation's statistics are incremented even when its row was ignored as a duplicate
  (`DonationKeepsIff`); in a pipeline run that never happens, because no event commits twice.

## Model

| member | source | states |
|---|---|---|
| PipelineSafety.StepKeeps | packages/data-flow/src/orchestrator.ts:141-211 | any one action (fetch, pop, attempt, write, commit, fail, signal, crash, restart, new events) from a state satisfying the invariant leads to one satisfying it: verdicts and cursor cover the log without hole or overlap, and queue and hand are what follows |
| PipelineSafety.RunKeeps | packages/data-flow/src/orchestrator.ts:137-211 | the invariant holds after every run, in both wirings, with crashes and restarts anywhere |
| PipelineSafety.LedgerOnlyGrows | packages/data-flow/src/orchestrator.ts:164-211 | an action adds at most one verdict, the one `VerdictOf` names, on the event in hand, and never changes an earlier one |
| PipelineTheorems.HandThenQueueFollowCursor | packages/data-flow/src/orchestrator.ts:144-151 | in every reachable state the event in hand followed by the queue is the contiguous stretch of the log right after the cursor (right from it once the cursor is on the event in hand) |
| PipelineTheorems.CommitsAtMostOnceInOrder | packages/data-flow/src/orchestrator.ts:164-197 | in every run and both wirings the committed events are strictly increasing by (block, logIndex) and come from the log: at most once, in order; the event at (0,0) never commits |
| PipelineTheorems.OneVerdictEach | packages/data-flow/src/orchestrator.ts:164-211 | every log event after (0,0) that the cursor has passed has exactly one verdict (applied, skipped, failed, passed over, lost), in log order, and no event beyond has one |
| PipelineTheorems.NoGaps | packages/data-flow/src/orchestrator.ts:164-211 | with the transactional cursor, or without crashes in either wiring, every event passed by the cursor was applied, skipped, failed or passed over, or is still in hand |
| PipelineTheorems.CostOfSignalsAndCrashes | packages/shared/src/retry/retry.ts:28-67 | at most one event is passed over per shutdown signal and at most one is lost per crash |
| PipelineTheorems.ExposedIsNext | packages/data-flow/src/registries/event/dbEventRegistry.ts:25-27 | an event without verdict under the cursor is the first one after the verdicts, and there is one only with the detached cursor |
| PipelineTheorems.GapFreeIff | packages/data-flow/src/registries/event/dbEventRegistry.ts:25-27 | a run of either wiring has no gap if and only if none of its crashes falls while a transaction that holds changes is open and its cursor write is durable already; a crash on an event without changes loses nothing |
| PipelineTheorems.GapOpensIff | packages/data-flow/src/orchestrator.ts:164-211 | in every reachable state, with or without gaps, exactly one action opens a gap: a crash in that window, which is `wiring.Detached? && phase.Committing? && phase.work.Changes?`; an open gap stays open |
| PipelineTheorems.GapFreeIffNoneLost | packages/data-flow/src/orchestrator.ts:164-211 | the events passed by the cursor are all accounted for if and only if no verdict is a loss, which is the verdict on changes that a crash kept from being committed |
| PipelineTheorems.LostAreWindowCrashes | packages/data-flow/src/registries/event/dbEventRegistry.ts:25-27 | every crash in the window loses one event, and nothing else loses any: the losses of a run are counted exactly |
| PipelineTheorems.LostForever | packages/data-flow/src/registries/event/dbEventRegistry.ts:25-27 | the changes of a lost event are committed in no continuation of the run |
| PipelineTheorems.DetachedCanLose | apps/processing/src/services/processing.service.ts:66-92 | for every event after (0,0), a run of the production wiring with one crash that loses it |
| PipelineTheorems.CursorNeverGoesBack | packages/repository/src/kysely/repositories/eventRegistry.repository.ts:31-63 | no action moves the cursor back, although the upsert itself would let it |
| Orchestration.Orchestrator.constructor | packages/data-flow/src/orchestrator.ts:95-135 | a new process starts at the top of the loop with an empty queue and no signal, on the database a previous life left |
| Orchestration.Orchestrator.GetNextEventsBatch | packages/data-flow/src/orchestrator.ts:315-329 | the events strictly after the durable cursor, (0,0) if there is none, cut at the fetch limit |
| Orchestration.Orchestrator.EnqueueEvents | packages/data-flow/src/orchestrator.ts:361-372 | appends the batch to the queue in order and regroups the context by block number, dropping the old one |
| Orchestration.Orchestrator.ApplyChanges | packages/data-flow/src/data-loader/dataLoader.ts:71-100 | a transaction returns normally if and only if nothing threw, with the cursor on the event; the event's changes are committed once if COMMIT took effect, even if it then threw, and not at all otherwise |
| Orchestration.Orchestrator.AbandonTransaction | packages/data-flow/src/data-loader/dataLoader.ts:77-96 | after a failing changeset nothing of the transaction is kept, and the durable cursor is on the event exactly if its write got out and was not part of the transaction |
| Orchestration.Orchestrator.InsertProcessedEvent | packages/data-flow/src/orchestrator.ts:170-178 | the last changeset puts the cursor in the transaction or in the database, according to the wiring |
| Orchestration.Orchestrator.Operation | packages/data-flow/src/orchestrator.ts:165-196 | one attempt's exact result, commits and cursor; it ends with the event finished under the cursor, with another attempt due (retriable and attempts left), or with an error for the catch block |
| Orchestration.Orchestrator.Execute | packages/shared/src/retry/retry.ts:28-67 | the retry loop terminates and comes to exactly the specified end: what is committed, whether the cursor is on the event, whether it threw, whether a signal was heard |
| Orchestration.Orchestrator.Try | packages/shared/src/retry/retry.ts:34-60 | one round of the retry loop: another one follows only when attempts are left, and what is committed by then or later is what the attempts come to |
| Orchestration.Orchestrator.Catch | packages/data-flow/src/orchestrator.ts:205-211 | puts the cursor on the event whatever went wrong and commits nothing; only a failing cursor write kills the process |
| Orchestration.Orchestrator.Refill | packages/data-flow/src/orchestrator.ts:144-149 | fetches exactly into an empty queue, the limited stretch after the cursor; an event can be popped if and only if one was queued or the fetch works; a failing fetch changes nothing, and one that is not sent cannot fail |
| Orchestration.Orchestrator.TakeNext | packages/data-flow/src/orchestrator.ts:144-162 | takes the first log event after the cursor, and takes one if and only if one is queued or a working fetch brings one |
| Orchestration.Orchestrator.Process | packages/data-flow/src/orchestrator.ts:164-211 | an event in hand is left behind with the cursor on it, unless the process dies before; when it dies, where the cursor is then, and what is committed are exactly as specified |
| Orchestration.Orchestrator.Turn | packages/data-flow/src/orchestrator.ts:141-211 | one pass of the loop is one pass of the specification: events arrive, the first one after the cursor is taken if there is one to take, what its attempts come to is committed, and the cursor is left on it unless the process dies first |
| Orchestration.Orchestrator.Run | packages/data-flow/src/orchestrator.ts:137-282 | the passes of the specification, one after the other, until a signal or the death of the process; if no signal is heard and every save is written it is still going, and has passed at least as many events as there were passes with a working fetch, or all that was indexed, however many fetches failed in between |
| Orchestration.Serve | apps/processing/src/services/processing.service.ts:66-92 | over any number of lives, each ended by a shutdown, an error or a kill after any of its actions, the commits are at most once and in order, and there is a gap if and only if a crash fell in the window of an event with changes; unless killed, the lives leave exactly what the specification says, and make the same progress as one |
| Orchestration.Live | apps/processing/src/services/processing.service.ts:136-166 | one life leaves exactly what the specification says of its script, unless it is killed, which it is only after as many actions as given |
| LoopSpec.SteadyProgress | packages/data-flow/src/orchestrator.ts:141-282 | in the specification: with no signal and every save written, each pass with a working fetch passes one more event, until all that was indexed at the start is passed, whatever became of the events |
| LoopSpec.SteadyPass | packages/data-flow/src/orchestrator.ts:144-162 | such a pass never puts the cursor back, and with an event queued it passes one even if a fetch would have failed |
| LoopSpec.LivesProgress | apps/processing/src/services/processing.service.ts:124-166 | the same over any number of lives |
| LoopSpec.LandsIff | packages/shared/src/retry/retry.ts:34-60 | an event's work lands if and only if one of its first `maxAttempts` attempts, made after nothing but retriable errors without a signal, has a transaction that takes effect |
| Orchestration.World.Kill | apps/processing/src/services/processing.service.ts:136-166 | a process killed after any number of its actions leaves exactly what was durable then, which is a reachable state; what it would have done next never happened |
| Orchestration.NextIsFirst | packages/data-flow/src/orchestrator.ts:144-151 | before a pop the head of the queue is the first log event after the cursor, and a fetch comes back empty only at the end of the log |
| Orchestration.ShouldIgnoreIff | packages/data-flow/src/orchestrator.ts:289-309 | a missing round is ignored for a timestamps event if and only if the current batch has a pool creation later in the same block |
| QueueCost.AmortizedCost | packages/data-flow/src/utils/queue.ts:16-87 | every sequence of pushes and pops costs at most ten slot operations per pushed item and per pop plus 9/4 of the initial capacity, growth and shrinking included |
| QueueCost.PushSolvent | packages/data-flow/src/utils/queue.ts:35-47 | a push of any number of items pays for itself out of the potential, whether or not it grows the buffer |
| QueueCost.PopSolvent | packages/data-flow/src/utils/queue.ts:49-65 | a pop pays for itself out of the potential, whether or not it shrinks the buffer |
| QueueCost.SpaceBound | packages/data-flow/src/utils/queue.ts:35-65 | after every sequence of operations the capacity is at most the largest of 16384, eight times the size, and the initial capacity |
| CircularQueue.Queue.constructor | packages/data-flow/src/utils/queue.ts:31-33 | an empty queue for every capacity, 0 included |
| CircularQueue.Queue.Push | packages/data-flow/src/utils/queue.ts:35-47 | the contents become the old contents followed by the items, across growth and wrap-around, at the cost the cost model says |
| CircularQueue.Queue.Pop | packages/data-flow/src/utils/queue.ts:49-65 | gives the first of the contents and leaves the rest, across wrap-around and shrinking; gives nothing exactly when empty |
| CircularQueue.Queue.Peek | packages/data-flow/src/utils/queue.ts:67-69 | the first of the contents without removing it, and nothing on an empty queue, wherever its head is |
| CircularQueue.Queue.IsEmpty | packages/data-flow/src/utils/queue.ts:75-77 | true exactly when there are no contents |
| CircularQueue.Queue.Resize | packages/data-flow/src/utils/queue.ts:79-87 | a new buffer with the same contents and every slot outside the window empty |
| CircularQueue.WriteAtTail | packages/data-flow/src/utils/queue.ts:42-46 | writing the slot after the window appends to the window's items and keeps the slots outside it empty |
| CircularQueue.ClearAtHead | packages/data-flow/src/utils/queue.ts:52-57 | emptying the first slot of the window removes exactly the first item |
| CircularQueue.Compacted | packages/data-flow/src/utils/queue.ts:79-87 | copying the window to the start of another buffer keeps its items |
| IndexerClient.FetchIsPrefix | packages/indexer-client/src/providers/envioIndexerClient.ts:30-108 | for every limit and cursor, trimmed or not, and while the log grows, a fetch is the first so many events of the log after the cursor |
| IndexerClient.EndsAtBlockBoundary | packages/indexer-client/src/providers/envioIndexerClient.ts:84-101 | with partial last blocks disallowed, the event after a non-empty result belongs to a later block |
| IndexerClient.TrimmedExactly | packages/indexer-client/src/providers/envioIndexerClient.ts:84-101 | trimming keeps everything if the last block is complete, and otherwise exactly the events below it |
| IndexerClient.StallsIff | packages/indexer-client/src/providers/envioIndexerClient.ts:84-101 | the trimmed fetch returns nothing although events follow if and only if all it fetched is one block that has more of them |
| IndexerClient.Selected | packages/indexer-client/src/providers/envioIndexerClient.ts:161-260 | the query by source and range selects exactly the events strictly after the first bound and up to and including the second, of those sources, or of all if none is named |
| IndexerClient.MineSorted | packages/indexer-client/src/providers/envioIndexerClient.ts:161-260 | its result is in log order |
| IndexerClient.MineAfter | packages/indexer-client/src/providers/envioIndexerClient.ts:161-260 | asking again from a later position gives what is left of the first answer: batches neither repeat nor skip |
| IndexerClient.MineStable | packages/indexer-client/src/providers/envioIndexerClient.ts:161-260 | events indexed later, beyond the upper bound, do not change the answer |
| Retroactive.RunKeeps | packages/data-flow/src/retroactiveProcessor.ts:186-249 | an invariant of every run of one strategy, with crashes, failures of every write, and a last position read anew at each start: it ties the checkpoint, the pointer, the queue and the attempts to what is due; in particular the query is never sent without a source |
| Retroactive.Resumption | packages/data-flow/src/retroactiveProcessor.ts:192-249 | for last positions that never go back from one start to the next: the attempts with adjacent repetitions removed are a prefix of what is due, in order; the repetitions are at most the restarts, in every state; no more commits than attempts; at the end everything due was attempted, which for each address is everything strictly before the last position of the start in which it was marked |
| Retroactive.BeginKeeps | packages/data-flow/src/retroactiveProcessor.ts:137-202 | a start with a last position further on keeps all that: what is due of the addresses left grows, what was due of those marked stays, and nothing due is passed by the checkpoint |
| Retroactive.BeginRepeats | packages/data-flow/src/retroactiveProcessor.ts:192-202 | a repetition left by a stop is still the first event the next start fetches, however far the last position has moved |
| Retroactive.ExactlyOnceWithoutRestarts | packages/data-flow/src/retroactiveProcessor.ts:204-249 | a pass that is never cut short attempts each event of its addresses strictly between (0,0) and the last position exactly once, in order, for every batch size |
| Retroactive.CheckpointNeverGoesBack | packages/repository/src/kysely/repositories/strategyProcessingCheckpoint.repository.ts:36-63 | until it is deleted at the end, no action moves the checkpoint back |
| Retroactive.InclusiveCoverageIff | packages/data-flow/src/retroactiveProcessor.ts:315-320 | everything queried up to and including the last positions was attempted if and only if no event of an address is at the last position of the start in which it was marked |
| RetroactiveCommits.ExactlyOnceIff | packages/data-flow/src/retroactiveProcessor.ts:192-249 | in every run each restart makes at most one event commit once more, and every event that commits does so exactly once if and only if no attempt lands that repeats one which had landed before a stop kept it from its checkpoint |
| RetroactiveCommits.RepeatsIff | packages/data-flow/src/retroactiveProcessor.ts:204-244 | the attempt about to be made is a repetition if and only if a stop left one due, and its changes are committed already if and only if, besides, an earlier one landed; told from where the stops fell |
| RetroactiveCommits.StopLeavesRepetitionIff | packages/data-flow/src/retroactiveProcessor.ts:243-244 | a stop leaves a repetition if and only if it falls between an event and its checkpoint and the write does not reach the database, or elsewhere and one was left already |
| RetroactiveCommits.SurplusIsRecommits | packages/data-flow/src/retroactiveProcessor.ts:225-244 | the commits exceed the distinct events committed by exactly the attempts that landed again |
| RetroactiveCommits.RecommitsArePaid | packages/data-flow/src/retroactiveProcessor.ts:192-249 | no stop pays for two events that commit again |
| Retroactive.CanCommitTwice | packages/data-flow/src/retroactiveProcessor.ts:60 | a run with one crash in which an event's changes commit twice |
| Retroactive.PopAdvances | packages/data-flow/src/retroactiveProcessor.ts:215-221 | a pop advances the pointer by exactly one event of what the queries return |
| RetroactiveRun.Interleaved | packages/data-flow/src/retroactiveProcessor.ts:143-162 | however the strategies interleave on the shared strategy, checkpoint and commit tables, what each of them does is a run of its own, and of the strategy table only the marks of addresses found have changed |
| RetroactiveRun.OwnStep | packages/repository/src/kysely/repositories/strategyProcessingCheckpoint.repository.ts:22-84 | the statements a step sends to the shared tables are, seen by its strategy, its own step |
| RetroactiveRun.OthersStep | packages/repository/src/kysely/repositories/strategyProcessingCheckpoint.repository.ts:22-84 | seen by every other strategy they are nothing, because rows are keyed by strategy and by address and no address has two strategies |
| RetroactiveRun.NothingLeftIff | packages/data-flow/src/retroactiveProcessor.ts:296-360 | in every reachable state no handleable strategy is left unhandled if and only if every strategy found has marked all its addresses |
| RetroactiveRun.RunCoversAll | packages/data-flow/src/retroactiveProcessor.ts:123-178 | when none is left, each strategy has attempted everything due, in order, with at most one repetition a restart; when every pass completed, none is left |
| RetroactiveRun.RunRecommits | packages/data-flow/src/retroactiveProcessor.ts:186-249 | on the shared tables, too, each strategy commits distinct events but for one repetition a restart, and exactly once if and only if none landed again |
| RetroactiveRun.LaterRunsApplyNothing | packages/data-flow/src/retroactiveProcessor.ts:123-178 | once none is left, no later run, restarted as often as may be, attempts or commits anything or changes the strategy table |
| RetroactiveProcessing.Processor.constructor | packages/data-flow/src/retroactiveProcessor.ts:192-202 | starts from the checkpoint, (0,0) if there is none, with the last position just read, an empty queue and what was attempted and committed before |
| RetroactiveProcessing.Processor.EnqueueEventsIfEmpty | packages/data-flow/src/retroactiveProcessor.ts:274-290 | fetches exactly into an empty queue, the next events of the sources not marked yet; any other queue, and a failing fetch, leave everything as it was |
| RetroactiveProcessing.Processor.Advance | packages/data-flow/src/retroactiveProcessor.ts:215-221 | takes the head of the queue and moves the pointer onto it, or ends the loop, exactly on an empty queue or at the last pointer; what is ahead shrinks |
| RetroactiveProcessing.Processor.HandleNext | packages/data-flow/src/retroactiveProcessor.ts:205-228 | what a pass does before its checkpoint: it fetches into an empty queue only, handles the next event once, or finds the end |
| RetroactiveProcessing.Processor.Turn | packages/data-flow/src/retroactiveProcessor.ts:204-244 | a pass that does not end the loop takes an event off what is ahead or meets a failing fetch; it handles at most one event, which commits if and only if its changes land; the strategy fails only on a checkpoint write that throws |
| RetroactiveProcessing.Processor.Run | packages/data-flow/src/retroactiveProcessor.ts:186-249 | terminates if finitely many fetches fail, whatever the events' outcomes; what commits is exactly those handled events whose changes land, in order; it completes if no write of its own throws, with the sources marked and the checkpoint gone, and otherwise stops short; without restarts the attempts are exactly what is due |
| RetroactiveProcessing.Store.MarkAndDelete | packages/data-flow/src/retroactiveProcessor.ts:246-248 | marks the addresses and then deletes the checkpoint; completes if and only if no mark and not the deletion throws, and otherwise leaves what took effect |
| Tables.RunningTotalIsExact | scripts/migrations/src/migrations/processing/20241029T120000_initial.ts:16 | rounding a running total to five decimals adds exactly the rounded addend: nothing drifts |
| Tables.StoredIsNearest | scripts/migrations/src/migrations/processing/20241029T120000_initial.ts:16 | an amount is stored as the nearest hundred-thousandth of a dollar, the higher of two, and is an error exactly when it needs more than eighteen digits |
| Tables.ApplyAllConcat | packages/data-flow/src/data-loader/dataLoader.ts:77-96 | a transaction of two lists is the second applied to what the first left, and fails if either fails |
| DataLoading.Database.ApplyChanges | packages/data-flow/src/data-loader/dataLoader.ts:71-100 | the changesets in order, all of them or none: on the first error the tables are what they were before |
| EventEffects.AllocatedEffect | packages/processors/src/processors/strategy/donationVotingMerkleDistributionDirectTransfer/handlers/allocated.handler.ts:49-130 | an allocation that commits is recorded once, for its own donor, with an application of its anchor in a round of its strategy; exactly that round and that application have count, total and donors raised; nothing else changes |
| EventEffects.AllocatedCommitsIff | packages/processors/src/processors/strategy/donationVotingMerkleDistributionDirectTransfer/handlers/allocated.handler.ts:49-130 | with one round of the strategy and one application of the anchor, it commits if and only if the amount and the totals fit their columns |
| EventEffects.DirectAllocatedEffect | packages/processors/src/processors/strategy/directAllocation/handlers/directAllocated.handler.ts:44-98 | a direct allocation that commits is recorded once, for its own donor, with no application; exactly its round is raised |
| EventEffects.DirectAllocatedCommitsIff | packages/processors/src/processors/strategy/directAllocation/handlers/directAllocated.handler.ts:44-98 | with one round of the strategy it commits if and only if amount and total fit |
| EventEffects.PoolCreatedEffect | packages/processors/src/processors/allo/handlers/poolCreated.handler.ts:44-157 | a pool creation that commits stores the round with the strategy the event names and no statistics, turns exactly the pending rows of its two roles into round roles with the blocks of their grants, and changes nothing else |
| EventEffects.PoolCreatedCommitsIff | packages/processors/src/processors/allo/handlers/poolCreated.handler.ts:170-204 | it commits if and only if the round is new and no account is pending twice for one of its roles |
| EventEffects.RoleGrantedEffect | packages/processors/src/processors/allo/handlers/roleGranted.handler.ts:27-83 | a grant of a role of an existing round is stored with its block, or rejected as a duplicate; any other grant is stored as pending; nothing else changes |
| EventEffects.RoleRevokedEffect | packages/processors/src/processors/allo/handlers/roleRevoked.handler.ts:26-68 | a revocation deletes exactly that role of an existing round, and otherwise does nothing |
| EventEffects.RegisteredEffect | packages/processors/src/processors/strategy/donationVotingMerkleDistributionDirectTransfer/handlers/registered.handler.ts:38-90 | a registration that commits adds exactly one application, to a round of its strategy, with its anchor, pending since its block with one snapshot, and no statistics |
| EventEffects.RegisteredCommitsIff | packages/processors/src/processors/strategy/donationVotingMerkleDistributionDirectTransfer/handlers/registered.handler.ts:38-90 | with one round of the strategy it commits if and only if that application is not there yet |
| EventEffects.UpdatedRegistrationEffect | packages/processors/src/processors/strategy/donationVotingMerkleDistributionDirectTransfer/handlers/updatedRegistration.handler.ts:40-105 | an updated registration with a code of 1 to 5 sets that status on an application of its anchor in a round of its strategy, and changes nothing else |
| EventEffects.UpdatedRegistrationCommits | packages/processors/src/processors/strategy/donationVotingMerkleDistributionDirectTransfer/handlers/updatedRegistration.handler.ts:40-105 | it commits whenever its application can be found |
| EventEffects.OtherCodeEffect | packages/processors/src/processors/strategy/donationVotingMerkleDistributionDirectTransfer/handlers/updatedRegistration.handler.ts:50-60 | with any other code it does nothing, whatever the tables hold |
| EventEffects.NoRoundNoEffect | packages/repository/src/kysely/repositories/round.repository.ts:63-86 | no event of a strategy without a round is handled, except an updated registration whose code is no status |
| EventEffects.NoApplicationNoEffect | packages/repository/src/kysely/repositories/application.repository.ts:56-88 | nor an allocation or an updated registration without an application of its anchor |
| EventEffects.OthersChangeNothing | packages/processors/src/processors/strategy/donationVotingMerkleDistributionDirectTransfer/handlers/timestampsUpdated.handler.ts:30-71 | a timestamps event touches none of these tables, nor do events of kinds without a model |
| DonationStats.DonationLands | packages/processors/src/processors/strategy/donationVotingMerkleDistributionDirectTransfer/handlers/allocated.handler.ts:106-128 | the whole effect of a donation's transaction that commits: one row if its id is new, and the statistics of its round and its application |
| DonationStats.DonationKeepsIff | packages/processors/src/processors/strategy/donationVotingMerkleDistributionDirectTransfer/handlers/allocated.handler.ts:106-128 | a donation's transaction keeps all statistics true if and only if its id is new |
| DonationStats.ProcessKeepsStats | packages/processors/src/processors/strategy/directAllocation/handlers/directAllocated.handler.ts:44-98 | any event that commits keeps every count, exact sum and number of distinct donors equal to what the stored donations say |
| DonationStats.AgainOvercounts | packages/repository/src/kysely/repositories/donation.repository.ts:18-37 | a donation committed again leaves its round counting more donations than are stored |
| DonationStats.OvercountStays | packages/repository/src/kysely/repositories/round.repository.ts:209-247 | no later event puts such a count right |
| DonationStats.AllTameKeeps | packages/data-flow/src/data-loader/dataLoader.ts:77-96 | transactions without donations, increments or whole-row updates leave all statistics true |
| DonationStats.DonationIdInjective | packages/processors/src/processors/strategy/helpers/allocated.ts:6-8 | events at different positions have different donation ids |
| DonationStats.DonationIdReads | packages/processors/src/processors/strategy/helpers/allocated.ts:6-8 | the id text is the block and the log index in decimal with a hyphen between them |
| DonationStats.DigitsInjective | packages/processors/src/processors/strategy/helpers/allocated.ts:6-8 | different numbers have different decimal texts |
| RoundRoles.ProcessKeepsRoles | packages/processors/src/processors/allo/handlers/roleGranted.handler.ts:27-83 | any event that commits keeps both role tables equal to what the history of grants, revocations and creations says, in both directions |
| RoundRoles.PoolCreatedKeeps | packages/processors/src/processors/allo/handlers/poolCreated.handler.ts:44-157 | in particular a pool creation does |
| RoundRoles.RoleEventKeeps | packages/processors/src/processors/allo/handlers/roleRevoked.handler.ts:26-68 | in particular a grant and a revocation do, with and without a round |
| RoundRoles.PoolCreationEffect | packages/processors/src/processors/allo/handlers/poolCreated.handler.ts:170-204 | a pool creation that commits turns exactly the pending rows of its two roles into round roles |
| RoundRoles.PoolCreationCommitsIff | packages/processors/src/processors/allo/handlers/poolCreated.handler.ts:170-204 | it commits if and only if the round is new and no account is pending twice for one of its roles |
| RoundRoles.RoleInsertsOkIff | scripts/migrations/src/migrations/processing/20241029T120000_initial.ts:172 | a list of role insertions commits if and only if its accounts are distinct and none has the role already |
| RoundRoles.HandlePendingRoles | packages/processors/src/processors/allo/handlers/poolCreated.handler.ts:170-204 | the handler's loops compute the specified changesets, from admins to managers to one deletion |
| RoundRoles.HeldSnoc | packages/processors/src/processors/allo/handlers/roleRevoked.handler.ts:30-67 | one more event changes who holds a role only by granting it, or by revoking it while its round exists |
| RoundRoles.HeldBeforeCreation | packages/processors/src/processors/allo/handlers/roleRevoked.handler.ts:30-67 | before the round exists, revocations do not count |
| ApplicationStatus.DecodePacked | packages/processors/src/processors/strategy/common/baseRecipientStatusUpdated.handler.ts:84-111 | packing 64 statuses into a row and decoding each of them is the identity |
| ApplicationStatus.PackUnpack | packages/processors/src/processors/strategy/common/baseRecipientStatusUpdated.handler.ts:84-111 | a row is determined by its fields |
| ApplicationStatus.StatusAtIsField | packages/processors/src/processors/strategy/common/baseRecipientStatusUpdated.handler.ts:91-93 | shifting and masking reads the field |
| ApplicationStatus.RowEventEffect | packages/processors/src/processors/strategy/common/baseRecipientStatusUpdated.handler.ts:49-111 | a row event always commits; of the existing applications of the row, codes 1, 2, 3, 4 and 5 set pending, approved, rejected, cancelled and in review with the event's block and a snapshot if the status is new, leaving anchor and statistics; every other application and table stays as it is |
| ApplicationStatus.RecipientStatusUpdated | packages/processors/src/processors/strategy/common/baseRecipientStatusUpdated.handler.ts:84-111 | the handler's loop computes the specified updates, in index order |
| ApplicationStatus.UpdateKeepsHistory | packages/processors/src/processors/strategy/helpers/applicationStatus.ts:26-47 | a status update keeps: the last snapshot is the status, adjacent snapshots differ, blocks never decrease |
| ApplicationStatus.ProcessHistorySteps | packages/processors/src/processors/strategy/donationVotingMerkleDistributionDirectTransfer/handlers/updatedRegistration.handler.ts:40-105 | any event that commits leaves each application's status and snapshots alone, or is of the strategy of its round and begins or updates them |
| ApplicationStatus.StrategiesStay | packages/repository/src/kysely/repositories/round.repository.ts:120-140 | no transaction gives a round another strategy |
| Indexing.TablesAreRight | packages/data-flow/src/orchestrator.ts:137-211 | after every run, in both wirings, with crashes anywhere: statistics, roles and status histories are all right |
| Indexing.ReplayKeeps | packages/data-flow/src/data-loader/dataLoader.ts:71-100 | the same for the tables built by any strictly increasing sequence of commits, rejected ones included |
| Indexing.Index | packages/data-flow/src/data-loader/dataLoader.ts:71-100 | the commits applied in place by the data loader, one transaction each, end in the tables of the replay, and for commits in order with everything right |
| Indexing.StatsTrueIff | packages/data-flow/src/retroactiveProcessor.ts:225-228 | for any commits in any order, those of the orchestrator and of retroactive passes together, all statistics are true if and only if no donation was committed again |
| Indexing.DistinctAreCountedOnce | packages/processors/src/processors/strategy/helpers/allocated.ts:6-8 | events at pairwise distinct positions, in any order, are never counted again |
| Indexing.RolesAlwaysMatch | packages/processors/src/processors/allo/handlers/roleGranted.handler.ts:27-83 | for any commits in any order, those of retroactive passes too, both role tables say what the history of the commits that landed says |
| Indexing.HistoriesInOrder | packages/processors/src/processors/strategy/helpers/applicationStatus.ts:26-47 | for any commits in which the blocks of each source never go back, in any order across sources and with events repeated, every application's status history is in order |
| Indexing.NoPendingForExistingRound | packages/processors/src/processors/allo/handlers/poolCreated.handler.ts:170-204 | after every run no pending row carries the admin or manager role of an existing round |
| Indexing.GrantsAreConserved | packages/processors/src/processors/allo/handlers/roleGranted.handler.ts:32-82 | after every run a committed grant is pending while its round does not exist, and afterwards a round role until it is revoked |
| Indexing.RowEventInRun | packages/processors/src/processors/strategy/common/baseRecipientStatusUpdated.handler.ts:49-77 | a row event of a run does that to exactly the existing applications it addresses, as its fields say, and nothing else to the tables; their histories are in order afterwards |
| Indexing.TwicePendingBlocks | packages/processors/src/processors/allo/handlers/poolCreated.handler.ts:170-204 | two pending rows of one account for one role make the pool's creation roll back |
| Indexing.RegrantBlocksCreation | packages/processors/src/processors/allo/handlers/roleRevoked.handler.ts:26-68 | granted, revoked and granted again before creation, from any reachable tables: the creation rolls back |
| StrategyRegistry.CachedRegistry.constructor | packages/data-flow/src/registries/strategy/cachedStrategyRegistry.ts:34-53 | the initial cache is the table, and no row is stale |
| StrategyRegistry.CachedRegistry.GetStrategyId | packages/data-flow/src/registries/strategy/cachedStrategyRegistry.ts:56-71 | answers what the table holds if and only if the address is not stale, from the cache or not |
| StrategyRegistry.CachedRegistry.SaveStrategyId | packages/data-flow/src/registries/strategy/cachedStrategyRegistry.ts:74-103 | what table, cache and outcome become when the write succeeds, throws, or throws after taking effect; an agreeing cache goes out of agreement if and only if a write over a cached row with another `handled` takes effect and throws, and exactly the rows so left behind are kept track of |
| StrategyRegistry.LateWrite | packages/data-flow/src/registries/strategy/cachedStrategyRegistry.ts:80-102 | one such write: the registry then answers a row the table no longer holds, and skips the write that would set it back |
| StrategyRegistry.CachedRegistry.FindNewHandleableStrategies | packages/data-flow/src/retroactiveProcessor.ts:296-313 | groups by strategy exactly the unhandled addresses that have a handler |
| StrategyRegistry.CachedRegistry.MarkStrategyAsHandled | packages/data-flow/src/retroactiveProcessor.ts:327-360 | marks in the table exactly the addresses whose write takes effect, whatever becomes of the others, and succeeds exactly if every write does |
| StrategyRegistry.CachedRegistry.ProcessRetroactiveStrategies | packages/data-flow/src/retroactiveProcessor.ts:123-178 | exactly the addresses whose strategy got to marking and whose write took effect are marked; nothing is left if and only if that is so of every address found |
| Pricing.FindClosestPrice | packages/pricing/src/providers/cachingProxy.provider.ts:178-227 | nothing from no prices; the first price if the target is not after it; else a price with the greatest instant not after the target, or none if that is more than five hours before it; it agrees with the linear scan, up to which of several prices of one instant it names |
| Pricing.GetClosestPrices | packages/pricing/src/providers/cachingProxy.provider.ts:156-170 | a price for each timestamp, in order, or the error exactly when some timestamp has no close price |
| Pricing.ClosestMeans | packages/pricing/src/providers/cachingProxy.provider.ts:178-227 | the linear specification keeps the same promise; its answer is within five hours exactly when the target is not more than five hours before the first price |
| Pricing.FloorMeans | packages/pricing/src/providers/cachingProxy.provider.ts:219-226 | the linear scan finds a greatest price not after the target, or there is none |
| Pricing.RangeHasLatest | packages/repository/src/kysely/repositories/prices.repository.ts:55-85 | a non-empty cached range always has a close price, and it is the latest row of the last five hours |
| Pricing.PriceCache.GetPricesByTimeRange | packages/repository/src/kysely/repositories/prices.repository.ts:55-85 | exactly the cached prices between the two instants, each once, sorted |
| Pricing.CachingProvider.GetTokenPrice | packages/pricing/src/providers/cachingProxy.provider.ts:26-78 | a query the cache can answer never raises "no close price" and never changes the cache; a miss returns the provider's price and stores it under the instant asked for |
| Pricing.CachingProvider.AskTwice | packages/pricing/src/providers/cachingProxy.provider.ts:26-78 | after a stored miss the same query gives the same dollar price, whatever the provider would answer then |
| Pricing.PlanRequests | packages/pricing/src/providers/coingecko.provider.ts:171-206 | terminates; up to 90 days one request, beyond that pieces of at most 88 days that tile the range end to end |
| Pricing.MergedIsSorted | packages/pricing/src/providers/coingecko.provider.ts:202-205 | sorted responses within their pieces merge into a sorted list within the range, holding all their prices and no others |
| TokenMath.RoundTrip | packages/processors/src/helpers/tokenMath.ts:14-59 | with s = ½·10⁻²⁰·(10^decimals/price + 1): to dollars and back at one price gains at most s and loses less than 1 + s, and yields the amount or one less when s is below 1 |
| TokenMath.SlackIs | packages/shared/src/math/bignumber.ts:3 | the s of that bound, in plain numbers |
| TokenMath.UsdError | packages/processors/src/helpers/tokenMath.ts:20-33 | the dollar amount is amount times price over ten to the decimals, off by at most half a unit of the twentieth decimal |
| TokenMath.BackError | packages/processors/src/helpers/tokenMath.ts:49-58 | the token amount before its floor is dollars times ten to the decimals over the price, off by at most as much |
| TokenMath.PowersOfTen | packages/processors/src/helpers/tokenMath.ts:22-24 | the scale is one for no decimals and ten times as much for each decimal more |
| TokenMath.OneTokenOneDollar | packages/processors/src/helpers/tokenMath.ts:20-33 | 10^18 base units of a token of 18 decimals at a price of one dollar are one dollar |
| TokenMath.RoundingError | packages/shared/src/math/bignumber.ts:3 | division is off by at most half a unit of the twentieth decimal |
| TokenMath.OneUnitCanBeLost | packages/processors/src/helpers/tokenMath.ts:44-59 | the lower of the two does occur |

## Left out

- Network, GraphQL text, the Postgres driver, ABI decoding, metadata, logging, notifications and delays: what they answer is an argument or a nondeterministic action.
- The bulk fetch of metadata and prices after a batch is fetched: only its failure, which is the failing fetch.
- What a handler computes inside the pipeline: there it is any changes, nothing, a retriable or another error; the modelled handlers are in `Handlers`, and `Indexing` replays the commits through them.
- Indexing.Replay: an event that the pipeline says committed but that the tables reject changes nothing; the pipeline machine itself does not know which of the handlers' transactions the tables accept.
- The writes to the strategy registry that `handleEvent` makes outside the transaction (`packages/data-flow/src/orchestrator.ts:430-455`).
- Reorganisations of the chain: the log only grows, in order, and the indexer never inserts before an event it has shown.
- Running the orchestrator and a retroactive pass at the same time, which the code does not exclude. What mixing their commits does to the tables is `Indexing.StatsTrueIff`, `RolesAlwaysMatch` and `HistoriesInOrder`, which are about any commits.
- RetroactiveRun.RunCoversAll: is about the addresses a strategy had when it was first found; a later pass over further addresses that finds a checkpoint whose deletion failed is not modelled.
- Orchestration.Orchestrator.Run: that the loop keeps being scheduled, and the delay between empty fetches, are not modelled.
- Orchestration.Orchestrator.Operation: errors of the transaction are never retried, because the repository layer turns them into non-retriable ones (`packages/repository/src/utils/error.ts`); other uses of the retry handler are not modelled.
- StrategyRegistry.CachedRegistry.ProcessRetroactiveStrategies: takes how each pass ends as given and the strategies one after the other; how passes end, and every interleaving of them, is `RetroactiveRun`.
- Orchestration.Orchestrator.ApplyChanges: takes the changesets of an event as one unit; their ordered application and rollback is `DataLoading.Database.ApplyChanges`.
- The repository methods under the data loader and other one-statement reads and writes are modelled (`DataLoading.Database`, `Orchestration.World`, `RetroactiveProcessing.Store`, `Pricing.PriceCache`) and have no rows of their own: what they come to is in the rows of the methods and theorems that use them.
- Donation statistics across chains: the donation id has no chain in it while it is the whole primary key, so everything about tables is for one chain.
- Hashing: the donation id's hash and the hashes of round roles are taken to be injective, with admin and manager different.
- Lookups by columns that are not unique (a round by strategy, an application by anchor) return some matching row, as the query does.
- The projects table and the foreign keys to it, payouts, funding and distribution totals, match amounts, timings, metadata columns, legacy projects and attestations: independent of the properties proved.
- Serial ids keep their gaps after a rollback in Postgres; here a rolled back id is reused.
- Integer widths of the database and of array lengths, and the engine's limits on spread arguments.
- The bitmap library itself is not part of this model; its row layout is, as 64 fields of four bits, the first in the lowest.
- Pricing: the batch form `getTokenPrices` of the caching provider is modelled as its search and its merge, not with its cache margins; the in-memory price cache is left out, as is the rounding of a request's bounds to whole seconds.
- TokenMath: prices and intermediate results are exact decimals as reals; the optional truncation of decimals is left out.
