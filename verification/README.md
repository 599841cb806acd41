# Nest ADK runtime, modelled and verified

A Dafny model of the runtime of the agent development kit: how a session's journal becomes the context a
model reads, how that context is kept within its window, how the journal itself is stored and folded back
into a state, how a model is called until it answers, and how answers, artifacts, attachments, costs and
requests are put together around it. `dafny verify dfyconfig.toml` checks the whole project.

| file | what it models |
|---|---|
| `Journal.dfy`, `ContextBlock.dfy`, `ContextProjector.dfy` | the journal, the blocks of a context, and the loop that folds one into the other |
| `ToolBlocks.dfy` | what every projection keeps about calls and their results |
| `ProjectionSplit.dfy` | where a journal may be cut and projected in two parts |
| `Placement.dfy` | what every projection shows, told by the facts of the journal alone |
| `ContextBudget.dfy`, `PolicyShares.dfy` | projected tokens, the window-share policy, the compaction target, in exact rationals |
| `OldestFirstCompaction.dfy` | the shipped compaction strategy, for any summarizer |
| `ContextService.dfy`, `Resuming.dfy` | preparing a context, checkpoints; exactly when resuming from one is right |
| `SessionState.dfy`, `StateHistory.dfy`, `SessionRepository.dfy` | the fold of a session and what it says of its journal, snapshots, commit and rehydration |
| `SessionJournal.dfy`, `SessionStorages.dfy` | one storage contract, the in-memory and the SQLite implementation of it |
| `ModelRunner.dfy` | retries inside failover |
| `ChunkAggregator.dfy`, `GeminiStream.dfy`, `GeminiRequest.dfy` | streamed answers put together again; the Gemini mappers on both sides |
| `ArtifactPage.dfy`, `ArtifactBudget.dfy`, `ReadArtifact.dfy` | pages of an artifact, answers cut to a budget, pages shrunk to one |
| `StrictSchema.dfy` | the worklist that refuses schemas strict output cannot enforce |
| `RunCost.dfy` | prices, bands, and the cost of a run by model |
| `AttachmentCache.dfy`, `ChunkStream.dfy` | the bounded attachment cache; the hand-over of chunks as steps |
| `Crc.dfy`, `Folds.dfy`, `Decimals.dfy` | the table-driven CRC of the test images against its bit-serial definition; left folds; numbers as they are written |

Code that updates variables, arrays or objects is modelled by methods and classes, each proved equal to a
function or against a property; the functions are what the lemmas are about.

## What was found

Each of these is a lemma; where a promise fails, there is a lemma with an input that shows it and one with
the condition under which it holds, exact wherever the text says so.

- A projection splits at a cut exactly when no call is in flight there (`SplitsExactlyAtCleanCuts`), and a
  tool block accounts for its calls exactly when no in-flight identifier is reused (`BalancedExactlyWithoutReuse`);
  asked twice and answered once, it stays open with nothing in flight (`AskedTwiceStaysOpen`).
- A checkpoint covers the furthest block that was *kept*. It stands for its journal, however the session goes
  on, exactly when nothing is in flight and the part past what it covers shows no block (`ResumesExactly`). A
  call answered late may be dropped before what was said meanwhile; the checkpoint then covers less than the
  dropped block did, and the next call fails on a result whose call is gone (`DroppedBlockMayReachFurther`).
- A budget that a policy leaves alone fits its window, except in a window all of which is held back for the
  answer: nothing is then compacted, and any prompt projected to a token is refused (`LeftAloneFitsExactly`,
  `FullWindowIsLeftAlone`).
- The contract of the storages says an event identifier is written once. The in-memory storage gives up
  looking at the first identifier it does not know, so a batch that mixes new and known events duplicates one
  (`MixedIsWrittenInMemory`), under an exact condition (`MemoryDuplicatesExactly`); SQLite refuses every such batch.
- A retried commit projects the replayed events only, but claims the head. What it answers, and the snapshot it
  leaves, are the fold of the journal for every session exactly when the batch ends at the head
  (`RetriesAreFaithfulExactlyAtTheHead`); otherwise that snapshot is wrong and is used (`StaleRetryCorruptsTheSnapshot`).
- The comment on snapshots says that anything suspicious leads to a full replay. The checksum covers
  the revision, the values and the active agent only: another state in a snapshot is noticed, and the journal
  replayed, exactly when one of those three differs; metadata, last prompt and pending turn are taken as they are
  (`ReplacedStatesAreNoticedExactly`).
- A compaction whose prompt was never measured keeps its projection, so it may still not fit
  (`CompactedFitsExactlyWhenMeasured`, `UnmeasuredSizeMayNotFit`).
- A text that exactly fills its room is left whole and costs one character too many, because `false` is longer
  than `true` (`FullTextIsOneTooMany`); texts that need escapes may pass the budget (`FitsExactly`).
- Shrinking a page subtracts encoded from raw characters, so a page of escapes is emptied although a shorter
  one fits (`EscapesEmptyThePage`), exactly when escapes alone take all the room beside the frame
  (`EmptiedExactly`); otherwise at most two shrinks are needed.
- An unsigned function call joins the content of the latest signed one however long ago that was, past turns
  of the user included (`JoinsExactly`).
- Remembering an attachment over another leaks its bytes from the count for good (`RememberingAgainLeaks`,
  `RunsStaySound`, `LeakCostsTheBudget`). Sessions are kept apart exactly when neither name, with the slash behind
  it, begins the other (`SessionsStayApartExactly`, `NestedSessionsAreForgottenToo`).

## Model

| member | source | states |
|---|---|---|
| `ContextProjector.Project` | packages/core/src/runtime/context/context-projector.service.ts:27-86 | the loop over events with its block list, index maps, delegated runs and breath computes the specified fold, failing on the first orphan result |
| `Placements.ProjectsWhatIsSeen` | packages/core/src/runtime/context/context-projector.service.ts:27-86 | for every journal, told by its facts: a projection fails exactly at the first result, of an event not hidden, whose call is not in flight; otherwise there are as many blocks as words and first calls of a breath since the served run began, and each block holds, in order and field by field, the messages of exactly the events that land in it, with their first and last revision, the call that opened it, whether it is closed, and whether a skill pinned it |
| `Placements.HiddenLeavesNoTrace` | packages/core/src/runtime/context/context-projector.service.ts:51 | an event of a run delegated to earlier in the journal, other than the run being served, changes nothing: erasing all such events leaves the same projection, failures included |
| `ContextProjector.JoinOfBoth` | packages/core/src/runtime/artifact/resolved-attachments.value-object.ts:13-16 | notes stand in their order with a line break between any two |
| `ToolBlocks.StepKeepsBlocks` | packages/core/src/runtime/context/context-projector.service.ts:39-83 | every event keeps: a tool block is calls then results, each result answers a call of its own block, in-flight calls point at open blocks, a breath implies its block has a call in flight |
| `ToolBlocks.FoldKeepsBlocks` | packages/core/src/runtime/context/context-projector.service.ts:39-86 | the same over every journal |
| `ToolBlocks.ProjectedAccount` | packages/core/src/runtime/context/context-projector.service.ts:69-81 | over every journal, calls left unanswered in blocks are the calls in flight plus the times an in-flight identifier was called again |
| `ToolBlocks.BalancedExactlyWithoutReuse` | packages/core/src/runtime/context/context-projector.service.ts:69-81 | calls minus results equals the in-flight identifiers pointing at the block, for every block, exactly when no in-flight identifier was reused |
| `ToolBlocks.AskedTwiceStaysOpen` | packages/core/src/runtime/context/context-projector.service.ts:69-81 | a call asked for twice and answered once leaves its block open with nothing in flight |
| `ToolBlocks.ClosedExactlyWhenNothingWaits` | packages/core/src/domain/context/context-block.value-object.ts:97-110 | without reuse a tool block is closed exactly when no in-flight call points at it |
| `ToolBlocks.OrphanExactlyWhenNotInFlight` | packages/core/src/runtime/context/context-projector.service.ts:134-138 | after any journal a further result fails as an orphan exactly when its call is not in flight |
| `ProjectionSplit.FoldShifts` | packages/core/src/runtime/context/context-projector.service.ts:39-83 | a tail folded behind other blocks does what it does alone, with its indexes moved along and the same failures |
| `ProjectionSplit.SplitsAtCleanCut` | packages/core/src/runtime/context/context-projector.service.ts:39-86 | with no call in flight at the cut, projecting the whole is projecting both parts one behind the other, with the same failures |
| `ProjectionSplit.SplitsExactlyAtCleanCuts` | packages/core/src/runtime/context/context.service.ts:72-76 | an ordered journal splits from every separated tail that follows it in order exactly when no call is in flight at the cut |
| `PolicyShares.BuildsExactlyThePoliciesThatShed` | packages/core/src/domain/context/window-share-compaction.policy.ts:30-47 | shares are accepted exactly when the policy of those shares compacts everything past the window and, whenever it compacts, keeps something but at most some fixed part below the whole |
| `ContextBudgets.CompactsExactlyPastItsShare` | packages/core/src/domain/context/window-share-compaction.policy.ts:43-47 | the policy compacts exactly when the rounded projection passes its share of a known capacity |
| `ContextBudgets.KeptShare` | packages/core/src/domain/context/compaction-decision.value-object.ts:16-23 | the share kept is the target share over the used one, never clamped, and the recent blocks kept are the policy's; the target in characters is less than what there is, if there is anything |
| `ContextBudgets.TargetIsTheShare` | packages/core/src/domain/context/compaction-decision.value-object.ts:21-23 | the target is the kept share of the characters, less a part of one |
| `ContextBudgets.ProjectsInProportion` | packages/core/src/domain/context/context-budget.value-object.ts:38-79 | the projection is the measured tokens times size over measured size to the nearest whole token, halves upwards; of the measured size, or without one, exactly the measured tokens |
| `ContextBudgets.CompactedFits` | packages/core/src/domain/context/context-budget.value-object.ts:38-47 | whenever the policy compacts a measured prompt and the result is within the target, the new rounded projection is below target share times capacity plus one, and fits |
| `ContextBudgets.CompactedFitsExactlyWhenMeasured` | packages/core/src/domain/context/context-budget.value-object.ts:65-79 | after a compaction that met its target the budget fits exactly when the prompt's size was measured, or the prompt fitted already |
| `ContextBudgets.UnmeasuredSizeMayNotFit` | packages/core/src/domain/context/context-budget.value-object.ts:76-79 | a concrete budget without a measured size that no compaction makes fit |
| `OldestFirstCompaction.DropUntilItFits` | packages/core/src/runtime/context/oldest-first-compaction.strategy.ts:54-69 | the loop drops exactly the least number of oldest removable blocks that is enough, or all of them, and terminates; it stops short of its target only when every block outside the protected ones is open or pinned |
| `OldestFirstCompaction.Compact` | packages/core/src/runtime/context/oldest-first-compaction.strategy.ts:31-52 | both rounds, for any summarizer, give the specified result |
| `OldestFirstCompaction.CompactionMeetsItsTarget` | packages/core/src/runtime/context/oldest-first-compaction.strategy.ts:31-52 | the result is within its target or nothing removable is left outside the protected blocks; a summary stays only where the target is met |
| `OldestFirstCompaction.CompactionCuts` | packages/core/src/runtime/context/oldest-first-compaction.strategy.ts:31-69 | by what blocks say of themselves: in front of a cut right behind the last block that fell, every closed unpinned block fell and every other stayed, their number is the number dropped, and when the target is missed every unprotected block behind the cut is open or pinned |
| `OldestFirstCompaction.SummaryStandsForTheFallen` | packages/core/src/runtime/context/oldest-first-compaction.strategy.ts:31-90 | a summary that stays is what the summarizer answered for exactly the blocks that fell, in its first round if that fits and otherwise in its second, not blank, with the first of their revisions |
| `OldestFirstCompaction.MeasuresWhatIsRead` | packages/core/src/runtime/context/context-measurer.service.ts:4-27 | a context measures the length of the text the model reads, prefix, tools and messages as they are rendered, and a flat price for every image |
| `OldestFirstCompaction.NothingFallsInVain` | packages/core/src/runtime/context/oldest-first-compaction.strategy.ts:62-68 | without a summarizer fewer dropped blocks would have missed the target |
| `OldestFirstCompaction.OnlyTheSummaryCostsMore` | packages/core/src/runtime/context/oldest-first-compaction.strategy.ts:41-47 | with one, further blocks fall only while the summary of the first round would not fit beside the rest |
| `OldestFirstCompaction.CompactionConserves` | packages/core/src/runtime/context/oldest-first-compaction.strategy.ts:13-15 | kept and dropped blocks are the blocks there were; open, pinned and recent ones all survive in their order |
| `ContextServices.ContextService.Prepare` | packages/core/src/runtime/context/context.service.ts:35-64 | preparing projects or resumes, compacts when the policy says so, saves the checkpoint and refuses what does not fit, as specified |
| `ContextServices.ContextService.BuildBlocks` | packages/core/src/runtime/context/context.service.ts:66-86 | a usable checkpoint's blocks and the projection of the events after its revision |
| `ContextServices.PreparedTells` | packages/core/src/runtime/context/context.service.ts:50-64 | field by field, what is answered: the blocks and their own budget when it fits, and otherwise what was projected; and what is left: a checkpoint exactly after a compaction, holding the compacted blocks and covering as far as the furthest of them, from which the next call for the same prefix may resume |
| `ContextServices.ResumesFromItsOwn` | packages/core/src/runtime/context/context.service.ts:79-86 | only the furthest checkpoint is resumed from, and only when strategy, version and prefix are the ones at hand |
| `ContextServices.LeftAloneFitsExactly` | packages/core/src/runtime/context/context.service.ts:52-57 | a budget the policy leaves alone fits exactly unless the window is all held back and something is projected |
| `ContextServices.FullWindowIsLeftAlone` | packages/core/src/domain/model/descriptor/model-context-window.value-object.ts:13-18 | a window of fifty tokens declared with ninety held back, where a prompt of one token is left alone and does not fit |
| `ContextServices.RefusedOnlyWithNothingLeftToDrop` | packages/core/src/runtime/context/context.service.ts:52-63 | under a policy, a context left alone is refused exactly in a full window with something projected; one compacted over an unmeasured size, exactly when the last prompt was too much; over a measured one, only when compaction dropped everything it may |
| `Resumptions.ResumesExactly` | packages/core/src/runtime/context/context.service.ts:66-77 | a checkpoint stands for an ordered journal, whatever follows that reaches for nothing but calls in flight, exactly when nothing is in flight at its end and the events past the covered revision project to no block |
| `Resumptions.ResumesAtCleanCut` | packages/core/src/runtime/context/context.service.ts:72-76 | at a clean cut, resuming answers what projecting everything does exactly when the checkpoint holds the blocks of the cut, or the rest fails on an orphan |
| `Resumptions.NothingPastTheFurthestBlock` | packages/core/src/domain/context/context-projection.value-object.ts:42-48 | the events past the covered revision of a full projection added no block |
| `Resumptions.ResumingKeepsTheCompaction` | packages/core/src/runtime/context/context.service.ts:96-114 | when no dropped block reached past the kept ones and no call was in flight there, resuming later is projecting everything with the compacted blocks in place of the full ones |
| `Resumptions.KeepingNothingForgetsTheCompaction` | packages/core/src/domain/context/context-projection.value-object.ts:42-48 | a compaction that keeps nothing covers revision zero, so the next call projects the whole journal, and stands for it exactly when there was no block |
| `Resumptions.DroppedBlockMayReachFurther` | packages/core/src/runtime/context/context.service.ts:35-64 | for every request, a journal and a command for which preparing leaves a checkpoint that the next call takes and from which it fails on an orphan result |
| `ContextCheckpoints.FurthestCoversMost` | packages/core/src/adapters/storage/in-memory-session-storage.adapter.ts:82-92 | the checkpoint found is one of those saved and none covers more; of equals, the first |
| `ContextCheckpoints.SavedIsKept` | packages/core/src/adapters/storage/in-memory-session-storage.adapter.ts:76-80 | a saved checkpoint is among those kept, and takes the place of none but that of its own revision and version |
| `ContextBlocks.CoversTheFurthest` | packages/core/src/domain/context/context-projection.value-object.ts:42-48 | what blocks cover is the furthest revision any of them reaches |
| `InMemoryStorage.InMemorySessionStorage.Append` | packages/core/src/adapters/storage/in-memory-session-storage.adapter.ts:94-115 | an append changes the record and answers as specified, and touches no other session |
| `InMemoryStorage.InMemorySessionStorage.FindReplay` | packages/core/src/adapters/storage/in-memory-session-storage.adapter.ts:117-132 | the look-up over known events, in batch order, giving up at the first unknown one |
| `InMemoryStorage.InMemorySessionStorage.FindCheckpoint` | packages/core/src/adapters/storage/in-memory-session-storage.adapter.ts:82-92 | the furthest checkpoint of the session |
| `SqliteStorage.SqliteSessionStorage.AppendWithin` | packages/core/src/adapters/storage/sqlite/sqlite-session-storage.adapter.ts:107-131 | the rows written one by one inside a transaction, with the table's constraints, give the specified journal and answer |
| `SqliteStorage.SqliteSessionStorage.FindReplay` | packages/core/src/adapters/storage/sqlite/sqlite-session-storage.adapter.ts:133-151 | known payloads, the partially written and differently written batches, and the replay in revision order |
| `SqliteStorage.SqliteSessionStorage.Delete` | packages/core/src/adapters/storage/sqlite/sqlite-session-storage.adapter.ts:75-82 | deleting a session removes its rows from all three tables and no others |
| `SqliteStorage.WriteRows` | packages/core/src/adapters/storage/sqlite/sqlite-session-storage.adapter.ts:122-128 | written at the head of a sound journal, every row of a new batch passes the table's constraints and reads back as it was written |
| `SqliteStorage.SelectByIds` | packages/core/src/adapters/storage/sqlite/event-repository.adapter.ts:43-53 | exactly the rows with one of the identifiers, in revision order when the rows are |
| `SqliteStorage.WrittenPayloads` | packages/core/src/adapters/storage/sqlite/event-repository.adapter.ts:55-69 | exactly the identifiers already written, with their payloads |
| `SessionJournals.RunsStayContiguous` | packages/core/src/adapters/storage/sqlite/sqlite-session-storage.adapter.ts:107-131 | over every run of creates, appends and deletes, in both storages, revisions follow each other up to the head; from one when every session is created at zero |
| `SessionJournals.RefusedChangesNothing` | packages/core/src/adapters/storage/in-memory-session-storage.adapter.ts:94-104 | a refused append leaves the store as it was, in both storages |
| `SessionJournals.RetryAnswersWhatWasWritten` | packages/core/src/adapters/storage/sqlite/sqlite-session-storage.adapter.ts:111-112 | an exact retry writes nothing and answers the stored events and the current head, in both storages |
| `SessionJournals.TableRunsStayUnique` | packages/core/src/adapters/storage/sqlite/sqlite-session-storage.adapter.ts:133-151 | over every run SQLite keeps event identifiers unique within a session |
| `SessionJournals.MemoryDuplicatesExactly` | packages/core/src/adapters/storage/in-memory-session-storage.adapter.ts:117-132 | an in-memory append at the head breaks that exactly for a batch that mixes known and new events and agrees with the journal up to its first new one |
| `SessionJournals.MixedIsWrittenInMemory` | packages/core/src/adapters/storage/in-memory-session-storage.adapter.ts:117-132 | a sound journal of one event and a batch of that event and another, which is written whole |
| `SessionJournals.MixedIsCorruptedInTable` | packages/core/src/adapters/storage/sqlite/sqlite-session-storage.adapter.ts:138-149 | SQLite refuses every mixed batch as corrupted |
| `SessionJournals.AppendsAlike` | packages/core/src/adapters/storage/in-memory-session-storage.adapter.ts:94-132 | on batches wholly known or wholly new both storages do and answer the same, up to the order of replayed events |
| `SessionJournals.RunsAlike` | packages/core/src/adapters/storage/in-memory-session-storage.adapter.ts:94-132 | so do whole runs of such batches |
| `SessionStates.FoldGoesOn` | packages/core/src/runtime/session/state-projector.service.ts:25-27 | folding a journal is folding its beginning and going on from there |
| `StateHistories.FoldIsTold` | packages/core/src/runtime/session/state-projector.service.ts:21-49 | for every journal, told by its facts: the active agent is the one last created with or transferred to; a key of the metadata holds its last entry, unless it was deleted since; the last prompt is the last measurement; a turn is pending exactly when no run ended since the last suspension, and each of its calls carries the last ruling on it since then, or what it was suspended with |
| `StateHistories.OnlyOneIsTold` | packages/core/src/runtime/session/state-projector.service.ts:21-49 | that determines the state |
| `StateHistories.SnapshotsExactly` | packages/core/src/runtime/session/snapshot/revision-bucket-snapshot.policy.ts:26-33 | a snapshot is due exactly when a held call waits for a ruling or a multiple of the bucket was reached |
| `SessionRepositories.ReplacedStatesAreNoticedExactly` | packages/core/src/runtime/session/session-repository.service.ts:68-98 | with another state put in the place of a usable snapshot's, rehydration goes on from that state exactly when revision, values and active agent agree, and otherwise answers the fold of the journal |
| `SessionRepositories.SessionRepository.Commit` | packages/core/src/runtime/session/session-repository.service.ts:46-58 | a commit appends, projects what the append answered and saves a snapshot when due, as specified, and touches no other session |
| `SessionRepositories.SessionRepository.Rehydrate` | packages/core/src/runtime/session/session-repository.service.ts:68-90 | the loop from a usable snapshot or from nothing, checking that revisions follow each other |
| `SessionRepositories.RehydratesToTheFold` | packages/core/src/runtime/session/session-repository.service.ts:68-90 | with a sound snapshot, snapshot and tail give the state that folding the whole journal gives |
| `SessionRepositories.SnapshotIsUsedExactly` | packages/core/src/runtime/session/session-repository.service.ts:68-98 | a snapshot is used exactly when version, claimed revision and digest agree, field by field; otherwise the whole journal is replayed |
| `SessionRepositories.RehydratesExactlyFromOne` | packages/core/src/runtime/session/session-repository.service.ts:77-87 | without a snapshot a session comes back exactly when its journal is empty or starts at one |
| `SessionRepositories.CommitReachesTheFold` | packages/core/src/runtime/session/session-repository.service.ts:46-58 | a commit given the fold at its expected revision, new or a retry that ends at the head, answers the fold at the head |
| `SessionRepositories.CommitKeepsSound` | packages/core/src/runtime/session/session-repository.service.ts:100-124 | and every snapshot it saves equals the fold at its revision |
| `SessionRepositories.RunsRehydrate` | packages/core/src/runtime/session/session-repository.service.ts:46-90 | after any run of such commits, whichever snapshots could be saved, rehydration gives the fold of the journal, which is what its facts tell |
| `SessionRepositories.RetryFoldsToItsEnd` | packages/core/src/runtime/session/session-repository.service.ts:46-58 | a retry of a written batch writes nothing and answers the fold up to where the batch ends, in both storages |
| `SessionRepositories.RetriesAreFaithfulExactlyAtTheHead` | packages/core/src/runtime/session/session-repository.service.ts:46-58 | a retry answers the fold of the journal in every session exactly when its batch ends at the head, and leaves a snapshot that stands for its journal exactly then |
| `SessionRepositories.StaleRetryCorruptsTheSnapshot` | packages/core/src/runtime/session/session-repository.service.ts:53-55 | a retry of an older batch saves a snapshot from which rehydration gives a wrong state, in both storages |
| `ModelRunners.FindDelay` | packages/core/src/domain/agent/backoff-retry.policy.ts:24-34 | a delay is answered exactly for a transient failure within the retries, and never passes the ceiling |
| `ModelRunners.WaitsWithinTheWindow` | packages/core/src/domain/agent/backoff-retry.policy.ts:24-34 | a wait is what the provider asked, capped, or within the window doubled per attempt |
| `ModelRunners.WaitsExactly` | packages/core/src/domain/agent/backoff-retry.policy.ts:24-34 | the wait is the one asked for, or the jittered window to the nearest whole millisecond, halves upwards, either capped by the ceiling; it is refused exactly when that number is no safe integer |
| `ModelRunners.DoublingsAddUp` | packages/core/src/domain/agent/backoff-retry.policy.ts:32 | the factor of the window is two for one doubling, and doublings multiply |
| `ModelRunners.Stream` | packages/core/src/runtime/model/model-runner.service.ts:32-67 | the endless loop terminates; models tried are a prefix of primary and queue, each called once to retries plus one times in a row and given up only when it may not be retried, reroute i links attempt i to i+1 with the failure of its last call, every wait is the one the policy answered, and the run ends for one of the reasons given |
| `ModelRunners.CallOnce` | packages/core/src/runtime/model/model-runner.service.ts:39-66 | one turn of the loop, with the variables it updates, is the specified round |
| `ModelRunners.ReroutedRightly` | packages/core/src/runtime/model/model-runner.service.ts:60-64 | a model is left behind only with no retry to make, and never for a refused request |
| `ModelRunners.RoundsRunOut` | packages/core/src/runtime/model/model-runner.service.ts:39-66 | every round after which the loop goes on leaves fewer retries of the same model, or fewer models |
| `ModelRunners.WaitsUnderTheCeiling` | packages/core/src/domain/agent/backoff-retry.policy.ts:28 | no wait of any run passes the ceiling |
| `ModelRunners.AgainIsGood` | packages/core/src/runtime/model/model-runner.service.ts:51-65 | a round after which the loop goes on, with a wait or with another model, keeps all of that and uses up a retry or a model |
| `ModelRunners.OverIsFinished` | packages/core/src/runtime/model/model-runner.service.ts:39-66 | a round that ends the run leaves it as promised |
| `ModelRunners.OutOfOptions` | packages/core/src/runtime/model/model-runner.service.ts:80-99 | a silent failure ends the run only with neither a retry nor another model left, or a refused request |
| `ModelRunners.CallsAreBounded` | packages/core/src/runtime/model/model-runner.service.ts:39-66 | at most (queue + 1) * (retries + 1) calls |
| `ModelRunners.ChunksFromOneCall` | packages/core/src/runtime/model/model-runner.service.ts:45-53 | chunks come from the last call alone |
| `ChunkAggregators.ModelChunkAggregator.Accept` | packages/core/src/runtime/model/model-chunk-aggregator.service.ts:16-25 | accepting a chunk updates text, calls, usage and end as the fold of all chunks so far |
| `ChunkAggregators.ModelChunkAggregator.ToolCalls` | packages/core/src/runtime/model/model-chunk-aggregator.service.ts:42-59 | the calls in ascending index order, or the first of them that is malformed |
| `ChunkAggregators.BuildCarries` | packages/core/src/runtime/model/model-chunk-aggregator.service.ts:42-58 | each call built carries its own name, parsed arguments, signature and id, or an id made of its index; otherwise the error is that of the first call without a name or with arguments that cannot be parsed |
| `ChunkAggregators.MadeUpIdsAreApart` | packages/core/src/runtime/model/model-chunk-aggregator.service.ts:57 | ids made up for different calls are different |
| `ChunkAggregators.AcceptedIsPerIndex` | packages/core/src/runtime/model/model-chunk-aggregator.service.ts:21-24 | each call is its own fragments merged, whatever came between them |
| `ChunkAggregators.MergedIsWholeAndLatest` | packages/core/src/runtime/model/partial-tool-call.value-object.ts:11-18 | merged arguments are all fragments in order; id, name and signature are the last ones said |
| `ChunkAggregators.AcceptedTextIsWhole` | packages/core/src/runtime/model/model-chunk-aggregator.service.ts:38-40 | the aggregated text is all text deltas joined |
| `ChunkAggregators.InterleavingDoesNotMatter` | packages/core/src/runtime/model/model-chunk-aggregator.service.ts:16-50 | streams with the same text and the same fragments per index aggregate alike, however interleaved |
| `ChunkAggregators.LatestUsageStands` | packages/core/src/runtime/model/model-chunk-aggregator.service.ts:18-19 | of usage and end, what was said last stands |
| `ChunkAggregators.AscendingIsUnique` | packages/core/src/runtime/model/model-chunk-aggregator.service.ts:44 | only one order of the indexes is ascending, so the list of calls is determined |
| `GeminiStreams.ToChunks` | packages/google/src/mapping/gemini-stream.mapper.ts:22-55 | the chunks of a raw chunk, its calls numbered from the given index |
| `GeminiStreams.Stream` | packages/google/src/transport/genai-transport.adapter.ts:27-40 | the nested loops number calls across raw chunks as specified |
| `GeminiStreams.StreamedIsNumbered` | packages/google/src/transport/genai-transport.adapter.ts:29-36 | the fragments of a stream are exactly its function calls, numbered consecutively from zero in arrival order |
| `GeminiStreams.CallsComeBackInOrder` | packages/google/src/transport/genai-transport.adapter.ts:29-36 | aggregated, a stream gives back each of its calls whole, at its own place, and no others |
| `GeminiStreams.StreamedTextIsWhole` | packages/google/src/mapping/gemini-stream.mapper.ts:27-28 | and all its text, in order |
| `GeminiStreams.StreamedUsageIsTheLast` | packages/google/src/mapping/gemini-stream.mapper.ts:39-53 | and the usage and the end its raw chunks reported last |
| `GeminiRequests.BuildContents` | packages/google/src/mapping/gemini-request.mapper.ts:51-83 | the loop that pushes contents and folds calls and results into them computes the specified fold |
| `GeminiRequests.BuiltIsFaithful` | packages/google/src/mapping/gemini-request.mapper.ts:51-93 | each content is exactly the parts of the messages placed in it, in order and under their role; calls and results keep their orders; a result lies in a later content than every earlier call; only the call that opens a content may be signed |
| `GeminiRequests.EachMessageIsTold` | packages/google/src/mapping/gemini-request.mapper.ts:95-125 | every message is told whole, field by field, in one run of parts of the content it was placed in, under its own role |
| `GeminiRequests.JoinsExactly` | packages/google/src/mapping/gemini-request.mapper.ts:64-83 | which content a message joins: an unsigned call the latest signed one, a result the results it follows, anything else none |
| `GeminiRequests.CurrentTurnAt` | packages/google/src/mapping/gemini-request.mapper.ts:30-36 | the last content by which the user opened a turn, or -1 |
| `GeminiRequests.SignContents` | packages/google/src/mapping/gemini-request.mapper.ts:24-28 | only for models that sign calls, and only past the opener, contents are signed |
| `GeminiRequests.CallsOfTheTurnAreSigned` | packages/google/src/mapping/gemini-request.mapper.ts:24-49 | every call said since the last message that opens a turn stands in a content that opens with a signed call, wherever that content is; nothing but one missing signature per content changed |
| `GeminiRequests.BuiltOpensTurns` | packages/google/src/mapping/gemini-request.mapper.ts:30-49 | the contents that open a turn are exactly those of the messages that do, and a call placed before an earlier message's content joined a signed answer |
| `ArtifactPages.ReadLineOffset` | packages/core/src/runtime/artifact/artifact-page.value-object.ts:58-67 | the search for line breaks finds where the split line starts, or the end |
| `ArtifactPages.SplitExactly` | packages/core/src/runtime/artifact/artifact-page.value-object.ts:28 | the lines of a text are the only ones without breaks that join to it |
| `ArtifactPages.FromContent` | packages/core/src/runtime/artifact/artifact-page.value-object.ts:16-21 | a character page is the slice of the text at its offset, and as long as its limit whenever more is left |
| `ArtifactPages.FromLines` | packages/core/src/runtime/artifact/artifact-page.value-object.ts:27-47 | whole lines from the line asked for: the first one whatever it costs, then as many as fit and not one fewer |
| `ArtifactPages.LinePageExactly` | packages/core/src/runtime/artifact/artifact-page.value-object.ts:27-47 | that determines the page |
| `ArtifactPages.LinePageIsASlice` | packages/core/src/runtime/artifact/artifact-page.value-object.ts:27-47 | the text of a line page is the slice of the artifact at the offset it reports |
| `ArtifactPages.AnchoredOnItsLine` | packages/core/src/runtime/artifact/artifact-page.value-object.ts:49-51 | a page anchored on a line begins with it or is a beginning of it |
| `ArtifactPages.CharacterPagesReassemble` | packages/core/src/runtime/artifact/artifact-page.value-object.ts:69-87 | following offsets with limits of at least one ends, and the pages concatenate to the rest of the text |
| `ArtifactPages.OffsetMovesOnExactly` | packages/core/src/runtime/artifact/artifact-page.value-object.ts:84 | the next offset moves on exactly when the limit is at least one |
| `ArtifactPages.LinePagesAreTheText` | packages/core/src/runtime/artifact/artifact-page.value-object.ts:69-88 | following lines with any limits, at least one line at a time, ends, and the pages joined are the whole text |
| `ArtifactPages.LineMovesOnExactly` | packages/core/src/runtime/artifact/artifact-page.value-object.ts:88 | the next line moves on exactly when at least one line was asked for |
| `ArtifactBudgets.CutItems` | packages/core/src/runtime/artifact/artifact-budget.value-object.ts:38-46 | the items kept are the longest beginning within the spend |
| `ArtifactBudgets.Fit` | packages/core/src/runtime/artifact/artifact-budget.value-object.ts:27-33 | the field is cut to its room, and the answer says so exactly when the encoded length changed |
| `ArtifactBudgets.FitsExactly` | packages/core/src/runtime/artifact/artifact-budget.value-object.ts:27-52 | the frame is kept, and the encoded answer is within the budget exactly unless the frame alone takes it or a text needs more room encoded; lists and values always fit given room |
| `ArtifactBudgets.FullTextIsOneTooMany` | packages/core/src/runtime/artifact/artifact-budget.value-object.ts:29-32 | an escape-free text that exactly fills its room costs one character too many |
| `ArtifactBudgets.EscapingLosesNothing` | packages/core/src/runtime/artifact/artifact-budget.value-object.ts:23-25 | different texts are encoded differently |
| `ReadArtifacts.Fit` | packages/core/src/runtime/artifact/read-artifact.tool.ts:154-169 | the loop strictly shortens the page each round and ends fitting or unshrinkable |
| `ReadArtifacts.ShrinksByTheExcess` | packages/core/src/runtime/artifact/read-artifact.tool.ts:161-167 | each character page is a beginning of the one before, shorter by exactly what that one cost too much, or empty |
| `ReadArtifacts.ReadLines` | packages/core/src/runtime/artifact/read-artifact.tool.ts:146-152 | lines that fit when those the limit holds fit or the first of them alone does, and otherwise characters from where the line starts |
| `ReadArtifacts.LinesFitExactly` | packages/core/src/runtime/artifact/read-artifact.tool.ts:146-167 | the loop over lines ends with lines that fit exactly then |
| `ReadArtifacts.MeasuresTheAnswer` | packages/core/src/runtime/artifact/read-artifact.tool.ts:154-173 | a page is measured at the length of the JSON text of the answer that carries it |
| `ReadArtifacts.SettledFitsOrIsEmpty` | packages/core/src/runtime/artifact/read-artifact.tool.ts:161-168 | a character page ends fitting or empty |
| `ReadArtifacts.OneShrinkIsEnough` | packages/core/src/runtime/artifact/read-artifact.tool.ts:161-167 | with more left after it, a page over the budget fits once shrunk, unless nothing is left of it |
| `ReadArtifacts.AtMostTwoShrinks` | packages/core/src/runtime/artifact/read-artifact.tool.ts:154-169 | no character page is built more than three times |
| `ReadArtifacts.EmptiedExactly` | packages/core/src/runtime/artifact/read-artifact.tool.ts:154-169 | the loop answers an empty page exactly when the first page is empty, or the escapes of the first page, or of the second after a first over the budget, take all the room beside the frame |
| `ReadArtifacts.EmptiedExactlyByTheFirst` | packages/core/src/runtime/artifact/read-artifact.tool.ts:154-169 | with more of the text left and a limit of at least one, only the first page matters |
| `ReadArtifacts.EscapesEmptyThePage` | packages/core/src/runtime/artifact/read-artifact.tool.ts:162-163 | text that is all escapes is emptied although a page of one character fits |
| `StrictSchemas.VerifyClosed` | packages/openai/src/model/strict-schema-validator.adapter.ts:22-31 | a node passes exactly when it is closed; otherwise the first thing wrong with it is named |
| `StrictSchemas.ReadChildren` | packages/openai/src/model/strict-schema-validator.adapter.ts:33-54 | all nodes a node holds, in the order the groups are read, with their paths |
| `StrictSchemas.ClosedExactly` | packages/openai/src/model/strict-schema-validator.adapter.ts:18-31 | entry by entry: a node describes an object when it has a record of properties or that type, and is closed when it refuses additional properties and its list of required names holds every one of its own |
| `StrictSchemas.ChildrenExactly` | packages/openai/src/model/strict-schema-validator.adapter.ts:33-67 | a node's children are exactly the records under properties, $defs and definitions, in anyOf, oneOf and allOf, and as items, each under the path written of its group and its name or place |
| `StrictSchemas.ChildrenWeighLess` | packages/openai/src/model/strict-schema-validator.adapter.ts:9-15 | what a node pushes weighs less than the node, which is why the worklist ends |
| `StrictSchemas.StrictExactlyWhenAllBelowAreFine` | packages/openai/src/model/strict-schema-validator.adapter.ts:7-16 | the recursive meaning holds exactly when every node reached by some path that describes an object is closed |
| `StrictSchemas.Validate` | packages/openai/src/model/strict-schema-validator.adapter.ts:7-16 | the worklist terminates, accepts exactly the schemas whose every reachable object node is closed, and otherwise names a reachable node at fault and why |
| `RunCosts.ResolveRates` | packages/core/src/domain/cost/model-price.value-object.ts:25-36 | the loop over sorted bands computes the specified rates |
| `RunCosts.RatesComeFromTheHighestBand` | packages/core/src/domain/cost/model-price.value-object.ts:22-36 | each rate is that of the highest band that applies and declares it, or the base rate |
| `RunCosts.DeclarationOrderDoesNotMatter` | packages/core/src/domain/cost/model-price.value-object.ts:22 | bands of different thresholds resolve alike however declared |
| `RunCosts.LaterOfTwoStands` | packages/core/src/domain/cost/model-price.value-object.ts:29-34 | of two bands with one threshold the later declared stands |
| `RunCosts.CachingOnlyMovesTheRate` | packages/core/src/runtime/cost/cost-calculator.service.ts:8-19 | fresh input, output and cached input, which is the smaller of what was cached and what came in, are each charged at their own rate, cached at the input rate where none is declared; every token once |
| `RunCosts.CallIsCharged` | packages/core/src/runtime/cost/cost-calculator.service.ts:8-19 | a call is charged at the rates its own input tokens resolve to, each that of the highest band below them that declares it |
| `RunCosts.Report` | packages/core/src/runtime/cost/run-cost-reporter.service.ts:19-46 | groups, unpriced models and notices of a run, with or without a source |
| `RunCosts.GroupingConserves` | packages/core/src/runtime/cost/run-cost-reporter.service.ts:34-43 | the groups have distinct models, add up to the single calls, and count each priced call once |
| `RunCosts.EachGroupIsItsModel` | packages/core/src/runtime/cost/run-cost-reporter.service.ts:34-43 | each group is what its model was charged for, call by call |
| `RunCosts.GroupsAddUp` | packages/core/src/runtime/cost/run-cost-reporter.service.ts:34-43 | every number of a group, its calls, tokens and charges, is that number of its priced calls added up |
| `RunCosts.NoticesTell` | packages/core/src/runtime/cost/run-cost-reporter.service.ts:48-57 | each notice names the model, the tokens and the reason of its call |
| `RunCosts.CallOrderDoesNotMatter` | packages/core/src/runtime/cost/run-cost-reporter.service.ts:34-43 | neither the total nor any group depends on the order of calls |
| `RunCosts.EveryCallIsPricedOrReported` | packages/core/src/runtime/cost/run-cost-reporter.service.ts:26-46 | every call is in one group or reported once; it is priced exactly when it used anything and the source knows its model; the cost is complete exactly when every call was priced |
| `AttachmentCaches.AttachmentCache.Remember` | packages/core/src/runtime/artifact/attachment-cache.service.ts:17-26 | the eviction loop terminates and the new state is the specified one |
| `AttachmentCaches.AttachmentCache.Forget` | packages/core/src/runtime/artifact/attachment-cache.service.ts:28-33 | forgetting walks all keys and leaves the specified state |
| `AttachmentCaches.RunsKeepArrivalOrder` | packages/core/src/runtime/artifact/attachment-cache.service.ts:17-40 | after every run of operations, resident parts stand in the order of the operations that last made their keys present |
| `AttachmentCaches.RemembersExactly` | packages/core/src/runtime/artifact/attachment-cache.service.ts:17-26 | after any run, a part that fits is found as it was remembered; of the others exactly those stay that room is made before, unchanged; whatever goes had arrived before everything that stays |
| `AttachmentCaches.EvictsOldestFirst` | packages/core/src/runtime/artifact/attachment-cache.service.ts:19-23 | what goes is a shortest beginning of what is resident that makes room |
| `AttachmentCaches.ForgettingIsExact` | packages/core/src/runtime/artifact/attachment-cache.service.ts:28-33 | exactly the entries under the session's prefix are gone |
| `AttachmentCaches.RunsStaySound` | packages/core/src/runtime/artifact/attachment-cache.service.ts:17-40 | over every run resident bytes are within the budget, keys distinct, and the count is what is resident plus the parts remembered over |
| `AttachmentCaches.RememberingAgainLeaks` | packages/core/src/runtime/artifact/attachment-cache.service.ts:17-26 | remembering a part twice under one key leaves one part resident and counts two |
| `AttachmentCaches.LeakCostsTheBudget` | packages/core/src/runtime/artifact/attachment-cache.service.ts:19-25 | once the leak leaves no room for a part, remembering it evicts everything else |
| `AttachmentCaches.SessionsStayApartExactly` | packages/core/src/runtime/artifact/attachment-cache.service.ts:28-44 | forgetting a session spares another whatever the cache holds, and their keys never meet, exactly when neither name with its slash begins the other |
| `AttachmentCaches.SlashFreeSessionsStayApart` | packages/core/src/runtime/artifact/attachment-cache.service.ts:28-44 | so without slashes in session names different sessions are apart |
| `AttachmentCaches.NestedSessionsAreForgottenToo` | packages/core/src/runtime/artifact/attachment-cache.service.ts:28-44 | otherwise a session nested under another's name is forgotten with it, and their keys collide |
| `ChunkStreams.RunsAreSound` | packages/core/src/runtime/stream/chunk-stream.service.ts:9-37 | over every interleaving of emit, close and one drainer, delivered and pending are what was emitted before the close, in order, and the drainer is never parked while a chunk waits or the stream is closed |
| `ChunkStreams.NeverStuck` | packages/core/src/runtime/stream/chunk-stream.service.ts:20-31 | the drainer can go on unless the stream is open and empty, or everything was delivered |
| `ChunkStreams.ClosedStreamsDrain` | packages/core/src/runtime/stream/chunk-stream.service.ts:20-31 | once closed, a consumer that keeps asking gets every accepted chunk and then the end |
| `ChunkStreams.ChunkStream.Emit` | packages/core/src/runtime/stream/chunk-stream.service.ts:9-13 | emitting is that step of the machine |
| `ChunkStreams.ChunkStream.Close` | packages/core/src/runtime/stream/chunk-stream.service.ts:15-18 | closing is that step of the machine |
| `ChunkStreams.ChunkStream.Drain` | packages/core/src/runtime/stream/chunk-stream.service.ts:20-31 | the generator runs until it yields, returns or parks, yielding at most one chunk |
| `Crc.EightStepsAreOneLookUp` | packages/testing/src/test-image.support.ts:71-76 | eight bit steps of any word are one table entry for its low byte and a shift |
| `Crc.BuildTable` | packages/testing/src/test-image.support.ts:67-77 | the nested loops fill the table with eight bit steps of every byte |
| `Crc.Crc32` | packages/testing/src/test-image.support.ts:79-83 | the table-driven loop computes the bit-serial CRC-32 of section 3.4 of RFC 2083, for every byte sequence |
| `Crc.OneByteChangeIsNoticed` | packages/testing/src/test-image.support.ts:79-83 | a change of any single byte changes the checksum |

## Left out

- Input and output, clocks and randomness: jitter, aborts, failures to save, prices, summaries and resolved attachments are arbitrary parameters; a model call is an arbitrary finite list of chunks and an ending.
- Floating point: budgets, shares and jitter are exact reals, so rounding inside a floating-point division is not modelled; revisions and counts are unbounded.
- JSON text and digests: fingerprints and checksums are the values themselves, as if the codec and SHA-256 were injective; parsing of tool arguments is an arbitrary function; artifact answers are concrete JSON text.
- UTF-16: texts are sequences of characters, so slicing between surrogates and their escapes is not modelled.
- Concurrency between processes and the promise chain per session: each storage call is one step, a transaction all or nothing; SQL text is not modelled, its tables are maps and sequences with their constraints.
- SqliteStorage: the events table is grouped by session, so identifiers are unique per session as its key says; checkpoints are not stored there.
- Checkpoint and compaction under strategies other than the shipped one, and failing checkpoint reads.
- The output schema, the prefix digest's inputs, the splitting of media at the end of a projection, and the notifier of unknown windows.
- Custom retry and failover policies; a sleep interrupted by an abort.
- `ArtifactPages.FromContent` and the other pages: fractional offsets and limits, which the tool truncates first; artifacts kept as bytes, which it refuses.
- Model identities are their printed form, so two providers and models that print alike are one, as they are in the grouping itself; errors of the price source count as no price.
- Inherited properties of schema objects; two drainers of one chunk stream.
- The redactor of events, the registry of codecs and upcasters, the turn loop, approvals beyond their effect on the state, transports, MCP, the playground and the test helpers: easy members, or foreign calls.
