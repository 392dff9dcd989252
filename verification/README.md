# Verification of the OpenMemory engine

This project models the write path, the partitioned store and the smaller
stateful cores of OpenMemory in Dafny and proves what their comments promise,
over every input, every interleaving and every crash point.  Each model keeps
the branches, the order of effects and the error cases of the code; where the
code is weaker than its own comments the exact condition under which the promise
holds is proved instead, in both directions.

`dafny verify dfyconfig.toml` checks everything.

## What is modelled

**Write-behind engine** (`Requests`, `Journal`, `ShardMachine`, `ShardSafety`,
`ShardTheorems`, `ShardMemory`, `LateErrors`, `TornTail`, `DrainGrouping`, `EngineShard`,
`Engine`).  A shard is a state
machine whose steps are the engine's critical sections: submission, the phases of
a drain (take, sync, commit, sequential retries, requeue, publish), the phases of
a maintenance pass (snapshot, WAL checkpoint, truncation), process crash, power
loss and replay.  A transaction commits, rolls back, or commits and reports an error
all the same.  The journal is a sequence of tokens of which a crash keeps any
prefix, possibly with a torn line; the home database is its commit log, of which
a power loss keeps any prefix not shorter than the last complete WAL checkpoint.
`ShardSafety` and `ShardTheorems` are about everything ever accepted, in runs that keep to
the conditions of `LateErrors` and `TornTail`; `ShardMemory` is about what one process has
admitted, and holds in every run whatsoever.
`LiveShard` is the same shard as a class whose methods are the engine's loops,
each tied to the machine.  `Engine` composes any number of shards with the
admission gate, any number of overlapping pausers, and the ends and starts of the
process.

**Domain-count migration** (`MigrationRoute`, `MigrationPlanner`,
`MigrationMeaning`, `MigrationLayout`, `MigrationRows`, `MigrationWitness`,
`MigrationSwap`).  Exports and per-domain plans hold the same
kinds of rows, so what the stores of one migration export, entities by id, is the input
of the next.
`MigrationPlanner` has the router's loops; `MigrationMeaning` shows that the graph
they stand for is preserved, that migrations compose, and that staging passes its
verification.  `MigrationLayout` says where each row is, by the hash of the name or text
that decides it, and `MigrationRows` follows each edge to the rows it joins.  `MigrationSwap` is the sentinel-guarded swap with a step budget, so
that every end state is a crash point, together with opening and the pinned count.

**Partition facade** (`DoubleWrite`, `DoubleWritePlan`, `DoubleWriteRefinement`,
`PartitionStore`, `ReplayRefinement`, `FanOut`, `RecallCache`).  Batches are split into stub rows, home requests and
mirrors; the member stores refine one single store, also through crashes between
the mirrors and the home transaction and through replays that group, split or extend
what crashed.  Fan-out merges and entity pages are compared
with the global answer; the recall cache is an interleaving of writers and readers.

**Smaller cores** (`SpaceRegistry`, `AuthGate`, `EmbedCache`, `Migrator`).

What the code cannot see is a parameter: whether a transaction commits, which
mirrors commit, how much of a buffered journal reaches the file, in what order a
hash map yields its keys, what an LRU pushes out, whether a store opens or flushes.
All results hold for every choice of the folding and hash functions, independent of each
other except where stated.

## Where the code is weaker than its comments

Each of these comes with the exact condition, or with a family of failing inputs
beside the property that does hold, and with a concrete failing input or run.

* The engine takes every error of a batch for a rollback, but a batch marks its index
  rows in a transaction of their own after its commit, and an error of that one is
  returned as the batch's.  What was committed is then written again, or reported as
  failed.  Everything is applied exactly once if and only if no process commits after
  such an error of its own (`LateErrors.ExactlyOnceIff`, with
  `LateErrors.LateBatchRetried`, `LateErrors.FailedTicketApplied` and
  `LateErrors.FirstRequest` for the failing side).  Such a write also returns before it
  advances the write version, so to the recall cache it is a write that never returned.
* A submission appended after a torn journal line is lost by a power loss although
  it was published: `TornTail.SubmissionSafeIff` has the condition on a submission,
  `TornTail.FirstSubmissionIff` the one on a start, `TornTail.TornStartUnsafe` a run.
* Replay commits and publishes without syncing the journal, so the watermark a
  restart publishes survives a power loss exactly if the journal was synced that
  far or a WAL checkpoint covers it (`ShardTheorems.WatermarkPowerSafe`;
  `ShardTheorems.UnsyncedReplay`).
* Drain grouping folds names while the store matches them exactly, so a drain that
  spells one entity in two ways touches fewer rows than its requests name
  (`DrainGrouping.GroupDrained`; `DrainGrouping.TwoSpellings`).
* The migration router's comment says that a stub without a canonical row is
  promoted; the code refuses the migration (`MigrationPlanner.ResolveEnds`,
  `MigrationWitness.StubOnlyRefused`).  The canonical graph is preserved up to folded
  names.  The rows its edges join are preserved exactly when each edge that crosses
  domains at the new count ends at the row with the greatest id of those that fold
  alike (`MigrationRows.EdgesKeepRows`); otherwise an edge changes hands
  (`MigrationWitness.EdgeChangesRow`).
* The router's hash lowers a name one character at a time, its comment says that this
  is the same as lowering the string, and names are compared by the lowered string
  (openmemory-engine/src/partition.rs:1130-1144, migrate.rs:328, 365, 403).  The two
  differ at a sigma that ends a word.  So the two functions are independent parameters
  here, and the one result that needs rows which fold alike to hash alike, the
  migration planner's, says so (`MigrationPlanner.Route`).
* The stub source is reserved by a comment only (openmemory-graph/src/types.rs:26-35):
  callers choose their source (openmemory-mcp/src/tools/memory.rs:100), and validation
  does not look at it (openmemory-graph/src/remember.rs:237-267).  A row first named
  under it is stored, and then taken for a stub: the merged graph, listings and totals
  drop it, and a migration drops it or, if something was observed about it, is refused
  (`MigrationWitness.ReservedLost`).
  They show everything exactly when no batch creates such a row
  (`PartitionStore.BatchRefinesIff`, `PartitionStore.HistoryRefines`,
  `PartitionStore.MergedGraph`, `PartitionStore.StatusCounts`,
  `ReplayRefinement.SettledIff`; `PartitionStore.ReservedHides`).
* A single-store profile restored from the backup of an interrupted swap can keep
  the new domain folder at its root, and then every further migration stops after
  the store files have been parked (`MigrationSwap.RestoredFolderCollides`).  The
  message of a refused open suggests re-running the migration, which the sentinel
  also refuses (`MigrationSwap.SentinelFreezes`).  An open that fails at a store has
  pinned the domain count all the same (`MigrationSwap.FailedOpenPins`).
* A crossing edge whose relation and request both carry an empty source marks its
  canonical target as a stub, and a second spelling of a remote target in one batch
  leaves an unmarked row (`PartitionStore.BatchRefinesIff`;
  `PartitionStore.UnsourcedFails`, `PartitionStore.TwoSpellingsFail`).
* A crash or a refusal after the mirrors leaves edges and unmarked rows that no home
  store knows.  They are paid for exactly when other attempts commit those edges
  (`ReplayRefinement.SettledIff`), as replays do (`ReplayRefinement.ReplaySettles`),
  up to the source a shared target is created under
  (`ReplayRefinement.RegroupingMovesSource`); a final refusal leaves them for good
  (`ReplayRefinement.RefusedLeavesRow`).
* Entity pages drop stubs after the fetch, so a page is right only under the exact
  condition of `FanOut.PageExactIff` (`FanOut.StubHidesRow`).
* Two overlapping revocations let a lease live through a catalog transaction: no lease
  does unless the revocation was undercut (`AuthGate.DrainedUnlessUndercut`), and one
  can whenever it was and the gate is open (`AuthGate.UndercutAdmits`,
  `AuthGate.LiveDuringTransaction`).  The first grant of a lease may carry a role that
  was changed between its two reads, exactly when the changes in between do not restore
  it (`AuthGate.FirstGrantIff`, `AuthGate.FirstGrantMayBeStale`); the recheck before
  publication is safe in both cases.
* The embedding fingerprint joins its parts with a character the parts may contain: it
  separates a model from all others exactly if that model is free of colons
  (`EmbedCache.FingerprintSeparatesIff`), which the default model is not
  (`EmbedCache.DefaultPrefixesCollide`).
* A database migrated without user version keeps `user_version` at 0 when a later
  call with it finds nothing to do (`Migrator.MarkersAgreeIff`; `Migrator.MarkersPart`).

## Model

| member | source | states |
|---|---|---|
| `Journal.AppendReadable` | crates/openmemory-engine/src/journal.rs:51-59 | An appended record is read back after everything already readable if and only if the file ended at a line boundary; after the append it always does. |
| `Journal.UnfinishedTail` | crates/openmemory-engine/src/journal.rs:82-135 | A torn or newline-less last line costs none of the records before it. |
| `Journal.CutHolds` | crates/openmemory-engine/src/journal.rs:82-135 | Whatever prefix of the file a crash keeps, torn or not, replay reads a prefix of the journalled entries, and exactly the whole records that survived. |
| `Journal.HighestSeq` | crates/openmemory-engine/src/journal.rs:95-117 | The sequence counter resumes at the largest number seen, never below the checkpoint. |
| `Journal.Scan` | crates/openmemory-engine/src/journal.rs:82-135 | The replay loop returns exactly the readable entries above the checkpoint, in file order, with the highest number seen and the number its commit will record. |
| `Journal.AboveNumbered` | crates/openmemory-engine/src/journal.rs:82-135 | On a consecutively numbered journal the entries above the checkpoint are one suffix, and the counter continues right after it. |
| `ShardSafety.StepInv` | crates/openmemory-engine/src/engine.rs:360-413 | Every critical section, crash and replay keeps the shard invariant, also with transactions that report an error after they have committed, as long as the process commits nothing after one: commits take the next accepted stretch, the journal holds what the database may still lose, nothing published is unprotected. |
| `ShardSafety.NextCommit` | crates/openmemory-engine/src/engine.rs:754-775 | A grouped or single commit extends the log by the next accepted entries or one refused one, and the checkpoint by exactly as many. |
| `ShardSafety.HaltedStorage` | crates/openmemory-engine/src/journal.rs:82-135 | After any crash the surviving file and log still determine one numbering: no surviving commit names an entry the journal contradicts. |
| `ShardSafety.RestartApplies` | crates/openmemory-engine/src/journal.rs:120-135 | Replay applies exactly the accepted entries above the checkpoint, in order and once, or nothing; the shard opens exactly if its transaction reports success or there was nothing to replay. |
| `ShardSafety.ReclaimInv` | crates/openmemory-engine/src/engine.rs:672-694 | Truncating when the queue is empty and no number was issued past the snapshot keeps the invariant with drains, submissions and crashes in between. |
| `ShardSafety.JournalInv` | crates/openmemory-engine/src/engine.rs:706-724 | Flushing and syncing under a drain only ever extends what a power loss must leave. |
| `ShardTheorems.RunInv` | crates/openmemory-engine/src/engine.rs:701-849 | The invariant holds after every run of submissions, drains, retries, maintenance, crashes and restarts in which no process commits after a late error of its own. |
| `ShardTheorems.ExactlyOnce` | crates/openmemory-engine/src/engine.rs:701-849 | In every state of every such run the database has applied each sequence number at most once, and exactly the non-refused ones up to its checkpoint. |
| `LateErrors.ExactlyOnceIff` | crates/openmemory-engine/src/engine.rs:754-834 | The exact condition: every state of a run holds everything exactly once if and only if no process commits a transaction after one of its own has reported an error although it was committed. |
| `LateErrors.UnsoundBreaks` | crates/openmemory-graph/src/batch.rs:216-230 | The first commit after a late error applies an entry that is in the database already, or records a refusal for it. |
| `LateErrors.NoLateErrors` | crates/openmemory-graph/src/batch.rs:216-230 | A run in which no transaction reports an error after its commit meets the condition. |
| `LateErrors.LateBatchRetried` | crates/openmemory-engine/src/engine.rs:776-834 | After a grouped batch that committed and reported an error, the fallback's first retry leaves the database exact if and only if it finds the store down. |
| `LateErrors.FailedTicketApplied` | crates/openmemory-engine/src/engine.rs:791-832 | A retry that commits and reports an error, followed by its checkpoint, ends in a ticket that says failed for a request that is in the database. |
| `LateErrors.FirstRequest` | crates/openmemory-engine/src/engine.rs:701-834 | Both start states are reached by the first request a fresh shard takes. |
| `ShardTheorems.StepKeepsPromises` | crates/openmemory-engine/src/engine.rs:843-848 | No single step, power loss included, takes back what a drain has published, renames it or refuses it afterwards. |
| `ShardTheorems.RunKeepsPromises` | crates/openmemory-engine/src/engine.rs:654-695 | Over whole runs a published number names the same entry ever after and is never refused later. |
| `ShardTheorems.PublishedSurvives` | crates/openmemory-engine/src/engine.rs:654-695 | A published, non-refused write is in the database, once, in every later state in which the shard is up, after any number of process crashes, power losses, truncations and replays. |
| `ShardTheorems.RefusalIsFinal` | crates/openmemory-engine/src/engine.rs:809-832 | Without a power loss, in every such run, a recorded failure means that the request is never applied. |
| `ShardTheorems.TicketOutcome` | crates/openmemory-engine/src/engine.rs:433-453 | In every state of such a run a wait returns Ok exactly if the request is committed and published, fails exactly if it was refused, and an Ok is safe against power loss. |
| `ShardMemory.WatermarkMonotone` | crates/openmemory-engine/src/engine.rs:843-848 | In every run, torn journals and commits after late errors included: while the process lives the watermark never moves back and never passes the checkpoint or the counter. |
| `ShardMemory.RunMemory` | crates/openmemory-engine/src/engine.rs:360-849 | In every run, with nothing assumed about late errors or torn lines: what a process has admitted is numbered consecutively up to its counter, what it still holds is the end of that in order, all the rest is in its database or recorded there as refused, and the watermark is at the last number settled or about to move there. |
| `ShardMemory.AdmittedIsSettledOrHeld` | crates/openmemory-engine/src/engine.rs:775-840 | Whatever a living process has admitted is settled or still in flight or queued, in order; what is at or below its watermark is settled. |
| `ShardMemory.TicketIsHonest` | crates/openmemory-engine/src/engine.rs:433-453 | In every run a wait that returns Ok is for a request that is in the database, one that fails is for a request whose refusal is recorded there, and it waits exactly until the watermark reaches its number. |
| `ShardMemory.CaughtUpIsDrained` | crates/openmemory-engine/src/engine.rs:478-491 | In every run durable equals next_seq if and only if nothing is queued or in flight, everything the process has admitted is settled and the checkpoint has caught up. |
| `ShardMemory.StepAllOf` | crates/openmemory-engine/src/engine.rs:350-412 | No operation, crash or replay brings a request into a shard, its journal or its database that was not submitted to that shard. |
| `ShardTheorems.QueueCoversGap` | crates/openmemory-engine/src/engine.rs:775-840 | In-flight and queued requests are, in order, the last accepted ones, also after a requeue: exactly those the database has not resolved if and only if the process has seen no late error; between drains they are all above the watermark, and with durable equal to next_seq there are none. |
| `ShardTheorems.WatermarkPowerSafe` | crates/openmemory-engine/src/journal.rs:73-135 | The watermark survives every power loss if and only if the journal is synced that far or a complete WAL checkpoint covers it. |
| `ShardTheorems.UnsyncedReplay` | crates/openmemory-engine/src/journal.rs:73-135 | The unsafe case is reached: a submission flushed but not synced, a process crash, a restart that replays and publishes it, and a power loss that leaves nothing of it. |
| `TornTail.SubmissionSafeIff` | crates/openmemory-engine/src/journal.rs:51-59 | From every serving state without a late error: every published number stays backed by an entry whatever follows the next submission, if and only if the journal ends at a line boundary. |
| `TornTail.FirstSubmissionIff` | crates/openmemory-engine/src/engine.rs:262-327 | After a start this is so exactly if the crash before it left a line boundary or the startup checkpoint was complete. |
| `TornTail.UntidySubmitLoses` | crates/openmemory-engine/src/journal.rs:51-59 | From every serving state, whatever its drain is doing and whatever is queued: if the journal does not end at a line boundary, a submission is committed, reported durable, and taken back by a power loss that removes nothing from the journal. |
| `TornTail.Settle` | crates/openmemory-engine/src/engine.rs:701-849 | A healthy shard comes to rest from every state, with everything it has accepted published, the journal as it was and no late error. |
| `TornTail.BootJournal` | crates/openmemory-engine/src/engine.rs:262-327 | The startup pass empties the journal exactly if its checkpoint is complete. |
| `TornTail.TornStartUnsafe` | crates/openmemory-engine/src/engine.rs:262-327 | The unsafe start is reached from a fresh shard: a crash tears the first line and the next startup checkpoint is incomplete. |
| `DrainGrouping.GroupDrained` | crates/openmemory-engine/src/engine.rs:735-752 | For every (folded name, type, source) the batch holds one group with exactly the concatenation, in order, of that key's observations and relations; the entity rows it touches are those the requests name if and only if no key is spelled in two ways. |
| `DrainGrouping.GroupHolds` | crates/openmemory-engine/src/engine.rs:735-752 | Piece by piece: what a group observes and relates is cut, in the order of the drain, into what each request with its folded name, type and source says, and nothing else. |
| `DrainGrouping.SpellingsShareGroup` | crates/openmemory-engine/src/engine.rs:735-752 | Two requests that spell one entity in two ways end in one group, and the row of one of them is not written. |
| `DrainGrouping.TwoSpellings` | crates/openmemory-engine/src/engine.rs:735-752 | Such a drain exists, and no grouping of it touches the rows its requests name. |
| `DrainGrouping.MergeContent` | crates/openmemory-engine/src/engine.rs:741-751 | Merging one request into its group changes what that key says by exactly that request, and no other key. |
| `EngineShard.HomeStore.RememberBatch` | crates/openmemory-graph/src/batch.rs:124-236 | A batch applies all its groups, each under its exact name, type and source, and its checkpoint, or nothing; the caller gets an error for a rollback, and for a batch that committed but could not be marked in the index tables. |
| `EngineShard.RegroupsConcat` | crates/openmemory-engine/src/engine.rs:735-775 | Batches that regroup what they commit add up: under every folded key the store says what the committed requests said, in order, and under no header that was not submitted. |
| `EngineShard.GroupingInvisible` | crates/openmemory-engine/src/engine.rs:735-775 | As long as the committed requests spell every entity in one way, each exact row holds what a store would that applied them one by one. |
| `EngineShard.RowHolds` | crates/openmemory-graph/src/batch.rs:124-236 | Piece by piece: what a row says is cut, in order, into what each committed group with exactly its header says, and nothing else. |
| `EngineShard.LiveShard.constructor` | crates/openmemory-engine/src/engine.rs:591-602 | A shard that has never run is the machine's initial state; a capacity of zero counts as one. |
| `EngineShard.LiveShard.Start` | crates/openmemory-engine/src/journal.rs:82-135 | Opening applies every journalled request above the checkpoint in one transaction and continues the numbering, after any calls at all; if that reports an error the shard stays closed with its memory as it was, and the next start continues from whatever was committed.  Where the shard invariant held, those requests are the accepted ones the database had not resolved. |
| `EngineShard.LiveShard.FinishStart` | crates/openmemory-engine/src/engine.rs:262-327 | A shard that has opened serves with exactly what its start left, and keeps the shard invariant if it held. |
| `EngineShard.LiveShard.TrySubmit` | crates/openmemory-engine/src/engine.rs:394-412 | An admitted request gets the next number, goes to the end of the queue and of the journal, and nothing else changes. |
| `EngineShard.LiveShard.WaitResult` | crates/openmemory-engine/src/engine.rs:433-453 | After any calls at all it waits exactly until the watermark reaches the number, Ok means that the request is in the database and failed that a refusal of it is recorded there; where the shard invariant holds both are equivalences. |
| `EngineShard.LiveShard.Drain` | crates/openmemory-engine/src/engine.rs:701-849 | After any calls at all: either everything queued is committed and published, or every request before the first that stops the fallback is resolved on its own in order, the watermark moves by as many and the rest is queued again ahead of newer submissions; what is then applied, refused and published is stated for late errors too.  The whole drain is a run of the machine, and keeps the shard invariant whenever nothing is committed after a late error. |
| `EngineShard.LiveShard.CommitGrouped` | crates/openmemory-engine/src/engine.rs:733-775 | The grouped transaction commits the drained requests with the largest sequence number as checkpoint, or nothing, and reports success only if it did so without a late error; with one spelling per entity the rows are those of the single requests. |
| `EngineShard.LiveShard.RetryRequest` | crates/openmemory-engine/src/engine.rs:780-833 | Each of the five outcomes: stored with its checkpoint; refused with the checkpoint alone; nothing; stored and then refused; stored and left for a later drain. |
| `EngineShard.LiveShard.RetrySequentially` | crates/openmemory-engine/src/engine.rs:776-840 | The fallback resolves a prefix in order, advances the watermark by as many numbers, records exactly its refusals, stores exactly what its attempts stored and requeues exactly the suffix. |
| `EngineShard.LiveShard.RetryLoop` | crates/openmemory-engine/src/engine.rs:783-834 | The loop stops at the first request whose checkpoint cannot be written, leaving the rest unresolved and in front of the queue. |
| `EngineShard.LiveShard.Maintain` | crates/openmemory-engine/src/engine.rs:654-695 | After any calls at all the journal is truncated if and only if the WAL checkpoint was complete, nothing is queued and nothing was issued past the snapshot; then the durable part of the database covers everything the process has admitted and, where the shard invariant holds, everything ever accepted. |
| `Engine.EventInv` | crates/openmemory-engine/src/engine.rs:360-413 | Every event of every interleaving of submitters, flushers, maintenance, pausers, ends of the process and restarts, late errors and torn journals included, keeps the engine invariant. |
| `Engine.HaltInv` | crates/openmemory-engine/src/journal.rs:82-135 | The end of the process, by a crash or a power loss that cuts every shard differently, leaves every shard stopped and every request routed to its shard. |
| `Engine.PauseIsConsistentCut` | crates/openmemory-engine/src/engine.rs:478-491 | While any guard is held no shard has anything queued or in flight, all its process has admitted is settled in its database, durable equals next_seq equals the committed checkpoint, and no submission can pass the gate; in every run. |
| `Engine.CutIsEverything` | crates/openmemory-engine/src/engine.rs:478-491 | In a shard that keeps the shard invariant the cut holds every request ever accepted, exactly once or refused. |
| `Engine.PauseFreezesStores` | crates/openmemory-engine/src/engine.rs:537-549 | No event of the living process changes a database or a counter while a guard is held, and only its own drop releases it; in every run. |
| `Engine.RunKeepsCut` | crates/openmemory-engine/src/engine.rs:457-491 | Over every run with overlapping guards, however many and in whatever order they drop, the invariant holds and nothing moves until the last is gone. |
| `Engine.PauseCompletes` | crates/openmemory-engine/src/engine.rs:457-491 | A pauser gets its guard as soon as every watermark has caught up, whoever else is pausing, and nothing but the pause moves. |
| `Engine.StartInv` | crates/openmemory-engine/src/engine.rs:240-250 | An engine that agrees to start, over shards that have never run, satisfies the invariant. |
| `Engine.StartsIff` | crates/openmemory-engine/src/engine.rs:240-250 | An engine agrees to start if and only if, for every hash, the shard of a name belongs to the domain of the name. |
| `Engine.HashesAgree` | crates/openmemory-engine/src/engine.rs:180-186 | Hashing to a shard and then to its domain equals hashing to the domain. |
| `Engine.AgreeIff` | crates/openmemory-engine/src/engine.rs:243-250 | The divisibility the engine demands at start is exactly what makes both hash levels agree for every name. |
| `Engine.CommitsGoHome` | crates/openmemory-engine/src/engine.rs:350-352 | From the first start on, over every run with any number of crashes, power losses, late errors and replays, every request a shard has committed hashes to the domain it was committed into. |
| `MigrationPlanner.Classify` | crates/openmemory-engine/src/migrate.rs:322-331 | Stubs and canonical rows are told apart by id, every folded name and type with a canonical row resolves to the last such row of the export, and the stub count is exact. |
| `MigrationPlanner.PlaceEntities` | crates/openmemory-engine/src/migrate.rs:333-341 | In whatever order the map yields them, each canonical entity lands in the domain of its name, once. |
| `MigrationPlanner.PlaceObservations` | crates/openmemory-engine/src/migrate.rs:342-357 | Each domain gets, in order, exactly the observations whose owner's name hashes to it, or the first observation without a canonical owner is blamed. |
| `MigrationPlanner.SynthesizeStub` | crates/openmemory-engine/src/migrate.rs:362-388 | A stub of the entity exists in the domain afterwards, at most one for each folded name and type, and every other row is still found under its id. |
| `MigrationPlanner.ResolveEnds` | crates/openmemory-engine/src/migrate.rs:390-424 | An edge is a mirror exactly if it starts at a stub, is refused exactly if an end cannot be resolved to a canonical row, and otherwise resolves to the rows its ids name or, through a stub, to the last canonical row of that name. |
| `MigrationRoute.LastRead` | crates/openmemory-engine/src/migrate.rs:322-331 | The row a name resolves to is canonical and no later canonical row of the export has that folded name and type. |
| `MigrationPlanner.RouteRelation` | crates/openmemory-engine/src/migrate.rs:426-450 | The canonical edge goes to its origin's domain, to the target's own row if that lives there; if it crosses, to a stub of the target, and one mirror goes to the target's domain; both ends are rows of the same plan and no other domain changes. |
| `MigrationPlanner.PlaceRelations` | crates/openmemory-engine/src/migrate.rs:390-450 | Every plan holds exactly the canonical edges that start there, by row within the domain and by name across domains, and one mirror for each that crosses into it, in export order, or the first unresolvable edge is blamed. |
| `MigrationPlanner.PlaceEntries` | crates/openmemory-engine/src/migrate.rs:455-475 | Index rows named after a live observation go where the name of its owner hashes to, all others where their own name does; rows of unknown or tombstoned observations are dropped and counted; nothing else is lost. |
| `MigrationPlanner.PlaceSources` | crates/openmemory-engine/src/migrate.rs:477-481 | Source records go to the domain their URI hashes to, all of them and in order. |
| `MigrationPlanner.CrossDistinct` | crates/openmemory-engine/src/migrate.rs:365-387 | No id is used in two domains: canonical ids stay unique and synthesized ones are fresh. |
| `MigrationPlanner.Route` | crates/openmemory-engine/src/migrate.rs:295-484 | Routing succeeds if and only if the export is consistent; then the plans are a migration of it, edge by edge and row by row, and the report balances; otherwise the error names the first row in the way and why. |
| `MigrationMeaning.GraphEnds` | crates/openmemory-engine/src/migrate.rs:390-424 | The canonical edges of a consistent export run between entities that have canonical rows. |
| `MigrationMeaning.SameCanonicals` | crates/openmemory-engine/src/migrate.rs:333-341 | The plans together hold exactly the canonical entities of the export. |
| `MigrationMeaning.MigratedConsistent` | crates/openmemory-engine/src/migrate.rs:342-424 | The plans of a migration pass every check a further migration makes. |
| `MigrationMeaning.SameIndex` | crates/openmemory-engine/src/migrate.rs:455-475 | The index rows of the new layout are the live ones of the old, and a further migration finds none to drop. |
| `MigrationMeaning.MigrationKeepsMeaning` | crates/openmemory-engine/src/migrate.rs:293-484 | For every export and target count the canonical graph of the new layout as its stores export it, with stub ends resolved by folded name and type, equals that of the export, as do entities, observations, live index rows and source records; and the new export can be migrated again. |
| `MigrationMeaning.OrderMeansNothing` | crates/openmemory-graph/src/export.rs:26-41 | The order in which a store exports its rows does not change the graph they stand for. |
| `MigrationMeaning.MigrationComposes` | crates/openmemory-engine/src/migrate.rs:293-484 | Migrating from K to J to L means the same as migrating from K to L, and as the original. |
| `MigrationLayout.EntitiesAtHome` | crates/openmemory-engine/src/migrate.rs:333-388 | Of every routed layout: a canonical row is in the domain its name hashes to and in no other; what else a domain holds are stubs that stand for canonical rows of other domains, one for each folded name and type. |
| `MigrationLayout.ObservationsAtHome` | crates/openmemory-engine/src/migrate.rs:342-357 | Of every routed layout: an observation is, as often as it was exported, in the domain its owner's name hashes to and in no other, next to its owner's canonical row. |
| `MigrationLayout.EntryAtHome` | crates/openmemory-engine/src/migrate.rs:455-475 | Of every routed layout: an index row named after an observation is in a domain that holds a live observation of that id, every other one in the domain its own name hashes to. |
| `MigrationLayout.EntryKept` | crates/openmemory-engine/src/migrate.rs:455-475 | And all that belong there are there, as often as they were exported. |
| `MigrationLayout.SourcesAtHome` | crates/openmemory-engine/src/migrate.rs:477-481 | Of every routed layout: a source record is, as often as it was exported, in the domain its URI hashes to and in no other. |
| `MigrationLayout.EdgeAtHome` | crates/openmemory-engine/src/migrate.rs:426-450 | Of every routed layout: each canonical edge is in the domain its origin's name hashes to, with its id, origin and columns, and ends at the target's own row if that is at home there, at a stub of it otherwise. |
| `MigrationLayout.MirrorAtTarget` | crates/openmemory-engine/src/migrate.rs:431-447 | If it crosses, the target's domain holds a mirror of it, from a stub of the origin to the target's own row. |
| `MigrationLayout.StoredFrom` | crates/openmemory-engine/src/migrate.rs:390-450 | Nothing else is stored: every edge of a domain is an exported one that starts there, or the mirror of one that crosses into it. |
| `MigrationMeaning.OneDomainIsWhole` | crates/openmemory-engine/src/migrate.rs:293-484 | Migrating to one domain leaves no stub and no mirror: the canonical edges and observations are there, all of them and in order. |
| `MigrationRows.NameFindsGreatest` | crates/openmemory-graph/src/export.rs:26-41 | In the layout a migration leaves, a name resolves to the canonical row with the greatest id of those under it, because each store exports its entities by id and one domain holds them all. |
| `MigrationRows.EdgesMove` | crates/openmemory-engine/src/migrate.rs:426-450 | The edges of the new layout are those of the old, one for one: within a domain each keeps its row, across domains it ends at the row its target's name resolves to. |
| `MigrationRows.EdgesKeepRows` | crates/openmemory-engine/src/migrate.rs:318-450 | The exact condition: the canonical edges of the new layout, each with the ids of the two rows it joins, directly or through stubs, are those of the export, columns included, if and only if every edge that crosses domains at this count ended at the row with the greatest id of its folded name and type; whatever order the planner wrote the rows in. |
| `MigrationRows.UniqueKeysKeepRows` | crates/openmemory-engine/src/migrate.rs:318-450 | One canonical row for each folded name and type is enough for that, at every count. |
| `MigrationWitness.EdgeChangesRow` | crates/openmemory-engine/src/migrate.rs:318-450 | With two such rows an edge can change hands: a migration the planner may produce, exported as its stores do, after which the edge, through its synthesized stub, joins the other of the two. |
| `MigrationWitness.StubOnlyRefused` | crates/openmemory-engine/src/migrate.rs:397-418 | An export with an edge to a stub that no canonical row stands behind is refused for that reason and no other; the stub is not promoted. |
| `MigrationWitness.ReservedLost` | crates/openmemory-engine/src/migrate.rs:322-357 | A caller's row under the reserved source stops every migration if something was observed about it, and otherwise nothing is left of it. |
| `MigrationMeaning.VerifyStaging` | crates/openmemory-engine/src/migrate.rs:529-623 | Staging is accepted exactly if every domain has as many rows of each kind as planned, holds an entity with the name of each of its first 32 canonical rows, and the canonical totals agree. |
| `MigrationMeaning.FaithfulStagingPasses` | crates/openmemory-engine/src/migrate.rs:529-623 | Staging that stores a migration's plans is never rejected. |
| `MigrationSwap.Profile.Open` | crates/openmemory-engine/src/partition.rs:235-333 | Opening succeeds exactly without a sentinel, with a readable manifest, on a populated profile only with its own count, and if no store fails to open; a refused open changes nothing, one that is cut short leaves the manifest, and the first stores, behind. |
| `MigrationSwap.FailedOpenPins` | crates/openmemory-engine/src/partition.rs:286-333 | An open that failed and changed anything has pinned the profile: it opens with the count of that attempt and no other. |
| `MigrationSwap.OpenKeeps` | crates/openmemory-engine/src/partition.rs:286-333 | No attempt to open loses an entry, and a successful one leaves the requested count. |
| `MigrationSwap.Profile.Admit` | crates/openmemory-engine/src/migrate.rs:147-178 | The preconditions accept exactly a populated profile of another count without sentinel, backup or journalled writes. |
| `MigrationSwap.Profile.MoveLayoutToBackup` | crates/openmemory-engine/src/migrate.rs:648-668 | At every point of the loop the first entries are in the backup and the others at the root. |
| `MigrationSwap.Profile.MoveStagingIntoPlace` | crates/openmemory-engine/src/migrate.rs:670-690 | At every point of the loop the first entries of the new layout are at the root and the others still in staging; it completes unless it dies or meets a folder in its way. |
| `MigrationSwap.Profile.Swap` | crates/openmemory-engine/src/migrate.rs:213-228 | Wherever the swap stops: nothing has happened, or the sentinel stands over a partly moved layout, or the new layout is in place and the old one is in the backup. |
| `MigrationSwap.Profile.Migrate` | crates/openmemory-engine/src/migrate.rs:142-229 | Every end state of an attempt, for every number of filesystem steps it survives; given enough of them it completes if and only if it is admitted, the build succeeds and nothing stands where the new layout goes. |
| `MigrationSwap.EntryInOnePlace` | crates/openmemory-engine/src/migrate.rs:213-228 | At every crash point each entry of the old layout is in exactly one of root and backup, unchanged. |
| `MigrationSwap.WholeWithoutSentinel` | crates/openmemory-engine/src/migrate.rs:213-228 | Without a sentinel the root holds entirely the old or entirely the new layout, with the count that goes with it, and foreign entries are untouched. |
| `MigrationSwap.CompletedMoves` | crates/openmemory-engine/src/migrate.rs:648-690 | After a migration that completed, each file and folder of the old layout, by name, is in the backup and gone from the root unless the new layout brought it again, each of the new one is at the root, and everything else is as it was. |
| `MigrationSwap.BackupRestores` | crates/openmemory-engine/src/migrate.rs:152-160 | At every crash point copying the backup over the root gives back every entry of the old layout. |
| `MigrationSwap.SentinelFreezes` | crates/openmemory-engine/src/partition.rs:247-259 | While the sentinel stands, opening and migrating are refused and change nothing. |
| `MigrationSwap.CountPinned` | crates/openmemory-engine/src/partition.rs:261-309 | Over any sequence of opens and migration attempts, refused or cut short, two successful opens use the same domain count unless a migration completed in between. |
| `MigrationSwap.RestoredFolderCollides` | crates/openmemory-engine/src/migrate.rs:670-690 | After an interrupted single-store migration is restored from its backup, a new domain folder left at the root blocks every further migration in mid-swap. |
| `DoubleWrite.EnsureEntity` | crates/openmemory-graph/src/remember.rs:676-705 | An entity row is found by exact name and type, and created with the caller's source only if it is missing. |
| `DoubleWrite.WriteGroup` | crates/openmemory-graph/src/remember.rs:273-417 | A group touches its entity, then adds its observations, then for each relation touches the target and adds the edge, in this order: one note for each observation and one edge for each relation, with its label, target and effective source; rows that were there keep their source, new ones have that of whoever named them first, and there are no others. |
| `DoubleWrite.GroupWrites` | crates/openmemory-graph/src/remember.rs:273-417 | The same of the specification that every store, partitioned or single, is measured by. |
| `DoubleWrite.RememberBatch` | crates/openmemory-graph/src/batch.rs:124-236 | A batch is all its groups written one after the other, or nothing; an error is reported for a rollback and for a batch that committed but could not be marked in the index tables. |
| `DoubleWrite.PlanBatch` | crates/openmemory-engine/src/partition.rs:583-637 | Stub rows are one for each folded remote target, spelled as first met; each remote domain gets, in order, one mirror request for each edge that leads to it; the home domain gets none. |
| `DoubleWritePlan.StubsAsPlanned` | crates/openmemory-engine/src/partition.rs:592-613 | By position in the batch: one stub for each folded name and type of a target that hashes elsewhere, spelled as the first relation that names it, in the order of those relations. |
| `DoubleWritePlan.MirrorsAsPlanned` | crates/openmemory-engine/src/partition.rs:614-628 | By position in the batch: the mirrors of a domain are those of exactly the relations whose target hashes to it, in order, each from a stub of its origin with the source the relation takes effect with. |
| `DoubleWriteRefinement.StubTouch` | crates/openmemory-engine/src/partition.rs:603-613 | Stub requests create rows of remote targets under the stub source and do nothing else. |
| `DoubleWriteRefinement.MirrorTouch` | crates/openmemory-engine/src/partition.rs:614-628 | In its own domain a mirror creates the canonical target as the caller would have; every other row it creates is a stub. |
| `DoubleWriteRefinement.MirrorLinks` | crates/openmemory-engine/src/partition.rs:614-628 | The mirrors of a domain are exactly the crossing edges that lead to it, as often as the caller wrote them. |
| `DoubleWriteRefinement.MirrorEnds` | crates/openmemory-engine/src/partition.rs:614-628 | A mirror edge always carries a source and leads from the home domain into its own. |
| `DoubleWriteRefinement.BatchRefines` | crates/openmemory-engine/src/partition.rs:526-637 | A batch whose transactions commit keeps the stores a partition of the single graph: home rows and edges exact, foreign rows stubs, mirrors at both ends; and the partition can be read back if and only if it could be and the batch creates no row under the reserved source. |
| `PartitionStore.BatchRefinesIff` | crates/openmemory-engine/src/partition.rs:526-637 | Whatever its sources, it keeps the partition if and only if every crossing edge carries a source and every remote target already has a row, is spelled like its stub or is first named under the stub source; and one that can be read back if and only if, besides, no row it creates is first named under the stub source. |
| `PartitionStore.UnsourcedFails` | crates/openmemory-engine/src/partition.rs:616-628 | It fails for a crossing edge without a source, from empty stores. |
| `PartitionStore.TwoSpellingsFail` | crates/openmemory-engine/src/partition.rs:603-613 | It fails for one remote entity spelled in two ways, from empty stores. |
| `PartitionStore.ReservedHides` | crates/openmemory-engine/src/partition.rs:860-899 | It fails for a request with the reserved source, from empty stores: what the caller wrote is stored, but the merged graph has the observation without its entity and the totals count no entity. |
| `PartitionStore.OneSpellingCovers` | crates/openmemory-engine/src/partition.rs:592-613 | One spelling for each folded remote target is enough for that. |
| `PartitionStore.RepeatedMirror` | crates/openmemory-engine/src/partition.rs:518-525 | Writing a mirror batch again adds nothing but repeated mirror edges. |
| `PartitionStore.CrashStaysBetween` | crates/openmemory-engine/src/partition.rs:518-555 | A crash after any mirrors and before the home transaction leaves each store in its old or its new state and the home store untouched, however often the same batch is attempted. |
| `PartitionStore.ReplayCompletes` | crates/openmemory-engine/src/partition.rs:518-568 | A further attempt at the same batch that goes through completes it: canonical edges once, mirrors at least once; readable back if and only if it was and the batch creates no row under the reserved source. |
| `PartitionStore.HistoryRefines` | crates/openmemory-engine/src/partition.rs:526-568 | After any history in which a crashed batch is attempted again as it was until it goes through, the domains hold exactly the graph of one store in parts, sources of rows included; it can be read back if and only if no batch created a row under the reserved source. |
| `ReplayRefinement.AttemptLoose` | crates/openmemory-engine/src/partition.rs:526-568 | One attempt, grouped or not, committed at home or not, with any sources: home rows, notes and canonical edges are those of the committed attempts, every mirror is committed or owed. |
| `ReplayRefinement.HistoryLoose` | crates/openmemory-engine/src/engine.rs:733-834 | The same after any history of attempts: grouped batches, single retries, replays of whatever the journal holds, crashes after any mirrors, final refusals, in any order. |
| `ReplayRefinement.SettledIff` | crates/openmemory-engine/src/partition.rs:518-568 | The exact condition: the domains hold the one graph, no more and no less, if and only if every crossing edge mirrored by an attempt that did not commit at home has been committed by another; and they can be read back as that graph if and only if, besides, no attempt created a row at home under the reserved source. |
| `ReplayRefinement.SettledMeans` | crates/openmemory-engine/src/partition.rs:860-899 | Domains that owe nothing are the exact partition of the single store up to which caller's source a row was created under, and can be read back as such if and only if they are settled. |
| `ReplayRefinement.SettledStatus` | crates/openmemory-engine/src/partition.rs:860-899 | Where nothing is owed the reported totals are those of the single store if and only if the domains are settled or there is only one. |
| `ReplayRefinement.GroupedEdges` | crates/openmemory-engine/src/engine.rs:735-752 | A grouped batch and the requests it was grouped from relate the same entities. |
| `ReplayRefinement.ReplaySettles` | crates/openmemory-engine/src/journal.rs:120-135 | However the requests of failed attempts are regrouped, split or extended when they are written again, the domains hold the one graph once each of them is part of an attempt that commits, and are settled if and only if no attempt created a row at home under the reserved source. |
| `ReplayRefinement.RefusedLeavesRow` | crates/openmemory-engine/src/engine.rs:791-832 | A request refused for good leaves its mirror behind: an unmarked target row that the totals count. |
| `ReplayRefinement.RegroupingMovesSource` | crates/openmemory-engine/src/engine.rs:735-791 | A grouped batch that crashed after its mirror and was written again one by one leaves a row under another source than one store would. |
| `PartitionStore.EdgeVisible` | crates/openmemory-engine/src/partition.rs:817-827 | Every edge can be traversed from both of its ends' domains. |
| `PartitionStore.MergedGraph` | crates/openmemory-engine/src/partition.rs:860-899 | Dropping stubs and stub-sourced edges from all domains gives the single store's observations and its rows and edges without those of the reserved source, also with duplicate mirrors; all of its rows if and only if it has none of that source. |
| `PartitionStore.StatusCounts` | crates/openmemory-engine/src/partition.rs:860-899 | The reported totals are those of the single store, also with duplicate mirrors, if and only if it has no row of the reserved source or there is one domain only. |
| `PartitionStore.Partition.RememberBatchInDomain` | crates/openmemory-engine/src/partition.rs:526-568 | Mirrors in any order, each allowed to fail, then the home transaction with the stubs in front; a single domain gets the batch as it is; the reported outcome is that of the home transaction, late errors included.  A committed home store is the old one with the stubs and then the groups of the batch written one by one, a mirrored one the old one with its mirrors; every other store is unchanged. |
| `PartitionStore.WrittenItems` | crates/openmemory-engine/src/partition.rs:526-568 | The same of the specification that crashes and replays are stated with. |
| `PartitionStore.Partition.Status` | crates/openmemory-engine/src/partition.rs:860-899 | Returns the totals of all domains less stub rows and edges that start at one, or, of one domain, its own. |
| `PartitionStore.CommitMirrors` | crates/openmemory-engine/src/partition.rs:544-558 | Each mirror batch reaches its domain or is passed over; the order does not matter. |
| `FanOut.SortSpec` | crates/openmemory-engine/src/partition.rs:749-750 | The sort orders by rank, loses nothing and keeps rows of equal rank in order. |
| `FanOut.FanOutIsGlobal` | crates/openmemory-engine/src/partition.rs:733-752 | The best k of the domains' best k lists are the best k of the whole union under one tie order. |
| `FanOut.TopIsBest` | crates/openmemory-engine/src/partition.rs:733-752 | Concatenating, sorting and cutting picks rows of the lists by position, none twice, best rank first and equal ranks in the order of the lists; what is left out ranks behind all of them, and nothing is left out of less than asked for. |
| `FanOut.MergeAnswers` | crates/openmemory-engine/src/partition.rs:1100-1122 | Concatenating the answers, sorting by score and truncating to at least one row. |
| `FanOut.ListEntities` | crates/openmemory-engine/src/partition.rs:831-854 | Returns the requested stretch of the sorted heads of all domains, with stubs dropped after the fetch and a saturating fetch size: rows of the domains, none a stub, latest first; or, of one domain, the stretch of its own list. |
| `FanOut.ListingInOrder` | crates/openmemory-engine/src/partition.rs:843-853 | The listing holds every row of the lists that is no stub, once, latest first and, of the same time, in the order of the domains. |
| `FanOut.SliceOfKept` | crates/openmemory-engine/src/partition.rs:843-854 | Dropping rows leaves a page as it is if and only if the page is empty anyway or every row up to its end stays. |
| `FanOut.PageExactIff` | crates/openmemory-engine/src/partition.rs:831-854 | A page of several domains equals its stretch of the global listing if and only if it is empty anyway or, in every domain, the rows that were fetched contain all its canonical rows that rank before the end of the page. |
| `FanOut.CleanHeadsExact` | crates/openmemory-engine/src/partition.rs:831-854 | What each domain can check alone: pages are right as long as no domain has returned a stub while it has a canonical row further down. |
| `FanOut.StubHidesRow` | crates/openmemory-engine/src/partition.rs:831-854 | One stub before one row: the first page of one is empty although the listing is not. |
| `FanOut.StublessPages` | crates/openmemory-engine/src/partition.rs:831-854 | Where no stub is listed every page is the right stretch of one global order. |
| `FanOut.PagesTile` | crates/openmemory-engine/src/partition.rs:831-854 | Successive pages then neither overlap nor skip: together they are the listing. |
| `RecallCache.StepInv` | crates/openmemory-engine/src/partition.rs:705-766 | Every step of every writer and reader keeps each cached answer the merge of domain answers that cover its version tag. |
| `RecallCache.BumpedStays` | crates/openmemory-engine/src/partition.rs:359-361 | What a write has bumped stays part of every later version. |
| `RecallCache.ReadYourWrites` | crates/openmemory-engine/src/partition.rs:705-766 | In every interleaving a recall, hit or miss, reflects all commits of every write that had returned before it began, even if an older recall overwrites a newer entry; and it returns the best of what the domains answer to its query, at one state of each. |
| `RecallCache.QuietHitIsCurrent` | crates/openmemory-engine/src/partition.rs:716-727 | While no write is between its commits and its bump, a hit is the best of what the domains would answer now. |
| `RecallCache.AnswerReflects` | crates/openmemory-engine/src/partition.rs:733-753 | What is merged: hits of the domains, each at most once, highest score first and equal scores in the order of the domains, as many as asked for and at least one, or all there are; no hit that is left out belongs before any of them. |
| `RecallCache.HitIff` | crates/openmemory-engine/src/partition.rs:716-727 | A recall that meets nothing in between is answered without a search if and only if its query is cached under the present version and has not expired, and then with what is cached. |
| `SpaceRegistry.EvictExact` | crates/openmemory-daemon/src/space_registry.rs:489-504 | Evicting an idle space keeps every counter the sum over what is resident; no subtraction saturates. |
| `SpaceRegistry.LeastRecentlyUsed` | crates/openmemory-daemon/src/space_registry.rs:481-491 | The candidate is idle, not legacy and least recently used among those, or there is none. |
| `SpaceRegistry.ReserveCapacity` | crates/openmemory-daemon/src/space_registry.rs:459-506 | Terminates, evicts only idle spaces in least-recently-used order and none more than needed, and, where flushes succeed, reports exhaustion exactly if the demand does not fit beside the leased and legacy spaces. |
| `SpaceRegistry.OnlyIdleEvicted` | crates/openmemory-daemon/src/space_registry.rs:481-504 | Neither the legacy space nor a leased one is ever evicted. |
| `SpaceRegistry.DecrementExact` | crates/openmemory-daemon/src/space_registry.rs:565-575 | A dropped lease lowers a count that was at least one. |
| `SpaceRegistry.Registry.constructor` | crates/openmemory-daemon/src/space_registry.rs:264-293 | An empty registry within valid limits satisfies the invariant. |
| `SpaceRegistry.Registry.Acquire` | crates/openmemory-daemon/src/space_registry.rs:303-384 | Closing, resident, inactive, over-budget, unopenable and opened spaces each give their own outcome.  A space of so many domains is opened with domains times jobs plus one connections and as many handles as domains; it is refused for capacity only if that product overflows or does not fit beside the legacy and the leased spaces, and opened only if it fits; where there is room as things are nothing is evicted.  Counters stay exact and within limits, leases equal those handed out, and the space is the most recently used one. |
| `SpaceRegistry.Registry.DropLease` | crates/openmemory-daemon/src/space_registry.rs:565-575 | Exactly one lease fewer, everything else exact, and the space is the most recently used one. |
| `SpaceRegistry.Registry.BeginClose` | crates/openmemory-daemon/src/space_registry.rs:400-420 | Inactive, closing, leased and unflushable spaces are refused, each with its own error and in this order, and nothing changes; any other is marked closing and no longer resident. |
| `SpaceRegistry.Registry.FinishClose` | crates/openmemory-daemon/src/space_registry.rs:421-440 | The second section hands out the exclusive lease or removes the mark. |
| `SpaceRegistry.Registry.CloseForMaintenance` | crates/openmemory-daemon/src/space_registry.rs:388-440 | Every failed close leaves the set of closing spaces as it was. |
| `SpaceRegistry.Registry.DropExclusive` | crates/openmemory-daemon/src/space_registry.rs:600-609 | Dropping the exclusive lease reopens the gate and nothing else. |
| `AuthGate.AuthorizationGate.Admit` | crates/openmemory-daemon/src/auth.rs:346-357 | Counts a lease in, in any state of the service, exactly if the machine may, at the epoch the machine gives the lease; otherwise nothing changes. |
| `AuthGate.AuthorizationGate.ReleaseLease` | crates/openmemory-daemon/src/auth.rs:438-448 | Is the gate's part of a drop in any state of the service; in every state that keeps the invariant the count does not saturate and the report says exactly that no lease is left. |
| `AuthGate.AuthorizationGate.BeginRevocation` | crates/openmemory-daemon/src/auth.rs:411-425 | Is the gate's part of beginning in any state of the service, after which nothing can be counted in; the report says exactly that the revocation may go on at once. |
| `AuthGate.AuthorizationGate.FinishRevocation` | crates/openmemory-daemon/src/auth.rs:427-436 | Is the gate's part of finishing in any state of the service; the next lease can be counted, in an epoch that equals the number of finished revocations until the counter is exhausted. |
| `AuthGate.StepInv` | crates/openmemory-daemon/src/auth.rs:338-456 | Every step of any number of leases and revokers keeps the gate invariant. |
| `AuthGate.CountIsExact` | crates/openmemory-daemon/src/auth.rs:438-448 | The count equals the live and pending leases, so releasing never saturates. |
| `AuthGate.SerializedDrains` | crates/openmemory-daemon/src/auth.rs:375-390 | With one revocation at a time no lease, live or pending, exists while its catalog transaction runs. |
| `AuthGate.DrainedUnlessUndercut` | crates/openmemory-daemon/src/auth.rs:411-436 | With any number of revokers the same holds for one during which no other has finished. |
| `AuthGate.GrantedIff` | crates/openmemory-daemon/src/auth.rs:338-409 | When a lease is granted: it is counted exactly while the gate is open, passes the first read exactly if the action is allowed and the role held, and the second exactly if the role is held; otherwise it is gone and uncounted.  A revocation takes away its role and no other. |
| `AuthGate.LiveDuringTransaction` | crates/openmemory-daemon/src/auth.rs:411-436 | Two overlapping revocations reach a state in which a lease with the revoked role is live during the transaction. |
| `AuthGate.UndercutAdmits` | crates/openmemory-daemon/src/auth.rs:411-436 | From every reachable state in which a revocation in its transaction has been undercut and the gate is open, a lease of any principal with a role becomes live before the transaction, and stays live after it has removed the role. |
| `AuthGate.EpochCheckIff` | crates/openmemory-daemon/src/auth.rs:503-511 | The epoch check passes if and only if no revocation has finished since the lease was counted. |
| `AuthGate.OldLeasesCannotPublish` | crates/openmemory-daemon/src/auth.rs:375-390 | Once a revocation has returned, no lease counted before it passes the check that precedes publication. |
| `AuthGate.ReauthorizedIsCurrent` | crates/openmemory-daemon/src/auth.rs:503-523 | A successful reauthorization returns the role the catalog holds at that moment, and the catalog has not changed since the grant. |
| `AuthGate.ReauthorizeIff` | crates/openmemory-daemon/src/auth.rs:503-523 | When it succeeds: the first read passes exactly if the action is allowed and the role is held, the second exactly if the generation is that of the grant; a recheck that fails leaves the lease with the grant it had. |
| `AuthGate.FirstGrantMayBeStale` | crates/openmemory-daemon/src/auth.rs:392-409 | The first grant can carry a role that was changed between reading it and taking the snapshot. |
| `AuthGate.FirstGrantIff` | crates/openmemory-daemon/src/auth.rs:392-409 | The exact condition: the first grant carries the catalog's role if and only if the grants and revocations between its two reads leave the principal with the role it had; with none left there is no grant. |
| `AuthGate.SameGenerationIsCurrent` | crates/openmemory-daemon/src/auth.rs:392-409 | In particular it does if the generation has not moved between the two reads. |
| `EmbedCache.KeyInjective` | crates/openmemory-embed/src/cached.rs:64-70 | Under one fingerprint a key stands for one purpose and one text. |
| `EmbedCache.FingerprintSeparatesIff` | crates/openmemory-embed/src/onnx.rs:212-223 | The exact condition: a fingerprint belongs to one model if and only if no part of that model contains a colon. |
| `EmbedCache.TaskSettingsSeparateIff` | crates/openmemory-embed/src/onnx.rs:209-223 | The same among models that agree in name, dimensions, token limit and pooling, for the tensor name and the two prefixes. |
| `EmbedCache.ColonFreeCut` | crates/openmemory-embed/src/onnx.rs:212-223 | A text cannot be cut into more parts than its colons allow, and a cut into colon-free parts is the only one into so many. |
| `EmbedCache.DefaultPrefixesCollide` | crates/openmemory-embed/src/models.rs:113-122 | The default model fails the condition: another configuration has its fingerprint. |
| `EmbedCache.GroupByKey` | crates/openmemory-embed/src/cached.rs:94-100 | Open positions are grouped under their key, all of them and nothing else. |
| `EmbedCache.CachedEmbedder.LookUp` | crates/openmemory-embed/src/cached.rs:86-91 | The first level answers exactly what it holds. |
| `EmbedCache.CachedEmbedder.LoadPersistent` | crates/openmemory-embed/src/cached.rs:102-124 | In any key order the second level fills every position it can answer, promotes it, and leaves exactly the other groups. |
| `EmbedCache.CachedEmbedder.StoreComputed` | crates/openmemory-embed/src/cached.rs:133-151 | Computed vectors fill every open position of their key and enter both levels. |
| `EmbedCache.CachedEmbedder.ComputeMissing` | crates/openmemory-embed/src/cached.rs:126-152 | Each missing text is computed once; a wrong number of vectors changes neither level and fills nothing. |
| `EmbedCache.CachedEmbedder.EmbedCached` | crates/openmemory-embed/src/cached.rs:72-156 | The result is the function mapped over the inputs in order, duplicates included, whatever is cached, evicted or unreadable; asked for is each text that neither level can answer, once; both levels stay faithful, and what was asked for stays in the persistent level, where nothing else changes; if compute returns the wrong number nothing of it is cached and the missing entries are empty. |
| `EmbedCache.AskedOnce` | crates/openmemory-embed/src/cached.rs:102-151 | A text that has been asked for is not asked for again where the persistent level can be read, whatever has been pushed out of memory. |
| `EmbedCache.MissingTexts` | crates/openmemory-embed/src/cached.rs:126-131 | What is handed to compute is each uncached text of the input, once. |
| `Migrator.Connection.ApplyInner` | crates/openmemory-core/src/migrations.rs:57-169 | The markers are checked, then the due steps run one transaction each until one fails, then the target is recorded if it was not reached. |
| `Migrator.CallIs` | crates/openmemory-core/src/migrations.rs:57-169 | Every outcome of a call from its inputs: each refusal has its own condition, in the order of the checks, and changes nothing but the missing table; otherwise the due steps are committed in order up to the first that does not run, and if all run the target is recorded. |
| `Migrator.Connection.Apply` | crates/openmemory-core/src/migrations.rs:43-45 | The same without the second marker. |
| `Migrator.Connection.ApplyWithUserVersion` | crates/openmemory-core/src/migrations.rs:47-55 | On an exact history: it succeeds if and only if the due steps are one for each version up to the target, in order, and each of them runs; then all of them are committed and the target is reached; a failing step leaves its predecessor's version, and the history stays exact. |
| `Migrator.SucceedsIff` | crates/openmemory-core/src/migrations.rs:88-144 | The same as a statement about calls. |
| `Migrator.CoversEach` | crates/openmemory-core/src/migrations.rs:88-109 | The due steps are accepted exactly if they are one for each version, in order. |
| `Migrator.WalkFailed` | crates/openmemory-core/src/migrations.rs:111-144 | A failing step is undone and ends the walk with its own version in the error. |
| `Migrator.WalkTracks` | crates/openmemory-core/src/migrations.rs:111-144 | Walking appends the next versions one by one and both markers follow. |
| `Migrator.KeepsHistory` | crates/openmemory-core/src/migrations.rs:57-169 | Whatever the call, the committed steps remain an extension of the old ones and exactly 1 to current. |
| `Migrator.HistoryIsExact` | crates/openmemory-core/src/migrations.rs:57-169 | Over any sequence of calls from a fresh database, with failing or growing lists, the committed steps are exactly 1 to current, once each and in order, and both markers agree. |
| `Migrator.MarkersAgreeIff` | crates/openmemory-core/src/migrations.rs:72-86 | On a database migrated without user version so far, a successful call leaves the markers agreeing if and only if it had something to do or there is nothing to mark. |
| `Migrator.MarkersPart` | crates/openmemory-core/src/migrations.rs:72-86 | They part on a fresh database migrated without user version and then, being current, with it. |

## Left out

- DrainGrouping.GroupDrained: states rows by exact spelling and does not model fuzzy name normalization, which depends on floating-point similarity.
- EngineShard.LiveShard.TrySubmit: requires room in the queue and does not model blocking at capacity or at the gate, because condition variables and their timing are a matter of liveness; requests are taken as already validated.
- EngineShard.LiveShard.Maintain: runs without interleaving; the interleaved phases are the machine's Snapshot, WalCheckpoint and Reclaim steps.
- EngineShard.LiveShard.Drain: runs without interleaving; the interleaved phases are the machine's steps.
- MigrationPlanner.Route: requires distinct entity ids, which are generated unique and primary keys; with a repeated id the code keeps one of the rows.  It also requires rows that fold alike to hash alike, which fails only for names that differ in a word-final sigma; the lemmas about routed plans take the hash as part of a row's key.
- MigrationSwap.Profile.Migrate: filesystem steps are atomic and in order; the export, the build and its verification are one step whose result is a parameter, and loss of unsynced renames is not modelled.
- PartitionStore.Partition.RememberBatchInDomain: which transactions commit is a parameter; `add_relation` by id, forgetting, consolidation and pruning are not modelled.
- PartitionStore.Partition.Status: per-type and per-tier counts, tombstones and time stamps are not modelled.
- FanOut.MergeAnswers: scores are a total order on integers; spreading activation, which appends rows after a domain has truncated its answer, is not modelled.
- RecallCache.ReadYourWrites: cache keys are taken as injective, the version counter as not wrapping; frozen decay scores and access counts are not modelled, expiry of entries is an arbitrary miss.
- SpaceRegistry.Registry.Acquire: validation of roots, manifests and locks is one outcome; context engines and flusher threads are always demanded as zero, as in the code.
- AuthGate.StepInv: `authorize_action` is an arbitrary verdict and authority digests are compared as the generations they are computed from; expiring memberships are not modelled.
- EmbedCache.CachedEmbedder.EmbedCached: one call at a time; another caller's evictions are covered by the arbitrary ones, its insertions are not modelled.
- Migrator.Connection.ApplyInner: a failing COMMIT and SQL that ends its own transaction are not modelled.
- ReplayRefinement.HistoryLoose: takes every needed mirror of an attempt that commits at home as committed, because a mirror that is lost for good is a missing edge in its domain by the code's own comment.
- MigrationSwap.Profile.Open: the member stores are one entry of the directory each time, so how many of several domain folders were created is not modelled.
- Shards of one domain share a database and a process crash stops all shards at once; each shard's machine sees its own part of the log, and its theorems hold for any faults, these included.
- A shard count that changes between two starts over one journal directory: the code does not detect it, and routing is only claimed for one count.
- Running the engine without a journal, fsync errors, the owner lock of the journal directory, and the flusher's timing.
- Hash collisions, Unicode case folding itself (any folding and any hashing function is allowed), real time, and all float work.
- SQLite, the full-text and vector indexes, ONNX inference, tokenizing and pooling.
- HTTP handlers, command line, health, integrations, model download, backup copying, source adapters, configuration and validators.
