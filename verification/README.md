# Verification of Xibi's state machines

Dafny models of the parts of Xibi that keep state over many steps, with proofs of what every
run, every interleaving or every crash leaves behind. Each model follows the branches, the order
of writes and the constants of the Python code; what the world decides (model replies, tool
outcomes, clocks, crashes, which process moves next) is a parameter or a step of a run.

- **Schema migrations** (`Schemas`, `Migrations`, `MigrationRunner`, `MigrationBodies`,
  `MigrationLock`, `Preservation`): statements, bodies that mix `execute` and `executescript`, a
  crash or error after any statement, any number of processes on the lock, and what becomes of the
  data that is already there.
- **Handle store and dispatch** (`Handles`, `Dispatch`): the bounded store of large outputs and
  the path of one tool call.
- **ReAct loop** (`React`, `ReactRuns`): budgets, repeats, three strikes, salvage, and what a run
  says in the end.
- **Gates** (`Tools`, `CommandLayer`): tiers, refusals, audit rows, nudge deduplication.
- **Circuit breaker and fallback chain** (`CircuitBreaker`, `BreakerInterleaving`, `Router`).
- **Watermarked batching** (`Observation`, `ObservationTimes`, `Memory`, `MemoryRecords`):
  observation cycles and session memory.
- **Caretaker** (`Caretaker`, `CaretakerFindings`), **approvals** (`Approvals`, `ApprovalTrails`),
  **recurring checklists** (`Checklists`, `ChecklistStatuses`).

Where the code mutates an object, the model is a class whose methods are proved equal to a
specification function on values; the whole-run lemmas are about that function, and say what it
does in terms of what the model said, the user tapped or the tool answered. `Wrappers` and `Json`
hold the shared option, result and JSON types.

`dafny verify dfyconfig.toml` checks everything.

## Where the code does not do what its documentation says

- The migration docstrings describe each body as one transaction with its version row.
  `executescript` commits the transaction first. Migration 21 runs a script of bare `CREATE`
  statements that way, and a crash between the script and the version row leaves a database that
  no later run upgrades: `MigrationBodies.Migration21Sticks`. The exact condition is
  `Migrations.ConvergesIffSafe`.
  What recorded versions stand for holds all the same: `MigrationLock.CrowdMeansApplied`.
- Handle ids are checked against live handles only, so an evicted id may be issued again. An old
  reference then answers the newer payload, exactly while that one is live:
  `Handles.OwnPayloadIff`.
- The run can end in silence over useful work, exactly as `React.PassesOverWorkIff` says: when
  time is up, or when the third error in a row is a repeat, as it is after two or three unparseable
  replies (`React.ParseFailuresSalvageNothing`).
- With transactions interleaved the breaker's invariant breaks at exactly the steps of
  `BreakerInterleaving.ValidBrokenIff`, and an opening blocks for its whole timeout if and only if
  no pending HALF_OPEN, no pending reset and no late OPEN with an older clock reading cuts it short
  (`BreakerInterleaving.BlocksThroughoutIff`): `_set_state` is handed a time that was taken before
  its transaction began. Recovery survives.
- Until a first triage cycle completes, the longest interval is never looked at
  (`Observation.BacklogIsTakenUpIff`); the retention sweep can remove the
  watermark, or the row that is to record the signals of a triage cycle in flight
  (`Observation.SweepIsHarmlessIffItSpares`); a manager review that never completes keeps triage
  from running (`Observation.UnfinishedReviewsBlockTriage`, `Observation.DueAgainIffUnfinished`).
- The retry handler is documented as one transaction, but its queries open none: a retry row is
  doubled exactly by an insert that comes after its query went stale
  (`Approvals.NeverTwoIffNeverStale`). An approved action is never run, marked or offered again
  exactly when no tap that flipped it is left (`Approvals.StrandedIffNothingComes`).
- A new finding goes unnotified exactly when a pulse that never got to notify looked at it first
  (`Caretaker.NotificationMissedIff`).
- A firing interrupted between its two transactions strands the open items of the previous
  instance (`Checklists.InterruptedFiringConservesIff`).

## Model

| member | source | states |
|---|---|---|
| Schemas.SettledStays | xibi/db/migrations.py:58-97 | an effect that a creating statement has produced is never undone by another creating statement |
| Schemas.SettledAgain | xibi/db/migrations.py:58-97 | run again, the IF NOT EXISTS forms, the guarded column add and INSERT OR IGNORE do nothing, and a bare CREATE fails |
| Schemas.RestartFromPrefix | xibi/db/migrations.py:58-97 | starting over after the first j absorbing statements ends where the longer of the two runs stops |
| Preservation.AddedColumnIs | xibi/db/migrations.py:58-97 | a guarded column add does nothing when the column is there, fails without its table, and otherwise adds the column with its fill in every row and changes nothing else |
| Preservation.RunKeeps | xibi/db/migrations.py:58-97 | any list of creating statements that succeeds keeps every table, column, row, cell and index with its old value |
| Preservation.RunIsAccounted | xibi/db/migrations.py:58-97 | and what else is there afterwards, tables with their columns, rows and indexes, is just what the statements ask for |
| Preservation.RunFills | xibi/db/migrations.py:58-97 | a missing column that any of the statements adds holds its fill in every row there was, whatever else the list does |
| Preservation.HistoryKeeps | xibi/db/migrations.py:129-282 | over any history of crashed, failed and completed runs of bodies that only create, no table, column, row, cell or index is lost or changed |
| Preservation.CrowdKeeps | xibi/db/migrations.py:129-282 | the same for any crowd of migrators |
| Migrations.RunOpsTracks | xibi/db/migrations.py:252-282 | what the connection sees after any operations is all their statements, what is on disk is exactly the durable ones, and both succeed or fail together with the plain run |
| Migrations.AfterScript | xibi/db/migrations.py:564-603 | after a script a data statement opens a transaction and waits for its commit, any other statement is durable at once |
| Migrations.CrashLeavesPrefix | xibi/db/migrations.py:252-282 | wherever a run over a body stops, died or failed, the disk holds exactly the statements that were durable there, a prefix of those that can become durable ahead of the version row |
| Migrations.RetryBody | xibi/db/migrations.py:252-282 | for a retry-safe body, whether it would succeed or not: crash, retry and crash again leave the disk of a single crash at the later point; a retry completes exactly when the body would have, and is then a completed run |
| Migrations.RerunBody | xibi/db/migrations.py:252-282 | for any body that is retry-safe or only creates: an attempt over what a died or failed one left has the disk of one attempt, and if it finishes it is a finished first attempt |
| Migrations.VersionsStayPrefix | xibi/db/migrations.py:187-282 | whatever happens to a run, recorded versions are 1..k, only grow, and reach the end exactly when the run is done; a run that survives is not a crash |
| Migrations.HistoryIsOneRun | xibi/db/migrations.py:129-282 | whatever disk any number of crashed, failed or completed runs leave, one run leaves it too |
| Migrations.CrashConvergence | xibi/db/migrations.py:129-154 | after any history of runs, the next uninterrupted one ends exactly where a run with no crash would have, complete or at the same error, when the pending bodies are retry-safe |
| Migrations.UnsafePendingSticks | xibi/db/migrations.py:252-282 | a pending body that makes a bare CREATE durable ahead of its version row has a crash after which no run ever completes or changes the disk |
| Migrations.ConvergesIffSafe | xibi/db/migrations.py:129-282 | where an uninterrupted run would complete, crashes are harmless for every history of runs if and only if every pending body is retry-safe |
| Migrations.RecordedMeansApplied | xibi/db/migrations.py:263-277 | a disk that records 1..k holds the completed work of bodies 1..k and of the next one at most what a crash leaves |
| Migrations.HistoryMeansApplied | xibi/db/migrations.py:187-282 | the same after any history of runs, retry-safe bodies or not: a body that can become stuck changes nothing about what recorded versions stand for |
| MigrationRunner.Connection.Execute | xibi/db/migrations.py:252-270 | one statement inside the open transaction, or autocommitted when none is open and it is no data statement; an error changes nothing |
| MigrationRunner.Connection.ExecuteScript | xibi/db/migrations.py:564-589 | commits whatever is open and then runs and commits the statements one at a time up to the first error |
| MigrationRunner.SchemaManager.GetVersion | xibi/db/migrations.py:105-119 | the greatest recorded version, 0 when there is none |
| MigrationRunner.SchemaManager.ApplyOne | xibi/db/migrations.py:258-282 | one body and its version row, with the exact disk left by success, error and a crash after any operation |
| MigrationRunner.SchemaManager.MigrateLocked | xibi/db/migrations.py:187-282 | the loop over pending bodies does exactly what the specification of a run says, and returns the versions it recorded |
| MigrationBodies.AbsorbingBodyIsSafe | xibi/db/migrations.py:561-603 | a body of absorbing statements may mix scripts and single statements freely |
| MigrationBodies.Migration12IsSafe | xibi/db/migrations.py:561-603 | migration 12, a script and then column adds, is retry-safe |
| MigrationBodies.Migration18IsSafe | xibi/db/migrations.py:671-743 | migration 18, column adds that a script commits and statements after it, is retry-safe |
| MigrationBodies.Migration21IsUnsafe | xibi/db/migrations/0021_scheduled_actions.sql:1-53 | migration 21 makes bare CREATE statements durable ahead of its version row |
| MigrationBodies.BodiesAreContained | xibi/db/migrations.py:561-1089 | migrations 12, 18, 21 and 37 meet the hypothesis of the statements about any history and any crowd |
| MigrationBodies.Migration21Sticks | xibi/db/migrations.py:777-783 | from any database below version 21 there is a crash after which migrate() never completes again |
| MigrationBodies.RebuildIsAllOrNothing | xibi/db/migrations.py:1054-1089 | a crash anywhere in the guarded rebuild, or an error in it, leaves the database as it was |
| MigrationBodies.RebuildKeepsRows | xibi/db/migrations.py:1054-1089 | the rebuild does nothing once its column is there; before, it succeeds exactly when its new names are free, leaves every item with its old cells, open and without metadata, remakes its index, and touches no other table or index |
| MigrationLock.AcquireLock | xibi/db/migrations.py:157-185 | acquires exactly when an attempt finds the lock free, and fails only once the deadline has passed, for any clock that never runs backwards and does not stop for good |
| MigrationLock.StepStaysLinked | xibi/db/migrations.py:129-154 | one step of any process keeps one holder at most and a disk that some sequence of solo runs leaves |
| MigrationLock.MigratorsSerialize | xibi/db/migrations.py:129-282 | any interleaving of any number of migrators starting, waiting, timing out and dying is a sequence of solo runs; version rows are 1..k, inserted once and never lost |
| MigrationLock.LoneMigrator | xibi/db/migrations.py:129-282 | an undisturbed process of the interleaved model does exactly what the run of one process alone does, and lets go of the lock |
| MigrationLock.CrowdMeansApplied | xibi/db/migrations.py:129-282 | wherever any crowd of migrators leaves the database, it holds the work of all recorded versions and of the next one at most what a crash leaves, retry-safe bodies or not |
| MigrationLock.MigratorsConverge | xibi/db/migrations.py:129-282 | with retry-safe bodies the next run takes it to the one end state, complete or at the same error |
| Handles.EvictIsLeast | xibi/handles.py:119-128 | eviction removes from the front just as much as is needed for the newcomer to fit |
| Handles.LiveIsLongestFit | xibi/handles.py:43-76 | the live handles are the longest suffix of everything created that fits both bounds, a single one always fitting |
| Handles.LiveExactlyWhenFits | xibi/handles.py:43-76 | the i-th handle is live exactly when it and all later ones fit together |
| Handles.LastIssueAnswers | xibi/handles.py:78-92 | the last handle issued under an id answers for it: its own payload while it fits, and an error ever after |
| Handles.NeverIssuedIsUnknown | xibi/handles.py:78-92 | an id that has never been issued is unknown |
| Handles.HandleAnswersOwnPayload | xibi/handles.py:78-92 | with distinct ids a handle answers its own payload while it fits and raises ever after |
| Handles.FreshWhenNotLive | xibi/handles.py:110-117 | issuing one more id keeps every id from being issued while an earlier handle of it is live if and only if the id is not live itself: checking live ids is what that takes, and no more |
| Handles.OwnPayloadIff | xibi/handles.py:78-117 | a reference answers its own payload or raises if and only if no later handle of its id is live with another payload |
| Handles.ReissuedIdAnswersNewer | xibi/handles.py:110-117 | an evicted id that is issued again answers the newer payload |
| Handles.CollidingIdBreaksAccounting | xibi/handles.py:71-74 | an entry replaced under its own id leaves its bytes in the count |
| Handles.GenerateUniqueId | xibi/handles.py:110-117 | eight tries with a short suffix against the live ids, then an unchecked longer one |
| Handles.HandleStore.OldestId | xibi/handles.py:119-128 | the first of the handles with the least creation time |
| Handles.HandleStore.Drop | xibi/handles.py:97-108 | forgets one handle, its payload and its bytes; an unknown id is ignored |
| Handles.HandleStore.EvictIfNeeded | xibi/handles.py:119-128 | the loop ends, leaves what the specification of eviction says, and remembers every evicted id |
| Handles.HandleStore.Create | xibi/handles.py:43-76 | with an id that is not live after eviction the live entries become the old ones after eviction and the new one, and dictionaries and byte count stay in step; with a live one its entry is replaced in place and the count stays exact if and only if it had no bytes |
| Handles.HandleStore.Lookup | xibi/handles.py:78-92 | the payload of a live entry, and the two different errors for evicted and unknown ids, explicit drops included |
| Dispatch.ResolveHandlesInInput | xibi/react.py:326-343 | replaces each top-level handle reference by its payload, or raises if any of them is gone |
| Dispatch.GeneratedIdsAreReferences | xibi/handles.py:110-117 | every id that the store generates matches the resolver's pattern |
| Dispatch.NothingToResolve | xibi/react.py:326-343 | resolution is the identity on inputs with no handle-shaped string |
| Dispatch.WrappedPayloadRoundTrips | xibi/react.py:326-378 | with no later issue of its id, a wrapped payload reaches a later tool unchanged while it and everything wrapped after it fit, and the call raises afterwards |
| Dispatch.RunsStayFresh | xibi/react.py:727-799 | over any run of whole calls handles are only added, and none under an id that is live |
| Dispatch.PayloadSurvivesRun | xibi/react.py:326-799 | over any run of whole calls, executed, refused or raising: a wrapped payload that still fits reaches the executor as it was or the call is refused; one that no longer fits raises unless its id has been issued again |
| Dispatch.ReferencesAreNotWrappedAgain | xibi/react.py:346-378 | a reference is never itself wrapped, whatever its size |
| Dispatch.WrappingDepends | xibi/react.py:346-378 | failed, suppressed, blocked and wrapped outputs stay as they are, others of 2048 characters are wrapped, and smaller ones only for a list of twenty |
| Dispatch.RefusalPassesThrough | xibi/react.py:346-378 | what the gates answer has one of the statuses that are never wrapped |
| Dispatch.ReferenceStandsForOutput | xibi/react.py:326-799 | the reference that the agent is given for a large output stands for that output in any later call of the run, as long as it fits the store |
| Dispatch.RefusalStopsIffReason | xibi/react.py:777-785 | dispatch returns for a refusal exactly when it carries an error list, the dedup flag or a block reason |
| Dispatch.Dispatcher.MaybeWrapInHandle | xibi/react.py:346-378 | large successful outputs become references to a new handle, all others pass through |
| Dispatch.Dispatcher.Dispatch | xibi/react.py:727-799 | resolve, gate, execute, audit, wrap: the executor is called exactly when the gate permits, with the resolved input; log, store and calls are those of the run model, and the answer is fixed for every outcome, the text of each refusal included; a failed or wrapped output is answered as it is and a raising executor raises |
| Tools.TablesAreInterlocked | xibi/tools.py:14-95 | every write tool has an explicit tier above GREEN |
| Tools.TierIs | xibi/tools.py:98-140 | without external content the tier is the lower one of table and profile; after it a write tool, and no other, goes up by one step |
| Tools.FinalToolsAreRed | xibi/tools.py:14-62 | what sends, replies or deletes is RED, after external content or not, unless the profile names it |
| Tools.OverrideOnlyRelaxes | xibi/tools.py:98-140 | a profile can only relax a tier, only the bump after external content can raise one, and by one step |
| Tools.WritesAfterExternalContent | xibi/tools.py:125-140 | after external content a write tool is RED unless the profile made that tool green, and never GREEN |
| CommandLayer.Layer.CheckDedup | xibi/command_layer.py:249-307 | suppresses exactly the nudges covered by one stored row of the window with equal thread and category |
| CommandLayer.Layer.Check | xibi/command_layer.py:69-170 | allows exactly the permitted calls, audits exactly the YELLOW ones, lets a write with a sensitive input or a failing scan through at RED only, with the user present and unaudited, and says which gate refused: hint for a bad input, suppression exactly when only deduplication is in the way, and otherwise the reason at the tier |
| CommandLayer.NeverRedUnattended | xibi/command_layer.py:86-170 | with no user present no sequence of calls ever reaches the executor at effective tier RED |
| CommandLayer.ScanDecides | xibi/command_layer.py:119-133 | a sensitive input makes a write tool RED and a failing scan makes it fail, whatever the profile says; clean inputs and other tools keep their tier |
| CommandLayer.ScannedWritesNeedUser | xibi/command_layer.py:119-157 | over any run a write whose input is sensitive, or whose scan fails, reaches the executor only with the user present, at RED and unaudited |
| CommandLayer.NothingIsSentUnattended | xibi/command_layer.py:86-157 | with no user present no run of calls sends, replies or deletes by a tool that the profile leaves alone |
| CommandLayer.ExecutedIff | xibi/command_layer.py:69-170 | after any run a call is executed if and only if its input fits, its plain tier and the scan let it go, and it is no nudge that an audited one covers |
| CommandLayer.AuditedNudgesAreInformative | xibi/command_layer.py:147-157 | of two audited nudges of one thread and category within the window, the later names a ref that the earlier does not |
| CommandLayer.OnlyYellowIsAudited | xibi/react.py:789-798 | every executed call at effective tier YELLOW that the executor answered has a row with its tool, input, output, time, source and tiers, and every row is that of such a call |
| CommandLayer.LogIsOfCalls | xibi/react.py:789-798 | over any run the audit log is the rows of the audited calls, one each, in the order of execution |
| CommandLayer.NudgeSuppressedIff | xibi/command_layer.py:249-307 | after any run a nudge that passes the other gates is suppressed if and only if an earlier executed nudge, made at YELLOW, answered and within the window, has its thread and category and names all its refs |
| CommandLayer.GreenNudgesRepeat | xibi/react.py:789-798 | where the profile has made nudges green and none follows external content, every nudge of any run that passes the other gates is executed, however often it repeats |
| CommandLayer.CoverageIsPerRow | xibi/command_layer.py:276-304 | refs covered only by two rows together are not suppressed |
| React.IsRepeat | xibi/react.py:691-724 | the two loops decide exactly whether some earlier step of the same tool shares over 60% of the words |
| React.BuildPartialAnswer | xibi/react.py:460-496 | nothing when no step was useful, otherwise the last five useful observations in order |
| React.RunAsync | xibi/react.py:1087-1506 | the loop with its error counter does what the counterless specification says; the counter is the trailing run of error steps and below 3 at each loop head |
| React.TakeTurn | xibi/react.py:1188-1458 | one turn: timeout, failing call, finish with the answer, ask_user with the question, repeat, parse failure, dispatch and the third strike, in that order |
| React.DecideIsSound | xibi/react.py:1188-1458 | a turn keeps the calls equal to the steps that ran, none of which repeats an earlier step |
| React.GoIsSound | xibi/react.py:1087-1506 | every run ends within max_steps, holds no finish or ask_user step, has at most three errors in a row, and makes no call that repeats a step |
| React.NoCallTwice | xibi/react.py:1312-1340 | no run hands the same tool the same input twice |
| React.RunsAreHonest | xibi/react.py:1436-1506 | the answer fits the exit reason, and useful work is passed over in silence only by a timeout or a repeat on the third strike |
| ReactRuns.RunsEnd | xibi/react.py:1188-1506 | every run ends because of three errors in a row, of its last turn or of what that turn did, and its reason, answer and salvage are the ones for that cause |
| ReactRuns.FinishQuotesAnswer | xibi/react.py:1286-1310 | a run finishes, asks or times out exactly when the turn after its steps does; it then says the answer or the question of that reply, quotes the model for no other reason, and has called just what its steps ran |
| ReactRuns.StepsFollowTurns | xibi/react.py:1188-1440 | over any run step i is what turn i made it: a repeat and an unparseable reply are recorded and not dispatched, everything else is dispatched and keeps its output and error |
| ReactRuns.RunsCall | xibi/react.py:1345-1440 | a run hands to dispatch the calls of its steps that ran, in order, and after them at most the one whose exception ended it |
| ReactRuns.RepeatsTakeMostWords | xibi/react.py:691-724 | a repeat names the same tool and shares over 60% of its words: four of five, seven of ten |
| ReactRuns.GatheredQuotesSteps | xibi/react.py:460-496 | a salvaged answer quotes one to five dispatched steps without an error, in order, and leaves out none that is newer than one it quotes |
| React.PassesOverWorkIff | xibi/react.py:1188-1458 | a turn ends the run in silence over useful steps if and only if there are some and time is up or the third error in a row is a repeat |
| React.ParseFailuresSalvageNothing | xibi/react.py:1249-1340 | three errors in a row, of which the last two or three are unparseable replies, end any run with an empty answer, whatever was gathered |
| CircuitBreaker.Breaker.IsOpen | xibi/circuit_breaker.py:154-167 | blocks exactly while OPEN and not expired; an expired OPEN becomes HALF_OPEN |
| CircuitBreaker.Breaker.RecordSuccess | xibi/circuit_breaker.py:169-197 | clears the count when closed, counts and possibly resets when half open, ignores when open |
| CircuitBreaker.Breaker.RecordFailure | xibi/circuit_breaker.py:199-223 | a persistent failure counts and opens at the threshold, a transient one touches nothing else |
| CircuitBreaker.AlwaysValid | xibi/circuit_breaker.py:139-223 | over all runs CLOSED means below threshold, no successes, no opening time, and otherwise at or above threshold with an opening time |
| CircuitBreaker.BlocksWholeTimeout | xibi/circuit_breaker.py:154-167 | after an opening every question within the recovery timeout is refused, whatever is recorded meanwhile |
| CircuitBreaker.OneFailureReopens | xibi/circuit_breaker.py:199-223 | in HALF_OPEN, reached by any run, a single persistent failure opens the breaker again for a whole timeout and forgets no success |
| CircuitBreaker.SuccessesOutliveReopening | xibi/circuit_breaker.py:112-124 | until the breaker closes, successes add up over any number of half-open episodes |
| CircuitBreaker.StrikesOpen | xibi/circuit_breaker.py:199-223 | without a success in between, and with any questions, it is exactly the threshold-th persistent failure that opens |
| CircuitBreaker.SuccessesClose | xibi/circuit_breaker.py:169-197 | in HALF_OPEN, with no persistent failure and with any questions, it is exactly the success that reaches the threshold that closes, with a clean row |
| CircuitBreaker.FailuresCount | xibi/circuit_breaker.py:199-223 | every persistent failure counts in any state, a transient one is tallied and no more |
| BreakerInterleaving.UninterruptedCalls | xibi/circuit_breaker.py:154-223 | the transaction steps of a caller that is not interrupted make up the whole call |
| BreakerInterleaving.AlwaysCanRecover | xibi/circuit_breaker.py:112-124 | in every interleaving OPEN has an opening time, and it lies in the past |
| BreakerInterleaving.NeverStuckOpen | xibi/circuit_breaker.py:154-167 | after any interleaving, once the timeout has passed the next caller is let through |
| BreakerInterleaving.CountBrokenIffStale | xibi/circuit_breaker.py:112-223 | exactly the writes decided on a row that has changed since break the count invariant |
| BreakerInterleaving.ValidBrokenIff | xibi/circuit_breaker.py:112-223 | the whole invariant of uninterrupted calls, closed rows included, is broken by exactly the first half of an opening or closing call and the writes decided in another state |
| BreakerInterleaving.InterleavingOpensOnZero | xibi/circuit_breaker.py:169-223 | a success reset landing between the count and the write of OPEN leaves the breaker open on zero, for any threshold |
| BreakerInterleaving.StaleHalfOpenIsReachable | xibi/circuit_breaker.py:154-167 | a caller can be about to write HALF_OPEN over a newer opening, from any configuration |
| BreakerInterleaving.StaleResetIsReachable | xibi/circuit_breaker.py:169-197 | a caller can be about to reset the breaker behind a newer opening, from any configuration |
| BreakerInterleaving.LateOpenIsReachable | xibi/circuit_breaker.py:199-223 | an OPEN with an older reading can be written over a newer opening, by any delay up to the timeout, and then requests are let through that much before the newer timeout is over |
| BreakerInterleaving.BlockEndsIff | xibi/circuit_breaker.py:112-167 | apart from the clock, exactly a pending HALF_OPEN, a pending reset and an OPEN whose clock reading is older than the timeout let requests through a blocking breaker |
| BreakerInterleaving.BlocksThroughoutIff | xibi/circuit_breaker.py:112-223 | from an opening on, any run of any callers is blocked all along if and only if it holds no pending HALF_OPEN or reset and the clock never passes the timeout counted from the reading of the OPEN written last |
| BreakerInterleaving.BlocksWholeTimeoutIff | xibi/circuit_breaker.py:112-223 | within the recovery timeout of an opening, and with no OPEN of an older reading written over it, any run is blocked all along if and only if it holds neither of those two writes |
| Router.CheckRole | xibi/router.py:889-909 | the walk over fallbacks of one role ends with a complete duplicate-free path or with a true reason to reject |
| Router.ValidateFallbacks | xibi/router.py:876-909 | a specialty is accepted exactly when every fallback names a role in it and no path along fallbacks revisits a role |
| Router.ResolveRoleChain | xibi/router.py:1242-1265 | the chain starts at the effort asked for, or else at "think", has no duplicates and goes as far as fallbacks lead; in an accepted specialty its last role has no fallback |
| Router.FollowFallbacks | xibi/router.py:1257-1263 | the loop ends and stops only at a missing, unknown or already visited fallback |
| Router.StopsOnlyAtTheEnd | xibi/router.py:1257-1263 | in an accepted specialty the guard on visited roles never stops the walk |
| Router.Models.Generate | xibi/router.py:1032-1050 | one attempt records exactly one event on its provider's breaker and none on others: a provider down or too slow and an unknown exception count, an unparseable answer and a refusal do not, an answer wipes the count |
| Router.Models.Walk | xibi/router.py:1123-1156 | returns the first success in chain order after only walkable failures, raises otherwise, and records one event per attempt made |
| Router.Models.GetModel | xibi/router.py:1268-1309 | the chain is the roles in order whose breaker lets a request through when asked, each at its own time, and whose client can be built; the breakers of exactly their providers have been asked |
| Router.OneEventPerAttempt | xibi/router.py:1201-1211 | roles of one provider share its breaker, and each attempt or question is one event on it and none on others |
| Router.BlockedProviderIsLeftOut | xibi/router.py:1289-1295 | while a provider's breaker blocks, no chain holds a role of that provider, whenever each role is asked for |
| Router.HealthyRoleIsIn | xibi/router.py:1268-1309 | a role whose client can be built and whose breaker is not open, or has been so for longer than the timeout, is in the chain |
| Router.HealthyChainIsWhole | xibi/router.py:1268-1309 | with healthy providers the chain is the resolved roles themselves, in order |
| Router.ProviderSuppressed | xibi/router.py:1032-1059 | enough attempts that find a provider down or too slow, or raise something unknown, with no answer among them, through any of its roles and with requests asking its breaker in between, keep all its roles out of every chain for the whole recovery timeout, counted from the attempt that reaches the threshold |
| Router.ParseFailuresNeverOpen | xibi/router.py:1032-1041 | any number of unparseable answers and refusals leaves state and counts of a breaker alone |
| Router.AnswerWipes | xibi/router.py:1043-1050 | an answer sets the failures of a closed breaker back to none |
| Observation.StepStays | xibi/observation.py:347-408 | every step, arrival, transaction, crash or sparing sweep, keeps the bookkeeping exact |
| Observation.RunsAreExact | xibi/observation.py:347-462 | over any run the batches of completed triage cycles concatenate to a prefix of the signals in id order, each at most 100, and the watermark is its end |
| Observation.RunsFromNothingAreExact | xibi/observation.py:347-462 | from an empty database, over any run whose sweeps spare: what was consumed is a prefix of the signals and the watermark is its end |
| Observation.WatermarkNeverFalls | xibi/observation.py:418-438 | over any run the watermark never decreases and consumed batches are never taken back |
| Observation.ReviewsMoveNothing | xibi/observation.py:1205-1216 | a review, finished, failed or crashed, consumes nothing and leaves the watermark |
| Observation.SweepIsHarmlessIffItSpares | xibi/heartbeat/sweeps.py:180-188 | after a retention sweep the bookkeeping stays exact over every continuation without another harmful sweep if and only if this one spares the newest completed triage row (unless its watermark is 0) and the row of a triage cycle in flight that has signals to record or has yet to collect |
| Observation.SweptWatermarkReplays | xibi/heartbeat/sweeps.py:145-188 | after a sweep that does not, the next triage cycle consumes again from the first signal |
| Observation.BacklogDrains | xibi/observation.py:440-462 | k uninterrupted cycles consume a hundred signals each, or all there are |
| Observation.BacklogIsTakenUpIff | xibi/observation.py:204-270 | a backlog is taken up in the end exactly when it reaches the threshold or a triage cycle has completed before |
| ObservationTimes.TriageRests | xibi/observation.py:204-270 | after a triage cycle has completed, and whatever but another one happens: none runs before the shortest interval, and then one does exactly for a signal past the longest interval or for as many as the threshold |
| ObservationTimes.ManagerRests | xibi/observation.py:272-319 | after a manager review has completed, well or badly, the next is due exactly once the interval in hours has passed, whatever but another one happens |
| ObservationTimes.TriageRow | xibi/observation.py:359-416 | the row of a triage cycle: opened with the watermark and completed with the last signal that it collected, if any |
| ObservationTimes.ReviewRow | xibi/observation.py:1187-1457 | the row of a review: opened with the watermark of the last triage for a manager, and completed with it or, after an exception, with 0 |
| ObservationTimes.SweptIs | xibi/heartbeat/sweeps.py:180-188 | the retention sweep removes the rows started before the cutoff and no others |
| Observation.UnfinishedReviewsBlockTriage | xibi/observation.py:347-352 | while no manager review completes, no number of calls consumes a signal, however many signals arrive and however much time passes between them |
| Observation.DueAgainIffUnfinished | xibi/observation.py:272-319 | a review that was due is due again right after the call if and only if it did not complete, however it went |
| Observation.PersistsNewest | xibi/observation.py:1856-1889 | completing the row in flight touches that row alone and keeps the order of rows |
| Observation.ObservationCycle.Run | xibi/observation.py:321-416 | manager review before triage before nothing; the row, the watermark, the role that answered and the report for every combination of failing roles |
| Observation.ObservationCycle.RunTriage | xibi/observation.py:359-416 | an uninterrupted triage cycle is the three steps of the run model, and its batch is consumed whichever role answered and even when none did |
| Observation.ObservationCycle.RunManagerReview | xibi/observation.py:1187-1457 | the bookkeeping of a review: a row with the current watermark, completed with that watermark or with 0 after an exception |
| Memory.TextsDiffer | xibi/memory.py:77 | the text of a range determines the range, so comparing texts is comparing ranges |
| Memory.SessionMemory.CompressSessionTurns | xibi/memory.py:17-89 | the search loop finds the first block within the limit that has no summary, every skip reason is the right one, and a batch of zero or less finds no turns |
| Memory.SessionMemory.DoCompression | xibi/memory.py:92-159 | one summary row for the range, or none when there are no turns, the model raises or says nothing |
| Memory.CallExtendsPrefix | xibi/memory.py:42-89 | with the first n blocks summarised, a call succeeds exactly when a block is due and the model answers, summarises block n + 1 from exactly its turns, and changes nothing otherwise |
| MemoryRecords.CallReports | xibi/memory.py:30-89 | each status is reported exactly for its reason: too few turns, none of them old enough, all blocks done, the model raised, it said nothing, it answered |
| MemoryRecords.CallStores | xibi/memory.py:134-159 | a call stores a row exactly when it succeeds, with the text that the model gave, about the turns that the model was given |
| MemoryRecords.RowsHoldWhatWasSaid | xibi/memory.py:92-159 | over any run each stored row holds what the model answered to one call for its session, about the range that the call took |
| Memory.RunsCompressPrefixes | xibi/memory.py:42-85 | over any run of turns and calls of any sessions the summarised ranges are the first n blocks in order, never one of the newest turns |
| Memory.RunsStoreRealRanges | xibi/memory.py:92-159 | over any run, with settings that change from call to call, every stored range holds a turn |
| Memory.OthersUntouched | xibi/memory.py:49-60 | a call for one session changes no summary of another |
| Memory.CallsCatchUp | xibi/memory.py:68-85 | answered calls reach every block that is due, one a call, and then stop |
| Memory.StartIs | xibi/memory.py:74-85 | block k (from 0) starts at turn k times the batch plus one |
| Memory.ReachIsQuotient | xibi/memory.py:68-70 | the blocks due are the turns beyond the ones that are kept, divided by the batch and rounded down |
| Memory.BlocksAreFullIff | xibi/memory.py:22-23 | every summary that any run makes, of any session, is made from a full block if and only if the batch is at most the threshold, or 1 |
| Caretaker.DriftState.Pulse | xibi/caretaker/pulse.py:180-293 | the loops leave the table restricted to the observed keys, sort findings into new, repeated and silent, resolve the rest, and the status is the worst of what happened |
| Caretaker.DriftState.RunChecks | xibi/caretaker/pulse.py:243-272 | the findings of the checks that did not raise, in order, and an error status if any did |
| Caretaker.DriftState.Sort | xibi/caretaker/pulse.py:274-286 | a finding is new when its key is neither stored nor seen earlier in the pulse, silent when accepted, repeated otherwise |
| Caretaker.DriftState.ResolveGone | xibi/caretaker/pulse.py:288-293 | deletes exactly the rows whose key was not observed |
| Caretaker.TableHoldsTracked | xibi/caretaker/pulse.py:274-293 | after any run, pulses ended by their process at any point included, the stored keys are those of the last finished pulse and of what unfinished ones looked at since, less what they resolved |
| Caretaker.PulseNotifies | xibi/caretaker/pulse.py:274-301 | a pulse notifies of exactly the keys it observes that were not tracked, each once |
| CaretakerFindings.FindingsArePartitioned | xibi/caretaker/pulse.py:274-286 | every finding of a pulse is new, repeated or silent, and only one of these |
| CaretakerFindings.AcceptedIsNotRepeated | xibi/caretaker/pulse.py:274-286 | over any run a tracked finding is listed as a repeat exactly unless its key has been accepted and observed ever since, and never as new |
| CaretakerFindings.AcceptedPulseIsQuiet | xibi/caretaker/pulse.py:274-301 | a pulse that observes accepted keys only lists and notifies nothing |
| CaretakerFindings.RowsTellTheFirst | xibi/caretaker/dedup.py:41-70 | over any run a row tells which check first reported its key since it was last resolved, how severe, and when |
| CaretakerFindings.PulseTouches | xibi/caretaker/dedup.py:1-82 | a finished pulse leaves its time on the keys it observes and leaves the rows of accepted ones as they are |
| Caretaker.NotifiesTheDifference | xibi/caretaker/pulse.py:274-301 | between two finished pulses the notified keys are the difference of what the two observed |
| Caretaker.AcceptanceLastsWhileObserved | xibi/caretaker/dedup.py:1-8 | over any run a key is silent exactly while no pulse has resolved it since it was accepted, that is, while it has been observed without a break |
| Caretaker.RaisedCheckRenotifies | xibi/caretaker/pulse.py:243-263 | when the one check that reports a key raises, the key and its acceptance are forgotten and the next pulse notifies again |
| Caretaker.InterruptedPulseSwallows | xibi/caretaker/pulse.py:274-301 | a key first recorded in a pulse that never got to notify is not notified while it goes on being observed |
| Caretaker.NotificationMissedIff | xibi/caretaker/pulse.py:274-301 | a newly observed key goes unnotified if and only if an unfinished pulse since the last finished one looked at it and none after resolved it |
| Approvals.StepFits | xibi/channels/telegram.py:1200-1286 | every statement of every tap keeps flips, executions and statuses consistent |
| Approvals.RunsFit | xibi/channels/telegram.py:1200-1286 | under any interleaving and crashes each row executes at most once, only after its own flip to APPROVED and with its own tool and args, and one that was flipped to REJECTED never |
| ApprovalTrails.EffectsFollowTaps | xibi/channels/telegram.py:1195-1390 | over any run what is approved or executed some user approved, what is rejected some user rejected and nothing is both, what is marked failed was refused or failed, and a retry row repeats the request of the row retried |
| ApprovalTrails.FlipDecides | xibi/channels/telegram.py:1206-1253 | the update of a tap sets a row that is still PENDING to what the user decided and changes nothing else; a rejection ends the tap, and so does a lost race |
| ApprovalTrails.ExecutionIsMarked | xibi/channels/telegram.py:1255-1285 | the rest of an approval calls the executor once or not at all and marks a refused or failed one on its row |
| ApprovalTrails.RowsComeAndGo | xibi/subagent/db.py:205-263 | a parked request becomes a PENDING row under a new id, and an expired run loses its own rows |
| Approvals.StepAdvances | xibi/channels/telegram.py:1230-1279 | a step moves a status only PENDING to APPROVED or REJECTED and APPROVED to EXEC_FAILED, the unguarded update included |
| Approvals.RunsAdvance | xibi/channels/telegram.py:1200-1286 | from any point of a run to any later one a row keeps its content and only moves forward, and a deleted id never comes back |
| Approvals.StrandedForGood | xibi/channels/telegram.py:1256-1264 | an approved row whose tap has ended stays APPROVED for good and is never run, marked or retried |
| Approvals.StrandedIffNothingComes | xibi/channels/telegram.py:1230-1300 | an approved row will never be run, marked or retried, whatever comes, if and only if no tap is left that flipped it |
| Approvals.DyingTapStrands | xibi/channels/telegram.py:1230-1237 | a tap that dies right after its update strands the row it approved, unexecuted |
| Approvals.SerialRetriesInsertOne | xibi/channels/telegram.py:1343-1377 | with retries one at a time, whatever other taps do, there is at most one pending retry row per run, tool and args |
| Approvals.OnePerRequestBrokenIffStale | xibi/channels/telegram.py:1343-1377 | exactly the insert of a retry that found no twin, made when one is there, puts a second pending retry row beside another |
| Approvals.NeverTwoIffNeverStale | xibi/channels/telegram.py:1343-1377 | over any run there is never a second one if and only if no insert is of that kind |
| Approvals.OverlappingRetriesInsertTwo | xibi/channels/telegram.py:1343-1377 | two retries whose queries both precede their inserts both insert |
| Approvals.SequentialRetriesInsertOne | xibi/channels/telegram.py:1360-1368 | one after the other, the second inserts nothing |
| Approvals.TelegramAdapter.HandleAction | xibi/channels/telegram.py:1158-1300 | an uninterrupted tap is the four steps of the run model, with the outcome reported for each case; a rejection marks the row and never calls the executor, an approval calls it at most once and marks a failure, and no other row changes |
| Approvals.TelegramAdapter.HandleRetry | xibi/channels/telegram.py:1323-1390 | an uninterrupted retry is the three steps of the run model: a new PENDING row with the same request, unless there is one already, and nothing else |
| Checklists.Checklist.HandleFireRecurrence | xibi/checklists/lifecycle.py:26-145 | a new instance of the template's items, then the rollover of the previous one |
| Checklists.Checklist.Instantiate | xibi/checklists/lifecycle.py:37-71 | one open copy of every template item, in a new open instance |
| Checklists.Checklist.HandleRollover | xibi/checklists/lifecycle.py:148-222 | the four policies on the newest other instance, and nothing when it has no open item |
| Checklists.Checklist.UpdateItem | xibi/checklists/api.py:101-166 | sets or clears the completion of the item found and changes no other item or instance, closes the instance exactly when none is left open, and raises on bad arguments or no match |
| Checklists.LatestIsPrevious | xibi/checklists/lifecycle.py:154-157 | with distinct creation times the newest other instance is the previous one |
| Checklists.FiringConservesContents | xibi/checklists/lifecycle.py:148-207 | open items after a roll-forward firing are the template's followed by those open before, each as often as it was |
| Checklists.FiringConservesIff | xibi/checklists/lifecycle.py:170-222 | a firing under any policy conserves the outstanding items if and only if it rolls forward or nothing was open |
| ChecklistStatuses.StatusesFit | xibi/checklists/lifecycle.py:148-222 | over any run of firings, interrupted ones included, and completions, and under any policy: an instance is closed exactly when it has items and all are completed, expired exactly while something is open in it and a rollover other than to confirm has passed it, and exactly its open items are prompted after a rollover to confirm |
| Checklists.InterruptedFiringConservesIff | xibi/checklists/lifecycle.py:141-142 | a firing that ends before its rollover conserves them if and only if nothing was open |
| Checklists.CompletingConserves | xibi/checklists/api.py:133-156 | completing an item takes that one out of what is outstanding and no other |
| Checklists.RunsConserve | xibi/checklists/lifecycle.py:26-207 | over any run of firings and completions each item made and not completed has exactly one open copy in the newest instance |

## Left out

- Database errors that the code turns into defaults (`get_version`, `_get_row`, `_get_watermark`, `_collect_signals`): reads are taken to succeed. A failing final update of an observation cycle is a crash in the model.
- SQL text, WAL and file locking: tables are maps or sequences, a statement or a connection block is one step. Kept are that `executescript` commits, that a SELECT opens no transaction, and that a dead holder's lock is released.
- Column types, constraints, triggers and row conflicts of migrations, and the bodies other than 12, 18, 21 and 37. A body that can make a bare CREATE durable early and also drops or renames tables, or stands behind a guard, is outside the statements about any history; none of the modelled bodies is (`MigrationBodies.BodiesAreContained`).
- The fallback branch of migration 21 for a missing script file: it uses IF NOT EXISTS and is covered by `MigrationBodies.AbsorbingBodyIsSafe`.
- Randomness of identifiers: new ids of rows and retries, and of the handles that `Dispatch` makes, are taken to be new; `Handles.HandleStore.Create` and `Handles.OwnPayloadIff` say what happens otherwise to handles.
- Handles.HandleStore.Create: takes a clock that does not run backwards, as a monotonic one does not; the previews of a reference (schema, summary, item count) are a parameter.
- The preview text, its length limits and the JSON length of an output: parameters of `Dispatch`.
- Input schema validation and the scan for sensitive content: their answers are parameters of the gate. Calls of `dispatch` without a command layer or without a handle store are not modelled. The check, the execution and the audit of one call are not interleaved with those of another process.
- The prompt, the parsers, native tool calling, tracing, trust records and control-plane routing of the ReAct loop: the model sees parsed replies. Words of an input and the rendering of an observation are functions of the configuration.
- Provider health, API keys and the construction of clients: one predicate of `Router.Models.GetModel`. Backoff sleeps and tool-calling support are not modelled.
- The checks on providers and models of a role in `load_config`, and the fallback to the specialty "text" in `_resolve_role_chain`.
- What the roles of an observation cycle do with signals, and what a manager review writes besides its row. Two overlapping cycles are not modelled: one runs at a time, as the heartbeat calls them.
- Turns of a session with equal creation times, and several calls of `compress_session_turns` at once.
- Caretaker checks themselves, spans, the pulse log and delivery of notifications. All timestamps of one pulse are equal in the model, and pulses do not overlap.
- Telegram messages, keyboards, authorisation and callback parsing around the approval handlers, step ids and review columns of the rows, and the audit row of an executed action.
- Deadline actions, nudges and confirmation buttons of checklists, "undone" and button carries in the conservation claims, and fuzzy matching of labels, whose answer is a parameter. Edits of a template between firings are covered: each firing takes its template.
- Checklists.RunsConserve: counts an item as completed when its copy in the newest instance is, since ticking a stale copy leaves the rolled one open.
