# Verified model of the continuous-engineering engine

A Dafny model of the parts of ZCoder whose guarantees are hardest to see in the code: the bounded
upgrade loop, the two durable ledgers behind it, the pipeline that joins them under a run lease, and the
PostgreSQL variant in which any number of runners share one fenced ledger. Beside it stand smaller
stateful cores: circuit breaker and retry, lease file and maintenance scheduler, maintenance campaigns,
the CI repair loop, the sliding-window rate limiter, the inference queue, and the expression compiler of
the 32-lane vector processor together with the simulator that runs its output.

`dafny verify dfyconfig.toml` checks everything.

## How it is modelled

* **Loop** (`work.dfy`, `offers.dfy`, `upgrade_loop.dfy`, `upgrade_loop_laws.dfy`, `upgrade_loop_causes.dfy`,
  `upgrade_loop_outcomes.dfy`, `upgrade_loop_offers.dfy`, `upgrade_loop_budget.dfy`). `ContinuousUpgradeLoop` is a
  class; `Run` is proved equal to `RunFrom`, a function of the seed and of an arbitrary script of what discovery, implementation, validation and
  rollback do in each iteration. The laws are about that function, so they hold for every behaviour of the callbacks.
* **Ledgers** (`ledger.dfy`, `json_ledger.dfy`, `store_ledger.dfy`, `ledger_refinement.dfy`, `ledger_drivers.dfy`).
  The file ledger replaces one file atomically; the table ledger writes one row per record into a table shared
  with other tasks. Both are classes proved against the same functions on a map from fingerprint to record, and
  both refine one abstract map.
* **Pipeline** (`pipeline.dfy`, `pipeline_laws.dfy`, `pipeline_runs.dfy`, `pipeline_theorems.dfy`,
  `pipeline_loop.dfy`, `pipeline_service.dfy`). One run of a fresh pipeline object: resume, seed, discover, attempt,
  checkpoint, report. Candidates may come in any state, sources may raise, and the ledger may fail to be read or written
  at any access; a checkpoint that cannot be stored breaks the run off. Discovery replaces the objects in the dictionary of items
  by fresh copies while the loop keeps its own; the invariant links loop, dictionary, ledger and everything handed
  in so far. The class in `pipeline_service.dfy` drives the loop class and the file ledger class.
* **Fence** (`fence.dfy`) and **fleet** (`fleet.dfy`, `fleet_safety.dfy`, `fleet_theorems.dfy`, `fleet_stale.dfy`,
  `fleet_budget.dfy`, `fleet_retries.dfy`, `fleet_witness.dfy`). The fence, the advisory lock and the fenced lease are
  classes. The fleet is a state machine over the same fencing rules (`Issue`, `Admits`, `Stamp`), ledger rules
  (`Reopen`, `StateToStore`) and loop rules (`Begin`, `Judge`): any number of runs, interleaved at single
  transactions, with a crash or a lost lock possible between any two of them, reads that are not fenced, and
  checkpoints that store item by item.
* **Simulation** (`fleet_simulation.dfy`, `file_budget.dfy`). Every run of the pipeline over the table is a sequence of
  moves of one run of the machine, so the theorems about the machine speak of pipeline runs; and a run over the file
  does what it would do over the table, which carries the execution budget over to the file.
* **Times** are readings of a clock, given to the model; calls into code that is not shown (executor,
  providers, handlers) are arbitrary scripts.

## What holds

* In every interleaving, writes commit only under the newest generation, in order; generations are issued
  once each; no committed checkpoint is lost; success is final; and a stale run starts at most one more execution.
* One item is executed at most its budget for its registration and once more for every time it was retried after
  it was blocked, plus once for every run that did not end normally. Retries themselves have no bound
  (`RetriesAreUnbounded`). The same holds, without retries, for runs over one file that are killed at any time.
* Each id in a report has that very state in the ledger, whatever was handed in.
* State, reason, lists and errors of every run are those its iterations decide (`LastAttemptDecides`, `RunEndsAsDecided`),
  and a pipeline run reports what the loop on its own would (`PipelineRunIsLoopRun`).
* Promises that are not kept in full, with the exact condition under which they are:
  * COMPLETED does not by itself mean that everything succeeded. It does exactly if all new work was first handed in as
    PENDING or SUCCEEDED (`CompletedIffLedgerSucceeded`, `CompletedIffAllSucceeded`). Work handed in as RUNNING,
    VALIDATING or BLOCKED is never attempted, yet the run reports COMPLETED (`RunningSeedIsLost`, `BlockedSeedIsLost`,
    `OfferedRunningIsSkipped`).
  * The three lists of a report hold all work exactly if all of it was accepted as PENDING (`RunPartitionsWork`), and work
    is kept exactly if no later work comes under its id (`WorkKeptIffIdNotTaken`).
  * As many iterations as there are attempts left do not always suffice: an item offered as RUNNING or VALIDATING counts as
    pending at the end, so one iteration to spare is needed (`EnoughIterationsExactly`, `InFlightExhausts`).
  * The last checkpoint can leave a record RUNNING: exactly if its work was handed in so, once, by a discovery that then
    failed (`InFlightExactlyIfLost`, `FailingSourceLeavesRunning`). Work the loop holds is never left so by any checkpoint.
  * "Never executed again" fails for a run that lost its lock and has not noticed: exactly if a newer generation
    finished the work since (`DoneWorkRunsExactlyIfOvertaken`, `FinishedWorkRunsAgain`). Asserting the token before an
    execution would exclude it.
  * The circuit breaker's "one trial call" holds for errors of the library only: after a foreign exception the
    half-open breaker lets every call through (`SecondTrialExactly`, `ForeignErrorsAllReach`). The docstring of the retry module speaks of
    consecutive failures and one trial call without that reservation.

## Model

| member | source | states |
|---|---|---|
| UpgradeLoop.ContinuousUpgradeLoop.AddWork | src/zcoder/services/upgrade_loop.py:177-185 | work is added exactly when its fingerprint is new, and an id already present gets the new item in its old place |
| UpgradeLoop.ContinuousUpgradeLoop.PickNext | src/zcoder/services/upgrade_loop.py:348-352 | a pending item of the highest priority, and among those of the smallest id; none exactly when nothing is pending |
| UpgradeLoop.NextPending | src/zcoder/services/upgrade_loop.py:348-352 | the choice is a pending item, and there is none exactly when no item is pending |
| Work.LexLessMeans | src/zcoder/services/upgrade_loop.py:348-352 | ids are ordered as strings: by the first place where they differ, a prefix before its extensions |
| UpgradeLoop.PendingIdsInOrder | src/zcoder/services/upgrade_loop.py:354-359 | the ids listed as pending are those of the items that are PENDING, RUNNING or VALIDATING, each once, in insertion order |
| UpgradeLoop.ContinuousUpgradeLoop.TryItem | src/zcoder/services/upgrade_loop.py:219-324 | one attempt changes item, lists, records and the progress counter as the rules for its outcome say |
| UpgradeLoop.ContinuousUpgradeLoop.Iterate | src/zcoder/services/upgrade_loop.py:199-325 | one iteration of the loop for any discovery and outcome, with its checkpoint and the reason to stop |
| UpgradeLoop.ContinuousUpgradeLoop.IterateAll | src/zcoder/services/upgrade_loop.py:199-325 | the iterations together are the specified run |
| UpgradeLoop.ContinuousUpgradeLoop.Summarise | src/zcoder/services/upgrade_loop.py:326-346 | final state, halt reason, last checkpoint and report |
| UpgradeLoop.ContinuousUpgradeLoop.Run | src/zcoder/services/upgrade_loop.py:187-346 | report, checkpoints and final items are those of the specified run |
| UpgradeLoopLaws.RunSound | src/zcoder/services/upgrade_loop.py:187-346 | attempts equal starting attempts plus records, lists match states, and nothing is listed that was not accepted, for any callbacks |
| UpgradeLoopLaws.RunPartitionsWork | src/zcoder/services/upgrade_loop.py:326-346 | the three lists share and repeat nothing and list accepted work only; an item is in the one list that matches its state exactly if it was accepted as PENDING |
| UpgradeLoopLaws.CompletedIffAllSucceeded | src/zcoder/services/upgrade_loop.py:326-336 | all accepted work succeeded and no discovery failed exactly if the run says COMPLETED and all work was accepted as PENDING or SUCCEEDED |
| UpgradeLoopOffers.CompletedIffOfferedPlainly | src/zcoder/services/upgrade_loop.py:326-336 | the same in terms of what was offered: each content first offered as PENDING or SUCCEEDED |
| UpgradeLoopLaws.OfferedRunningIsSkipped | src/zcoder/services/upgrade_loop.py:211-217 | an item offered as RUNNING, VALIDATING or BLOCKED is never attempted and the run says COMPLETED, listing a BLOCKED one nowhere |
| UpgradeLoopOffers.WorkKeptIffIdNotTaken | src/zcoder/services/upgrade_loop.py:177-185 | offered work is among the items at the end exactly if no other content was first offered later under its id |
| UpgradeLoopOffers.AllWorkKeptIffIdsDistinct | src/zcoder/services/upgrade_loop.py:177-185 | a run keeps all offered work exactly if no two contents were first offered under one id |
| UpgradeLoopOffers.CollidingIdsLoseWork | src/zcoder/services/upgrade_loop.py:177-185 | of two contents seeded under one id the first is gone at the end, whatever states and callbacks are |
| UpgradeLoopLaws.AttemptsBounded | src/zcoder/services/upgrade_loop.py:221-236 | an item's records number exactly its added attempts, and at most its remaining budget or one |
| UpgradeLoopLaws.NoProgressBudgetHolds | src/zcoder/services/upgrade_loop.py:249-254 | never more consecutive attempts without success than budgeted, anywhere in the run |
| UpgradeLoopLaws.QuietTurnConsumes | src/zcoder/services/upgrade_loop.py:199-325 | with quiescent discovery every processed iteration lowers the remaining attempts |
| UpgradeLoopBudget.EnoughIterationsFinish | src/zcoder/services/upgrade_loop.py:326-330 | with an iteration for every attempt left, and one to spare if work was offered in flight, the budget is never what ends a quiet run |
| UpgradeLoopBudget.EnoughIterationsExactly | src/zcoder/services/upgrade_loop.py:199-330 | no quiet run can exhaust its iterations exactly if they exceed the attempts all pending work can use, each item up to the progress budget, or equal them with nothing offered in flight |
| UpgradeLoopBudget.EnoughAttemptsExactly | src/zcoder/services/upgrade_loop.py:199-330 | under a progress budget larger than the iterations the condition on the attempts left is exact |
| UpgradeLoopBudget.InFlightExhausts | src/zcoder/services/upgrade_loop.py:326-330 | next to an item offered as RUNNING or VALIDATING all else succeeds within its attempts and the run ends BUDGET_EXHAUSTED |
| UpgradeLoopLaws.RecordsInPriorityOrder | src/zcoder/services/upgrade_loop.py:348-352 | with quiescent discovery attempts follow descending priority, then id, and nothing pending precedes anything tried |
| UpgradeLoopLaws.AttemptsContiguous | src/zcoder/services/upgrade_loop.py:348-352 | all attempts of one item are adjacent |
| UpgradeLoopLaws.EveryAttemptIsCheckpointed | src/zcoder/services/upgrade_loop.py:361-380 | each attempt but a failed rollback is followed by its own checkpoint, in state RUNNING, which lists the item, and the run by a last one |
| UpgradeLoopLaws.RecordsTellTheOutcomes | src/zcoder/services/upgrade_loop.py:256-324 | a success exactly when that iteration passed; a guarded regression or failed rollback is the run's last act |
| UpgradeLoopCauses.BlockedOnlyForCause | src/zcoder/services/upgrade_loop.py:228-308 | work is blocked only with its attempts used up, or as the last attempt before a guarded regression or failed rollback stops the run |
| UpgradeLoopCauses.HaltsForTheStatedReason | src/zcoder/services/upgrade_loop.py:199-335 | the halt reason names what is so: discovery error, blocked work with nothing left to try, a guarded regression, a failed rollback, or a progress budget just used up |
| UpgradeLoopOutcomes.LastAttemptDecides | src/zcoder/services/upgrade_loop.py:219-324 | in every run an item's state and error are what its last attempt made of them: SUCCEEDED exactly if that passed, BLOCKED exactly if it had to stop the run or was the last one allowed; every record counts the attempts on its item and names what happened |
| UpgradeLoopOutcomes.GuardedWorkIsBlocked | src/zcoder/services/upgrade_loop.py:256-308 | work whose attempt brought a guarded regression, or could not be rolled back, ends BLOCKED and is listed as blocked only |
| UpgradeLoopOutcomes.RunEndsAsDecided | src/zcoder/services/upgrade_loop.py:199-346 | state, reason and iterations of every run are those its last iteration decides, case by case; the last checkpoint repeats the report |
| Fence.ValidatedMarker | src/zcoder/services/upgrade_postgres_fence.py:186-197 | a marker is accepted exactly when it is a control marker of this schema and namespace |
| Fence.PostgresUpgradeFence.AcquireToken | src/zcoder/services/upgrade_postgres_fence.py:61-105 | issues the next generation in one transaction, the first being 1, keeps checkpoints and creation time, leaves the row PAUSED and all other rows alone, and changes nothing when it fails |
| Fence.PostgresUpgradeFence.CheckGeneration | src/zcoder/services/upgrade_postgres_fence.py:169-178 | passes exactly when the control row is well formed and carries the token's generation |
| Fence.PostgresUpgradeFence.AssertCurrent | src/zcoder/services/upgrade_postgres_fence.py:107-123 | succeeds exactly for a token of this fence that is still the newest; the error tells a stale token from a damaged row and from a lost connection |
| Fence.PostgresUpgradeFence.SaveTask | src/zcoder/services/upgrade_postgres_fence.py:125-167 | stores the task exactly under the newest generation, with the creation time of the row it replaces, stamps a rebuilt control row, and leaves all other rows alone, or the whole table when it refuses |
| Fence.PostgresAdvisoryRunLease.Acquire | src/zcoder/services/upgrade_postgres_lease.py:49-81 | takes the lock exactly when it is free for this session, and holds nothing on failure |
| Fence.PostgresAdvisoryRunLease.Release | src/zcoder/services/upgrade_postgres_lease.py:83-115 | frees the lock, or reports that ownership was lost, and is not acquired afterwards |
| Fence.PostgresFencedRunLease.Acquire | src/zcoder/services/upgrade_postgres_runtime.py:30-43 | succeeds exactly if no token is out, the lock is free for this session and a token can be issued, which is then the newest; without a token the lock is given back |
| Fence.PostgresFencedRunLease.RequireToken | src/zcoder/services/upgrade_postgres_runtime.py:45-49 | the token exactly while the lease is held |
| Fence.PostgresFencedRunLease.Release | src/zcoder/services/upgrade_postgres_runtime.py:51-55 | the token is gone before the lock, and the result says whether the lock was still held |
| Fence.FencedUpgradeEngineeringStore.SaveTask | src/zcoder/services/upgrade_postgres_runtime.py:87-88 | stores exactly with a lease whose token is the newest, and changes nothing otherwise |
| Fence.FencedUpgradeEngineeringStore.CreateAttempt | src/zcoder/services/upgrade_postgres_runtime.py:96-97 | attempt mutations fail closed |
| Fence.FencedUpgradeEngineeringStore.SaveCheckpoint | src/zcoder/services/upgrade_postgres_runtime.py:99-100 | checkpoint-table mutations fail closed |
| FleetSafety.InterleavingKeeps | src/zcoder/services/upgrade_store_ledger.py:79-175 | every interleaving keeps the invariant between fence, ledger, and the memory of the run with the newest token |
| FleetSafety.IssuedKeeps | src/zcoder/services/upgrade_postgres_fence.py:61-105 | a new generation makes all earlier tokens stale and breaks nothing |
| FleetTheorems.FencingIsMonotonic | src/zcoder/services/upgrade_postgres_fence.py:61-178 | commits carry the newest generation, in nondecreasing order; generations are issued once each and counted by the stored one, also when two runs race to insert the row |
| FleetTheorems.NoCheckpointIsLost | src/zcoder/services/upgrade_store_ledger.py:142-175 | the stored history is the last part of all committed checkpoints, although it is read unfenced and rebuilt without a generation |
| FleetTheorems.SuccessIsFinal | src/zcoder/services/upgrade_store_ledger.py:121-175 | a fingerprint recorded as SUCCEEDED stays so through crashes, restarts and stale runs |
| FleetTheorems.DoneWorkRunsOnlyStale | src/zcoder/services/continuous_engineering.py:250-252 | work recorded as SUCCEEDED is executed, if at all, by a run whose token is no longer the newest |
| FleetStale.DoneWorkRunsExactlyIfOvertaken | src/zcoder/services/continuous_engineering.py:250-252 | in every reachable state an attempt of work in the loop is one of finished work exactly if a newer generation stored it as SUCCEEDED since; with the newest token the work is recorded PENDING |
| FleetWitness.FinishedWorkRunsAgain | src/zcoder/services/upgrade_postgres_fence.py:125-178 | from every ledger with one PENDING record some interleaving executes the work after it was recorded as SUCCEEDED |
| FleetTheorems.StaleRunExecutesAtMostOnce | src/zcoder/services/upgrade_postgres_fence.py:125-178 | a run whose token has gone stale begins at most one more execution |
| FleetTheorems.ExclusiveRunsNeverRepeatSuccess | src/zcoder/services/continuous_engineering.py:206-258 | while no lock is lost, work recorded as SUCCEEDED is never executed again |
| FleetBudget.ExecutionsBounded | src/zcoder/services/upgrade_loop.py:219-337 | without retries, executions of an item over all runs are within its budget plus the runs that did not end normally, and the stored counter misses exactly those not yet stored |
| FleetRetries.ExecutionsBoundedByRetries | src/zcoder/services/upgrade_loop.py:219-337 | with retries too: within one budget for the registration and one for each time blocked work was made pending again, plus the runs that did not end normally |
| FleetWitness.RetriesAreUnbounded | src/zcoder/services/upgrade_state.py:129-131 | runs told to retry blocked work, all ending normally, execute it as often as one likes |
| FleetSimulation.TurnSimulated | src/zcoder/services/continuous_engineering.py:239-258 | an iteration of the pipeline, whatever fails in it, is a sequence of moves of one run of the machine |
| FleetSimulation.RunSimulated | src/zcoder/services/continuous_engineering.py:206-258 | so is a whole run over the fenced table, from any state with a free lock: it leaves the same records and executes what its records tell, in order |
| FileBudget.SameOverTable | src/zcoder/services/upgrade_state.py:149-183 | a run over the ledger file ends as it does over a table that differs at most in which unfinished work was interrupted |
| FileBudget.FileExecutionsBounded | src/zcoder/services/upgrade_state.py:110-216 | all runs over one ledger file execute an item within its budget plus once for every run broken off between two replacements of the file; the counter misses at most those |
| Ledger.ListKeys | src/zcoder/services/upgrade_state.py:149-183 | a ledger is gone through record by record, each once |
| Ledger.ResumedLists | src/zcoder/services/upgrade_state.py:149-183 | whatever the order, loading hands out every resumable record once |
| Ledger.ResetWhole | src/zcoder/services/upgrade_store_ledger.py:103-119 | whatever the order, loading leaves the same records |
| Ledger.ListBlocked | src/zcoder/services/upgrade_state.py:223-229 | exactly the known ids of blocked records |
| Ledger.CountTerminal | src/zcoder/services/upgrade_state.py:231-238 | the numbers of succeeded and of blocked records |
| Ledger.CheckpointStores | src/zcoder/services/upgrade_state.py:185-216 | a checkpoint stores every item of the caller as it is, in the state of the first list it is in, RUNNING if it is the active one, its own if none; other records stay |
| JsonLedger.JsonUpgradeLedger.Replace | src/zcoder/services/upgrade_state.py:268-283 | the file is replaced as a whole or left alone |
| JsonLedger.JsonUpgradeLedger.RestoreOrRegister | src/zcoder/services/upgrade_state.py:110-147 | finished work, and blocked work not to be retried, is withheld; other work comes back PENDING as recorded, blocked work with its attempts reset; new work is registered; errors change nothing |
| JsonLedger.JsonUpgradeLedger.Reopened | src/zcoder/services/upgrade_state.py:149-183 | the pass over the records stops at the first that does not belong under its key |
| JsonLedger.JsonUpgradeLedger.LoadResumable | src/zcoder/services/upgrade_state.py:149-183 | all work that is not withheld is handed out once, PENDING; only reopened blocked work is rewritten; errors change nothing |
| JsonLedger.JsonUpgradeLedger.RecordCheckpoint | src/zcoder/services/upgrade_state.py:185-216 | items by the state their list gives them, and the last checkpoints, in one replacement |
| JsonLedger.JsonUpgradeLedger.StateFor | src/zcoder/services/upgrade_state.py:218-221 | the recorded state, or none for an unknown fingerprint |
| JsonLedger.JsonUpgradeLedger.BlockedItemIds | src/zcoder/services/upgrade_state.py:223-229 | the ids of blocked records |
| JsonLedger.JsonUpgradeLedger.TerminalCounts | src/zcoder/services/upgrade_state.py:231-238 | how many records are succeeded and blocked |
| StoreLedger.SavedView | src/zcoder/services/upgrade_store_ledger.py:214-238 | saving an item changes its record and nothing else in the table |
| StoreLedger.SavedUnclaimable | src/zcoder/services/upgrade_store_ledger.py:214-238 | no record can ever be claimed as executable work, a row is SUCCEEDED exactly if its record is, and every row keeps its creation time |
| StoreLedger.EngineeringStoreUpgradeLedger.RestoreOrRegister | src/zcoder/services/upgrade_store_ledger.py:79-101 | as for the file, on the item's own row and no other; an unreadable row is an error and stays |
| StoreLedger.EngineeringStoreUpgradeLedger.RecordTasks | src/zcoder/services/upgrade_store_ledger.py:202-212 | the rows of the namespace, if every marker is valid |
| StoreLedger.EngineeringStoreUpgradeLedger.Resave | src/zcoder/services/upgrade_store_ledger.py:103-119 | rows are saved again one by one, up to the first that cannot be read; no other row is touched |
| StoreLedger.EngineeringStoreUpgradeLedger.LoadResumable | src/zcoder/services/upgrade_store_ledger.py:103-119 | all work that is not withheld is handed out once and written back, no other row is touched; an error leaves each record as it was or as it is resumed |
| StoreLedger.EngineeringStoreUpgradeLedger.RecordCheckpoint | src/zcoder/services/upgrade_store_ledger.py:121-175 | the rows of the items first, then the control row, never claimable, with the history truncated; no other row is touched and all keep their creation times; an unreadable control row is an error after the items were stored, and stays |
| StoreLedger.EngineeringStoreUpgradeLedger.StateFor | src/zcoder/services/upgrade_store_ledger.py:177-182 | the recorded state, none for an unknown fingerprint, an error for an unreadable row |
| StoreLedger.EngineeringStoreUpgradeLedger.ReadAll | src/zcoder/services/upgrade_store_ledger.py:202-269 | all records of the namespace exactly when every one is readable |
| StoreLedger.EngineeringStoreUpgradeLedger.BlockedItemIds | src/zcoder/services/upgrade_store_ledger.py:184-191 | the ids of blocked records |
| StoreLedger.EngineeringStoreUpgradeLedger.TerminalCounts | src/zcoder/services/upgrade_store_ledger.py:193-200 | how many records are succeeded and blocked |
| LedgerRefinement.ServeAllAbstract | src/zcoder/services/upgrade_store_ledger.py:79-200 | any sequence of calls to either ledger is one on an abstract map in which interrupted work is pending |
| LedgerRefinement.LedgersAgree | src/zcoder/services/upgrade_state.py:110-238 | both ledgers give the same items, blocked ids, terminal counts and history over any calls |
| LedgerDrivers.AskFile | src/zcoder/services/upgrade_state.py:110-216 | a call on the file ledger object is served as that abstract ledger serves it |
| LedgerDrivers.AskTable | src/zcoder/services/upgrade_store_ledger.py:79-175 | so is a call on the table ledger object |
| LedgerDrivers.AskBoth | src/zcoder/services/upgrade_store_ledger.py:79-200 | both objects asked the same give the same answers, and agree on blocked work, finished work and history in the end |
| PipelineService.ContinuousEngineeringPipeline.Restore | src/zcoder/services/continuous_engineering.py:236-237 | a candidate is restored or registered, unless the ledger cannot be read, or must be written and cannot |
| PipelineService.ContinuousEngineeringPipeline.Refuse | src/zcoder/services/continuous_engineering.py:239-248 | the ledger fails on one more candidate exactly if it cannot be read, or if the work is open and it cannot be written; nothing changes |
| PipelineService.ContinuousEngineeringPipeline.Discover | src/zcoder/services/continuous_engineering.py:239-248 | candidates reach ledger and dictionary even when the ledger or a source fails after them; the loop then sees none, and the error of the ledger if it failed |
| PipelineService.ContinuousEngineeringPipeline.SaveCheckpoints | src/zcoder/services/continuous_engineering.py:257-258 | each checkpoint is stored from the dictionary, or, when the ledger fails, none |
| PipelineService.ContinuousEngineeringPipeline.Iterate | src/zcoder/services/continuous_engineering.py:239-258 | discovery, attempt and checkpoint of one iteration, the attempted object put in the dictionary; a checkpoint that cannot be stored ends the run |
| PipelineService.ContinuousEngineeringPipeline.Resume | src/zcoder/services/continuous_engineering.py:207-213 | resumable items and restored seeds, all in the dictionary, unless the ledger fails while they are loaded |
| PipelineService.ContinuousEngineeringPipeline.MergeBlocked | src/zcoder/services/continuous_engineering.py:223-234 | COMPLETED becomes HALTED for persisted blocked work exactly when some was found; all its ids are reported after the loop's, each once; the rest of the report stays |
| PipelineService.ContinuousEngineeringPipeline.RunLocked | src/zcoder/services/continuous_engineering.py:206-234 | the whole run is the specified one on ledger, dictionary and report, whichever access to the ledger fails; HALTED for persisted blocked work exactly if the loop completed and the ledger has blocked ids, else state, reason and iterations are the loop's |
| PipelineService.ContinuousEngineeringPipeline.Run | src/zcoder/services/continuous_engineering.py:185-189 | a closed pipeline or a held lease touches nothing; otherwise the run is the specified one, with or without a report |
| PipelineService.ContinuousEngineeringPipeline.Close | src/zcoder/services/continuous_engineering.py:191-196 | the callback is due on the first close only |
| PipelineRuns.TurnFits | src/zcoder/services/continuous_engineering.py:239-258 | every iteration keeps loop, dictionary and ledger linked, for candidates in any state |
| PipelineRuns.RunFits | src/zcoder/services/continuous_engineering.py:206-258 | so does every run, broken off or not; with a report the ledger mirrors the loop |
| PipelineTheorems.ReportMatchesLedger | src/zcoder/services/continuous_engineering.py:221-234 | every id in a report has exactly that state in the ledger |
| PipelineTheorems.BlockedIdsReported | src/zcoder/services/continuous_engineering.py:223-234 | the blocked ids of a returned report are just those of the ledger, the loop's own first |
| PipelineLoop.PipelineRunIsLoopRun | src/zcoder/services/continuous_engineering.py:206-258 | a run that is not broken off reports what the loop on its own reports when it is told what discovery let through, so all that holds of loop runs holds of it |
| PipelineTheorems.CompletedIffLedgerSucceeded | src/zcoder/services/continuous_engineering.py:221-234 | every record of the ledger succeeded, and no discovery failed, exactly if the report says COMPLETED and all work new to the ledger was first handed in as PENDING or SUCCEEDED |
| PipelineTheorems.InFlightExactlyIfLost | src/zcoder/services/upgrade_state.py:185-216 | after a run with a report a record is RUNNING or VALIDATING exactly if its work was handed in once, so, by a discovery that failed |
| PipelineTheorems.CheckpointsStoreNoFlight | src/zcoder/services/upgrade_state.py:185-216 | every checkpoint stored during a run leaves no work the loop holds RUNNING or VALIDATING in the ledger |
| PipelineTheorems.RunExecutesOpenWork | src/zcoder/services/continuous_engineering.py:206-252 | no run, broken off or not, executes work that was SUCCEEDED, nor BLOCKED work it was not told to retry; all that was handed in is recorded |
| PipelineTheorems.SeedsAreRecorded | src/zcoder/services/continuous_engineering.py:206-213 | whatever was seeded is in the ledger when the run is over, however it ends |
| PipelineTheorems.RerunExecutesRecorded | src/zcoder/services/continuous_engineering.py:206-252 | a run handed only known work executes only what the ledger had open |
| PipelineTheorems.RepeatedRunExecutesOnlyPending | src/zcoder/services/continuous_engineering.py:206-252 | repeating a run with known work, seeded or discovered, executes only what the first left PENDING or lost in flight |
| PipelineTheorems.ClosedRecordsStay | src/zcoder/services/upgrade_state.py:110-147 | a run never touches a record that was closed when it began, however it ends |
| PipelineTheorems.SuccessSurvivesRuns | src/zcoder/services/upgrade_state.py:110-216 | over any number of runs on one file, killed between two replacements or not, finished work stays as it is and is never executed |
| PipelineTheorems.RunningSeedIsLost | src/zcoder/services/continuous_engineering.py:206-234 | a seed handed in as RUNNING or VALIDATING is never attempted, stored as PENDING, and the run reports COMPLETED |
| PipelineTheorems.BlockedSeedIsLost | src/zcoder/services/continuous_engineering.py:206-234 | a BLOCKED item seeded twice is reopened in the ledger, never attempted, in no list of the report, and the run reports COMPLETED |
| PipelineTheorems.FailingSourceLeavesRunning | src/zcoder/services/continuous_engineering.py:239-248 | a new RUNNING item yielded before a source fails is left RUNNING in the ledger |
| Resilience.CircuitBreaker.BeforeCall | src/zcoder/core/resilience.py:226-237 | an open breaker admits a call exactly after its reset timeout, and is then half open |
| Resilience.SuccessForgives | src/zcoder/core/resilience.py:239-250 | a success erases all failures: the breaker then stays closed until as many failures as its threshold follow, and opens with the last of them |
| Resilience.TrialDecides | src/zcoder/core/resilience.py:226-250 | a trial call closes the breaker when it succeeds and opens it for a whole reset timeout when it fails |
| Resilience.SecondTrialExactly | src/zcoder/core/resilience.py:226-250 | after a failed trial call another is let through within the reset timeout exactly if the error was foreign |
| Resilience.OutageBounded | src/zcoder/core/resilience.py:209-250 | calls that reach the dependency and fail with a library error within a time are at most the threshold plus one per reset timeout |
| Resilience.LibraryOutageBounded | src/zcoder/core/resilience.py:209-250 | without foreign errors this bounds all calls that reach it |
| Resilience.ForeignErrorsAllReach | src/zcoder/core/resilience.py:278-310 | a breaker that is not open lets every call through that fails with a foreign error |
| Resilience.DoubledIsPower | src/zcoder/core/resilience.py:257-260 | the cap before the maximum is the base delay times a power of two |
| Resilience.Uniform | src/zcoder/core/resilience.py:257-260 | a drawn delay lies between nothing and its cap, and may be any of those |
| Resilience.Retry | src/zcoder/core/resilience.py:263-317 | outcome, calls, delays and breaker are those of the specified retry, and so told by the attempts |
| Resilience.RetryTruthful | src/zcoder/core/resilience.py:278-317 | every attempt before the last was let through, failed with a retryable error and was followed by the delay that error asked for, or a drawn one; the last found the breaker open, succeeded, failed with a foreign error, or with one that is not retryable or had no attempt left; the breaker is left accordingly |
| Resilience.RetryBounded | src/zcoder/core/resilience.py:278-317 | at most max_attempts calls, a delay only between two calls and within its cap, and success exactly when the last call succeeds |
| Resilience.RetryIsPartOfOutage | src/zcoder/core/resilience.py:278-317 | the calls of a retry that never succeeds are those its breaker lets through, and leave the breaker as that stretch of an outage would |
| RunLease.CampaignsNeverOverlap | src/zcoder/services/maintenance_scheduler.py:113-180 | at most one holder between acquire and unlink, whose token the file holds, also between reading it back and removing it; no scheduler exceeds its cycles |
| RunLease.AbandonedLeaseStays | src/zcoder/services/upgrade_lease.py:34-40 | a lease left by a crash or a failed cleanup is never taken over |
| RunLease.UpgradeRunLease.Acquire | src/zcoder/services/upgrade_lease.py:53-91 | succeeds exactly on a free path with a written payload; a failed write is cleaned up if possible |
| RunLease.UpgradeRunLease.Release | src/zcoder/services/upgrade_lease.py:93-103 | removes the file only while it holds this token |
| RunLease.MaintenanceScheduler.RunCycle | src/zcoder/services/maintenance_scheduler.py:133-180 | one cycle is a sequence of steps of the shared machine; its result says whether the lease was acquired, exactly on a free path with a written payload, whether the campaign ran, also if only the outbox failed after it, and whether either raised |
| RunLease.MaintenanceScheduler.Run | src/zcoder/services/maintenance_scheduler.py:113-124 | cycle by cycle until stopped or at the limit, each result telling what became of its cycle |
| Campaign.SameWorkIffSameText | src/zcoder/services/maintenance_campaign.py:66-96 | two recommendations become the same work exactly when type, title, repository, priority and risk agree, up to case of the type and space around the title; ids play no part; only a blank title makes no work |
| Campaign.SameFingerprintIffSameAdvice | src/zcoder/services/maintenance_campaign.py:66-96 | two recommendations get one fingerprint exactly when they say the same |
| Campaign.WorkCarriesAdvice | src/zcoder/services/upgrade_loop.py:383-403 | the kind of work follows the type in any case; title, risk and repository are those of the recommendation, or their defaults |
| Campaign.PlainWorkFollowsIds | src/zcoder/services/upgrade_loop.py:383-403 | with the id in the payload, new ids always mean new work |
| Campaign.BuildSeed | src/zcoder/services/maintenance_campaign.py:137-141 | the first item of each content, in order, PENDING, never attempted, with priority and id of its recommendation; refused exactly if some title is blank |
| Campaign.SeedIsFirstAdvice | src/zcoder/services/maintenance_campaign.py:137-141 | with digests that do not collide, the seed is, in order, just the recommendations that say something no earlier one said, each as new work with two attempts |
| Campaign.CampaignCompletedIffAllDone | src/zcoder/services/maintenance_campaign.py:126-155 | no advice is lost: a campaign whose sources hand in plain work says COMPLETED exactly if every record of the ledger ends SUCCEEDED and no discovery failed |
| Offers.FirstOfEachHolds | src/zcoder/services/maintenance_campaign.py:137-141 | the seed holds each recommended content once and nothing else |
| Offers.FirstOfEachInOrder | src/zcoder/services/maintenance_campaign.py:137-141 | they are the items that are the first of their content, in their order |
| Campaign.RepeatedCampaignExecutesOnlyPending | src/zcoder/services/maintenance_campaign.py:126-155 | a campaign with the same advice, whose sources yield known work, executes only what the earlier one left PENDING or lost in flight |
| ZGpu.Compile | src/zgpu/compiler/ast_compiler.py:20-57 | a program exactly for one short line that parses as a supported operation on a and b, with that operation on those operands, and a last HALT |
| ZGpu.FieldPlaces | src/zgpu/isa/instructions.py:52-73 | opcode, target, sources and immediate begin at bits 0, 7, 14, 19 and 24 of a word |
| ZGpu.DecodeEncode | src/zgpu/isa/instructions.py:52-93 | decoding inverts encoding, and words have 32 bits |
| ZGpu.WordAfterStore | src/zgpu/simulator/memory.py:62-75 | a stored word is read back |
| ZGpu.LittleEndian | src/zgpu/simulator/memory.py:43-75 | the least significant byte of a word comes first |
| ZGpu.StoreLoadsBack | src/zgpu/simulator/sm.py:73-167 | what a lane stores it loads again from the same register and immediate |
| ZGpuCorrectness.LaneStep | src/zgpu/simulator/sm.py:73-167 | each instruction brings every register of a lane to what the next one expects |
| ZGpuCorrectness.StepFits | src/zgpu/simulator/sm.py:39-71 | a cycle of any warp keeps registers and memory as the program intends |
| ZGpuCorrectness.CompiledProgramComputes | src/zgpu/compiler/ast_compiler.py:20-57 | for every interleaving each output word holds sum, difference or product, as the expression asks, of its operand words, and all other memory is unchanged |
| CiRepair.GitHubOrchestrator.ExecuteCiRepairLoop | src/zcoder/services/github_orchestrator.py:383-454 | the loop is the specified one, for any provider and handler |
| CiRepair.RepairLoopSound | src/zcoder/services/github_orchestrator.py:392-454 | the handler is called just in rounds with a failed or timed-out check, at most max_repairs times; each continued repair was applied and changed the sha; positive exactly on green checks last read; otherwise the last event says why it gave up |
| RateLimit.RateLimiter.Check | webapp/backend/server.py:151-157 | one request against its bucket, which changes only on acceptance |
| RateLimit.BucketsRemember | webapp/backend/server.py:149-157 | a pruned bucket answers for everything ever accepted |
| RateLimit.BucketsBounded | webapp/backend/server.py:149-157 | no bucket ever holds more than the limit, nor anything that was not accepted |
| RateLimit.AcceptedExactlyBelowLimit | webapp/backend/server.py:151-157 | accepted exactly when fewer than the limit were accepted less than a window ago, counted one by one |
| RateLimit.NoWindowOverLimit | webapp/backend/server.py:146-157 | no window holds more accepted requests than the limit |
| InferenceQueue.LocalInferenceScheduler.Enqueue | src/zcoder/enterprise/local_ai_stack.py:837-842 | accepted exactly below the depth limit, then appended and stably sorted |
| InferenceQueue.LocalInferenceScheduler.Cancel | src/zcoder/enterprise/local_ai_stack.py:844-847 | all requests of an id are removed, and it says whether there were any |
| InferenceQueue.LocalInferenceScheduler.PopNext | src/zcoder/enterprise/local_ai_stack.py:849-852 | the front of the queue |
| InferenceQueue.EnqueueInserts | src/zcoder/enterprise/local_ai_stack.py:837-842 | appending and sorting an ordered queue is insertion behind everything of at least its priority |
| InferenceQueue.QueueServesInOrder | src/zcoder/enterprise/local_ai_stack.py:830-852 | pops serve the earliest arrival of highest priority, depth stays within the limit, and no request is lost or duplicated |

## Left out

- PipelineRuns.RunFits: for ids that are not empty and stand for one content each, as drawn ids do; what shared ids do to the loop is WorkKeptIffIdNotTaken.
- PipelineService.ContinuousEngineeringPipeline.Run: for a fresh pipeline object; the dictionary of a second run would start with the objects of the first.
- FleetBudget.ExecutionsBounded: for runs that do not retry blocked work; ExecutionsBoundedByRetries is the bound for all.
- FleetSimulation.RunSimulated: for iterations in which no rollback fails, as the pipeline passes none to its loop, and for a run between whose moves no other run moves.
- StoreLedger.EngineeringStoreUpgradeLedger.RecordCheckpoint: writes rows without a fence in between; a write the fence refuses in the middle of a checkpoint is part of the fleet machine.
- FileBudget.FileExecutionsBounded: for runs that do not retry blocked work and, for work new to the file, counted from no attempts.
- Resilience.OutageBounded: counts calls that fail with an error of the library; ForeignErrorsAllReach shows that other calls have no bound.
- ZGpuCorrectness.CompiledProgramComputes: floating-point arithmetic is an arbitrary function of two words; rounding, and the error the simulator raises when a result does not fit 32 bits, are not modelled.
- Work items are values: where the pipeline relies on the loop changing an object in its dictionary, the model puts the changed item there.
- In the fleet machine items are known by fingerprint alone, which stands for fresh ids; the sequential pipeline keeps ids and fingerprints apart.
- The pipeline passes no rollback to the loop, so the fleet checkpoints every attempt; the loop's own laws cover rollback.
- Hashes, UUIDs and advisory lock keys: fingerprints, ids and keys are compared, never computed; digests are taken to have no collisions.
- A ledger file that another program damages during a run: from then on every access fails to read, which the model lets each access do by itself.
- JSON and SQL text, temporary files and fsync: a write is one atomic step; ledger records carry all their fields, so defaults for missing ones do not appear, and a marker without a fingerprint counts as undecodable.
- The waiting loop of the lease file, whose clock only repeats the exclusive creation, and the counting of advisory locks taken twice in one session.
- Logging, observers, the outbox, campaign reports and the command line.
- The repository snapshotter and the internals of the executor: validation is an arbitrary callback.
- Assembly text, the other instructions of the processor, divergence, shared memory and cycle counts: the compiled program uses none of them; whether a string parses is given to the compiler.
- Model pools and the other compiler entry, whose code does not keep the claim one would want to state.
- ASCII stands for Unicode in trimming and upper-casing titles and types.
