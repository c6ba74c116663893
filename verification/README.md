# HybridOps blueprint lifecycle, modelled and proved

HybridOps deploys and tears down lab environments that are described by *blueprints*: lists of
steps, each a module with a lifecycle command, ordered by what they require. This project models
the engine behind them and proves what its design relies on:

- **Ordering and validation** (`Graphs`, `Ordering`, `Blueprint`): the depth-first step order, the
  reachability test that runs before cycles are excluded, and the relation checks.
- **State and runs** (`ModuleState`, `SingleRun`, `RunVerdicts`, `Teardown*`, `DestroyLoop`, `Preflight`,
  `Deploy*`, `Histories`): one lifecycle command with its write-ahead record, the preflight, deploy, destroy and
  rebuild runs. A run is observed as the sequence of its atomic effects; a crash leaves a prefix of it.
  The ghost account `holds` says which slots may have resources at the provider.
- **Authority** (`Authority`): the verdict on an operation from what a provider shows before and after.
- **Concurrent access sessions** (`Lock*`, `Session*`): the lock directory and the
  session record, as interleaved steps of any number of processes with a monotone clock.
- **Reconciliation and staging** (`Names`, `Discovery*`, `Migration`, `Members`, `LabImages`): the merge
  of discovered devices into the operator's file, and the import of lab archives.
- **Inputs and dependencies** (`Inputs`, `Dependencies`, `SharedInputs`): overlay, drift, pruning,
  imported outputs, shared or copied, and modules applied before a module.

What the outside world does (drivers, files that cannot be read or written, the clock, the operator's
interrupt) is an input of the modelled operation: every theorem holds for all its answers. Loops over
shared mutable objects are classes and methods proved against value-level functions, and the theorems
are about those functions.

## Where the code does not do what one would expect

Each of these is a lemma, by a concrete run or for all runs; where the code does meet the property under
a condition, the condition is proved exact or stated:

- A gate that fails does not stop a teardown when `fail_fast` is off
  (`GateIgnoredWithoutFailFast`, `FailedGateStopsIffFailFast`).
- A record that cannot be read makes a destroy run pass over a live machine and return 0
  (`UnreadableRecordLeaks`, `ZeroMeansGone`, `ZeroLeavesStandingIff`); and with `fail_fast` on it makes a gate be passed
  over before the machine that it guards is destroyed (`UnreadableRecordOpensTheGate`, `GateGuards`).
- A destroy that fails leaves the old "ok" record, unless it failed only after its final record was in
  place: then it reports the failure of a destroy that is done and recorded (`FailedDestroyKeepsRecord`,
  `TornDestroyReportsFailure`). An apply can fail in the same way over an "ok" record, and one that never
  called its driver can leave "running" (`FailureKeepsOutputs`, `TornApplyReportsFailure`).
- A failed apply loses the published outputs if the old record cannot be read
  (`UnreadableRecordLosesOutputs`, `FailureKeepsOutputs`).
- A failing optional step can take away a state that the preflight had read as ok
  (`OptionalStepBreaksThePlan`, `PlanHolds`, `OptionalMaySpoil`); and where two steps share a slot a
  deployment can return 0 over a required state in error (`SharedSlotBreaksZero`, `ZeroMeansDeployed`).
- The lock is not exclusive if `_clear_stale` is taken as separate steps, or if a process stalls for
  30 s while it holds the directory without an owner file (`SplitClearingBreaksExclusion`,
  `SlowMakerBreaksExclusion`); and a crash while the owner file is written blocks the lock for good,
  because the unfinished file keeps the directory from being removed (`CrashWhileWritingLitters`,
  `LitterBlocksForever`, `CrashBlocksIffTemped`).
- Final session states are not absorbing (`FinalIsLeftIff`, `OutdatedMeansOvertaken`), a handler can
  overwrite a newer session (`HandlerOverwritesNewerSession`, `HandlerOverwrites`,
  `OverwritingNeedsARace`), and a release that is done can end as "retained-after-failure"
  (`TornReleaseReadsAsRetained`, `OnlyTornReleasesAreUndone`).
- One discovery merge is not idempotent (`OnePassIsNotEnough`, `OnePassSufficesIff`), and swapped leases
  are never brought up to date (`SwappedHostsStaySwapped`); with two entries on one host the index falls
  out of step with the list (`SharedHostIsForgotten`, `MoveKeepsHostsExactIff`).
- `merge_mappings` is not associative (`OverlayDoesNotAssociate`, `AssociatesIffUnbroken`).
- Imported mappings are shared with the outputs, so that a later target below one of them changes other
  inputs too (`SharedMappingIsOverwritten`, `SharingIsHarmless`).
- Unchanged inputs can be reported as drifted (`SelfDriftIffHollowList`).
- A crash while the Containerlab "latest" set is published leaves it contradicting itself
  (`CrashTearsLatest`, `RerunRepairsLatest`).

## Assumptions of the model

- A single file is replaced atomically, though the call that replaces it may still raise afterwards, and
  slots map to paths injectively.
- A discovery reports distinct devices on distinct hosts where a theorem asks for it (`Distinct`): the
  parser of leases takes them as they are listed.
- A new session gets an id that was never used: the code draws four random bytes beside the time.
- Different blueprints have import records of their own: the code tells similar names apart by eight
  hexadecimal digits of a hash (`_record_slug`).
- A slot that is declared as destroyed with its parent holds resources only while the parent does
  (`HostsAgree`); hosting is transitive.
- Lock exclusion in `Session` is the one that `Lock` proves under its timing assumption; a lock whose
  owner crashed may be broken at any later time.
- Checksums are uninterpreted; bundle ids are injective.
- The store is not changed by others between a preflight and the deployment it belongs to, and between
  the steps of one run.

## Model

| member | source | states |
|---|---|---|
| `Ordering.Sorter.Dfs` | hyops/blueprint/schema.py:184-197 | The nested visit over the shared lists: it ends with the node and everything below it finished, each after its requirements, or reports a path that really closes a cycle, or an unknown reference; nothing finished before is lost. |
| `Ordering.Sorter.Leave` | hyops/blueprint/schema.py:193-197 | Leaving a node whose requirements are all visited keeps the finished list topological and takes exactly that node off the path. |
| `Ordering.TopologicalOrder` | hyops/blueprint/schema.py:178-202 | Total correctness: an order is returned exactly for an acyclic graph; it is a permutation in which everything a step requires, however indirectly, comes first, and equals the declaration order if that already works; a reported path ends in a real cycle. |
| `Ordering.CyclePathMeansCycle` | hyops/blueprint/schema.py:186-189 | The path in the cycle error proves that the graph is cyclic. |
| `Ordering.NeededIsDestroyedLater` | hyops/blueprint/command.py:6031-6031 | In the reversed order, whatever a step requires transitively comes after it. |
| `Ordering.DependencyOrder` | hyops/commands/_apply_helpers.py:356-382 | The list holds exactly the modules reachable by required edges, without the root, once each and after all they require themselves; otherwise a real cycle that the root leads to, or a missing reference, is named. |
| `Graphs.TopologicalImpliesAcyclic` | hyops/blueprint/schema.py:178-202 | A graph that can be listed with every node after its successors has no cycle, which is why an order and a cycle error exclude each other. |
| `Graphs.WalkBackIsCycle` | hyops/blueprint/schema.py:186-189 | A walk that returns to one of its own nodes contains a cycle through it. |
| `Blueprint.EdgesAreRequirements` | hyops/blueprint/schema.py:178-183 | The graph that is ordered has the ids of the steps as nodes, and exactly the requirements that they declare as edges. |
| `Blueprint.DependsOn` | hyops/blueprint/schema.py:852-864 | The worklist ends on every graph, cyclic or with unknown references, and answers true exactly if at least one edge leads to the required step. |
| `Blueprint.ValidateRelations` | hyops/blueprint/schema.py:849-892 | A blueprint is accepted exactly if ids are unique, references known, gates and subsumption well formed, observed intervals bound and the graph acyclic; acceptance carries an execution order, and a rejection names a defect that is there. |
| `Blueprint.ParseDefect` | hyops/blueprint/schema.py:535-538 | No defect is found while parsing exactly if step ids are unique and every observed step has an authority; a reported one is real. |
| `Blueprint.StepDefect` | hyops/blueprint/schema.py:866-888 | The relation checks of one step: none fails exactly if the step is sound, and a reported defect is really there. |
| `Blueprint.TeardownOrder` | hyops/blueprint/command.py:6031-6031 | In every accepted blueprint a subsuming parent, and everything a gate guards, comes later in the destroy order. |
| `ModuleState.Machine.WriteState` | hyops/commands/_apply_execute.py:225-240 | One atomic replacement of a slot record; the trace grows by exactly that effect. |
| `ModuleState.Machine.Starts` | hyops/commands/_apply_execute.py:429-440 | Control passes to the driver: from here on the slot may hold resources. |
| `ModuleState.Machine.Confirms` | hyops/commands/_apply_execute.py:509-591 | A confirmed destroy: the slot, and what it hosts, hold nothing. |
| `ModuleState.SafeAppend` | hyops/commands/_apply_execute.py:148-254 | A harmless effect keeps every crash point of a run safe: a slot that may hold resources never reads as gone. |
| `ModuleState.SafeConcat` | hyops/blueprint/command.py:5145-5509 | Runs that are safe at every crash point stay so when one follows the other. |
| `SingleRun.PersistFailure` | hyops/commands/_apply_execute.py:148-254 | What a failure writes: nothing for commands that do not create, nothing before the driver was in reach unless the module only reports status, else the old record turned to "error"; saving it may be lost, or raise once it is in place. |
| `SingleRun.StartFails` | hyops/commands/_apply_execute.py:429-507 | The start cannot be recorded for sure: its record may be in place all the same, the failure is recorded in turn only for modules that report a status, and the driver is never called. |
| `SingleRun.CallDriver` | hyops/commands/_apply_execute.py:429-507 | The start is on record before a creating driver is called; a destroy that returned ok is noted. |
| `SingleRun.RunSingle` | hyops/commands/_apply_execute.py:40-591 | The whole command agrees with its specification: return code, every effect in order, and the resulting state, for every answer of the outside world, a save that replaces the record and then raises included. |
| `SingleRun.RunInterrupted` | hyops/commands/_apply_execute.py:429-507 | A command that raises past every handler leaves exactly the effects that came before. |
| `SingleRun.RunStep` | hyops/blueprint/planner.py:27-50 | A step command as blueprint runs call it, with exceptions and the operator interrupt turned into return codes. |
| `SingleRun.SingleIsCrashSafe` | hyops/commands/_apply_execute.py:148-254 | Write-ahead: wherever the command is cut off, no slot that may hold resources reads as empty, absent or destroyed. |
| `SingleRun.StartIsRecordedFirst` | hyops/commands/_apply_execute.py:429-440 | A creating driver never starts before its slot reads "running". |
| `SingleRun.SuccessIsRecorded` | hyops/commands/_apply_execute.py:509-591 | Return code 0 leaves "ok" with exactly the published outputs, or "destroyed" with nothing left at the provider; plan and validate change nothing. |
| `SingleRun.OtherSlotsUntouched` | hyops/commands/_apply_execute.py:40-591 | All other records, statuses and slots stay as they were. |
| `SingleRun.FailedDestroyKeepsRecord` | hyops/commands/_apply_execute.py:509-591 | A destroy that does not return 0 keeps the old record exactly if it ended before its final record was in place; past that point the slot is recorded destroyed and holds nothing although a failure is reported. |
| `SingleRun.FailureKeepsOutputs` | hyops/commands/_apply_execute.py:148-254 | A failed creating command, short of its final record, keeps the outputs published before exactly if it placed no record or could read the old one; the status it leaves is that of the last record it placed, and without one nothing has changed. |
| `SingleRun.UnreadableRecordLosesOutputs` | hyops/commands/_apply_execute.py:172-179 | Failing input: an apply that fails while the old record cannot be read leaves the slot without the outputs it had. |
| `SingleRun.TornDestroyReportsFailure` | hyops/commands/_apply_execute.py:569-589 | Failing input: the evidence write after the final save raises, and a destroy returns 1 over a slot that is gone and recorded gone. |
| `SingleRun.TornApplyReportsFailure` | hyops/commands/_apply_execute.py:225-254 | Failing inputs: an apply returns 1 over a record that says "ok"; and one returns 1 without having called its driver, over a record that says "running". |
| `RunVerdicts.ReturnCodes` | hyops/commands/_apply_execute.py:40-591 | The code of a command from the answers alone: 0 exactly if its work is done and recorded, 130 exactly if the operator interrupted a call that it really was in, be it the preflight, the recording of its start or the driver, 2 exactly for an unfounded bypass, else 1. |
| `RunVerdicts.CutReturnCodes` | hyops/blueprint/planner.py:27-50 | Cut short by something that no handler catches, a step command returns 130 exactly if the operator did it, else 2, and never 0. |
| `RunVerdicts.CutLeavesPrefix` | hyops/blueprint/planner.py:27-50 | And it leaves exactly the effects that came before the cut. |
| `RunVerdicts.DriverIsReachedIff` | hyops/commands/_apply_execute.py:429-507 | The driver of a command that may create is handed its slot, and a destroy is confirmed, exactly if every check before it has passed and the start, where it matters, is on record. |
| `RunVerdicts.RecordThatStands` | hyops/commands/_apply_execute.py:148-254 | The whole store when a command ends: the record of its end, else of its failure, else of its start, each with every field and the exact condition, or the store as it was. |
| `RunVerdicts.ResourcesThatStand` | hyops/commands/_apply_execute.py:429-591 | What a command leaves at the provider: the resources of its slot if its driver was reached, nothing of them or of what they hosted if a destroy was confirmed, and no other change. |
| `DestroyLoop.StepResult.Update` | hyops/blueprint/command.py:6366-6372 | A child result is rewritten in place. |
| `DestroyLoop.DestroyRun.Rewrite` | hyops/blueprint/command.py:6319-6325 | Rewriting one result object is seen at its position in the step results, and only there, although the same object also sits in the deferred lists. |
| `DestroyLoop.DestroyRun.FinishChild` | hyops/blueprint/command.py:6305-6372 | One child of a confirmed parent: a record that cannot be read or replaced, or whose replacement raises once it is in place, fails it and lists it; otherwise its record is written destroyed and its result becomes subsumed. |
| `DestroyLoop.DestroyRun.FinishSubsumed` | hyops/blueprint/command.py:6303-6373 | All children of the parent are popped and settled, in order. |
| `DestroyLoop.DestroyRun.Defer` | hyops/blueprint/command.py:6447-6466 | The child result is appended and the same object is parked under its parent. |
| `DestroyLoop.DestroyRun.PopPending` | hyops/blueprint/command.py:6305-6305 | Popping a parent returns exactly its children and removes only its list. |
| `DestroyLoop.DestroyRun.NeedsGate` | hyops/blueprint/command.py:541-558 | A gate is required exactly if one of its direct requirements is live. |
| `DestroyLoop.DestroyRun.StepCommand` | hyops/blueprint/command.py:6487-6501 | The destroy command of one step, with what it raises turned into return codes. |
| `DestroyLoop.DestroyRun.SettleFailure` | hyops/blueprint/command.py:6524-6564 | A failed command is cancelled, excused or listed, and stops the loop exactly if cancelled or required under fail_fast. |
| `DestroyLoop.DestroyRun.Take` | hyops/blueprint/command.py:6376-6564 | One turn of the loop takes the branch that the specification takes, for every state of the records. |
| `DestroyLoop.DestroyRun.SweepAll` | hyops/blueprint/command.py:6566-6576 | The final sweep fails and lists, once each, every child that is still deferred. |
| `DestroyLoop.DestroyRun.Execute` | hyops/blueprint/command.py:6375-6634 | The loop over shared mutable result objects refines the value-level run: same results, lists, store, effects and return code. |
| `TeardownRun.LoopKeeps` | hyops/blueprint/command.py:6375-6564 | After any number of turns the results follow the order one by one, the deferred lists hold exactly the deferred results, and statuses only ever turn into "destroyed". |
| `TeardownRun.FinishKeepsBooked` | hyops/blueprint/command.py:6303-6373 | Settling a parent leaves the book of deferred results exact. |
| `TeardownRun.HaltedFreezes` | hyops/blueprint/command.py:6537-6564 | After a break nothing more happens. |
| `TeardownRun.LoopIsBacked` | hyops/blueprint/command.py:6375-6564 | Every reported result is backed by what happened: a subsumed child by a confirmed parent, a deferred one by a parent not confirmed since, a failed one by an entry in the failure list. |
| `TeardownRun.SweepFailsTheDeferred` | hyops/blueprint/command.py:6566-6576 | The sweep changes exactly the deferred results, into listed failures. |
| `TeardownTheorems.DeferralsAreSettled` | hyops/blueprint/command.py:6566-6580 | When a destroy run ends no result is deferred; a subsumed child is recorded destroyed and its parent was confirmed gone; every failure is listed. |
| `TeardownTheorems.SubsumedIffParentConfirmed` | hyops/blueprint/command.py:6303-6373 | In an accepted blueprint a deferred step ends subsumed exactly if its parent returned 0 in this run or was already destroyed or absent, and its own record could be read and replaced at the turn of the parent; otherwise it ends failed. |
| `TeardownTheorems.NestedDeferralFails` | hyops/blueprint/command.py:6447-6466 | A child whose parent is itself deferred always ends failed and listed. |
| `TeardownTheorems.LoopIsCrashSafe` | hyops/blueprint/command.py:6375-6564 | However far the loop got and wherever it is cut off, no slot that may hold resources reads as gone. |
| `TeardownTheorems.DestroyRunIsCrashSafe` | hyops/blueprint/command.py:6023-6634 | The same for the whole run with its sweep. |
| `TeardownVerdicts.GateGuards` | hyops/blueprint/command.py:6395-6431 | With fail_fast on and preservation not skipped, if a turn is taken after a gate then its command returned 0, or it was passed over, which is exactly if its own record reads as gone and every live step it directly guards had an unreadable record; what it guards comes later. |
| `TeardownVerdicts.UnreadableRecordOpensTheGate` | hyops/blueprint/command.py:541-558 | Failing input with fail_fast on: the record of the guarded machine cannot be read at the turn of the gate, the gate is passed over, the machine is destroyed at the next turn, and the run returns 0. |
| `TeardownVerdicts.FailedGateStopsIffFailFast` | hyops/blueprint/command.py:6551-6564 | After a required gate whose command fails, the run has a further result exactly if fail_fast is off and a step is left. |
| `TeardownVerdicts.GateIgnoredWithoutFailFast` | hyops/blueprint/command.py:6551-6564 | Counterexample with fail_fast off: the gate fails and the machine it guards is destroyed all the same. |
| `TeardownVerdicts.OwnResultStays` | hyops/blueprint/command.py:6404-6564 | A result that its own turn did not defer is final. |
| `TeardownVerdicts.SkipsLiveSlotIffUnreadable` | hyops/blueprint/command.py:6429-6445 | A slot that may hold resources is passed over as having no state exactly if its record could not be read. |
| `TeardownVerdicts.UnreadableRecordLeaks` | hyops/blueprint/command.py:6429-6445 | Counterexample: one unreadable record, and a destroy run returns 0 over a live machine. |
| `TeardownVerdicts.ZeroMeansGone` | hyops/blueprint/command.py:6632-6634 | Return code 0 means that every step had its turn and is recorded gone and holds nothing, unless it is openly excused, or was skipped as having no state because its own record could not be read at its own turn. |
| `TeardownVerdicts.ZeroLeavesStandingIff` | hyops/blueprint/command.py:6429-6445 | With a slot for each step, a run that returns 0 leaves a step that is not excused recorded as standing exactly if it was overlooked in that way and its record said that it stood. |
| `TeardownVerdicts.CostCleared` | hyops/blueprint/command.py:2952-2961 | Cleared exactly if no step is retained and every step slot reads destroyed or absent. |
| `TeardownVerdicts.ReleasedMeansEmpty` | hyops/blueprint/command.py:6592-6601 | "released" after a destroy run is said only when no step slot may still hold resources. |
| `TeardownReports.RunReports` | hyops/blueprint/command.py:6376-6564 | Every result of a run is what the declaration of its step, the records that its turn found and the answer to its command make it, each status and code exactly; what its turn deferred has been subsumed or has failed since, without a command of its own. |
| `TeardownReports.ExcusesAreDeclared` | hyops/blueprint/command.py:6376-6430 | A result is "retained" exactly if the step declares it and is not a gate that the run skips, "preservation skipped" exactly for such a gate, an excused failure only for an optional step whose command really failed. |
| `TeardownReports.LeftOutIsLeftAlone` | hyops/blueprint/command.py:6376-6400 | With a slot for each step, nothing in the whole trace touches the slot of a step that the plan leaves out, and its record is the one that the run found. |
| `TeardownReports.InterruptEndsTheRun` | hyops/blueprint/command.py:6537-6549 | The operator's interrupt ends the run at the step whose command it hit, whatever the step declares and whatever fail_fast says, and the run returns 130 then and only then. |
| `TeardownReports.RunStopsIff` | hyops/blueprint/command.py:6537-6564 | A run stops before its last step exactly at such an interrupt, or under fail_fast at a required command that failed. |
| `TeardownLists.ListsAreExact` | hyops/blueprint/command.py:6524-6580 | The required failures name exactly the steps that are reported failed, one by one, with their parent or by the sweep; the optional ones exactly those excused, in order. |
| `TeardownLists.SweptAreAddedOnce` | hyops/blueprint/command.py:6566-6576 | The final sweep lists a step once, and only if it was not listed before. |
| `TeardownLists.CodeIsExact` | hyops/blueprint/command.py:6632-6634 | The exit code from the report alone: 130 if a step was cancelled, else 2 if one failed, else 0. |
| `Preflight.PlanStep` | hyops/blueprint/planner.py:76-281 | Skipped exactly over an unchanged state recorded ok and, where asked for, verified; ready exactly if every check that applies passes and an existing state is not to be skipped. |
| `Preflight.ComputePreflight` | hyops/blueprint/planner.py:285-405 | A single blocked entry exactly if a Linux platform step needs the controller and it lacks its collections; otherwise every entry follows from the ones before it: held back by a blocked or deferred requirement, or planned against the states assumed so far; the failure lists are the blocked steps. |
| `Preflight.DeferredIffBlockedBelow` | hyops/blueprint/planner.py:350-380 | A step is deferred exactly if something it requires, directly or through others, is blocked. |
| `Preflight.BlockedIdsExact` | hyops/blueprint/planner.py:388-396 | The failure lists name exactly the blocked steps, each once, split by whether they are optional. |
| `Preflight.ClearMeansPlanned` | hyops/blueprint/planner.py:388-404 | Without required failures a required step that is not planned waits for a blocked optional one. |
| `DeployVerdicts.PlanIsDecided` | hyops/blueprint/planner.py:76-281 | Ready, skipped or blocked, decided on the records, the checks and the provider's answers alone; a step with an authority is ready only if the provider permits it. |
| `DeployVerdicts.ReportTells` | hyops/blueprint/planner.py:336-404 | Every entry of a report, exactly: held back by a blocked or held-back requirement, or decided by its own checks, with the states granted that earlier required steps of the plan are to reach. |
| `Deploy.RunCommands` | hyops/blueprint/command.py:5340-5428 | The command of a step, its single licence repair and its single retry, effect by effect. |
| `Deploy.RunTurn` | hyops/blueprint/command.py:5161-5447 | One turn: admission before or after the skip test as the observation policy asks, the skip path with its completion receipt, the command, and the receipt that can still fail it. |
| `Deploy.RunDeploy` | hyops/blueprint/command.py:5145-5509 | The step loop agrees with its specification in results, failure lists, store, effects and return code. |
| `DeployTheorems.TurnIsSound` | hyops/blueprint/command.py:5161-5447 | What one turn can do: commands only after admission, success only with the state recorded ok and the authority continuous, no status but the own one touched. |
| `DeployTheorems.DeployKeepsShape` | hyops/blueprint/command.py:5145-5161 | The results follow a prefix of the order, and all of it unless the run stopped. |
| `DeployTheorems.LoopIsAccounted` | hyops/blueprint/command.py:5449-5509 | Only the last entry can have stopped the run; every failure is listed and every listed failure is reported. |
| `DeployTheorems.FailFastMeansServed` | hyops/blueprint/command.py:5449-5509 | Under fail_fast, when a step has its turn every earlier one is ok or skipped, or an excused optional failure. |
| `DeployTheorems.RequirementsServedFirst` | hyops/blueprint/command.py:5145-5509 | Under fail_fast nothing runs before every required step it needs, however indirectly, is ok or skipped. |
| `DeployTheorems.CommandsOnce` | hyops/blueprint/command.py:5340-5428 | In a whole run no step command is started twice, except for one step of the licensed image module, and only if repairs are allowed. |
| `DeployTheorems.DriversStartOnce` | hyops/blueprint/command.py:5340-5428 | In the trace of a run a driver is started for a slot at most once for each step on that slot, except for one more start in the whole run, of a licensed step and only if repairs are allowed. |
| `DeployTheorems.ServedMeansContinuous` | hyops/blueprint/command.py:5235-5252 | In a validated blueprint a step with an observation policy is ok or skipped only with an "allow" on two valid observations of one scope from its own turn, the second not before the clock at completion, for whose interval the provider vouches, or with a "record" to which the policy consents from a provider that was ready at both ends and did not object. |
| `DeployVerdicts.TurnIsDecided` | hyops/blueprint/command.py:5161-5447 | When a turn runs its command, and how often, when it skips, and when it returns 0 or 130, each exactly, from what the step declares, the records it finds and the answers of provider and driver. |
| `DeployVerdicts.TurnDoes` | hyops/blueprint/command.py:5340-5428 | What a turn does to store and trace: nothing, its command, or after a stored repair its command twice. |
| `DeployVerdicts.RunTells` | hyops/blueprint/command.py:5161-5509 | Every result of a run is what its own turn made it, on the store that the turn found: status, code and receipt, each exactly. |
| `DeployVerdicts.DriversStartOnlyIfAdmitted` | hyops/blueprint/command.py:5300-5340 | In the trace of a run the driver of a slot is started only by the turn of a step on it whose requirements all read ok and whose authority, if it has one, permitted it; and a turn that gets as far as its driver is in the trace. |
| `DeployVerdicts.InterruptEndsTheDeployment` | hyops/blueprint/command.py:5449-5509 | A deployment stops before its end exactly at the operator's interrupt, or under fail_fast at a required failure, and returns 130 exactly for the interrupt. |
| `DeployVerdicts.RepairIsSpent` | hyops/blueprint/command.py:5340-5428 | The one licence repair is spent exactly if an earlier step met its conditions, and no two steps of a run use it. |
| `DeployVerdicts.CommandsAreExact` | hyops/blueprint/command.py:5340-5428 | The commands started in a run are exactly those that its turns call for, in order, two where the repair was stored. |
| `DeployVerdicts.ListsAreExact` | hyops/blueprint/command.py:5449-5509 | The failure lists are the failed steps of the report, required and optional, in its order. |
| `DeployVerdicts.CodeIsExact` | hyops/blueprint/command.py:5643-5645 | The exit code from the report alone: 130 if a step was cancelled, else 2 if a required one failed, else 0. |
| `DeployTheorems.DeployRunIsCrashSafe` | hyops/blueprint/command.py:5145-5509 | However far a deployment got and wherever it is cut off, no slot that may hold resources reads as gone. |
| `DeployTheorems.ServedStaysOk` | hyops/blueprint/command.py:5449-5509 | Once the last step to apply or deploy a slot has been served, the slot reads ok until the end of the run. |
| `DeployTheorems.PlanHolds` | hyops/blueprint/planner.py:336-404 | When a fail_fast deployment reaches a step, a state that its planning took for granted or saw is recorded ok, unless since then an optional apply or deploy was admitted to it and was not served; steps may share slots. |
| `DeployPlans.OptionalMaySpoil` | hyops/blueprint/command.py:5491-5499 | The exception is exact: past an admitted optional apply or deploy, some answers to that step alone make the same run reach the next step that asks for its state with the state in error. |
| `DeployPlans.OptionalStepBreaksThePlan` | hyops/blueprint/command.py:5491-5499 | Failing input: a re-applied optional step that fails takes away a state which planning had read as ok. |
| `DeployTheorems.ZeroMeansDeployed` | hyops/blueprint/command.py:5643-5645 | Return code 0: every step had its turn, every required one is ok or skipped, and every required apply or deploy has its state recorded ok, unless the last step to build that slot is an optional one that was not served. |
| `DeployPlans.SharedSlotBreaksZero` | hyops/blueprint/command.py:5491-5499 | Failing input: a required deploy succeeds, an optional one on the same slot fails after it, and the run returns 0 over a state in error. |
| `Histories.HistoriesAreSafe` | hyops/commands/_apply_execute.py:148-254 | Over any sequence of commands, deployments and teardowns, each crashed anywhere, a slot that may hold resources never reads as gone. |
| `Histories.NothingLiveIsPassedOver` | hyops/blueprint/command.py:6429-6445 | After any such history the destroy skip test never passes over a readable live slot. |
| `Histories.ReleasedIsTrue` | hyops/blueprint/command.py:2952-2961 | After any such history slots that read destroyed or absent hold nothing. |
| `Histories.RunRebuild` | hyops/blueprint/command.py:6767-6795 | The deployment of a rebuild starts only after a teardown that returned 0, hence only once everything is gone that was neither openly excused nor overlooked for an unreadable record of its own; the whole stays crash safe. |
| `Authority.Begin` | hyops/authority/resolver.py:45-116 | A session starts exactly from a bound provider that says it is ready and shows nothing that cannot be read, and under on_unverifiable=fail only if it shows an observation and proves that it can judge it; it starts from what the provider showed. |
| `Authority.Complete` | hyops/authority/resolver.py:118-316 | The verdict is the provider's: "allow" exactly if it vouches for the interval, stable and fresh, between two readable observations of one scope, the second not before the completion floor; "record" exactly if it leaves the interval open and the policy consents; an objection is denied under every policy. The receipt repeats what the provider said and showed. |
| `Authority.FailPolicyIsStrict` | hyops/authority/resolver.py:97-116 | Under on_unverifiable=fail a session starts only from a valid first observation, and passes exactly if the provider vouches for the interval. |
| `Lock.StepKeepsExclusive` | hyops/blueprint/access_session.py:243-331 | Every step of every process keeps the lock directory exclusive, under the stated timing and with stale clearing as one step. |
| `Lock.AtMostOneHolder` | hyops/blueprint/access_session.py:243-331 | For any number of processes, interleavings, crashes and exits at most one live process holds the lock, and the owner file is its own. |
| `Lock.OwnerLeavesByItselfOrDead` | hyops/blueprint/access_session.py:320-331 | Release removes only its own token: an owner file goes away by its own process, or after its process has died on the host that clears it. |
| `Lock.CrashedOwnerIsReplaced` | hyops/blueprint/access_session.py:265-288 | A lock left by a crashed process of the same host is taken over. |
| `Lock.SplitClearingBreaksExclusion` | hyops/blueprint/access_session.py:265-288 | Counterexample: with stale clearing in separate steps two live processes hold the lock. |
| `Lock.SlowMakerBreaksExclusion` | hyops/blueprint/access_session.py:269-276 | Counterexample: a process that stalls for 30 s before it writes its owner file shares the lock with the one that cleared it. |
| `Lock.LitterBlocksForever` | hyops/blueprint/access_session.py:265-288 | From a directory that holds the unfinished owner file of a dead process no run ever lets a process hold the lock again. |
| `Lock.CrashBlocksIffTemped` | hyops/blueprint/access_session.py:289-318 | In every state that processes can reach, a crash of the one that has claimed the directory blocks the lock exactly if it falls between writing and renaming the owner file; after any other, the next process of the same host gets the lock in one acquisition, at once if the owner file was in place and after 30 s if not. |
| `Lock.CrashWhileWritingLitters` | hyops/blueprint/access_session.py:299-316 | A crash between writing and renaming the owner file leaves such a directory. |
| `LockOperations.ClearOutcome` | hyops/blueprint/access_session.py:265-288 | A blocked process clears the directory exactly if its owner is dead on the same host, or it has had none for 30 s: the owner file goes, the directory only if nothing else is in it, and only then is there one more attempt. |
| `LockOperations.AcquireOutcome` | hyops/blueprint/access_session.py:289-318 | An acquisition of a free lock, undisturbed: the process holds it and the owner file says so. |
| `LockOperations.FailedAcquireOutcome` | hyops/blueprint/access_session.py:306-313 | One that fails while it writes its owner file, undisturbed, leaves no directory behind. |
| `LockOperations.BusyOutcome` | hyops/blueprint/access_session.py:289-298 | One that finds the lock of somebody who may be at work is refused and changes nothing. |
| `LockOperations.SplitClearingTakesAnyLock` | hyops/blueprint/access_session.py:265-288 | Taken apart, the clearing removes whatever lock is there by then, that of a live owner too. |
| `LockOperations.ReleaseOutcome` | hyops/blueprint/access_session.py:320-331 | A release by the owner, undisturbed, leaves no directory and an idle process. |
| `LockOperations.TakenFromItsPlace` | hyops/blueprint/access_session.py:289-331 | No operation skips a step: each can be taken exactly from the one before it, and a crash keeps the directory as it is. |
| `LockOperations.AtMostTwoAttempts` | hyops/blueprint/access_session.py:289-297 | Over every run a process tries to make the directory at most twice each time it enters. |
| `Session.EffectiveStatus` | hyops/blueprint/access_session.py:122-142 | A session counts as active or executing exactly if it is supervised and not final, and as overdue exactly if unsupervised past its deadline. |
| `SessionTheorems.StepKeepsSound` | hyops/blueprint/command.py:2750-2855 | Every step keeps mutual exclusion, one supervisor per session, and closed sessions closed. |
| `SessionTheorems.AtMostOneRelease` | hyops/blueprint/command.py:2760-2813 | Over every run each session dispatches its destroy at most once, only from a record read as active with the generation read beside it, and never if it is ever cancelled. |
| `SessionTheorems.NeverReleasedEarly` | hyops/blueprint/command.py:3561-3591 | With whole polls and whole extensions the recorded deadline has passed whenever a destroy is dispatched. |
| `SessionTheorems.SplitExtensionReleasesEarly` | hyops/blueprint/access_session.py:211-226 | Counterexample: an extension that tests and saves in two steps is destroyed a minute before its recorded deadline. |
| `SessionTheorems.FinalIsAbsorbingWithoutRecovery` | hyops/blueprint/access_session.py:194-208 | As long as no recovery handler has saved, a final state is left only by starting a new session. |
| `SessionTheorems.FinalIsLeftIff` | hyops/blueprint/command.py:2813-2828 | Which process can leave a final state, other than by starting a session, is decided by where it stands and what it holds; and it always recovers a failed expiry or holds a copy that the disk no longer matches. |
| `SessionTheorems.OutdatedMeansOvertaken` | hyops/blueprint/command.py:2813-2828 | Per run: a process whose copy the disk no longer matches was overtaken by the save of a recovery handler, and has been behind ever since. |
| `SessionTheorems.HandlerOverwrites` | hyops/blueprint/command.py:2814-2828 | A handler about to save overwrites another session exactly if the record bears another id; the supervisor of that session then stops watching at its next poll. |
| `SessionTheorems.OverwritingNeedsARace` | hyops/blueprint/command.py:2814-2828 | Such a handler was raced: after it had read the record, a start, another recovery, or a process overtaken by one put the other session there. |
| `SessionTheorems.HandlerOverwritesNewerSession` | hyops/blueprint/command.py:2814-2828 | Counterexample: the handler turns "cancelled" into "retained-after-failure" and overwrites a newer session, whose supervisor then stops watching. |
| `SessionTheorems.TornReleaseReadsAsRetained` | hyops/blueprint/command.py:2800-2828 | Failing input: a release that raises after it has been recorded is turned into "retained-after-failure" by its own handler. |
| `SessionReleases.OnlyTornReleasesAreUndone` | hyops/blueprint/command.py:2800-2828 | Over every run: a handler that stands before the recorded release of its own session recorded that release itself, in a save that raised once it was in place. |
| `SessionReleases.TornReleasesAreUndone` | hyops/blueprint/command.py:2800-2828 | From every state such a save leaves, the handler that goes on at once turns the release into "retained-after-failure". |
| `SessionReplacements.OnlyUnsupervisedIsReplaced` | hyops/blueprint/access_session.py:145-191 | Over every run and interleaving, a start replaces an active or executing session only if its own load, under the same hold of the lock, found that very session and was told that no supervisor runs. |
| `SessionReplacements.OnlySupervisedIsExtended` | hyops/blueprint/command.py:2909-2929 | Over every run an extension adds exactly its seconds, only to the active session that its load found supervised, only before its deadline and only in its own generation; another generation is marked stale. |
| `SessionReplacements.OnlyActiveIsCancelled` | hyops/blueprint/command.py:2930-2938 | Over every run a cancellation cancels exactly the active session that its load found. |
| `SessionOperations.LoadGoesOnIff` | hyops/blueprint/access_session.py:157-164 | Under the lock an operation goes on exactly if the record suits it: a start if no supervised session is under way, an extension of a supervised active one, a cancellation of an active one; else it gives the lock back and changes nothing. |
| `SessionOperations.BusyIsRefused` | hyops/blueprint/access_session.py:289-297 | Operators, expiries and leaving supervisors that find the lock held are refused and change nothing. |
| `SessionOperations.StartOutcome` | hyops/blueprint/access_session.py:145-191 | A start, undisturbed: refused over a supervised session, else exactly the new active record, and its supervisor watches. |
| `SessionOperations.ExtendOutcome` | hyops/blueprint/access_session.py:211-226 | An extension, undisturbed: refused, marked stale, left to its expiry, or given exactly the seconds asked for. |
| `SessionOperations.SplitExtendOutcome` | hyops/blueprint/access_session.py:211-226 | Taken apart, an extension saves what it tested, whatever the record has become since. |
| `SessionOperations.CancelOutcome` | hyops/blueprint/command.py:2930-2938 | A cancellation, undisturbed: refused unless the session on record is active, else exactly that one is cancelled. |
| `SessionOperations.RaisingOperationOutcome` | hyops/blueprint/command.py:2909-2949 | An operation that raises once it has loaded, undisturbed, has changed nothing, and the lock is free. |
| `SessionOperations.DueSessionIsReleased` | hyops/blueprint/command.py:2750-2813 | A session that is due, undisturbed: one dispatch for the record that said "active", the lock free again, and a record of how the destroy ended. |
| `SessionOperations.JudgeOutcome` | hyops/blueprint/command.py:2760-2800 | An expiry of another generation is marked stale and never destroyed for; the other is marked as executing before the destroy. |
| `SessionOperations.RecoveryOutcome` | hyops/blueprint/command.py:2813-2828 | The handler of a failed expiry marks its own session as retained, and no other one. |
| `SessionOperations.FailedExpiryOutcome` | hyops/blueprint/command.py:2800-2828 | An expiry that raises under the lock, undisturbed: its session is retained, any other record stays, and the lock is free. |
| `SessionOperations.InterruptedExpiryOutcome` | hyops/blueprint/command.py:3936-3960 | The operator's interrupt of an expiry, undisturbed: the lock is free, and the session is closed as asked for if it is still active. |
| `SessionOperations.LeaveOutcome` | hyops/blueprint/command.py:2835-2855 | A supervisor that leaves closes its own session if that is still active, and nothing else. |
| `SessionOperations.CrashedHolderOutcome` | hyops/blueprint/access_session.py:265-288 | A process that crashes with the lock changes nothing else, and its lock can be broken from then on. |
| `SessionOperations.WorldOutcome` | hyops/blueprint/command.py:3561-3591 | Between any two steps the clock may go on, and the resources may get another generation. |
| `SessionOperations.TakenFromItsPlace` | hyops/blueprint/command.py:2750-2855 | No session operation skips its check or its load: each step can be taken exactly from the one before it. |
| `Names.UniqueName` | hyops/blueprint/automation_access.py:348-352 | The naming loop ends for every set of taken names and finds the base or its first free suffix. |
| `Names.NameAll` | hyops/blueprint/automation_access.py:58-65 | The names of one discovery are distinct, each the first free one at its turn. |
| `Names.DecimalIsInjective` | hyops/blueprint/automation_access.py:351-352 | Different suffixes give different names, which is why the loop ends. |
| `Names.DecimalReadsBack` | hyops/blueprint/automation_access.py:351-352 | A suffix is its number in decimal digits without a leading zero: it reads back. |
| `Names.SuffixFollowsName` | hyops/blueprint/automation_access.py:351-352 | A suffix follows a hyphen after the name, or after its first 58 characters. |
| `Discovery.Prune` | hyops/blueprint/automation_access.py:285-306 | Exactly the entries that their own discovery no longer reports are dropped; the flag says whether any was. |
| `Discovery.BuildIndex` | hyops/blueprint/automation_access.py:308-326 | The identity index refers to the very entries of the list, the sets hold their hosts and names. |
| `Discovery.Relocate` | hyops/blueprint/automation_access.py:334-343 | A known entry is changed in place, seen through the list, and only if the new host is free. |
| `Discovery.Enroll` | hyops/blueprint/automation_access.py:344-370 | A new device on a free host becomes one new entry under a free name. |
| `Discovery.MergeDiscovered` | hyops/blueprint/automation_access.py:257-381 | The merge over shared mutable entries agrees with the value-level pass: list, added names, and whether the file is rewritten. |
| `DiscoveryTheorems.OffersKeepStep` | hyops/blueprint/automation_access.py:308-370 | In a file with unique hosts and identities the index sets say exactly what the list says, after every candidate. |
| `DiscoveryTheorems.PassKeepsTidy` | hyops/blueprint/automation_access.py:285-370 | A pass keeps hosts and identities unique and leaves no withdrawn entry. |
| `DiscoveryTheorems.PassKeepsMatched` | hyops/blueprint/automation_access.py:329-370 | A matched device stays matched from one pass to the next. |
| `DiscoveryTheorems.PassMatchesMore` | hyops/blueprint/automation_access.py:329-370 | A pass over a current file that changes it matches a device that was not matched before. |
| `DiscoveryTheorems.WrittenIffChanged` | hyops/blueprint/automation_access.py:372-381 | The file is rewritten exactly if its content changes. |
| `DiscoveryTheorems.MergeConverges` | hyops/blueprint/automation_access.py:285-381 | At most one pass more than there are devices changes anything. |
| `DiscoveryTheorems.OpenMeansHeld` | hyops/blueprint/automation_access.py:334-345 | In a settled file each unmatched device has its host held by another entry. |
| `DiscoveryTheorems.OnePassIsNotEnough` | hyops/blueprint/automation_access.py:329-370 | Counterexample: a chain of moved leases takes two passes. |
| `DiscoveryTheorems.SwappedHostsStaySwapped` | hyops/blueprint/automation_access.py:334-343 | Two leases that swapped their hosts are never brought up to date. |
| `DiscoveryTheorems.SharedHostIsForgotten` | hyops/blueprint/automation_access.py:334-343 | Why hosts must be unique: when one of two entries on a host moves away, a new device is entered on the host of the other. |
| `DiscoveryTheorems.MoveKeepsHostsExactIff` | hyops/blueprint/automation_access.py:334-343 | A move keeps the set of held hosts exact exactly if no other entry is on the host that is left. |
| `DiscoveryTheorems.LeftHostIsReissued` | hyops/blueprint/automation_access.py:334-370 | Otherwise the next new device on that host is entered beside the entry that is still there. |
| `DiscoveryEntries.RetainedIsExact` | hyops/blueprint/automation_access.py:285-306 | A merge first drops exactly the entries that their own source, having reported devices, no longer reports, and keeps the order of the others. |
| `DiscoveryEntries.OperatorsEntryStays` | hyops/blueprint/automation_access.py:285-306 | An entry of the operator's own is never dropped. |
| `DiscoveryEntries.IndexedIsExact` | hyops/blueprint/automation_access.py:308-326 | For every file the index holds the last entry under each identity, and the sets exactly the hosts and names in use. |
| `DiscoveryEntries.OfferOutcome` | hyops/blueprint/automation_access.py:329-370 | One candidate, field by field: a known device moves to a free host, an unknown one gets an entry on a free host under the first free name, and nothing else changes. |
| `DiscoveryEntries.NewEntryIsFoundAgain` | hyops/blueprint/automation_access.py:308-370 | What a merge enters for a device, the next merge finds again under the identity of that device. |
| `DiscoveryEntries.NewNamesAreTheirOwn` | hyops/blueprint/automation_access.py:344-381 | A merge reports the names of the new entries in order, and no new name is the name of another entry. |
| `DiscoveryOnePass.OnePassSufficesIff` | hyops/blueprint/automation_access.py:329-370 | One pass settles a current file exactly if no device was discovered on a host that a device further down the list gives up, which is told from file and discovery alone. |
| `Inputs.MergeMappings` | hyops/blueprint/common.py:28-35 | The overlay loop computes, key by key, the recursive overlay of two mappings. |
| `Inputs.DriftDetail` | hyops/blueprint/contracts.py:109-129 | The detail is empty exactly if everything the current inputs say is said by the baseline; otherwise its path leads to a real difference. |
| `Inputs.NoDriftIffNoOp` | hyops/blueprint/contracts.py:109-129 | There is no drift exactly if overlaying the current inputs on the baseline changes nothing. |
| `Inputs.DriftIsTransitive` | hyops/blueprint/contracts.py:109-129 | If a says no more than b and b no more than c, then a says no more than c. |
| `Inputs.DriftIsReflexive` | hyops/blueprint/contracts.py:109-129 | Inputs never drift from themselves. |
| `Inputs.DriftIsAntisymmetric` | hyops/blueprint/contracts.py:109-129 | Inputs that do not drift from each other are equal: no drift is a partial order. |
| `Inputs.NoDriftFromOverlay` | hyops/blueprint/common.py:28-35 | Inputs never drift from what they have been overlaid on, whatever the defaults. |
| `Inputs.AssociatesIffUnbroken` | hyops/blueprint/common.py:28-35 | Overlaying associates exactly for triples in which no other value stands between two mappings of which the outer would shine through. |
| `Inputs.OverlayDoesNotAssociate` | hyops/blueprint/common.py:28-35 | Counterexample: a number between two mappings. |
| `Inputs.PruneFixesSolid` | hyops/blueprint/contracts.py:132-159 | Pruning leaves a value as it is exactly if it holds nothing empty at any depth. |
| `Inputs.PrunedIsSolid` | hyops/blueprint/contracts.py:132-159 | Pruning leaves nothing to prune. |
| `Inputs.SelfDriftIffHollowList` | hyops/blueprint/contracts.py:210-231 | Unchanged inputs are reported as drifted exactly if one of their lists holds something that pruning drops. |
| `Inputs.PrunedAwayIff` | hyops/blueprint/contracts.py:132-159 | Pruning leaves nothing of a value exactly if it says nothing at any depth. |
| `Inputs.KeptIffSaysSomething` | hyops/blueprint/contracts.py:132-159 | A key is kept exactly if its value says something. |
| `Inputs.InputsChanged` | hyops/blueprint/contracts.py:210-231 | Changed exactly if both sides say something and the pruned inputs are not covered by the baseline. |
| `Dependencies.SetThenGet` | hyops/runtime/module_inputs.py:28-36 | A value that has been set is read back at its path. |
| `Dependencies.SetElsewhere` | hyops/runtime/module_inputs.py:28-36 | Setting one path leaves every path that neither extends it nor is extended by it. |
| `Dependencies.SetNearby` | hyops/runtime/module_inputs.py:28-36 | Setting a path above another replaces what is below; setting one below turns it into a mapping. |
| `Dependencies.DotsImportEverything` | hyops/runtime/module_inputs.py:39-61 | Every output key of dots only, unless published itself, yields every output at once. |
| `Dependencies.LookedUpBy` | hyops/runtime/module_inputs.py:39-61 | A published key is looked up as it is, dots or not; only a key that is not published leads through its dotted parts into mappings. |
| `Dependencies.ImportsStayReadable` | hyops/runtime/module_dependencies.py:258-272 | With targets none of which extends another, every imported value is readable at its input at the end. |
| `Dependencies.ReadableIffLastDelivers` | hyops/runtime/module_inputs.py:28-36 | With values that are copied, over any sequence of assignments, a value other than a mapping is read at a path in the end exactly if the last assignment whose target lies on the path, above it or below, delivers it there. |
| `Dependencies.UntargetedReadsNothing` | hyops/runtime/module_inputs.py:28-36 | A path that no target lies on, above or below reads as nothing. |
| `SharedInputs.DictStore.SetNested` | hyops/runtime/module_inputs.py:28-36 | The loop over dictionaries as objects: it changes the very dictionaries on the way, makes the missing ones, and puts the value itself, not a copy, at the last key. |
| `SharedInputs.PutLooks` | hyops/runtime/module_inputs.py:28-36 | On such objects every path reads the value, a dictionary above it, or what it read before, as long as the way does not enter a dictionary of the outputs. |
| `SharedInputs.SharingIsHarmless` | hyops/runtime/module_dependencies.py:258-272 | If no target lies strictly below that of an earlier import that brought a mapping, the inputs read along every path as if every value had been copied, and no output changes. |
| `SharedInputs.SharedReadsIffLastDelivers` | hyops/runtime/module_dependencies.py:258-272 | Under that condition the shared inputs read a plain value at a path exactly if the last import whose target lies on the path, above it or below, delivers it there. |
| `SharedInputs.SharedMappingIsOverwritten` | hyops/runtime/module_dependencies.py:258-272 | Failing input without it: a target below one imported mapping changes what another input, and the outputs, share with it. |
| `Dependencies.ImportAll` | hyops/runtime/module_dependencies.py:258-272 | One dependency: all outputs found are set, the missing ones are counted. |
| `Dependencies.ResolveDependencies` | hyops/runtime/module_dependencies.py:191-284 | The resolution fails exactly if a required dependency that is not planned is unreadable or lacks an output; otherwise the inputs are all that was found, set in order. |
| `Dependencies.RequiredDependencies` | hyops/commands/_apply_helpers.py:327-353 | The required references, each once, in the order of their first mention. |
| `Dependencies.RunWithDependencies` | hyops/commands/apply.py:144-204 | The dependencies have their turns in order, each skipped exactly if its record can be read and says ok and redoing was not asked for, up to the first that does not return 0, whose code ends the run; only then does the command run, over dependencies that are all recorded ok at the same time; effect by effect, and no other record is touched. |
| `Dependencies.RunModule` | hyops/commands/apply.py:100-204 | With dependencies asked for, exactly the modules required however indirectly have their turns, each after what it requires; a cycle or unknown module, and nothing else, stops the command before anything has happened; otherwise it runs as its dependencies let it. |
| `Migration.CopyVerified` | hyops/lab/migration.py:2265-2342 | Success exactly if the file is already there or what is read again has the inspected checksum; then the file has it, other files are unchanged, and every state on the way keeps all records sound. |
| `Migration.PublishLatest` | hyops/lab/migration.py:2201-2262 | Published exactly if forced, if nothing was there, or if a complete set of the same checksum was; the three writes come in order. |
| `Migration.CrashTearsLatest` | hyops/lab/migration.py:2233-2257 | A crash within publishing, the first time or over a sound set, leaves a set that is incomplete or contradicts itself exactly if the set before did not name this checksum. |
| `Migration.RerunRepairsLatest` | hyops/lab/migration.py:2220-2232 | Running the import again without force is admitted exactly if the markers not yet rewritten were there. |
| `Migration.RefusedBeforehandIff` | hyops/lab/migration.py:2376-2500 | What is refused before anything is written, and for what reason: the first of six obstacles, each written out on the disk and the request. |
| `Migration.UnforcedKeepsBundles` | hyops/lab/migration.py:2466-2482 | Without force no existing record comes to stand for other files than it did. |
| `Migration.CopyAll` | hyops/lab/migration.py:2520-2555 | All parts are staged exactly if each can be copied, else the first that cannot is named; no file outside the directory of the bundle is touched. |
| `Migration.StageArchive` | hyops/lab/migration.py:2362-2600 | Staged exactly if none of ten obstacles stands in the way, each written out on the disk and the request, and refused for the first that does; without force every record keeps standing for the files it stood for; at every point before the last write the old records stand and name only existing files with matching checksums; after it, loading yields exactly the staged paths and checksums. |
| `Migration.LoadedIffIntact` | hyops/lab/migration.py:2675-2731 | On any disk, damaged ones included, a load yields what the record names exactly if the record is the blueprint's own, for its platform, and every file it names is there under its checksum. |
| `Migration.CrashLoadsTheOld` | hyops/lab/migration.py:2675-2731 | At whatever point of a staging a crash falls, before its last write, every blueprint loads what it loaded before. |
| `Members.AcceptedIsNormal` | hyops/lab/migration.py:557-568 | An accepted member name keeps its components, none of which leads upwards, and normalising it again changes nothing. |
| `Members.SameNameSamePath` | hyops/lab/migration.py:571-587 | Two accepted names are equal after normalisation exactly if they denote one path. |
| `Members.ExtractionStaysInside` | hyops/lab/migration.py:557-568 | Walking the components of an accepted name never leaves the root. |
| `Members.RefusedIff` | hyops/lab/migration.py:557-568 | A member name is refused exactly for a backslash, a leading slash, or a component that leads upwards. |
| `Members.SafeMembers` | hyops/lab/migration.py:571-591 | Accepted exactly if there is at least one member and at most 200000, all are files or directories with acceptable names, and no two share a path. |
| `LabImages.SelectImages` | hyops/lab/migration.py:971-1001 | No flaw exactly if every path is supported, unlicensed and laid out as an image; the selection is exactly the images that the files make up. |
| `LabImages.LicenceIff` | hyops/lab/migration.py:971-1001 | A path is licence material exactly if it spells one of two names, letter by letter in either case. |
| `LabImages.ImageOfIff` | hyops/lab/migration.py:971-1001 | A file belongs to an image exactly by its components: in the directory of a QEMU image, or as the single file of another. |
| `LabImages.PlainIff` | hyops/lab/migration.py:1003-1043 | A reference is safe exactly if it is one plain name: not empty, not a dot or two, without either slash. |
| `LabImages.InspectImages` | hyops/lab/migration.py:954-1043 | Accepted exactly if every reference is met by an image in the archive and every image in the archive by a reference, and every path is sound; a flaw that is reported is there. |

## Left out

- Command line parsing, prompts, progress display, printing and JSON rendering: user interface only.
- Drivers, SSH, tunnels, gcloud, Vault, HTTP and subprocess calls: foreign effects, which are inputs here.
- YAML, JSON, tar and XML decoding and SHA-256: parsed values are inputs, checksums uninterpreted.
- Aliases of module references on reads, and legacy state paths: not needed for the properties.
- Field formats in `validate_blueprint` (ports, CIDRs, patterns, presentation): long but branch-local.
- `with_deps` of a blueprint step: its dependencies are single commands, which `Histories` covers, but the
  deploy run models the step's own command only.
- Whether the old record of a slot can be read is one answer for a whole command, though it is read up to
  twice.
- The lab restore phase after a deploy loop, archive capture, and the evidence records of a run.
- An exception while the inputs of a step are compared with its baseline: it ends the command before any
  further step, which the crash points of a run cover.
- How `resolve_module` and the required environment decide: one answer each in `Preflight.Checks`.
- Authority declarations, capabilities and registries: one flag, `bound`, in `Authority.Provider`.
- Python's equalities between booleans and numbers, and mapping keys that are not strings, in `Inputs`.
- The order in which a drift detail visits keys: `Inputs.DriftDetail` proves any order right.
- Dependencies.SetNested: works on values; `SharedInputs` has the same on objects.
- Dependencies.ImportAll: works on values; imported mappings are shared with the outputs instead, which
  makes no difference under the condition of `SharedInputs.SharingIsHarmless`.
- Dependencies.ResolveDependencies: works on values in the same way.
- Dependencies.ReadableIffLastDelivers: works on values in the same way;
  `SharedInputs.SharedReadsIffLastDelivers` is the statement about shared objects.
- Rows of the target file that are not mappings: the merge keeps and ignores them.
- Reuse of process ids, which can only keep a stale lock longer, and locks of other hosts, which are
  never cleared.
- The lock and session operations are modelled as steps of processes, not as objects with methods: what
  matters about them is their interleaving.
- The disk space estimate of an import: one flag. Temporary files of a staged copy: they are never read.
- How it is found out whether a supervisor runs: an arbitrary answer at each load, so that the session
  theorems do not depend on it.
