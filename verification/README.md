# SoloDock: a verified model of its crash-safe protocols

SoloDock is a control plane for containers on one host. Its state is split between
SQLite ledgers and a file system, and it must survive errors, crashes and power loss
at any step. This project models the parts where that is hard, in Dafny, and proves what
they keep over every run. `dafny verify dfyconfig.toml` checks everything.

## How the model is built

The file system and the database are external to SoloDock, so they are a value that each
step takes and returns: a `World` for cleanup, a `Machine` elsewhere. Every primitive
effect (a rename, an unlink, a directory sync, a transaction, an engine call) consumes
one entry of a schedule of faults. The effect may be reported as failed, or the process
may die, each before or after the effect took place. A method that is verified for an
arbitrary schedule is verified for every way of being interrupted, and with the empty
schedule it runs undisturbed. Power loss is modelled by a log of file system states: a
directory sync makes everything durable up to the last operation on that directory, and
a power loss keeps any prefix of the rest. Objects whose methods update them in place
(`Gate`, `CredentialGuard`, `SessionRow`) are classes.

| file | component |
|---|---|
| `CleanupModel`, `CleanupSteps` | ledger, trash directory and store; the invariant; each step keeps it |
| `CleanupReferences` | references of releases to revisions |
| `CleanupEffects`, `CleanupDetach`, `CleanupLoop`, `CleanupExecution` | `execute_artifacts` under faults: primitive effects, one item, the loop, a whole run |
| `CleanupRetirement` | the recorded proof, destruction of the payload, retirement |
| `CleanupTheorems` | what the invariant means; whole histories; when a resumed run keeps references |
| `Retention`, `Protection`, `Planner`, `PlannerStability`, `Sorting` | the cleanup planner and its stability |
| `ProtectionRules` | the protection rules in the terms of the deployment rows, and what they mean for a plan |
| `CleanupPlanning` | reservations, admission and resumption: planner and protocol together |
| `CleanupProgress` | operations in motion, and when an operation can be resumed |
| `CleanupHistory` | whole histories with the planner inside; finishing everything; the lost reference |
| `ImageSchedule`, `ImageRemoval` | automatic image cleanup: fair batches, write-ahead removal |
| `Promotion` | active and pending links and metadata |
| `StreamCounters`, `StreamState`, `StreamGate` | stream permits, shutdown and deletion barriers |
| `Throttle`, `Session` | credential throttle and session expiry |
| `Environment` | environment file printer and parser |
| `Lifecycle` | restart at most once |
| `FileTree` | two ways of measuring an artifact |
| `Artifacts`, `Faults` | shared values and faults |

## Main results

- Over every history of publications, runs, resumptions, retirements and power losses,
  under every schedule of faults, `CleanupTheorems.PerformAll` keeps one invariant. Until
  its operation is finished and proved, each planned artifact is in exactly one of its two
  places. Two unretired operations never reserve the same artifact. A payload is destroyed
  only under a response that equals the ledger. Nothing disappears that no operation took.
- The same holds from an empty store with the planner inside (`CleanupHistory.HandleAll`):
  requests by an administrator or a policy are planned, admitted, run and resumed on what
  the planner says at that moment. An admitted request that nothing disturbs takes exactly
  its plan; a resumed one ends each item as the fresh plan decides. If every release is published with its revision present
  and unreserved, no release ever loses its revision, in no state that a power loss can
  leave; nothing else has to be assumed of a plan. A release that is published onto a
  reserved revision can lose it in a resumed run
  (`CleanupHistory.LateReleaseLosesRevision`), and `CleanupTheorems.ExecuteUndisturbed`
  gives the exact condition.
- Cleanup never gets stuck. In every world of every history at most one operation has moved
  an item without recording it. An unfinished operation can be resumed exactly if the
  records are consistent, what they protect is present, and no other operation is in motion
  (`CleanupProgress.CanResumeIff`). So while the records are consistent and what they protect
  is present, one always can, and resuming one after the other retires all of them while
  exactly the same stays protected (`CleanupHistory.FinishAll`).
- What a plan takes is expendable in the terms of the deployment rows: not in use, not what
  an unfinished deployment refers to, and neither among the newest successes that the policy
  keeps nor among the three latest candidates of the window
  (`ProtectionRules.PlannedReleaseIsExpendable`).
- Repeated cleanup, manual or automatic, complete or partial, never changes what the
  planner protects and never loses a reference it needs
  (`PlannerStability.RepeatedCleanupErodesNothing`).
- With n eligible images, ceil(n/100) automatic passes attempt all of them, each exactly
  when its rank says (`ImageSchedule.TurnComes`, `ImageSchedule.AttemptAll`).
- At most eight failed verifications fall into any half-open quarter of an hour. Five per
  started quarter of an hour is not a bound for every span (`Throttle.EightInOneMinute`):
  `Throttle.FivePerQuarterIff` says after exactly which failures it is, and
  `Throttle.SpanBound` gives the bound for all spans.
- Whatever the surroundings do short of starting the container themselves, a restart and all
  its retries start at most once, and success is answered only after a start of the
  container that the marker names. The start command names the service, so a container that
  replaces it is started instead (`Lifecycle.ReplacedBeforeStart`). The start is of the
  marked container if and only if nothing replaces it between the check that it stopped and
  the start (`Lifecycle.Request`).
- Stream permits and counters agree after every call, and the token of an application is
  cancelled exactly if the application is closed or the process shuts down. Deletion barriers hold
  only one at a time: dropping one of two reopens the application
  (`StreamGate.TwoBarriersReopen`), and dropping the second leaves a stream that no later
  deletion cancels (`StreamGate.TwoBarriersLoseStream`). `StreamGate.Gate.DropBarrier` says
  exactly when a drop keeps the other barriers and the streams.

## Model

| member | source | states |
|---|---|---|
| CleanupHistory.HandleAll | src/api/storage_cleanup.rs:245-390 | in every history from an empty store, with planning, admission and resumption inside, each world is made from the one before as its event says and satisfies the invariant, no release identifier is used twice and at most one operation is in motion; everything recorded is final; and if releases are published safely, no release loses its revision in any state a power loss can leave |
| CleanupHistory.Handle | src/retention.rs:214-271 | one event of any kind, under any faults, does what it says or is refused and changes nothing, and keeps all of that |
| CleanupHistory.HandleRequest | src/api/storage_cleanup.rs:271-371 | a request is refused unchanged or publishes the current plan and runs it: under any faults nothing outside the plan leaves the store, and undisturbed all of it is detached, gone from the store and retired |
| CleanupHistory.FirstRun | src/cleanup_execution.rs:13-200 | the first run of a plan takes nothing else, and undisturbed it takes all of it and ends retired |
| CleanupHistory.HandleResume | src/api/storage_cleanup.rs:350-371 | an operation is resumed exactly if the rules hold and no other operation is in motion; it takes only what is free, nothing for a disabled policy, and undisturbed it ends retired with each item as the fresh plan decides |
| CleanupHistory.FinishAll | src/retention.rs:355-380 | from every world of every history in which the rules hold, resuming one operation after the other finishes and retires all of them; the rules still hold, and the same artifacts are protected for the same reasons |
| CleanupHistory.FinishOne | src/storage_cleanup.rs:140-151 | as long as something is unfinished, something can be resumed, and then less is unfinished |
| CleanupHistory.RulesRemain | src/storage_cleanup.rs:783-926 | taking away what a resumed run may take leaves the records consistent and what they protect present |
| CleanupHistory.LateReleaseLosesRevision | src/storage_cleanup.rs:140-151 | the failing case: the planner plans an unused revision, a release naming it is published, the fresh plan offers exactly both, and the resumed run ends with the release in the store and the revision gone |
| CleanupProgress.CanResumeIff | src/storage_cleanup.rs:341-361 | an unfinished operation can be resumed exactly if the rules hold and no other operation has moved an item without recording it |
| CleanupProgress.SomeCanResume | src/storage_cleanup.rs:341-361 | if the rules hold and anything is unfinished, some operation can be resumed |
| CleanupProgress.InPlaceIffStill | src/storage_cleanup.rs:341-361 | everything reserved by other operations is in its place exactly if none of them is in motion |
| CleanupProgress.RunMovesOne | src/cleanup_execution.rs:41-168 | a run, interrupted anywhere, puts no operation in motion but its own |
| CleanupProgress.PublishMovesNothing | src/api/storage_cleanup.rs:392-448 | a plan is published only while nothing is in motion |
| CleanupTheorems.PerformAll | src/cleanup_execution.rs:13-200 | in every history of calls, faults and power losses each world is made from the one before as its call says and satisfies the invariant, recorded items, proofs and retirements are final, and if every call is safe no release loses its revision in any state a power loss can leave |
| CleanupTheorems.Perform | src/cleanup_execution.rs:13-200 | one call of any kind, under any faults, has its effect or is refused, keeps the invariant, continues every ledger row and, if safe, keeps every reference |
| CleanupTheorems.EverythingGoes | src/cleanup_execution.rs:41-168 | a plan of which nothing is recorded and everything is eligible is detached completely |
| CleanupTheorems.Conservation | src/cleanup_execution.rs:41-168 | until its operation is finished and proved, a planned artifact is in exactly one of store and payload, unchanged; detached means payload, failed means store, and only the first unrecorded item may be moved and unrecorded |
| CleanupTheorems.DestructionNeedsProof | src/storage_cleanup.rs:490-587 | a detached payload that is gone belongs to a terminal operation whose recorded response equals the ledger and tells the truth about every item, and whose retirement was recorded |
| CleanupTheorems.StillIdentified | src/app_store/cleanup.rs:197-279 | an unretired operation that moved anything is identified by its marker, its retired marker or its pending retirement in every state a power loss can leave |
| CleanupTheorems.RetiredLeavesNothing | src/app_store/cleanup.rs:447-505 | a retired operation has nothing in the trash, no pending retirement and a recorded response that tells the truth about every item |
| CleanupTheorems.ExecuteUndisturbed | src/cleanup_execution.rs:54-118 | an undisturbed new or resumed execution keeps every reference if and only if no release outside its plan names a revision it is about to detach |
| CleanupTheorems.SafeKeepsReference | src/cleanup_execution.rs:54-118 | under that condition a release that stays keeps its revision |
| CleanupTheorems.UnsafeLosesReference | src/cleanup_execution.rs:54-118 | without it a release stays and its revision is gone |
| CleanupTheorems.RevisionOutcome | src/cleanup_execution.rs:54-118 | an unmoved planned revision is detached exactly if it is eligible and no planned release naming it is retained |
| CleanupTheorems.StoreAfter | src/cleanup_execution.rs:41-168 | after an undisturbed execution exactly the detached items have left the store |
| CleanupTheorems.NothingPending | src/storage_cleanup.rs:341-361 | when everything reserved is in place, what is on the disk equals what the process sees |
| CleanupTheorems.PublishKeepsGoodRefs | src/api/storage_cleanup.rs:392-448 | publishing a plan whose revisions follow all releases naming them keeps every reference safe for good |
| CleanupTheorems.PowerLossKeepsGoodRefs | src/app_store/cleanup.rs:440-445 | a power loss breaks no reference and exposes no plan to breaking one |
| CleanupReferences.MoveKeepsRefs | src/cleanup_execution.rs:54-118 | detaching an item keeps every reference if all releases naming it are planned before it |
| CleanupSteps.MoveKeepsInv | src/app_store/cleanup.rs:360-410 | the detaching rename keeps the whole invariant, for every other operation too |
| CleanupSteps.RecordKeepsInv | src/cleanup_execution.rs:201-261 | recording an item keeps the invariant when every possible power loss agrees about the item's place |
| CleanupSteps.PublishKeepsInv | src/api/storage_cleanup.rs:392-448 | publishing an admissible plan keeps the invariant, in particular exclusivity |
| CleanupSteps.RetirementClearedKeepsInv | src/storage_cleanup.rs:566-587 | clearing the pending flag keeps the invariant when no power loss can bring the tombstone back |
| CleanupSteps.PowerLossKeepsInv | src/app_store/cleanup.rs:440-445 | every state that a power loss can leave satisfies the invariant |
| CleanupSteps.FlushAgreesOnArtifact | src/app_store/cleanup.rs:440-445 | after syncing an artifact's directory every possible power loss agrees about the artifact |
| CleanupSteps.FlushAgreesOnDirectory | src/app_store/cleanup.rs:468-477 | after syncing an operation's directory every possible power loss agrees about its marker and its payload directory |
| CleanupSteps.FlushAgreesOnPayload | src/app_store/cleanup.rs:160-160 | after syncing a payload directory every possible power loss agrees about its entries |
| CleanupSteps.FlushKeepsLater | src/app_store/cleanup.rs:440-445 | a sync makes durable exactly what came before the last change of that directory |
| CleanupExecution.ExecuteArtifacts | src/cleanup_execution.rs:13-200 | under any faults: plan and proof unchanged, recorded items final, only planned and eligible artifacts leave the store; the status and the response are completed exactly if every item is detached and completed with failures exactly if one failed, and name every item; undisturbed it completes with every item settled |
| CleanupLoop.ProcessItems | src/cleanup_execution.rs:41-168 | the loop with its failed-revisions set decides every item as specified, or stops at the first fault with everything before recorded |
| CleanupLoop.ProcessItem | src/cleanup_execution.rs:41-168 | one turn changes at most its own item and place and keeps the failed-revisions set exact |
| CleanupLoop.ProcessPlanned | src/cleanup_execution.rs:54-118 | an unrecorded item is protected, kept for a release, or detached, as the decision function says |
| CleanupLoop.ClearedFromSet | src/cleanup_execution.rs:105-118 | membership in the failed-revisions set decides exactly whether a release naming the item was retained |
| CleanupLoop.CheckEligible | src/cleanup_execution.rs:54-91 | an item that is no longer eligible is protected unless it was already moved |
| CleanupDetach.Detach | src/app_store/cleanup.rs:360-410 | neither the confirmed-missing result nor a conflict with an entry in the payload is reachable; success means that no power loss can bring the artifact back |
| CleanupDetach.MoveItem | src/app_store/cleanup.rs:384-410 | a reported rename error is resolved by looking again: detached, retained or an error, and never both places or none |
| CleanupDetach.IsDetached | src/app_store/cleanup.rs:412-438 | answers exactly whether the item is in the payload, which is exactly when it is not in the store |
| CleanupDetach.SyncRename | src/app_store/cleanup.rs:440-445 | after both barriers every possible power loss agrees that the artifact left and about everything in the payload |
| CleanupDetach.CheckMarker | src/app_store/cleanup.rs:156-164 | a marker left by an earlier run and everything that run moved are durable in all three directories |
| CleanupDetach.ClearPreparation | src/app_store/cleanup.rs:585-598 | what an unfinished preparation left behind is durably gone |
| CleanupDetach.Record | src/cleanup_execution.rs:201-261 | one transaction changes one planned item, completely or not at all |
| CleanupDetach.DetachOrRetain | src/cleanup_execution.rs:119-168 | a planned item is recorded detached only after a durable move, and retained, after a failed move or a conflict, only while it is in the store |
| CleanupDetach.Prepare | src/app_store/cleanup.rs:130-195 | publishes the marker durably or checks the existing one, moving nothing |
| CleanupExecution.ExactTerminalItems | src/storage_cleanup.rs:685-719 | public items exactly when every item is recorded; each names its artifact, a temporary file by its number, and says whether it is gone or why not |
| CleanupExecution.Conclude | src/cleanup_execution.rs:169-199 | completed exactly when every item is detached, completed with failures exactly when some item failed, in the ledger and in the response; the response equals the recomputed one |
| CleanupModel.ExpectedBodyTells | src/storage_cleanup.rs:621-719 | the recomputed response tells the status, the artifact and the fate of every item truly |
| CleanupTheorems.ReleaseOutcome | src/cleanup_execution.rs:54-168 | after an undisturbed execution a release is retained exactly if it was recorded as failed, or was in the store and no longer eligible; it is never left unrecorded |
| CleanupTheorems.SettledItem | src/cleanup_execution.rs:41-168 | what becomes of an item depends only on the items before it, and later turns do not change it |
| CleanupRetirement.Apply | src/api/storage_cleanup.rs:350-390 | under any faults the run can be resumed; undisturbed it ends settled, proved and retired |
| CleanupRetirement.FinalizeSucceeded | src/storage_cleanup.rs:490-587 | never rejects a record, retires only proved operations, and undisturbed retires all of them |
| CleanupRetirement.RecordsAlwaysAgree | src/storage_cleanup.rs:621-719 | everything finalization verifies holds of every recorded operation, so executor and verifier agree |
| CleanupRetirement.AgreedRecordsAreTrue | src/storage_cleanup.rs:503-565 | what finalization checks is enough: the tombstone carries the plan of the operation, the status fits the items, and a recorded response is true |
| CleanupRetirement.Retire | src/storage_cleanup.rs:545-587 | records the intent, destroys, clears the intent; undisturbed the operation ends retired |
| CleanupRetirement.RemovePayload | src/app_store/cleanup.rs:447-488 | entry by entry, in any order, under a recorded intent only |
| CleanupRetirement.RetireMarker | src/app_store/cleanup.rs:447-488 | the marker moves out only after the payload is gone in every state a power loss can leave |
| CleanupRetirement.ConfirmMarkerMoved | src/app_store/cleanup.rs:475-478 | both barriers: in every state a power loss can leave the marker has arrived and has left its directory |
| CleanupRetirement.RemoveDirectory | src/app_store/cleanup.rs:475-484 | after them the directory goes, durably, while the marker is still there |
| CleanupRetirement.RemoveTombstone | src/app_store/cleanup.rs:447-488 | success means that no power loss can bring the tombstone back |
| CleanupRetirement.SyncRoot | src/app_store/cleanup.rs:490-505 | an absent tombstone is absent in every state a power loss can leave |
| CleanupRetirement.HeldIffUnretired | src/storage_cleanup.rs:952-962 | tombstone, pending retirement or unfinished status hold exactly for operations that are not retired |
| CleanupRetirement.FoundAreKnown | src/storage_cleanup.rs:490-501 | the pass finds every proved operation that is not retired, and nothing unknown |
| CleanupPlanning.ProtectFromCleanupOperations | src/storage_cleanup.rs:928-1097 | never rejects its own records, finds a row for every tombstone and every preparation, and reserves exactly the undetached items of unretired operations other than the resumed one |
| CleanupPlanning.ValidRowIsTrue | src/storage_cleanup.rs:955-1060 | what it checks is enough: a row that passes carries its own plan in its tombstone, fits its stage, and has recorded the truth |
| CleanupPlanning.Admit | src/api/storage_cleanup.rs:271-349 | an operation is published exactly if the store can be planned and the whole current plan, protections included, is the confirmed one, or the policy is enabled, its application is there and the plan is not empty; what is published is that plan, overlaps no unfinished operation and endangers no reference |
| Planner.PlanIsUnique | src/storage_cleanup.rs:480-488 | the inventory and the records determine the whole plan, so comparing it is exact |
| CleanupPlanning.PlanIsPublishable | src/storage_cleanup.rs:341-425 | every fresh plan, manual or by policy, is admissible, orders releases first and covers its revisions |
| CleanupPlanning.ReservedIsInPlace | src/storage_cleanup.rs:341-361 | a plan can be built only while everything reserved by other operations is in its place |
| CleanupPlanning.Resume | src/api/storage_cleanup.rs:350-371 | runs exactly if the store can be planned without its own reservation; under any faults it moves nothing that is protected now or reserved by another operation, and nothing at all for a disabled policy; undisturbed it ends retired, where a recorded item stays, a moved one is detached, one that the fresh plan does not list is protected, and any other is detached unless a retained release names it |
| CleanupPlanning.SettledEndsByPlan | src/cleanup_execution.rs:54-118 | what the loop decides about each item, said in terms of the fresh plan and the store |
| Retention.RetainedReleases | src/retention.rs:73-86 | the loop with early exit computes the retained set |
| Retention.RetainIsFirstDistinct | src/retention.rs:73-86 | the retained set is the active release plus the first distinct successes up to the limit, with its exact size |
| Retention.RetainMonotone | src/retention.rs:73-86 | keeping more versions never gives one up |
| Retention.RetainSurvives | src/retention.rs:73-86 | forgetting successes that were not retained changes nothing |
| Protection.ProtectFromDeployments | src/storage_cleanup.rs:783-926 | succeeds exactly on consistent records, protects exactly what the rules say, and names a deployment whose reference is missing; the rules are described row by row in `ProtectionRules` |
| ProtectionRules.PolicyMeaning | src/storage_cleanup.rs:798-839 | a policy keeps the active release and otherwise only successes; no more than its number of versions unless the active one alone is more; as many as that if a success is not kept; and a kept one has a success not before any success of one that is not kept, by completion time and deployment identifier |
| ProtectionRules.KeptIsNewer | src/storage_cleanup.rs:825-831 | a kept release that is not active has a terminal success completed at or after every terminal success of any release that is not kept |
| ProtectionRules.WindowMeaning | src/storage_cleanup.rs:872-893 | without a policy the window keeps the first three distinct candidates of ended deployments, newest first, that are in the store and neither active nor pending |
| ProtectionRules.RecoveryMeaning | src/storage_cleanup.rs:894-924 | for recovery exactly the six references and the requested revision of queued, running, interrupted and needs-attention deployments are protected |
| ProtectionRules.ConsistentMeaning | src/storage_cleanup.rs:841-911 | the records are accepted exactly if every row of an unregistered application is finished, every counted success has its completion time, and everything an unfinished deployment refers to is in the store |
| ProtectionRules.PlannedReleaseIsExpendable | src/storage_cleanup.rs:363-391 | a planned release is not in use, not referred to by an unfinished deployment, not reserved, and not among what the policy or the window keeps |
| ProtectionRules.PlannedRevisionIsExpendable | src/storage_cleanup.rs:393-416 | a planned revision is no draft, was not requested by an unfinished deployment, is not reserved, and every release naming it is planned before it |
| Protection.ProtectByPolicy | src/storage_cleanup.rs:798-839 | each enabled policy of a registered application protects exactly its retained set, which `ProtectionRules.PolicyMeaning` describes; a success without completion time is an error |
| Protection.CollectSuccesses | src/storage_cleanup.rs:807-825 | the valid successes of one application, or an error exactly if one lacks its completion time |
| Protection.FindActive | src/storage_cleanup.rs:803-807 | finds the active release of an application in the protections |
| Protection.ProtectRow | src/storage_cleanup.rs:841-924 | one deployment: window, recovery references and errors |
| Protection.PassStep | src/storage_cleanup.rs:839-925 | each deployment extends the protections exactly as the rules over the longer list say |
| Protection.WindowStep | src/storage_cleanup.rs:872-893 | the window grows by a valid, unused candidate while it has fewer than three |
| Protection.ProtectInUse | src/storage_cleanup.rs:300-319 | active, pending and draft protection, exactly |
| Planner.BuildPlan | src/storage_cleanup.rs:167-478 | succeeds exactly if the records are consistent and everything protected is present; the plan lists exactly the protections with all their reasons, and the specified candidates |
| Planner.SelectReleases | src/storage_cleanup.rs:363-391 | the first unprotected releases in scope, oldest first, up to the cap |
| Planner.SelectRevisions | src/storage_cleanup.rs:393-416 | the first revisions in scope that nothing retains, in identifier order, up to the remaining room |
| Planner.LowerRevisionsFirst | src/storage_cleanup.rs:393-416 | a revision that may go is passed over only for revisions with a lower application or identifier |
| Planner.SelectTemps | src/storage_cleanup.rs:417-424 | temporary files only in manual plans, up to the remaining room |
| Planner.PlanIsSafe | src/storage_cleanup.rs:363-424 | at most 100 candidates, no duplicates, all present, none protected, all in scope |
| Planner.PlanCoversRevisions | src/storage_cleanup.rs:393-416 | a revision is planned only after every release in the store that names it, under the cap too |
| Planner.ReleasesComeFirst | src/storage_cleanup.rs:363-416 | no release is planned after a revision |
| Planner.PlanIsComplete | src/storage_cleanup.rs:363-424 | a plan with fewer than 100 items omits no unprotected release in scope, no unprotected revision in scope that only planned releases name, and, if manual, no unprotected temporary file |
| Planner.OldestFirst | src/storage_cleanup.rs:363-391 | releases are planned by creation time, application and identifier, and an unprotected one is passed over only for 100 older ones |
| PlannerStability.Stability | src/storage_cleanup.rs:783-926 | after removing any part of a plan the same releases and revisions are protected for the same reasons, no reference is missing, and planning succeeds exactly if what is reserved is present |
| PlannerStability.RepeatedCleanupErodesNothing | src/storage_cleanup.rs:783-926 | the same after any number of rounds, manual or automatic, complete or partial |
| PlannerStability.PolicyIsStable | src/storage_cleanup.rs:798-839 | what a policy keeps is unchanged by cleanup |
| PlannerStability.WindowIsStable | src/storage_cleanup.rs:872-893 | what the rollback window keeps is unchanged by cleanup |
| PlannerStability.ReferencesRemain | src/storage_cleanup.rs:894-924 | no recovery reference goes missing by cleanup |
| PlannerStability.SortSurvives | src/storage_cleanup.rs:825-830 | sorting successes and forgetting some commute |
| ImageSchedule.Classify | src/image_cleanup.rs:392-436 | an image is a candidate exactly if some cleaned release names it and none protects it, in any order |
| ImageSchedule.ReadAttempts | src/image_cleanup.rs:463-471 | the latest attempt of every image outside the resumed operation, and the reserved images |
| ImageSchedule.NextBatch | src/image_cleanup.rs:459-489 | the batch holds the first images of the schedule, as many as fit, in identifier order |
| ImageSchedule.BeforeIsDue | src/image_cleanup.rs:459-489 | the order of the schedule: reserved before others, never attempted before attempted, older attempts before newer ones, then by identifier |
| ImageSchedule.BatchIsByRank | src/image_cleanup.rs:459-489 | an image is in the batch exactly if fewer than 100 are ahead of it |
| ImageSchedule.RankDrops | src/image_cleanup.rs:459-489 | an image that is passed over moves up by exactly 100 |
| ImageSchedule.TurnComes | src/image_cleanup.rs:459-489 | every image is attempted in exactly the pass that its rank tells in advance |
| ImageSchedule.NoStarvation | src/retention.rs:195-202 | ceil(n/100) passes attempt all n eligible images |
| ImageSchedule.AttemptAll | src/retention.rs:273-352 | the same for passes that read and write the ledger rows |
| ImageSchedule.PublishedAttempts | src/retention.rs:195-202 | publishing a later batch makes it the latest attempt of its images and of no other |
| ImageSchedule.ReservedSurvive | src/image_cleanup.rs:459-489 | a resumed pass keeps every reserved item that is still eligible |
| ImageRemoval.ExecuteImages | src/cleanup_execution.rs:263-353 | one run, interrupted anywhere, records exactly what its history dictates; a response means that every item is terminal, and a run that nothing disturbs ends with one |
| ImageRemoval.ExecuteRuns | src/cleanup_execution.rs:263-353 | the same over any number of runs; terminal items never change between runs, and a run that nothing disturbs leaves every item terminal |
| ImageRemoval.RemovalIsWrittenAhead | src/cleanup_execution.rs:290-323 | every removal call follows a durable start of an eligible item and an inspection that matched |
| ImageRemoval.RemovedWasStartedAndAbsent | src/cleanup_execution.rs:290-345 | removed is recorded only after a durable start, then an observed absence, with nothing but records in between, in this order |
| ImageRemoval.TerminalIsFinal | src/cleanup_execution.rs:289-347 | once terminal, an item stays as it is for the rest of the history |
| ImageRemoval.ProcessItem | src/cleanup_execution.rs:289-347 | one item ends terminal, in the state that the history dictates, unless the run is interrupted; no other item changes |
| ImageRemoval.TerminalResult | src/image_cleanup.rs:615-641 | a response exactly when every item is terminal, with failures exactly when one is retained |
| Promotion.FinalizeActive | src/app_store/releases.rs:323-353 | success means the final state is durable; a foreign active release or a missing pending link is refused unchanged; interrupted anywhere the state stays on the path; undisturbed it succeeds |
| Promotion.PromoteEventually | src/app_store/releases.rs:323-353 | any number of interrupted attempts and power losses, then an undisturbed one, always completes the promotion and never leaves the path; every undisturbed attempt on the way completes it |
| Promotion.CommitActive | src/app_store/releases.rs:292-318 | refused unchanged unless both links are as expected; success means active is the candidate and pending is not, durably |
| Promotion.PromoteLinks | src/app_store/releases.rs:323-342 | success means that both links are final and durable before the metadata is touched |
| Promotion.RemoveLinkIf | src/app_store/releases.rs:355-370 | removes the link only if it is the expected one; an ambiguous error is resolved by looking again |
| Promotion.SwitchLink | src/app_store/atomic.rs:84-108 | the link changes in one step, and success means it is durable |
| Promotion.RemoveLink | src/app_store/atomic.rs:110-120 | a missing link is fine, otherwise one step |
| Promotion.SetPending | src/app_store/releases.rs:287-290 | success puts the state on the path of every new request that expects the current active release |
| Promotion.PromoteMetadata | src/app_store/releases.rs:343-353 | desired state and operation are set once, and success means that they are durable |
| StreamGate.Gate.Acquire | src/api/streams.rs:95-132 | grants exactly when the application is open and the live permits leave room, shutdown or not; the granted token is cancelled exactly if the process shuts down; all counters stay exact |
| StreamGate.Gate.DropPermit | src/api/streams.rs:241-251 | gives back exactly what the permit took |
| StreamGate.Gate.BeginDeletion | src/api/streams.rs:134-149 | closes the application and cancels every stream it has, if all were within reach |
| StreamGate.Gate.Look | src/api/streams.rs:184-203 | true exactly when no permit and no producer of the application is left; a closed application then stays quiet until a barrier of it is dropped |
| StreamGate.Gate.DropBarrier | src/api/streams.rs:213-224 | reopens the application with a new cancellation generation; the other barriers keep holding exactly if it was the only one of its application, and every stream stays within reach exactly if all streams of the application were cancelled |
| StreamGate.Gate.Commit | src/api/streams.rs:205-224 | a committed barrier leaves the application closed |
| StreamGate.Gate.Shutdown | src/main.rs:333-343 | cancels every stream at once and closes nothing |
| StreamGate.GrantDuringShutdown | src/api/streams.rs:95-132 | the failing case: a request in flight during shutdown is granted a stream whose token is already cancelled |
| StreamGate.Gate.RegisterProducer | src/api/streams.rs:455-461 | producers appear only under a live permit, so never for a quiet application |
| StreamGate.Gate.DropProducer | src/api/streams.rs:226-233 | gives back exactly one producer |
| StreamState.TotalsAgree | src/api/streams.rs:47-55 | the total, the sum of each counter map and the number of live permits are equal |
| StreamState.AdmitsIffRoom | src/api/streams.rs:101-112 | the counters admit a stream exactly if fewer than 24 permits are live, fewer than 8 of the session, and fewer than 16 and 4 (events) or 8 and 2 (logs, statistics) of the kind and of the application |
| StreamState.LimitsHold | src/api/streams.rs:101-112 | none of these limits is ever exceeded |
| StreamCounters.DecrementCounts | src/api/streams.rs:253-260 | giving back what was counted never saturates and leaves no zero entries |
| StreamState.GiveBackConserves | src/api/streams.rs:241-251 | every counter still equals what is outstanding |
| StreamState.GrantKeepsGate | src/api/streams.rs:95-132 | a grant keeps conservation, limits, reachability and quiescence |
| StreamState.ActiveIffInUse | src/api/streams.rs:184-203 | what the barrier looks at tells exactly whether the application is in use |
| StreamState.ReopenIff | src/api/streams.rs:213-224 | dropping a barrier keeps every live stream within reach exactly if all streams of the application were cancelled, as they are while it is closed |
| StreamState.ReopenHeldIff | src/api/streams.rs:213-224 | dropping a barrier leaves every other barrier holding exactly if its application has no other |
| StreamState.SecondDropLosesStream | src/api/streams.rs:213-224 | a stream granted while a barrier is outstanding is lost when that barrier is dropped |
| StreamGate.TwoBarriersReopen | src/api/streams.rs:213-224 | with two barriers, dropping the first grants an uncancelled stream while exactly one barrier is outstanding, and that barrier no longer holds |
| StreamGate.TwoBarriersLoseStream | src/api/streams.rs:213-224 | dropping the second one leaves that stream out of reach: the next deletion closes the application, does not cancel the stream and waits for it |
| Throttle.CredentialGuard.Attempt | src/auth/mod.rs:183-259 | verified exactly when not blocked; a success clears the row, a failure updates it |
| Throttle.CredentialGuard.EnsureNotThrottled | src/auth/mod.rs:411-443 | the remaining cooldown in seconds, rounded down but at least one, exactly when blocked; waiting that long is enough exactly if at most one second or a whole number of seconds remains |
| Throttle.CredentialGuard.RecordFailure | src/auth/mod.rs:445-492 | updates the row and keeps it valid |
| Throttle.FailureKeepsRow | src/auth/mod.rs:445-492 | never more than five failures in a row, and five exactly when the block is set |
| Throttle.FifthFailureBlocks | src/auth/mod.rs:445-492 | a failure counts in a window of fifteen minutes from its first one, and blocks every attempt of the next fifteen minutes exactly if it is the fifth |
| Throttle.FailuresBounded | src/auth/mod.rs:445-492 | the number of failures up to any time is at most the row's allowance plus five for each full quarter of an hour |
| Throttle.SpanBound | src/auth/mod.rs:31-33 | at most eight failures in a half-open quarter of an hour, and at most three more than five per started quarter in any span |
| Throttle.FivePerQuarterIff | src/auth/mod.rs:31-33 | five per started quarter holds for every future of a failure exactly if it opened its window, shares its instant, or set the block |
| Throttle.EightInOneMinute | src/auth/mod.rs:31-33 | a run with eight failures within one minute |
| Session.SessionRow.Authenticate | src/auth/mod.rs:331-367 | after every history: accepted if used less than 55 minutes ago and younger than 12 hours, rejected if unused for an hour or 12 hours old; a session is required exactly if an earlier request found it expired; an accepted request is stored unless the stored one is less than five minutes old, and the stored expiry is an hour later or 12 hours after the creation |
| Session.HistoryKeepsRow | src/auth/mod.rs:331-367 | after every serial history the stored times are ordered, and the stored last use lags the real one by less than five minutes |
| Session.LifetimeBound | src/auth/session.rs:3-9 | unused for less than 55 minutes and younger than 12 hours is accepted; unused for an hour or 12 hours old is rejected |
| Session.ExpiredStaysExpired | src/auth/mod.rs:344-352 | once rejected, never accepted again |
| Session.GoneIffRejected | src/auth/mod.rs:344-352 | a session is gone exactly if some request found it expired |
| Environment.Serialize | src/app_store/config_revision.rs:500-509 | the printing loop computes the file |
| Environment.ReadEnvironment | src/app_store/config_revision.rs:511-560 | accepts exactly the files whose lines all parse and whose keys are the expected ones |
| Environment.LineEnds | src/app_store/config_revision.rs:511-530 | a line ends at a newline, without the carriage return before it |
| Environment.LinesKeepTheRest | src/app_store/config_revision.rs:511-530 | nothing else is taken from a line, and a last line without a newline is whole |
| Environment.ReadValue | src/app_store/config_revision.rs:531-548 | the character loop with its escape flag undoes the escape |
| Environment.EscapeIsPerCharacter | src/app_store/config_revision.rs:505-505 | the two sequential replacements equal one escape per character |
| Environment.PrintParseIff | src/app_store/config_revision.rs:500-560 | printing and reading back returns the same entries if and only if no key holds an equals sign or newline and no value a newline |
| Environment.ParsePrintParse | src/app_store/config_revision.rs:500-560 | for every accepted file, printing and reading again changes nothing |
| Environment.WriteAndRead | src/app_store/config_revision.rs:500-560 | the two loops, one after the other, return the entries |
| Lifecycle.Request | src/api/mutations.rs:1694-1722 | one request, interrupted anywhere and in any surroundings: at most one start, success only after a start of the marked container, a rejection only without a start, and the start is of that container if and only if nothing replaced it between the check that it stopped and the start; the answer is recorded, and a finished request is replayed unchanged; undisturbed it succeeds exactly if the container is there and unmarked, marked but not started, or started and running |
| Lifecycle.RunStart | src/compose/runner.rs:264-265 | starts whichever container of the service is there when the command takes effect |
| Lifecycle.Requests | src/mutation/idempotency.rs:470-513 | over any number of retries with the same key: at most one start, no success without a start of the marked container, and no start of another one if none is replaced in the window; an undisturbed request is answered for good |
| Lifecycle.Begin | src/api/mutations.rs:1694-1722 | the decision of a resumed request: done only if the start happened, proceed only if it did not |
| Lifecycle.MarkEffect | src/api/mutations.rs:1810-1866 | the marker is written once and names the container that was observed; nothing is started; what fails in the two steps before the marker is rejected without writing it, what fails later is retried |
| Lifecycle.Effect | src/api/mutations.rs:1927-2095 | success means that the marked container was started and the marker says completed; a start is of the marked container exactly if it was not replaced in the window; exactly the bind checks reject, and then nothing was started; a start happens if the steps before it are calm and the command takes effect |
| Lifecycle.DecisionIsExact | src/api/mutations.rs:2116-2153 | the marked container looks complete exactly if this operation started it and it still runs, and untouched exactly if this operation did not start it |
| Lifecycle.OutsideStartIsMistaken | src/api/mutations.rs:2129-2153 | a start by someone else is taken for the operation's own |
| Lifecycle.ReplacedBeforeStart | src/api/mutations.rs:1927-1960 | the failing case: a container replaced just before the start is started, the marker does not name it, and the answer is no success |
| FileTree.LogicalArtifactBytes | src/app_store/cleanup.rs:683-732 | the explicit stack succeeds exactly on legal trees whose true size fits in 64 bits, with that size |
| FileTree.LogicalBytes | src/storage_cleanup.rs:1181-1201 | the recursive measure has the same contract |
| FileTree.MeasureBothWays | src/app_store/cleanup.rs:683-732 | the two accept the same trees with the same total |

## Assumptions

- Identifiers of releases, operations and containers are never reused, and a publisher
  syncs the directory it publishes into.
- The scan of the store lists exactly what is there; a scan with issues makes the planner
  refuse before anything that is modelled.
- Transactions are atomic, a signed marker equals the plan it signs, and directory
  operations reach the disk in order.
- Publication happens under the catalog lock, so planning and publishing are one step.
- The clock of the throttle and of sessions does not run backwards, and attempts are
  serialized by their lock.
- Nobody else starts the container during a restart; it may be stopped, removed or replaced
  at any step. `Lifecycle.OutsideStartIsMistaken` shows that this is needed.

## Left out

- Aliasing and update in place of the file system and the database: they are external
  state, passed from step to step as a value.
- Application deletion, unregistration receipts and the tables of cleaned releases, which
  follow the same ledger pattern with little of their own to prove.
- The inventory scan itself (permissions, symbolic links, name parsing) and the byte
  estimates of a plan; the order of temporary files in a plan is an input.
- HTTP routing, preview tokens and their expiry, audit rows, idempotency keys and error
  mapping; they are record statuses here. That a policy with an unfinished operation resumes
  it instead of asking for a new one: the model allows both.
- Cryptography: hashes and signatures are the values they protect.
- Image identity matching: inspection answers matching, different or absent. Rows of an
  image ledger that do not match its plan are refused by the code before any effect, and
  are not modelled.
- The start and stop actions, and recreation of a missing container; only the restart
  protocol is proved. Its network and bind checks and its desired-state write are part of
  the observation steps, which may fail.
- StreamGate.Gate.Look: `wait` repeats this look until a timeout; the timeout and the
  notification are not modelled.
- Throttle.SpanBound: is about runs without a success, because a success clears the row.
