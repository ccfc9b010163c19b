# Verification of the rollout engine

Kangal Patch upgrades Talos and Kubernetes on the nodes of a cluster. A PatchPlan resolves its nodes into ordered
groups, creates one PatchJob per node within each group's concurrency, and reacts to failures, pauses, cancellation and
maintenance windows; a PatchJob cordons, drains, upgrades and checks one node. This project models the decision logic
of both reconcilers and proves what they promise over whole runs.

## How it is organised

| file | content |
|---|---|
| Api.dfy | the resource types and their status fields; instants are nanoseconds, stored ones whole seconds |
| Scheduling.dfy, Rollouts.dfy | resolving nodes into groups, and the checks on a rollout |
| Placement.dfy | what a configured strategy means for its rollout |
| Maintenance.dfy, MaintenanceClock.dfy | maintenance windows: interval semantics, the search for the next opening, calendar and clock |
| Drain.dfy | cordon, uncordon, drain, and the drained check |
| PlanWorld.dfy, PlanSteps.dfy | the state a plan reconcile works on, and what each of its stages does |
| PatchPlanController.dfy | the plan reconciler as a class that updates its fields, each method equal to its stage |
| PlanEffects.dfy | what a pass can change, and under which guards it creates a PatchJob |
| PlanRuns.dfy | runs: plan passes interleaved with job steps, the user, the cluster and the clock |
| PlanSafety.dfy, PlanPurge.dfy, PlanBudget.dfy, PlanTiming.dfy, PlanKubernetes.dfy | safety of every run |
| PlanPromises.dfy | what a plan promises, told by what is configured for it |
| PlanLeases.dfy, PlanSlots.dfy | Leases mirror the jobs, and the slots counted are Leases |
| PlanProgress.dfy, PlanCompletion.dfy | what a reconcile brings about when its calls succeed, and when a rollout is over |
| PlanWitness.dfy | runs in which a plan does what one would rather it did not |
| JobSteps.dfy | what one pass of the job reconciler does, phase by phase |
| PatchJobController.dfy | the job reconciler as a class, each method equal to its part of a pass |
| JobRuns.dfy, JobEvidence.dfy, JobCordon.dfy, JobErrors.dfy, JobTermination.dfy, JobProgress.dfy | whole runs of one job |
| JobOutcomes.dfy | when each phase of a job ends and how, told by what a pass finds and by the configured limits |
| JobWitness.dfy | runs in which a job does what one would rather it did not |

`dafny verify dfyconfig.toml` checks everything.

**Plan runs.** A run (`PlanRuns.IsRun`) starts from a plan with an empty status and no PatchJobs. Its steps are: the
clock advances; a PatchJob changes as one pass of the job reconciler may change it (`PlanRuns.Advances`, shown for that
reconciler by `JobRuns.JobReconcileAdvances`); the user sets `paused` and `cancelled`; Leases and kube-proxy change
arbitrarily; or the plan reconciles. A reconcile is told how many of its API calls succeed before one fails, which
PatchJob and Lease lists it reads, and how the remote preflight checks end. All of that is arbitrary, so a theorem
covers every value and every cut-off point. A reconcile lists the PatchJobs twice: once to decide on the retention of
finished history, once to schedule. `StaleReads` lets the second list be as old as it likes, so long as it was true at
some earlier point of the run; `SoundRetention` asks of the first one only that it tells, when a purge is due, whether
every job has finished; `FreshReads` asks that both are up to date. The spec apart from the two switches, the selected
nodes and their labels stay fixed over a run, and only retention removes PatchJobs.

**Job runs.** A run (`JobRuns.IsJobRun`) starts from a PatchJob with an empty status on a node without this operator's
cordon. Every pass is told what the node, the pods, the Talos API and the API server answer and whether its status
writes land; all of it is arbitrary unless a theorem says otherwise. A call to Upgrade is declined, or taken on and
acknowledged, or taken on although the caller sees an error.

**What did not hold as the code or its documentation says**

- The search for the next maintenance window considers window starts only. The after-midnight part of a window listed
  for an excluded day is allowed but never offered (`NextOpeningCanBeLate`); `NextOpeningIsEarliestIff` says exactly
  when the answer is the earliest allowed instant. A window whose start equals its end is never open, and its start is
  returned all the same (`EmptyWindowIsReturned`); `NextOpeningIsOpenIff` says exactly when patching is allowed at the
  answer.
- That search looks at seven calendar days, today being the first, so it misses a window that opens within seven times
  24 hours when that is on the weekday of today, earlier in the day (`WeeklyWindowIsMissed`); nothing else is missed
  (`MissedIffOnEighthDay`), and `NothingFoundIff` says exactly when it reports that there is no window.
- `delayBetweenNodes` counts from a time field that keeps whole seconds, so two rounds can be up to a second closer
  (`RoundsCloserThanDelay`, for every delay and every first round off the whole second); a round one of whose API calls
  failed may not be recorded at all, and the next one does not wait for it (`UnrecordedRoundIsNotWaitedFor`).
  `RoundsAreSpaced` is what does hold.
- The history purge is meant to leave a plan frozen (controllers/retention.go:36-39). When the jobs are deleted, the
  mark is not written, and a later pass decides on a list from before the jobs had finished, the plan begins anew; with
  an outdated job list on top it exceeds its concurrency (`OldRetentionListExceedsConcurrency`). With sound
  retention lists neither happens, however old the lists are that it schedules by (`PurgedPlanStaysFrozen`,
  `StaleRunsWithinConcurrency`).
- A job that leaves Rebooting does not look at the Kubernetes static pods again: whether Kubernetes is upgraded was
  settled by the kubelet version at the start (`KubernetesSettledAtStart`, `RebootCompletesWithOldStaticPods`). Nor
  does it look at the schematic again (`SchematicNotRechecked`, `CompletesWithOtherSchematic`).
- Upgrade is issued again when the status write after it failed for good, and also when the node took the upgrade on
  and the call reported an error, as internal/talos/client.go:162-164 does for a response without messages
  (`LostRecordUpgradesTwice`). `UpgradesCounted` counts both, and `UpgradedOnce` says exactly when there is no more
  than the one upgrade the job records.
- A failing job gives its node back before it records the failure. If that write fails, the job can go on to upgrade
  a schedulable node (`LostReleaseUpgradesSchedulableNode`). `CordonHeldIff` says that from Draining to Rebooting the
  node is unschedulable exactly when no such write was lost, and none after the uncordoning that ends Rebooting.
- A Draining job without a drain start time never times out (`DrainingNeedsItsStart`); no run reaches such a state.
- A comment at controllers/patchplan_controller.go:140 says cancelling stops the reconciler for good; clearing
  `cancelled` before the history is purged lets the plan go on (`CancelledPlanGoesOn`), and the model follows the code.

## Model

| member | source | states |
|---|---|---|
| Scheduling.Resolve | internal/scheduling/scheduling.go:50-101 | the dedup, the sort and the nested claiming loops yield the first-match rollout, and an error exactly for a strategy that is not valid |
| Scheduling.CompileGroups | internal/scheduling/scheduling.go:125-174 | a strategy compiles exactly when built-in groups declare no selector, no group is listed twice and every custom group is declared with a usable name and selector |
| Scheduling.CompileGroup | internal/scheduling/scheduling.go:143-167 | one entry of the order compiles exactly when it is built in or declared with a valid label and selector, with the concurrency configured for it, one at least |
| Scheduling.BuiltinsDeclared | internal/scheduling/scheduling.go:130-134 | the loop finds any built-in group that declares a selector |
| Scheduling.Dedup | internal/scheduling/scheduling.go:58-66 | exactly the first node of every name is kept |
| Scheduling.Claim | internal/scheduling/scheduling.go:79-93 | a group takes, in order, exactly the nodes whose first match it is, and marks them claimed |
| Scheduling.Unclaimed | internal/scheduling/scheduling.go:95-99 | the unassigned names are those of the nodes no group matches, in order |
| Scheduling.FirstMatchIs | internal/scheduling/scheduling.go:109-117 | the matcher a node falls to matches it and no earlier one does |
| Scheduling.SortedSorts | internal/scheduling/scheduling.go:67-76 | sorting uniquely named nodes gives strict control-plane-first, then name order |
| Scheduling.SortedIsUnique | internal/scheduling/scheduling.go:67-76 | only one list of the same nodes is in that order, so the sort algorithm does not matter |
| Scheduling.ResolvePartitions | internal/scheduling/scheduling.go:48-101 | every distinct node is in the first matching group of the order and in no other, or unassigned; nothing else is scheduled or reported |
| Scheduling.ResolvedWellFormed | internal/scheduling/scheduling.go:50-101 | groups keep their nodes apart, each strictly sorted, and have a concurrency of at least one |
| Scheduling.ResolveIgnoresListOrder | internal/scheduling/scheduling.go:50-101 | for uniquely named nodes the rollout is the same for every permutation of the node list |
| Placement.ResolvesExactly | internal/scheduling/scheduling.go:125-174 | a selection resolves exactly when no group is listed twice, custom groups are declared with a usable name and a selector that compiles, and built-in ones bring none |
| Placement.GroupsAsConfigured | internal/scheduling/scheduling.go:140-172 | the groups are the listed ones in order, control plane before workers where none is listed, each with its configured concurrency or 1 |
| Placement.PlacedWhereWanted | internal/scheduling/scheduling.go:78-99 | a node is in the first listed group whose label or selector wants it, and unassigned exactly when none does |
| Placement.UniqueKeepsFirst | internal/scheduling/scheduling.go:58-66 | of the nodes listed under one name exactly the first is kept |
| Placement.ScheduledInOrder | internal/scheduling/scheduling.go:67-76 | within a group control plane nodes come first, and otherwise the alphabet decides |
| Rollouts.ControlPlaneNodes | internal/scheduling/scheduling.go:195-205 | collects the control plane nodes of all groups in rollout order |
| Rollouts.Total | internal/scheduling/scheduling.go:186-192 | counts every node of the rollout once |
| Rollouts.GroupOf | internal/scheduling/scheduling.go:231-240 | finds the group of a node, or that it has none |
| Rollouts.CheckControlPlaneQuorum | internal/scheduling/scheduling.go:210-228 | accepts exactly the rollouts in which no group can take down half or more of the control plane, one node at a time excepted |
| Rollouts.QuorumSafeIff | internal/scheduling/scheduling.go:207-228 | the check accepts exactly the rollouts in which whatever a group may take down at once is one control plane node, or leaves more than half of all up |
| Rollouts.CheckControlPlaneFirst | internal/scheduling/scheduling.go:244-267 | accepts exactly the rollouts in which every control plane node's group comes before every worker's |
| Maintenance.InWindowIffOpenSinceSomeDay | internal/maintenance/maintenance.go:59-86 | the window is open exactly when, of all days there are, some matching day's interval contains the instant |
| Maintenance.NextMaintenanceWindow | internal/maintenance/maintenance.go:148-209 | the loops find the earliest start on seven days, or with no windows the first free day within a year, and an error when there is none |
| Maintenance.NextOpeningIsOpen | internal/maintenance/maintenance.go:168-209 | a returned opening is not in the past, and patching is allowed at it if no window has start equal to end |
| Maintenance.NextOpeningIsOpenIff | internal/maintenance/maintenance.go:168-209 | from a closed instant, patching is allowed at the answer exactly when a window with different start and end opens there or an excluded day leaves a tail that reaches past it |
| Maintenance.NextFreeDayIsEarliest | internal/maintenance/maintenance.go:153-166 | without windows the answer is allowed and nothing before it is |
| Maintenance.NextOpeningIsEarliestIff | internal/maintenance/maintenance.go:168-209 | from a closed instant nothing before the answer, or before the end of the seventh day, is allowed exactly when no excluded day leaves an after-midnight tail before every start to come |
| Maintenance.NextOpeningIsEarliest | internal/maintenance/maintenance.go:168-209 | the answer is the earliest whenever no date is excluded or no window spans midnight |
| Maintenance.NextOpeningCanBeLate | internal/maintenance/maintenance.go:168-209 | a concrete spec for which an earlier instant than the answer is allowed |
| Maintenance.EmptyWindowIsReturned | internal/maintenance/maintenance.go:59-86 | a window with start equal to end is never open, yet its start is the answer |
| MaintenanceClock.OpenByTheClock | internal/maintenance/maintenance.go:59-86 | by hours, minutes and weekdays: a window is open from start to end on the days it is for, past midnight into the next day if it ends before it starts |
| MaintenanceClock.AllowedByTheClock | internal/maintenance/maintenance.go:12-46 | patching is allowed without a spec; with one, exactly when the date is not excluded and an enabled window is open or none is configured |
| MaintenanceClock.WeekdaysGoRound | internal/maintenance/maintenance.go:104-122 | the first day counted is a Thursday and weekdays follow each other |
| MaintenanceClock.NothingFoundIff | internal/maintenance/maintenance.go:168-209 | the search finds nothing exactly when no enabled window starts on a day it is for, not excluded, from now to the end of the seventh day |
| MaintenanceClock.WeeklyWindowIsMissed | internal/maintenance/maintenance.go:172-209 | a weekly window that opens within seven times 24 hours and is not found |
| MaintenanceClock.MissedIffOnEighthDay | internal/maintenance/maintenance.go:172-209 | what is missed within seven times 24 hours are exactly the starts on the eighth day |
| PatchPlanController.DelayRemaining | controllers/scheduler.go:97-111 | positive exactly while delayBetweenNodes has not passed since the last scheduling or some completion, and then to the instant |
| PatchPlanController.AllNodesCompleted | controllers/patchplan_controller.go:307-315 | true exactly when every listed node has a Completed job |
| PatchPlanController.GroupOfJob | controllers/leases.go:19-25 | the job's recorded group, else the group its node is in |
| PlanPromises.JobCountsFor | controllers/leases.go:19-25 | a job counts for the group it is labelled with, else for the one that has its node, if any |
| PatchPlanController.Summarize | controllers/patchplan_controller.go:428-467 | the nested counting loops give the cardinalities of the completed, failed, running and pending nodes, in total and per group |
| PatchPlanController.CountsCoverAll | controllers/patchplan_controller.go:428-467 | the four counts add up to the number of nodes |
| PlanPromises.SummaryTells | controllers/patchplan_controller.go:428-467 | the status reports the target, every node once, and per group its limit, the slots taken and its nodes |
| PatchPlanController.SlotsSplit | controllers/leases.go:46-87 | the slots of a group are those held by listed Leases and those restored, counted once each |
| PatchPlanController.PatchPlanReconciler.ApplyRetention | controllers/retention.go:40-73 | the deletion loop does what the stage says from wherever a call fails, and stops the pass on a purged or purging plan |
| PatchPlanController.PatchPlanReconciler.SyncLeases | controllers/leases.go:30-88 | the two loops release and restore Leases as the stage says, and the returned map counts the slots held per group |
| PatchPlanController.PatchPlanReconciler.EnsurePreflight | controllers/preflight.go:84-137 | lets the pass on only with jobs listed, with a preflight passed on this generation, or with every check passing, the remote ones too |
| PatchPlanController.PatchPlanReconciler.CheckRollout | controllers/preflight.go:141-210 | the checks on the rollout alone: it has a node, order for a Kubernetes upgrade, quorum |
| PatchPlanController.PatchPlanReconciler.EnsureKubeProxy | controllers/scheduler.go:169-201 | kube-proxy is dealt with exactly when due: after the whole control plane, and until done |
| PatchPlanController.PatchPlanReconciler.WaitForControlPlane | controllers/scheduler.go:136-165 | a worker waits exactly while a Kubernetes upgrade has an uncompleted control plane node |
| PatchPlanController.PatchPlanReconciler.FindActiveGroup | controllers/scheduler.go:28-50 | the first group with an unfinished node, and its nodes without a job in order |
| PatchPlanController.PatchPlanReconciler.StartRound | controllers/scheduler.go:64-88 | the creation loop follows the stage and counts each node served in the slots of its group only |
| PatchPlanController.PatchPlanReconciler.ScheduleNodes | controllers/scheduler.go:25-93 | scheduling changes the plan, jobs and Leases exactly as the stage says |
| PatchPlanController.PatchPlanReconciler.Reconcile | controllers/patchplan_controller.go:73-214 | one pass, in the source's order of steps, equals the composition of the stages the theorems are about |
| PlanEffects.CreateJobsEffect | controllers/scheduler.go:64-264 | wherever the creation loop ends, jobs exist for a prefix of its nodes, none of them gated, and a job that exists already is left as it is |
| PlanPromises.JobsCarryTarget | controllers/scheduler.go:215-240 | in every state of every run each job is for its node, with the plan's target and the label of the group that has the node |
| PlanPromises.CompletedAtPlanTarget | controllers/scheduler.go:229 | a job of the plan that completes reports every version of the plan's target |
| PlanPromises.CreationInOrder | controllers/scheduler.go:215-264 | calls that fail half-way leave a job without a Lease or a Lease without the record, never a Lease without a job |
| PlanPromises.SchedulingWaits | controllers/scheduler.go:28-62 | without an active group, a free slot, a node without a job, or before the delay is over nothing changes |
| PlanPromises.InvalidStrategyFails | controllers/patchplan_controller.go:99-107 | a strategy that does not resolve fails the plan and its preflight and creates nothing |
| PlanEffects.ReconcileEffect | controllers/patchplan_controller.go:73-214 | every pass does nothing, is a due purge, or creates jobs only for the first pending nodes of the active group with every guard open |
| PlanRuns.RunsAreTraces | controllers/patchplan_controller.go:73-214 | every run is a sequence of such effects |
| PlanPromises.FirstJobFollowsPreflight | controllers/preflight.go:84-137 | a round that goes by an empty list follows, or is, a pass on the same generation that found every preflight check to pass, the remote ones included |
| PlanPromises.PreflightDecides | controllers/preflight.go:84-137 | skipped exactly with jobs listed or once passed on this generation; otherwise goes on exactly when every check passes, and records the outcome unless a check could not be made |
| PlanPromises.RolloutChecksMean | controllers/preflight.go:141-210 | the rollout has a node, keeps the control plane in earlier groups than workers for a Kubernetes upgrade, and passes the quorum check |
| PlanPromises.WindowsHold | controllers/patchplan_controller.go:174-200 | no job is created outside the maintenance windows |
| PlanRuns.RoundWithinConcurrency | controllers/scheduler.go:41-86 | a round decided on an outdated list keeps the group's unfinished jobs within its concurrency |
| PlanSafety.StaleRunsAreSafe | controllers/scheduler.go:25-201 | up to the first deletion, in every state of a run with arbitrarily outdated PatchJob lists: no more unfinished jobs per group than configured, strict group order, no worker before control plane and kube-proxy, and a control plane majority left alone |
| PlanSafety.UnfinishedInOneGroup | controllers/scheduler.go:28-50 | all unfinished jobs belong to one group |
| PlanSafety.QuorumKept | internal/scheduling/scheduling.go:207-228 | the quorum check, concurrency and group order together leave floor(n/2)+1 of n >= 3 differently named control plane nodes without an unfinished job |
| PlanSafety.OneReconcileWithinConcurrency | controllers/scheduler.go:41-86 | from any state at all, a reconcile with fresh reads raises no group's unfinished jobs above its concurrency or what they were |
| PlanSafety.GateBlocksOnFailureOnly | internal/scheduling/scheduling.go:242-267 | with the control plane first, workers of the active group are held back only by a failed control plane job |
| PlanPurge.PurgedPlanStaysFrozen | controllers/retention.go:36-73 | with sound retention lists, from the first deletion on no job is ever created again, whichever later call fails, whatever the user toggles and however old the lists are that scheduling goes by |
| PlanPurge.DeletesOnlyFinishedHistory | controllers/retention.go:40-73 | a step deletes a job only as a due purge of a plan without unfinished jobs |
| PlanPurge.CompletePurgeRemovesAll | controllers/retention.go:62-73 | a purge that marks the plan has removed every job |
| PlanPromises.HistoryIsKept | controllers/retention.go:40-56 | whatever lists a pass goes by, it deletes jobs only of an ended plan whose configured history, or seven days, is over |
| PlanPromises.PurgeTakesEffect | controllers/retention.go:40-73 | with working calls and an up-to-date list a pass purges and marks a plan exactly when its history is over and every job has finished |
| PlanPromises.MarkedPlanStaysFrozen | controllers/retention.go:44-46 | a finished plan marked as purged creates no job any more, whatever lists its passes go by |
| PlanPurge.StaleRunsWithinConcurrency | controllers/retention.go:36-73 | with sound retention lists and arbitrarily outdated ones for scheduling, every state of every run, purges included, is within the configured concurrency and leaves a control plane majority alone |
| PlanWitness.OldRetentionListExceedsConcurrency | controllers/retention.go:53-71 | a run by outdated retention lists in which a purged plan begins anew and exceeds its concurrency |
| PlanBudget.BlastRadius | controllers/patchplan_controller.go:238-272 | with fresh reads, failed plus unfinished nodes never exceed acknowledged failures plus max(maxFailures, 1) minus one plus the largest concurrency; under Halt never more than max(maxFailures, 1) minus one plus that concurrency fail |
| PlanBudget.HaltStopsTheRollout | controllers/patchplan_controller.go:244-272 | under Halt and with fresh reads, once max(maxFailures, 1) nodes have failed no later step creates a job |
| PlanPromises.BudgetReached | api/v1alpha1/patchplan_types.go:260-263 | the budget stops a pass exactly when the failures past the acknowledged ones reach max(maxFailures, 1), and then fails the plan with a date or pauses it |
| PlanPromises.PausesInOrder | controllers/patchplan_controller.go:276-289 | the Pause policy sets spec.paused before the phase says so |
| PlanBudget.ResumeSettlesFailures | controllers/patchplan_controller.go:379-415 | with fresh reads, at no point after a resume do the failures of that moment trigger the Pause policy, nor do fewer than max(maxFailures, 1) above those it acknowledged; it acknowledges them all exactly when they would have |
| PlanBudget.AcknowledgedFailuresStaySettled | controllers/patchplan_controller.go:126-131 | with fresh reads no step takes an acknowledgement back, none exceeds the failures while history is kept, and what did not trigger the policy never does later |
| PlanTiming.RoundsAreSpaced | controllers/scheduler.go:59-62 | any two rounds are delayBetweenNodes apart from the second the first was recorded in, and it goes unrecorded only when one of its calls failed |
| PlanWitness.RoundsCloserThanDelay | controllers/scheduler.go:97-111 | for every positive delay and every first instant off the whole second, a run with two recorded rounds closer than the delay |
| PlanWitness.UnrecordedRoundIsNotWaitedFor | controllers/scheduler.go:215-264 | a run whose first round ends between the job and its record, and whose second round does not wait |
| PlanTiming.RoundsFollowFinishedJobs | controllers/scheduler.go:97-111 | with fresh reads every round also comes that long after the completion of each job finished before it |
| PlanTiming.StartTimeIsKept | controllers/scheduler.go:114-130 | however often a plan ends and starts again, its first start time stays |
| PlanKubernetes.WorkersFollowKubeProxy | controllers/scheduler.go:136-201 | up to the first deletion, or with sound retention lists throughout: in a Kubernetes upgrade a worker has a job only after an earlier pass at which every control plane job had completed and kube-proxy was absent or rolled out at the target image |
| PlanPromises.KubeProxyRolls | controllers/patchplan_controller.go:317-350 | a pass goes on exactly when kube-proxy is absent or rolled out at the version; another image is replaced once, and nothing else of the DaemonSet |
| PlanPromises.KubeProxyWhenDue | controllers/scheduler.go:169-201 | kube-proxy is looked at exactly once a Kubernetes upgrade has completed on every control plane node |
| PlanKubernetes.SwitchesHold | controllers/patchplan_controller.go:355-415 | no step creates a job while the plan is cancelled or paused |
| PlanWitness.CancelledPlanGoesOn | controllers/patchplan_controller.go:355-375 | a run in which a Cancelled plan creates a job after its user cleared the switch |
| PlanLeases.LeasesMirrorJobs | controllers/leases.go:27-88 | after a sync each listed job has a Lease exactly while unfinished, none being given back to a job being deleted; other Leases are untouched, and the slots of a group are its Leases |
| PlanLeases.SyncLeasesTwice | controllers/leases.go:30-88 | a second sync changes nothing |
| PlanSlots.LeasesFollowSlots | controllers/leases.go:91-124 | a creation loop that runs through adds to the Leases of its group one per node it serves, and to no other |
| PlanSlots.SyncCountsLeases | controllers/leases.go:30-88 | by up-to-date lists the map a sync returns counts the Leases held per group |
| PlanSlots.MapCountsLeases | controllers/scheduler.go:41-86 | by up-to-date lists, from the sync to the end of the round the map counts, for every group, the Leases held for it |
| PlanProgress.FreeSlotsAreFilled | controllers/scheduler.go:41-86 | with no guard in the way and working calls, a reconcile gives every free slot of the active group to the next node in order and records the round, by whatever lists it goes |
| PlanProgress.PolicyTakesEffect | controllers/patchplan_controller.go:244-289 | with working calls a pass that counts max(maxFailures, 1) new failures creates nothing, and pauses the plan in spec and status or fails and dates it, as the policy says |
| PlanProgress.CancelTakesEffect | controllers/patchplan_controller.go:355-375 | with working calls a cancelled plan is Cancelled and dated by the next pass, with its jobs and switches as they were |
| PlanProgress.PauseTakesEffect | controllers/patchplan_controller.go:379-398 | with working calls a paused plan is marked so by the next pass, with its jobs and its end as they were |
| PlanProgress.CompletesWhenAllFinished | controllers/patchplan_controller.go:471-492 | with working calls a plan within its failure budget is called Completed, with a date, when every node of the rollout has a finished job, and one not Completed already only then |
| PlanProgress.IdleRolloutHasWork | controllers/scheduler.go:28-50 | a rollout with nobody at work and a node not served has an active group with a pending node and all its slots free |
| PlanCompletion.UnobstructedPass | controllers/scheduler.go:25-93 | with the guards open, working calls, nobody at work and the delay passed, a pass gives a whole batch of the active group its jobs, or completes the plan |
| PlanCompletion.CompletesWithinBatches | controllers/patchplan_controller.go:73-214 | a run with more unobstructed passes than the groups have batches of their concurrency has called its plan Completed, whatever came in between |
| PlanCompletion.BatchesAtMostNodes | controllers/scheduler.go:41-86 | there are no more batches than nodes |
| Drain.CordonRoundTrip | internal/drain/drain.go:32-75 | uncordoning undoes the operator's cordon and no other; both calls can be repeated |
| Drain.Drainer.CordonNode | internal/drain/drain.go:33-54 | an existing cordon and its ownership are left alone, otherwise both marks are set, and on an error nothing changes |
| Drain.Drainer.UncordonNode | internal/drain/drain.go:57-75 | only the operator's own cordon is lifted |
| Drain.Drainer.EvictPod | internal/drain/drain.go:194-222 | per answer: blocked, failed or told to go; deletion is tried only past a budget that is not respected |
| Drain.AnswersMean | internal/drain/drain.go:194-222 | answer by answer which evictions break the attempt, are blocked, or tell the pod to go |
| Drain.Drainer.DrainNode | internal/drain/drain.go:95-131 | refuses before touching anything when a bare pod would be lost, else asks the workload pods in order up to the first failure and reports whether a budget blocked one |
| Drain.Drainer.IsDrained | internal/drain/drain.go:225-232 | true exactly when no pod, terminating ones included, blocks the drain |
| Drain.UnblockedAttemptAskedAll | internal/drain/drain.go:93-131 | after an unblocked attempt every pod still in the way is terminating, and without the option no bare pod was on the list |
| Drain.DrainedNeedsNoEviction | internal/drain/drain.go:95-131 | a drained node passes an attempt whatever the options and answers |
| PatchJobController.ControlPlaneStaticPodsReady | controllers/patchjob_controller.go:790-827 | true exactly when each of the three components has a ready container with the wanted image, or any image for an empty version |
| PatchJobController.PatchJobReconciler.Reconcile | controllers/patchjob_controller.go:80-105 | one pass equals the step the theorems are about; errors before it are forgotten exactly when it ends without one |
| PatchJobController.PatchJobReconciler.InitJob | controllers/patchjob_controller.go:150-248 | first look at the node: versions recorded, downgrades refused, phase chosen |
| JobErrors.FailsOnPersistentErrors | controllers/patchjob_controller.go:272-281 | a pass that meets a transient error fails the job exactly when passes have failed without a break for longer than the deadline |
| PatchJobController.PatchJobReconciler.WithTalos | controllers/patchjob_controller.go:317-344 | setup errors are retried, except a client that cannot be created, which fails the job |
| PatchJobController.PatchJobReconciler.StartDrain | controllers/patchjob_controller.go:379-443 | cordon, drain attempt, and the outcome stored, retried or failed |
| PatchJobController.PatchJobReconciler.WaitForDrain | controllers/patchjob_controller.go:446-484 | moves on when drained, fails after the drain timeout |
| PatchJobController.PatchJobReconciler.StartUpgrade | controllers/patchjob_controller.go:487-533 | issues Upgrade and stores start time and boot ID |
| PatchJobController.PatchJobReconciler.WaitForReboot | controllers/patchjob_controller.go:536-637 | the pass in Rebooting, stamp and health check included, settles as the step the theorems are about |
| PatchJobController.PatchJobReconciler.NodeHealthy | controllers/patchjob_controller.go:641-665 | healthy exactly when booted anew, Ready and with ready static pods on a control plane node; unknown when those cannot be listed |
| PatchJobController.PatchJobReconciler.StartKubernetesUpgrade | controllers/patchjob_controller.go:670-706 | patches control plane and kubelet, then stores the start time |
| PatchJobController.PatchJobReconciler.WaitForKubernetesUpgrade | controllers/patchjob_controller.go:710-785 | completes when kubelet and static pods run the target, fails after the timeout |
| JobOutcomes.FirstLook | controllers/patchjob_controller.go:150-248 | the first look: Failed exactly on a forbidden downgrade, else Pending, UpgradingKubernetes or Completed exactly as Talos, Kubernetes or neither differs; versions and start recorded |
| JobOutcomes.SetupFailure | controllers/patchjob_controller.go:317-344 | without a Talos client a job fails at once, any other setup error is tried again |
| JobOutcomes.DrainSettles | controllers/patchjob_controller.go:379-443 | Draining exactly when neither a bare pod nor a budget is in the way; Failed exactly on a bare pod or when blocked past the drain timeout since the first attempt |
| JobOutcomes.DrainEnds | internal/drain/drain.go:95-131 | when an attempt is refused, breaks down or is blocked, told by the pods and the answers |
| JobOutcomes.DrainWaits | controllers/patchjob_controller.go:446-484 | Upgrading exactly when no workload pod is left, terminating ones included; Failed exactly past the drain timeout; otherwise unchanged |
| JobOutcomes.UpgradeSettles | controllers/patchjob_controller.go:487-533 | Rebooting exactly when an image can be named and the call is acknowledged, with start and boot ID recorded; without an image Failed |
| JobOutcomes.RebootSettles | controllers/patchjob_controller.go:536-637 | Failed exactly when the node is not back and has rolled back or the reboot timeout has passed; onwards exactly when it is back; otherwise unchanged |
| JobOutcomes.KubernetesStarts | controllers/patchjob_controller.go:670-706 | goes on exactly when the patches are applied |
| JobOutcomes.KubernetesSettles | controllers/patchjob_controller.go:710-785 | Completed exactly when kubelet and control plane run the target; Failed exactly when not and past the timeout; otherwise unchanged |
| JobOutcomes.StaticPodsRun | controllers/patchjob_controller.go:790-827 | ready means that API server, controller manager and scheduler each have a ready container of the version, or of any |
| JobOutcomes.BlindPassRetries | controllers/patchjob_controller.go:272-281 | a read or call that a phase needs and that fails leaves the job as it is and starts the time such errors may last |
| JobOutcomes.MissingStartBeginsNow | controllers/patchjob_controller.go:546-554 | a waiting job without a recorded start begins its timeout now, if that can be written |
| JobRuns.JobReconcileAdvances | controllers/patchjob_controller.go:107-133 | a pass only changes the status, never after the job finished, dates the end, and never goes back a phase |
| JobRuns.CompletedAtTarget | controllers/patchjob_controller.go:174-232 | a Completed job reports every requested version as the current one |
| JobEvidence.RebootIsProven | controllers/patchjob_controller.go:536-637 | a job leaves Rebooting successfully only after an accepted upgrade and an answer with the requested version, from another boot if the old one was known, Ready, with ready static pods on a control plane node |
| JobEvidence.SeenDrained | controllers/patchjob_controller.go:446-484 | a job reaches Upgrading only through a pass that saw the node drained |
| JobEvidence.UpgradesCounted | controllers/patchjob_controller.go:508-525 | the upgrades a node took on are the recorded one, those whose reply was lost and those whose status write was lost |
| JobEvidence.UpgradedOnce | controllers/patchjob_controller.go:508-525 | a node took on no upgrade but the recorded one exactly when each was acknowledged and its write landed |
| JobWitness.LostRecordUpgradesTwice | controllers/patchjob_controller.go:508-525 | runs with a second upgrade, one after a lost reply and one after a lost write |
| JobEvidence.UpgradesAreJustified | controllers/patchjob_controller.go:174-194 | a node is upgraded only if the first look showed another version or schematic and no forbidden downgrade |
| JobEvidence.KubernetesSettledAtStart | controllers/patchjob_controller.go:617-624 | a Kubernetes upgrade follows the reboot exactly when the kubelet was not at the target at the first look |
| JobEvidence.CompletionEvidence | controllers/patchjob_controller.go:742-773 | completing anywhere but out of Rebooting shows kubelet and static pods at the target |
| JobWitness.RebootCompletesWithOldStaticPods | controllers/patchjob_controller.go:618-624 | a run that completes a job although the static pods never ran the requested version |
| JobEvidence.SchematicNotRechecked | controllers/patchjob_controller.go:575-635 | no pass but the first and the upgrade depends on the node's schematic |
| JobWitness.CompletesWithOtherSchematic | controllers/patchjob_controller.go:575-635 | a run that completes a job on a node that shows another schematic than the pinned one in every pass |
| JobCordon.CordonRestored | controllers/patchjob_controller.go:611-615 | an admin's cordon survives every run, and a Completed job leaves the node as schedulable as it was |
| JobCordon.EarlyFailureRestores | controllers/patchjob_controller.go:283-305 | a job failing in any phase but Rebooting leaves the node as it was, if the uncordon call succeeds |
| JobCordon.CordonHeldIff | controllers/patchjob_controller.go:283-305 | in Draining, Upgrading and Rebooting the node is unschedulable exactly when no pass in those phases came to the failing or completing branch that releases it and then could not write |
| JobCordon.LateFailureKeepsCordon | controllers/patchjob_controller.go:283-305 | failing in Rebooting leaves the node unschedulable exactly when no release went unrecorded before |
| JobCordon.UpgradeOnDrainedNode | controllers/patchjob_controller.go:379-510 | Upgrade reaches a node only after it was seen drained, and while unschedulable exactly when no release went unrecorded before |
| JobWitness.LostReleaseUpgradesSchedulableNode | controllers/patchjob_controller.go:285-305 | a run that upgrades a schedulable node after an unrecorded release |
| JobTermination.EveryJobFinishes | controllers/patchjob_controller.go:379-785 | reconciled at least every gap with writes that land, a job has finished by every pass later than its three timeouts and eight windows of tolerated errors, whatever node, pods and API answer |
| JobTermination.DrainingNeedsItsStart | controllers/patchjob_controller.go:458-470 | a Draining job with pods left fails exactly when it has a start time and it is past the timeout |
| JobProgress.HealthyRunCompletes | controllers/patchjob_controller.go:107-133 | seven passes without an obstacle complete a job, at the requested versions, with at most one upgrade |

## Left out

- Messages, log lines, events, `RequeueAfter` values and status writes that only set a message.
- Auto-update templates and the choice of releases (controllers/autoupdate.go, internal/release), registries, the
  support matrix and image names beyond those compared.
- The Talos client, TLS, Secrets and HTTP: their results are arbitrary parameters of a pass.
- The remote preflight checks, among them skew, images and conflicting plans: one arbitrary outcome per pass.
- Other PatchPlans: a single plan is modelled.
- Label selectors, label values, semantic versions, HH:MM and date strings: a selector is an arbitrary predicate on
  labels, a version order an arbitrary relation, and times and dates are what parsing them yields.
- A clock in another zone than UTC: the search then steps through local calendar days, which can differ by an hour.
- Job names: they are taken to be different for different nodes, so jobs are kept by node.
- Within one pass the clock stands still.
- The Lease, PatchPlan and node objects that a pass reads individually are up to date; only lists can be out of date.
- A write that fails is taken not to have been stored; one that is stored although its caller sees an error is not
  modelled.
- User deletion of PatchJobs, edits of spec or labels during a rollout and controller restarts, over whole runs. The
  one-reconcile bound `OneReconcileWithinConcurrency` needs none of these exclusions but a job being deleted.
- The kube-proxy DaemonSet beyond its first container image and rollout counters.
- Scheduling.Resolve: the sort is a function on values; SortedIsUnique shows that any sort yields the same list.
- PlanSafety.StaleRunsAreSafe: claims no group order after a deletion, because a purge cut short can leave finished jobs
  of later groups only; StaleRunsWithinConcurrency goes on past it.
- PlanSlots.MapCountsLeases: for Leases that belong to a job, since the map counts listed jobs.
- Drain.Drainer.DrainNode: the timeout of the context is part of the arbitrary answers of the API server.
- JobTermination.EveryJobFinishes: assumes status writes that land, since a job that cannot be written cannot finish.
- PatchPlanController.PatchPlanReconciler.Reconcile: the lists it reads name each PatchJob and each Lease once, as lists
  from the API server do.
