/** What a reconcile brings about when its calls succeed: the policy takes effect, slots are filled, the plan ends. */
module PlanProgress {
  import opened Api
  import opened Scheduling
  import opened Rollouts
  import opened Maintenance
  import opened PlanWorld
  import opened PlanSteps
  import opened PlanEffects
  import opened PlanRuns
  import opened PlanSafety
  import Controller = PatchPlanController

  // ---------------------------------------------------------------- enough calls

  /** w1 follows w0 with at most used calls spent. */
  predicate Spends(w0: World, w1: World, used: nat) { w1.calls <= w0.calls <= w1.calls + used }

  lemma {:induction false} ReleaseLeasesRuns(w: World, view: Jobs, leases: seq<string>)
    requires w.calls >= |leases|
    ensures
      var f := ReleaseLeases(w, view, leases);
      f.Next? && Spends(w, f.w, |leases|)
    decreases |leases|
  {
    if leases != [] {
      if IsFinished(view, leases[0]) {
        ReleaseLeasesRuns(w.(calls := w.calls - 1, leases := w.leases - {leases[0]}), view, leases[1..]);
      } else {
        ReleaseLeasesRuns(w, view, leases[1..]);
      }
    }
  }

  lemma {:induction false} RestoreLeasesRuns(groups: seq<Group>, w: World, jobs: seq<PatchJob>, leases: seq<string>)
    requires w.calls >= |jobs|
    ensures
      var f := RestoreLeases(groups, w, jobs, leases);
      f.Next? && Spends(w, f.w, |jobs|)
    decreases |jobs|
  {
    if jobs != [] {
      if NeedsLease(jobs[0], leases) {
        var f := AddLease(w, jobs[0].node, GroupOfJob(groups, jobs[0]));
        RestoreLeasesRuns(groups, f.w, jobs[1..], leases);
      } else {
        RestoreLeasesRuns(groups, w, jobs[1..], leases);
      }
    }
  }

  lemma SyncLeasesRuns(groups: seq<Group>, w: World, jobs: seq<PatchJob>, leases: seq<string>) returns (w1: World)
    requires w.calls > |leases| + |jobs|
    ensures SyncLeases(groups, w, jobs, leases) == Next(w1)
    ensures OnlyLeases(w, w1) && Spends(w, w1, 1 + |leases| + |jobs|)
  {
    SyncLeasesKeeps(groups, w, jobs, leases);
    var c := w.(calls := w.calls - 1);
    ReleaseLeasesRuns(c, ByNode(jobs), leases);
    var r := ReleaseLeases(c, ByNode(jobs), leases).w;
    RestoreLeasesRuns(groups, r, jobs, leases);
    w1 := RestoreLeases(groups, r, jobs, leases).w;
  }

  // ---------------------------------------------------------------- up to the failure policy

  /** Retention does not end the pass: nothing is purged yet, and nothing due or a listed job unfinished. */
  ghost predicate RetentionPasses(cfg: Config, w: World, jobs: seq<PatchJob>) {
    || !IsFinishedPhase(w.status.phase) || w.status.completionTime.None?
    || (!w.status.historyPurged && (!PurgeDue(cfg, w.now, w.status) || exists j <- jobs :: !j.Finished()))
  }

  lemma RetentionRuns(cfg: Config, w: World, jobs: seq<PatchJob>) returns (w1: World)
    requires w.calls >= 1 && RetentionPasses(cfg, w, jobs)
    ensures ApplyRetention(cfg, w, jobs) == Next(w1) && Untouched(w, w1) && Spends(w, w1, 1)
  {
    w1 := ApplyRetention(cfg, w, jobs).w;
  }

  /** A pass has changed neither the jobs nor what the user and the clock say. */
  ghost predicate Ready(w0: World, w1: World) {
    && w1.now == w0.now && w1.jobs == w0.jobs
    && w1.paused == w0.paused && w1.cancelled == w0.cancelled && w1.generation == w0.generation
    && w1.status.lastNodeScheduledAt == w0.status.lastNodeScheduledAt
    && w1.status.historyPurged == w0.status.historyPurged
    && (w1.status.phase.PlanCompleted? ==> w0.status.phase.PlanCompleted?)
    && (w1.status.phase.PlanFailed? ==> w0.status.phase.PlanFailed?)
  }

  /** The plan is switched on, its preflight is settled or about to pass, and kube-proxy holds nothing up. */
  ghost predicate Attended(cfg: Config, w: World, seen: Seen) {
    && !w.cancelled && !w.paused
    && (seen.started || PreflightKnown(w) || (seen.checked && seen.total > 0 && seen.remoteChecks == Some(true)))
    && (seen.kubeProxyDue ==>
          w.status.kubeProxyUpgraded || KubeProxyDone(w.kubeProxy, cfg.target.kubernetesVersion))
  }

  /** The acknowledged failures when the failure policy looks at them. */
  function Acknowledging(cfg: Config, w: World, failed: nat): int {
    if AwaitsResume(cfg, w) then Accepted(cfg, w.status, failed) else Min(w.status.failuresAcknowledged, failed)
  }

  lemma CountingRuns(cfg: Config, w0: World, w: World, progress: Progress, seen: Seen) returns (w1: World)
    requires w.calls >= 1 && OnlyLeases(w0, w) && progress.counts == seen.counts
    ensures SyncStatus(w, progress) == Next(w1) && Spends(w, w1, 1) && Ready(w0, w1)
    ensures Attended(cfg, w0, seen) ==> Attended(cfg, w1, seen)
    ensures w1.status.phase == w0.status.phase
    ensures w1.status.failuresAcknowledged == Min(w0.status.failuresAcknowledged, seen.counts.failed)
  {
    w1 := SyncStatus(w, progress).w;
  }

  lemma ResumeRuns(cfg: Config, w: World, seen: Seen) returns (w1: World)
    requires w.calls >= 1 && Attended(cfg, w, seen) && w.status.failuresAcknowledged <= seen.counts.failed
    ensures EnsurePauseState(cfg, w, seen.counts.failed) == Next(w1) && Spends(w, w1, 1)
    ensures Ready(w, w1) && Attended(cfg, w1, seen) && !w1.status.phase.Paused?
    ensures w1.status.failuresAcknowledged == Acknowledging(cfg, w, seen.counts.failed)
  {
    w1 := EnsurePauseState(cfg, w, seen.counts.failed).w;
  }

  lemma PreflightRuns(cfg: Config, w: World, seen: Seen) returns (w1: World)
    requires w.calls >= 2 && Attended(cfg, w, seen) && !w.status.phase.Paused?
    ensures EnsurePreflight(w, seen.started, seen.total > 0, seen.checked, seen.remoteChecks) == Next(w1)
    ensures Spends(w, w1, 2) && Ready(w, w1) && Attended(cfg, w1, seen) && !w1.status.phase.Paused?
    ensures w1.status.failuresAcknowledged == w.status.failuresAcknowledged
  {
    w1 := EnsurePreflight(w, seen.started, seen.total > 0, seen.checked, seen.remoteChecks).w;
  }

  lemma KubeProxyRuns(cfg: Config, w: World, seen: Seen) returns (w1: World)
    requires w.calls >= 2 && Attended(cfg, w, seen) && !w.status.phase.Paused?
    ensures EnsureKubeProxy(w, seen.kubeProxyDue, cfg.target.kubernetesVersion) == Next(w1)
    ensures Spends(w, w1, 2) && Ready(w, w1) && !w1.status.phase.Paused?
    ensures w1.status.failuresAcknowledged == w.status.failuresAcknowledged
  {
    w1 := EnsureKubeProxy(w, seen.kubeProxyDue, cfg.target.kubernetesVersion).w;
  }

  lemma AdmitRuns(cfg: Config, w: World, seen: Seen) returns (w1: World)
    requires w.calls >= 3 && Attended(cfg, w, seen) && w.status.failuresAcknowledged <= seen.counts.failed
    ensures Admit(cfg, w, seen) == Next(w1) && Spends(w, w1, 3)
    ensures Ready(w, w1) && Attended(cfg, w1, seen) && !w1.status.phase.Paused?
    ensures w1.status.failuresAcknowledged == Acknowledging(cfg, w, seen.counts.failed)
  {
    var w2 := ResumeRuns(cfg, w, seen);
    w1 := PreflightRuns(cfg, w2, seen);
  }

  /** The acknowledgement a sync leaves does not depend on how often it is capped. */
  lemma CappedOnce(cfg: Config, w0: World, w1: World, failed: nat)
    requires w1.status.failuresAcknowledged == Min(w0.status.failuresAcknowledged, failed)
    requires w1.status.phase == w0.status.phase && w1.cancelled == w0.cancelled
    ensures Acknowledging(cfg, w1, failed) == Acknowledging(cfg, w0, failed)
  {
  }

  /** A pass with working calls gets to the failure policy, with the counts it made and the resume settled. */
  lemma PrepareRuns(cfg: Config, groups: seq<Group>, w: World, o: Observation, seen: Seen) returns (w1: World)
    requires seen == Look(cfg, groups, ByNode(o.jobs), o.remoteChecks) && Attended(cfg, w, seen)
    requires w.calls >= 8 + |o.leases| + |o.jobs|
    ensures Prepare(cfg, groups, w, o) == Conclude(cfg, w1, seen)
    ensures Ready(w, w1) && Spends(w, w1, 8 + |o.leases| + |o.jobs|) && !w1.status.phase.Paused?
    ensures w1.status.failuresAcknowledged == Acknowledging(cfg, w, seen.counts.failed)
  {
    var c := w.(calls := w.calls - 1);
    var w2 := SyncLeasesRuns(groups, c, o.jobs, o.leases);
    var w3 := CountingRuns(cfg, w, w2, Summarized(cfg, groups, ByNode(o.jobs), o.leases), seen);
    CappedOnce(cfg, w, w3, seen.counts.failed);
    var w4 := AdmitRuns(cfg, w3, seen);
    w1 := KubeProxyRuns(cfg, w4, seen);
  }

  /**
   * The policy tolerates the failures a pass will count: fewer than maxFailures of them are new, where 0 counts as 1,
   * or the user resumes a plan under Pause.
   */
  ghost predicate Tolerated(cfg: Config, w: World, failed: nat) {
    || (cfg.policy.kind.Pause? && w.status.phase.Paused? && !w.cancelled)
    || failed - w.status.failuresAcknowledged < Max(cfg.policy.maxFailures, 1)
  }

  lemma ToleratedIsBudget(cfg: Config, w: World, w1: World, failed: nat)
    requires w1.status.failuresAcknowledged == Acknowledging(cfg, w, failed)
    ensures cfg.policy.Exceeded(NewFailures(w1.status, failed)) <==> !Tolerated(cfg, w, failed)
  {
    assert cfg.policy.Threshold() >= 1;
  }

  // ---------------------------------------------------------------- a whole reconcile up to there

  /** Every call of the reconcile succeeds. */
  ghost predicate CallsSuffice(groups: seq<Group>, o: Observation) {
    o.calls >= 13 + |o.leases| + |o.jobs| + 3 * |AllNodes(groups)|
  }

  ghost function SeenBy(cfg: Config, groups: seq<Group>, o: Observation): Seen {
    Look(cfg, groups, ByNode(o.jobs), o.remoteChecks)
  }

  lemma ReconcilePasses(cfg: Config, w0: World, w1: World, o: Observation, groups: seq<Group>) returns (w: World)
    requires ValidStrategy(cfg.strategy) && groups == Groups(cfg) && w1 == Reconcile(cfg, w0, o)
    requires RetentionPasses(cfg, w0, o.retentionJobs) && o.calls >= 3
    ensures Untouched(w0, w) && w.calls + 3 >= o.calls && w1 == Pass(cfg, groups, w, o)
  {
    var f := Call(w0.(calls := o.calls));
    var r := RetentionRuns(cfg, f.w, o.retentionJobs);
    var c := Call(r);
    w := c.w;
    assert w1 == Pass(cfg, groups, c.w, o);
  }

  /** What a reconcile comes to when its calls succeed: the conclusions it draws in w, and then the scheduling. */
  ghost function Remainder(cfg: Config, groups: seq<Group>, w: World, o: Observation): World {
    var f := Conclude(cfg, w, SeenBy(cfg, groups, o));
    if f.Stop? then f.w else ScheduleNodes(cfg, groups, f.w, ByNode(o.jobs), o.leases).w
  }

  lemma ReconcileRuns(cfg: Config, w0: World, w1: World, o: Observation, groups: seq<Group>) returns (w: World)
    requires ValidStrategy(cfg.strategy) && groups == Groups(cfg) && w1 == Reconcile(cfg, w0, o)
    requires RetentionPasses(cfg, w0, o.retentionJobs) && Attended(cfg, w0, SeenBy(cfg, groups, o))
    requires CallsSuffice(groups, o)
    ensures w1 == Remainder(cfg, groups, w, o)
    ensures Ready(w0, w) && !w.status.phase.Paused? && w.calls >= 2 + 3 * |AllNodes(groups)|
    ensures w.status.failuresAcknowledged == Acknowledging(cfg, w0, SeenBy(cfg, groups, o).counts.failed)
  {
    var seen := SeenBy(cfg, groups, o);
    var w2 := ReconcilePasses(cfg, w0, w1, o, groups);
    w := PrepareRuns(cfg, groups, w2, o, seen);
  }

  // ---------------------------------------------------------------- the reasons to end the plan

  /** A paused or failed plan: what the failure policy makes of one that exceeds it. */
  ghost predicate PolicyApplied(cfg: Config, w0: World, w1: World) {
    && w1.jobs == w0.jobs
    && (cfg.policy.kind.Pause? ==>
          && w1.paused && w1.status.phase.Paused?
          && w1.generation == w0.generation + if w0.paused then 0 else 1)
    && (cfg.policy.kind.Halt? ==>
          && w1.status.phase.PlanFailed? && w1.paused == w0.paused
          && (!w0.status.phase.PlanFailed? ==> w1.status.completionTime == Some(Stored(w0.now))))
  }

  lemma BudgetApplies(cfg: Config, w: World, w1: World, failed: nat)
    requires cfg.policy.Exceeded(NewFailures(w.status, failed)) && w.calls >= 2
    requires w1 == EnforceFailureBudget(cfg, w, failed).w
    ensures EnforceFailureBudget(cfg, w, failed).Stop? && PolicyApplied(cfg, w, w1)
  {
    if cfg.policy.kind.Pause? {
      assert w1 == PauseOnFailures(w).w;
    }
  }

  /**
   * With working calls a pass that counts too many new failures schedules nothing and pauses the plan for its user, or
   * fails it, as the policy says; whatever list it goes by.
   */
  lemma PolicyTakesEffect(cfg: Config, w0: World, w1: World, o: Observation, groups: seq<Group>)
    requires ValidStrategy(cfg.strategy) && groups == Groups(cfg) && w1 == Reconcile(cfg, w0, o)
    requires RetentionPasses(cfg, w0, o.retentionJobs) && Attended(cfg, w0, SeenBy(cfg, groups, o))
    requires CallsSuffice(groups, o) && !Tolerated(cfg, w0, SeenBy(cfg, groups, o).counts.failed)
    ensures PolicyApplied(cfg, w0, w1)
  {
    var seen := SeenBy(cfg, groups, o);
    var w := ReconcileRuns(cfg, w0, w1, o, groups);
    ToleratedIsBudget(cfg, w0, w, seen.counts.failed);
    BudgetApplies(cfg, w, EnforceFailureBudget(cfg, w, seen.counts.failed).w, seen.counts.failed);
  }

  /** With working calls a pass ends a plan its user has cancelled, and dates that once. */
  lemma CancelTakesEffect(cfg: Config, w0: World, w1: World, o: Observation, groups: seq<Group>)
    requires ValidStrategy(cfg.strategy) && groups == Groups(cfg) && w1 == Reconcile(cfg, w0, o)
    requires RetentionPasses(cfg, w0, o.retentionJobs) && CallsSuffice(groups, o)
    requires w0.cancelled && !w0.status.phase.Cancelled?
    ensures w1.status.phase.Cancelled? && w1.status.completionTime == Some(Stored(w0.now)) && Ready(w0, w1)
    ensures w1.status.failuresAcknowledged ==
            Min(w0.status.failuresAcknowledged, SeenBy(cfg, groups, o).counts.failed)
  {
    var w := ReconcilePasses(cfg, w0, w1, o, groups);
    PassCancels(cfg, groups, w, w1, o);
  }

  lemma PassCancels(cfg: Config, groups: seq<Group>, w: World, w1: World, o: Observation)
    requires w1 == Pass(cfg, groups, w, o) && w.calls >= 4 + |o.leases| + |o.jobs|
    requires w.cancelled && !w.status.phase.Cancelled?
    ensures w1.status.phase.Cancelled? && w1.status.completionTime == Some(Stored(w.now)) && Ready(w, w1)
    ensures w1.status.failuresAcknowledged ==
            Min(w.status.failuresAcknowledged, SeenBy(cfg, groups, o).counts.failed)
  {
    var seen, c := SeenBy(cfg, groups, o), w.(calls := w.calls - 1);
    var w2 := SyncLeasesRuns(groups, c, o.jobs, o.leases);
    var w3 := CountingRuns(cfg, w, w2, Summarized(cfg, groups, ByNode(o.jobs), o.leases), seen);
  }

  /** With working calls a pass marks a plan its user has paused, and creates nothing. */
  lemma PauseTakesEffect(cfg: Config, w0: World, w1: World, o: Observation, groups: seq<Group>)
    requires ValidStrategy(cfg.strategy) && groups == Groups(cfg) && w1 == Reconcile(cfg, w0, o)
    requires RetentionPasses(cfg, w0, o.retentionJobs) && CallsSuffice(groups, o)
    requires w0.paused && !w0.cancelled
    ensures w1.status.phase.Paused? && w1.status.completionTime == w0.status.completionTime && Ready(w0, w1)
  {
    var w := ReconcilePasses(cfg, w0, w1, o, groups);
    PassPauses(cfg, groups, w, w1, o);
  }

  lemma PassPauses(cfg: Config, groups: seq<Group>, w: World, w1: World, o: Observation)
    requires w1 == Pass(cfg, groups, w, o) && w.calls >= 4 + |o.leases| + |o.jobs|
    requires w.paused && !w.cancelled
    ensures w1.status.phase.Paused? && w1.status.completionTime == w.status.completionTime && Ready(w, w1)
  {
    var seen, c := SeenBy(cfg, groups, o), w.(calls := w.calls - 1);
    var w2 := SyncLeasesRuns(groups, c, o.jobs, o.leases);
    var w3 := CountingRuns(cfg, w, w2, Summarized(cfg, groups, ByNode(o.jobs), o.leases), seen);
    assert w3.status.completionTime == w.status.completionTime;
  }

  /** The counts tell whether every node of the rollout has a finished job. */
  lemma CountsTellCompletion(cfg: Config, groups: seq<Group>, view: Jobs, remote: Option<bool>)
    requires Distinct(groups)
    ensures
      var seen := Look(cfg, groups, view, remote);
      seen.counts.completed + seen.counts.failed >= seen.total <==> ActiveGroup(groups, view) == |groups|
  {
    var names := NamesOf(AllNodes(groups));
    AllNodesUniquelyNamed(groups);
    NamesCount(AllNodes(groups));
    Controller.CountsCoverAll(names, view);
    if ActiveGroup(groups, view) == |groups| {
      NobodyOpen(groups, view);
    } else {
      SomebodyOpen(groups, view, ActiveGroup(groups, view));
    }
  }

  lemma NobodyOpen(groups: seq<Group>, view: Jobs)
    requires ActiveGroup(groups, view) == |groups|
    ensures UnfinishedIn(NamesOf(AllNodes(groups)), view) == {} && MissingIn(NamesOf(AllNodes(groups)), view) == {}
  {
    AllNodesMembers(groups);
    forall n | n in AllNodes(groups) ensures IsFinished(view, n.name) {
      var i :| 0 <= i < |groups| && n in groups[i].nodes;
      assert GroupFinished(groups[i], view);
    }
  }

  lemma SomebodyOpen(groups: seq<Group>, view: Jobs, i: nat)
    requires i < |groups| && !GroupFinished(groups[i], view)
    ensures |UnfinishedIn(NamesOf(AllNodes(groups)), view)| + |MissingIn(NamesOf(AllNodes(groups)), view)| > 0
  {
    AllNodesMembers(groups);
    var n :| n in groups[i].nodes && !IsFinished(view, n.name);
    assert n in AllNodes(groups);
    var names := NamesOf(AllNodes(groups));
    assert n.name in UnfinishedIn(names, view) || n.name in MissingIn(names, view);
  }

  lemma ConcludeCompletes(cfg: Config, w: World, seen: Seen)
    requires !cfg.policy.Exceeded(NewFailures(w.status, seen.counts.failed)) && w.calls >= 1
    ensures
      var f := Conclude(cfg, w, seen);
      if seen.counts.completed + seen.counts.failed >= seen.total
      then && f.Stop? && f.w.status.phase.PlanCompleted? && f.w.jobs == w.jobs
           && (!w.status.phase.PlanCompleted? ==> f.w.status.completionTime == Some(Stored(w.now)))
      else f.w == w && (f.Next? <==> IsInMaintenanceWindow(cfg.maintenance, w.now))
  {
  }

  lemma ScheduleNeverCompletes(cfg: Config, groups: seq<Group>, w: World, w1: World, view: Jobs, leases: seq<string>)
    requires w1 == ScheduleNodes(cfg, groups, w, view, leases).w && w1.status.phase.PlanCompleted?
    ensures w.status.phase.PlanCompleted?
  {
    var i := ActiveGroup(groups, view);
    if i < |groups| && MarkInProgress(w).Next? {
      var pending, free := PendingNodes(groups[i].nodes, view), FreeSlots(groups, view, leases, groups[i]);
      if free > 0 {
        CreateJobsKeeps(cfg, MarkInProgress(w).w, WorkersGated(cfg, groups, view), groups[i].name,
                        pending[..Min(free, |pending|)]);
      }
    }
  }

  /**
   * With working calls a pass calls a plan whose failures are tolerated Completed exactly when every node of the
   * rollout has a finished job in the list it goes by.
   */
  lemma CompletesWhenAllFinished(cfg: Config, w0: World, w1: World, o: Observation, groups: seq<Group>)
    requires ValidStrategy(cfg.strategy) && groups == Groups(cfg) && w1 == Reconcile(cfg, w0, o)
    requires RetentionPasses(cfg, w0, o.retentionJobs) && Attended(cfg, w0, SeenBy(cfg, groups, o))
    requires CallsSuffice(groups, o) && Tolerated(cfg, w0, SeenBy(cfg, groups, o).counts.failed)
    ensures ActiveGroup(groups, ByNode(o.jobs)) == |groups| ==>
              && w1.status.phase.PlanCompleted? && w1.jobs == w0.jobs
              && (!w0.status.phase.PlanCompleted? ==> w1.status.completionTime == Some(Stored(w0.now)))
    ensures w1.status.phase.PlanCompleted? && !w0.status.phase.PlanCompleted? ==>
              ActiveGroup(groups, ByNode(o.jobs)) == |groups|
  {
    var seen := SeenBy(cfg, groups, o);
    var w := ReconcileRuns(cfg, w0, w1, o, groups);
    ResolvedWellFormed(cfg.nodes, cfg.strategy);
    ToleratedIsBudget(cfg, w0, w, seen.counts.failed);
    CountsTellCompletion(cfg, groups, ByNode(o.jobs), o.remoteChecks);
    RemainderCompletes(cfg, groups, w, w1, o, seen);
  }

  lemma RemainderCompletes(cfg: Config, groups: seq<Group>, w: World, w1: World, o: Observation, seen: Seen)
    requires seen == SeenBy(cfg, groups, o) && w1 == Remainder(cfg, groups, w, o) && w.calls >= 1
    requires !cfg.policy.Exceeded(NewFailures(w.status, seen.counts.failed))
    ensures if seen.counts.completed + seen.counts.failed >= seen.total
            then && w1.status.phase.PlanCompleted? && w1.jobs == w.jobs
                 && (!w.status.phase.PlanCompleted? ==> w1.status.completionTime == Some(Stored(w.now)))
            else w1.status.phase.PlanCompleted? ==> w.status.phase.PlanCompleted?
  {
    ConcludeCompletes(cfg, w, seen);
    if Conclude(cfg, w, seen).Next? && w1.status.phase.PlanCompleted? {
      ScheduleNeverCompletes(cfg, groups, w, w1, ByNode(o.jobs), o.leases);
    }
  }

  // ---------------------------------------------------------------- the round

  lemma CreateRuns(cfg: Config, w: World, node: string, group: string) returns (w1: World)
    requires w.calls >= 3
    ensures CreatePatchJob(cfg, w, node, group) == Next(w1)
    ensures w1.jobs == Created(cfg, w.jobs, node, group) && Spends(w, w1, 3)
  {
    w1 := CreatePatchJob(cfg, w, node, group).w;
  }

  /** With three calls a node the creation loop reaches its end when nothing is gated. */
  lemma {:induction false} CreateJobsRuns(cfg: Config, w: World, gated: bool, group: string, nodes: seq<Node>)
    requires w.calls > 3 * |nodes| && NoneWaits(gated, nodes)
    ensures
      var w1 := CreateJobs(cfg, w, gated, group, nodes).w;
      w1.jobs == WithJobs(cfg, w.jobs, group, nodes) && w1.calls > 0
    decreases |nodes|
  {
    if nodes == [] {
      WithNoJobs(cfg, w.jobs, group, nodes);
      assert nodes[..0] == nodes;
    } else {
      assert nodes[0] in nodes;
      var w1 := CreateRuns(cfg, w, nodes[0].name, group);
      CreateJobsRuns(cfg, w1, gated, group, nodes[1..]);
      WithAllJobs(cfg, w.jobs, group, nodes);
    }
  }

  lemma WithAllJobs(cfg: Config, jobs: Jobs, group: string, nodes: seq<Node>)
    requires nodes != []
    ensures WithJobs(cfg, Created(cfg, jobs, nodes[0].name, group), group, nodes[1..])
            == WithJobs(cfg, jobs, group, nodes)
  {
    WithJobsStep(cfg, jobs, group, nodes, |nodes|);
    assert nodes[..|nodes|] == nodes && nodes[1..][..|nodes| - 1] == nodes[1..];
  }

  /** A group that can be served now: it has a node without a job, a free slot, and the delay has passed. */
  ghost predicate Servable(cfg: Config, groups: seq<Group>, w: World, view: Jobs, leases: seq<string>, i: nat)
    requires i < |groups|
  {
    && PendingNodes(groups[i].nodes, view) != [] && FreeSlots(groups, view, leases, groups[i]) > 0
    && DelayElapsed(cfg, w.now, w.status, view)
  }

  /** The nodes a round serves: as many pending ones as there are free slots. */
  ghost function Batch(groups: seq<Group>, view: Jobs, leases: seq<string>, i: nat): seq<Node>
    requires i < |groups| && FreeSlots(groups, view, leases, groups[i]) >= 0
  {
    var pending := PendingNodes(groups[i].nodes, view);
    pending[..Min(FreeSlots(groups, view, leases, groups[i]), |pending|)]
  }

  /** A round has changed neither what the user and the clock say nor the failures acknowledged, and is recorded. */
  ghost predicate RoundDone(w0: World, w1: World) {
    && w1.now == w0.now && w1.paused == w0.paused && w1.cancelled == w0.cancelled && w1.generation == w0.generation
    && w1.status.historyPurged == w0.status.historyPurged
    && (w1.status.phase.InProgress? || w1.status.phase.Preflighting?)
    && (w1.jobs != w0.jobs ==> w1.status.lastNodeScheduledAt == Some(Stored(w0.now)))
  }

  lemma BatchRuns(cfg: Config, w: World, w1: World, gated: bool, group: string, batch: seq<Node>)
    requires !w.status.phase.Paused? && NoneWaits(gated, batch) && w.calls >= 2 + 3 * |batch|
    requires w1 == StartRound(cfg, w, gated, group, batch).w
    ensures w1.jobs == WithJobs(cfg, w.jobs, group, batch) && RoundDone(w, w1)
    ensures w1.status.failuresAcknowledged == w.status.failuresAcknowledged
  {
    var w2 := MarkInProgress(w).w;
    CreateJobsRuns(cfg, w2, gated, group, batch);
    CreateJobsKeeps(cfg, w2, gated, group, batch);
  }

  /** No control plane node failed, so a rollout with the control plane first holds nobody back. */
  lemma NobodyGated(cfg: Config, groups: seq<Group>, view: Jobs, i: nat)
    requires cfg.target.kubernetesVersion != "" ==> ControlPlaneFirst(groups)
    requires cfg.target.kubernetesVersion != "" ==> forall n <- ControlPlane(groups) :: !IsFailed(view, n.name)
    requires i == ActiveGroup(groups, view) < |groups|
    ensures NoneWaits(WorkersGated(cfg, groups, view), groups[i].nodes)
  {
    if WorkersGated(cfg, groups, view) {
      forall n | n in groups[i].nodes ensures IsControlPlane(n) {
        if !IsControlPlane(n) {
          GateBlocksOnFailureOnly(cfg, groups, view, n);
        }
      }
    }
  }

  lemma {:induction false} GroupIsPart(groups: seq<Group>, i: nat)
    requires i < |groups|
    ensures |groups[i].nodes| <= |AllNodes(groups)|
  {
    if i < |groups| - 1 {
      GroupIsPart(groups[..|groups| - 1], i);
    }
  }

  lemma {:induction false} PendingAtMost(nodes: seq<Node>, view: Jobs)
    ensures |PendingNodes(nodes, view)| <= |nodes|
  {
    if nodes != [] {
      PendingAtMost(nodes[..|nodes| - 1], view);
    }
  }

  lemma BatchIsSmall(groups: seq<Group>, view: Jobs, leases: seq<string>, i: nat)
    requires i < |groups| && FreeSlots(groups, view, leases, groups[i]) >= 0
    ensures |Batch(groups, view, leases, i)| <= |AllNodes(groups)|
  {
    GroupIsPart(groups, i);
    PendingAtMost(groups[i].nodes, view);
  }

  /** The guards of a rollout as a user could check them before a reconcile, given the lists it will go by. */
  ghost predicate NothingInTheWay(cfg: Config, groups: seq<Group>, w: World, o: Observation) {
    var seen := SeenBy(cfg, groups, o);
    && RetentionPasses(cfg, w, o.retentionJobs) && Attended(cfg, w, seen) && Tolerated(cfg, w, seen.counts.failed)
    && (cfg.target.kubernetesVersion != "" ==> ControlPlaneFirst(groups))
    && (cfg.target.kubernetesVersion != "" ==> forall n <- ControlPlane(groups) :: !IsFailed(ByNode(o.jobs), n.name))
    && IsInMaintenanceWindow(cfg.maintenance, w.now)
  }

  lemma BatchInGroup(groups: seq<Group>, view: Jobs, leases: seq<string>, i: nat, gated: bool)
    requires i < |groups| && FreeSlots(groups, view, leases, groups[i]) >= 0 && NoneWaits(gated, groups[i].nodes)
    ensures NoneWaits(gated, Batch(groups, view, leases, i))
  {
    forall n | n in Batch(groups, view, leases, i) ensures n in groups[i].nodes {
      assert n in PendingNodes(groups[i].nodes, view);
    }
  }

  lemma ScheduleRuns(
    cfg: Config, groups: seq<Group>, w: World, w1: World, view: Jobs, leases: seq<string>, i: nat, batch: seq<Node>)
    requires i == ActiveGroup(groups, view) < |groups| && Servable(cfg, groups, w, view, leases, i)
    requires NoneWaits(WorkersGated(cfg, groups, view), groups[i].nodes) && !w.status.phase.Paused?
    requires batch == Batch(groups, view, leases, i) && w.calls >= 2 + 3 * |batch|
    requires w1 == ScheduleNodes(cfg, groups, w, view, leases).w
    ensures w1.jobs == WithJobs(cfg, w.jobs, groups[i].name, batch) && RoundDone(w, w1)
    ensures w1.status.failuresAcknowledged == w.status.failuresAcknowledged
  {
    BatchInGroup(groups, view, leases, i, WorkersGated(cfg, groups, view));
    BatchRuns(cfg, w, w1, WorkersGated(cfg, groups, view), groups[i].name, batch);
  }

  lemma PendingNotDone(cfg: Config, groups: seq<Group>, view: Jobs, i: nat)
    requires i == ActiveGroup(groups, view) < |groups| && Distinct(groups)
    ensures
      var seen := Look(cfg, groups, view, None);
      seen.counts.completed + seen.counts.failed < seen.total
  {
    CountsTellCompletion(cfg, groups, view, None);
  }

  /**
   * With nothing in the way and working calls, a reconcile gives every free slot of the active group to the next node
   * in order and records the round: of the group and the slots that the lists it goes by show, however old they are.
   */
  lemma FreeSlotsAreFilled(
    cfg: Config, w0: World, w1: World, o: Observation, groups: seq<Group>, i: nat, batch: seq<Node>)
    requires ValidStrategy(cfg.strategy) && groups == Groups(cfg) && w1 == Reconcile(cfg, w0, o)
    requires NothingInTheWay(cfg, groups, w0, o) && CallsSuffice(groups, o)
    requires i == ActiveGroup(groups, ByNode(o.jobs)) < |groups|
    requires Servable(cfg, groups, w0, ByNode(o.jobs), o.leases, i)
    requires batch == Batch(groups, ByNode(o.jobs), o.leases, i)
    ensures w1.jobs == WithJobs(cfg, w0.jobs, groups[i].name, batch) && batch != [] && RoundDone(w0, w1)
    ensures w1.status.failuresAcknowledged == Acknowledging(cfg, w0, SeenBy(cfg, groups, o).counts.failed)
  {
    var seen, view := SeenBy(cfg, groups, o), ByNode(o.jobs);
    ResolvedWellFormed(cfg.nodes, cfg.strategy);
    var w := ReconcileRuns(cfg, w0, w1, o, groups);
    RoundFollows(cfg, groups, w0, w, w1, o, seen, i, batch);
  }

  lemma RoundFollows(
    cfg: Config, groups: seq<Group>, w0: World, w: World, w1: World, o: Observation, seen: Seen, i: nat,
    batch: seq<Node>)
    requires Distinct(groups) && NothingInTheWay(cfg, groups, w0, o) && seen == SeenBy(cfg, groups, o)
    requires w1 == Remainder(cfg, groups, w, o) && Ready(w0, w) && !w.status.phase.Paused?
    requires w.calls >= 2 + 3 * |AllNodes(groups)|
    requires w.status.failuresAcknowledged == Acknowledging(cfg, w0, seen.counts.failed)
    requires i == ActiveGroup(groups, ByNode(o.jobs)) < |groups|
    requires Servable(cfg, groups, w0, ByNode(o.jobs), o.leases, i)
    requires batch == Batch(groups, ByNode(o.jobs), o.leases, i)
    ensures w1.jobs == WithJobs(cfg, w0.jobs, groups[i].name, batch) && batch != [] && RoundDone(w0, w1)
    ensures w1.status.failuresAcknowledged == w.status.failuresAcknowledged
  {
    var view := ByNode(o.jobs);
    PendingNotDone(cfg, groups, view, i);
    ToleratedIsBudget(cfg, w0, w, seen.counts.failed);
    ConcludeCompletes(cfg, w, seen);
    NobodyGated(cfg, groups, view, i);
    BatchIsSmall(groups, view, o.leases, i);
    ScheduleRuns(cfg, groups, w, w1, view, o.leases, i, batch);
  }

  /** A rollout with nobody at work and a node not served yet always has something to do. */
  lemma IdleRolloutHasWork(groups: seq<Group>, jobs: Jobs, leases: seq<string>, node: Node)
    requires WellFormed(groups) && node in AllNodes(groups) && node.name !in jobs
    requires forall n <- jobs :: jobs[n].Finished()
    ensures ActiveGroup(groups, jobs) < |groups|
    ensures
      var g := groups[ActiveGroup(groups, jobs)];
      PendingNodes(g.nodes, jobs) != [] && FreeSlots(groups, jobs, leases, g) == g.concurrency > 0
  {
    AllNodesMembers(groups);
    var j :| 0 <= j < |groups| && node in groups[j].nodes;
    var i := ActiveGroup(groups, jobs);
    assert !GroupFinished(groups[j], jobs);
    var n :| n in groups[i].nodes && !IsFinished(jobs, n.name);
    assert n in PendingNodes(groups[i].nodes, jobs);
    assert SlotHolders(groups, jobs, leases, groups[i].name) == {};
  }
}
