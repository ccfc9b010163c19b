/** What a plan promises over its runs, told by what is configured for it. */
module PlanPromises {
  import opened Api
  import opened Scheduling
  import opened Rollouts
  import opened Maintenance
  import opened Placement
  import opened PlanWorld
  import opened PlanSteps
  import opened PlanEffects
  import opened PlanRuns
  import opened PlanSafety
  import opened PlanPurge
  import opened PlanTiming
  import opened PlanProgress
  import JobRuns
  import JobSteps

  // ---------------------------------------------------------------- what a job is created for

  /** The job is for its node, carries the plan's target, and names a group of the rollout that has the node. */
  ghost predicate MadeFor(cfg: Config, groups: seq<Group>, n: string, job: PatchJob) {
    && job.node == n && job.target == cfg.target && !job.deleting
    && exists i :: 0 <= i < |groups| && job.group == groups[i].name && n in NamesOf(groups[i].nodes)
  }

  ghost predicate AllMadeFor(cfg: Config, groups: seq<Group>, jobs: Jobs) {
    forall n <- jobs :: MadeFor(cfg, groups, n, jobs[n])
  }

  lemma RoundMakes(cfg: Config, groups: seq<Group>, i: nat, jobs0: Jobs, jobs1: Jobs, created: seq<Node>)
    requires AllMadeFor(cfg, groups, jobs0) && i < |groups| && forall n <- created :: n in groups[i].nodes
    requires jobs1 == WithJobs(cfg, jobs0, groups[i].name, created)
    ensures AllMadeFor(cfg, groups, jobs1)
  {
    forall n | n in jobs1 ensures MadeFor(cfg, groups, n, jobs1[n]) {
      if n !in jobs0 {
        assert jobs1[n] == PatchJob(n, groups[i].name, cfg.target, false, FRESH_STATUS);
      } else {
        assert jobs1[n] == jobs0[n];
      }
    }
  }

  lemma PassMakes(cfg: Config, groups: seq<Group>, w0: World, w1: World, o: Observation, k: nat)
    requires AllMadeFor(cfg, groups, w0.jobs) && Passed(cfg, groups, w0, w1, o, k)
    ensures AllMadeFor(cfg, groups, w1.jobs)
  {
    if !CreatesNothing(w0, w1) {
      var view := ByNode(o.jobs);
      var i := ActiveGroup(groups, view);
      var pending := PendingNodes(groups[i].nodes, view);
      forall n | n in pending[..k] ensures n in groups[i].nodes {
        assert n in pending;
      }
      RoundMakes(cfg, groups, i, w0.jobs, w1.jobs, pending[..k]);
    }
  }

  lemma StepMakes(cfg: Config, groups: seq<Group>, w0: World, w1: World, e: Event)
    requires Enabled(w0, e) && Steps(cfg, groups, w0, w1, e) && AllMadeFor(cfg, groups, w0.jobs)
    ensures AllMadeFor(cfg, groups, w1.jobs)
  {
    if e.PlanReconciles? {
      if !Untouched(w0, w1) && !Purges(cfg, w0, w1, e.o.retentionJobs) {
        var k: nat :| Passed(cfg, groups, w0, w1, e.o, k);
        PassMakes(cfg, groups, w0, w1, e.o, k);
      }
    } else {
      OtherStepsMoveOn(cfg, w0, w1, e);
    }
  }

  lemma {:induction false} TraceMakes(cfg: Config, groups: seq<Group>, ws: seq<World>, es: seq<Event>, i: nat)
    requires IsTrace(cfg, groups, ws, es) && i < |ws|
    ensures AllMadeFor(cfg, groups, ws[i].jobs)
  {
    if i > 0 {
      TraceMakes(cfg, groups, ws, es, i - 1);
      assert StepAt(cfg, groups, ws, es, i - 1);
      StepMakes(cfg, groups, ws[i - 1], ws[i], es[i - 1]);
    }
  }

  /** In every state of every run each job is for its node, with the plan's target and the group that has the node. */
  lemma JobsCarryTarget(cfg: Config, ws: seq<World>, es: seq<Event>, i: nat)
    requires IsRun(cfg, ws, es) && i < |ws|
    ensures forall n <- ws[i].jobs :: ws[i].jobs[n].target == cfg.target && ws[i].jobs[n].node == n
    ensures forall n <- ws[i].jobs ::
              exists g <- Groups(cfg) :: ws[i].jobs[n].group == g.name && n in NamesOf(g.nodes)
  {
    RunsAreTraces(cfg, ws, es);
    TraceMakes(cfg, Groups(cfg), ws, es, i);
    forall n | n in ws[i].jobs
      ensures exists g <- Groups(cfg) :: ws[i].jobs[n].group == g.name && n in NamesOf(g.nodes)
    {
      assert MadeFor(cfg, Groups(cfg), n, ws[i].jobs[n]);
    }
  }

  /** A job that starts from one the plan created, and completes, reports every version the plan asks for. */
  lemma CompletedAtPlanTarget(
    cfg: Config, ws: seq<World>, es: seq<Event>, i: nat, n: string,
    jobCfg: JobSteps.JobConfig, jws: seq<JobSteps.JobWorld>, jos: seq<JobSteps.JobObservation>, j: nat)
    requires IsRun(cfg, ws, es) && i < |ws| && n in ws[i].jobs
    requires JobRuns.IsJobRun(jobCfg, jws, jos) && jws[0].job == ws[i].jobs[n]
    requires j < |jws| && jws[j].job.status.phase.Completed?
    ensures cfg.target.talosVersion != "" ==> jws[j].job.status.currentTalosVersion == cfg.target.talosVersion
    ensures cfg.target.kubernetesVersion != "" ==>
              jws[j].job.status.currentKubernetesVersion == cfg.target.kubernetesVersion
  {
    JobsCarryTarget(cfg, ws, es, i);
    JobRuns.CompletedAtTarget(jobCfg, jws, jos, j);
  }

  /** Calls that fail half-way leave a job without a Lease, or with one and no record, never a Lease without a job. */
  lemma CreationInOrder(cfg: Config, w: World, node: string, group: string, f: Flow)
    requires f == CreatePatchJob(cfg, w, node, group) && node !in w.jobs && node !in w.leases
    ensures node in f.w.jobs <==> w.calls >= 1
    ensures node in f.w.leases <==> w.calls >= 2
    ensures f.w.status.lastNodeScheduledAt ==
            if w.calls >= 3 then Some(Stored(w.now)) else w.status.lastNodeScheduledAt
    ensures f.Next? <==> w.calls >= 3
  {
  }

  /** Without a group to serve, a free slot in it, a node without a job, or before the delay is over nothing happens. */
  lemma SchedulingWaits(cfg: Config, groups: seq<Group>, w: World, view: Jobs, leases: seq<string>, f: Flow)
    requires f == ScheduleNodes(cfg, groups, w, view, leases)
    requires var i := ActiveGroup(groups, view);
             || i == |groups| || FreeSlots(groups, view, leases, groups[i]) <= 0
             || (forall n <- groups[i].nodes :: n.name in view)
             || (w.status.lastNodeScheduledAt.Some?
                 && w.now < w.status.lastNodeScheduledAt.value + cfg.delayBetweenNodes)
    ensures f.w == w
  {
    var i := ActiveGroup(groups, view);
    if i < |groups| && PendingNodes(groups[i].nodes, view) != [] {
      assert PendingNodes(groups[i].nodes, view)[0] in PendingNodes(groups[i].nodes, view);
    }
  }

  /** A strategy that does not resolve fails the plan and its preflight, with working calls, and creates nothing. */
  lemma InvalidStrategyFails(cfg: Config, w: World, w1: World, o: Observation)
    requires w1 == Reconcile(cfg, w, o) && !Resolvable(cfg.strategy) && o.calls >= 4
    requires RetentionPasses(cfg, w, o.retentionJobs)
    ensures w1.jobs == w.jobs && w1.status.phase.PlanFailed?
    ensures w1.status.preflight == Some(Preflight(false, w.generation))
  {
    ResolvesExactly(cfg.nodes, cfg.strategy);
    var kept := RetentionRuns(cfg, w.(calls := o.calls - 1), o.retentionJobs);
  }

  // ---------------------------------------------------------------- no job before the preflight

  /** The preflight passed for the plan as it is. */
  predicate Cleared(w: World) { w.status.preflight == Some(Preflight(true, w.generation)) }

  /** The recorded preflight is not newer than the plan. */
  predicate PreflightDated(w: World) {
    w.status.preflight.Some? ==> w.status.preflight.value.generation <= w.generation
  }

  /** Step k ran the preflight and found every check to pass, on this generation of the plan. */
  ghost predicate PassesAt(cfg: Config, groups: seq<Group>, ws: seq<World>, es: seq<Event>, k: nat, generation: nat)
    requires |ws| == |es| + 1 && k < |es|
  {
    && es[k].PlanReconciles? && ws[k].generation == generation
    && es[k].o.remoteChecks == Some(true) && RolloutChecks(cfg, groups)
  }

  lemma StepClears(cfg: Config, groups: seq<Group>, w0: World, w1: World, e: Event)
    requires Enabled(w0, e) && Steps(cfg, groups, w0, w1, e) && PreflightDated(w0)
    ensures PreflightDated(w1)
    ensures Cleared(w1) ==>
              || (Cleared(w0) && w0.generation == w1.generation)
              || (&& e.PlanReconciles? && w0.generation == w1.generation
                  && e.o.remoteChecks == Some(true) && RolloutChecks(cfg, groups))
  {
    if e.PlanReconciles? && !Untouched(w0, w1) && !Purges(cfg, w0, w1, e.o.retentionJobs) {
      var k: nat :| Passed(cfg, groups, w0, w1, e.o, k);
    }
  }

  lemma {:induction false} ClearedByStep(cfg: Config, groups: seq<Group>, ws: seq<World>, es: seq<Event>, i: nat)
    returns (k: nat)
    requires IsTrace(cfg, groups, ws, es) && i < |ws|
    ensures PreflightDated(ws[i])
    ensures Cleared(ws[i]) ==> k < i && PassesAt(cfg, groups, ws, es, k, ws[i].generation)
  {
    k := 0;
    if i > 0 {
      k := ClearedByStep(cfg, groups, ws, es, i - 1);
      assert StepAt(cfg, groups, ws, es, i - 1);
      StepClears(cfg, groups, ws[i - 1], ws[i], es[i - 1]);
      if Cleared(ws[i]) && !(Cleared(ws[i - 1]) && ws[i - 1].generation == ws[i].generation) {
        k := i - 1;
      }
    }
  }

  lemma RoundIsCleared(cfg: Config, groups: seq<Group>, w0: World, w1: World, o: Observation)
    requires Effect(cfg, groups, w0, w1, o) && !(w1.jobs.Keys <= w0.jobs.Keys) && o.jobs == []
    ensures Cleared(w0) || (o.remoteChecks == Some(true) && RolloutChecks(cfg, groups))
  {
  }

  /**
   * A round that goes by an empty list of jobs is cleared: it found all preflight checks to pass, the remote ones
   * included, or an earlier pass did on the same generation of the plan.
   */
  lemma FirstJobFollowsPreflight(cfg: Config, ws: seq<World>, es: seq<Event>, i: nat) returns (k: nat)
    requires IsRun(cfg, ws, es) && i < |es| && CreatesAt(ws, i) && es[i].PlanReconciles? && es[i].o.jobs == []
    ensures k <= i && es[k].PlanReconciles? && es[k].o.remoteChecks == Some(true)
    ensures ws[k].generation == ws[i].generation && RolloutChecks(cfg, Groups(cfg))
  {
    RunsAreTraces(cfg, ws, es);
    k := ClearedByStep(cfg, Groups(cfg), ws, es, i);
    assert StepAt(cfg, Groups(cfg), ws, es, i);
    RoundIsCleared(cfg, Groups(cfg), ws[i], ws[i + 1], es[i].o);
    if !Cleared(ws[i]) {
      k := i;
    }
  }

  /**
   * The preflight is skipped exactly once jobs are listed or it has passed on this generation; otherwise it lets the
   * pass on exactly when every check passes, and records anything but a check that could not be made.
   */
  lemma PreflightDecides(w: World, started: bool, checked: bool, remote: Option<bool>, f: Flow)
    requires f == EnsurePreflight(w, started, true, checked, remote) && w.calls >= 2
    ensures started || Cleared(w) ==> f == Next(w)
    ensures !started && !Cleared(w) ==> (f.Next? <==> checked && remote == Some(true))
    ensures !started && !Cleared(w) && remote.Some? ==>
              var passed := checked && remote == Some(true);
              && f.w.status.preflight == Some(Preflight(passed, w.generation))
              && f.w.status.phase == (if passed then PlanPending else PlanFailed)
    ensures !started && !Cleared(w) && remote.None? ==>
              var begins := w.status.phase == Unset || w.status.phase == PlanPending;
              f.w.status == if begins then w.status.(phase := Preflighting) else w.status
    ensures f.w.jobs == w.jobs
  {
  }

  /**
   * What the rollout alone has to offer: a node; before a Kubernetes upgrade the control plane in earlier groups than
   * any worker; and groups that leave the quorum alone (see Rollouts.QuorumSafeIff).
   */
  lemma RolloutChecksMean(cfg: Config, groups: seq<Group>)
    ensures RolloutChecks(cfg, groups) <==>
              && (exists i :: 0 <= i < |groups| && |groups[i].nodes| > 0)
              && (cfg.target.kubernetesVersion == "" ||
                  forall i, j, a, b ::
                    && 0 <= i < |groups| && 0 <= j < |groups| && a in groups[i].nodes && b in groups[j].nodes
                    && "node-role.kubernetes.io/control-plane" in a.labels
                    && "node-role.kubernetes.io/control-plane" !in b.labels
                    ==> i < j)
              && QuorumSafe(groups)
  {
    SomeNode(groups);
  }

  lemma SomeNode(groups: seq<Group>)
    ensures AllNodes(groups) != [] <==> exists i :: 0 <= i < |groups| && |groups[i].nodes| > 0
  {
    AllNodesMembers(groups);
    if AllNodes(groups) != [] {
      var n := AllNodes(groups)[0];
      assert n in AllNodes(groups);
      var i :| 0 <= i < |groups| && n in groups[i].nodes;
      assert |groups[i].nodes| > 0;
    }
    if i :| 0 <= i < |groups| && |groups[i].nodes| > 0 {
      assert groups[i].nodes[0] in groups[i].nodes;
      assert groups[i].nodes[0] in AllNodes(groups);
    }
  }

  // ---------------------------------------------------------------- the failure policy

  /** The budget stops a pass exactly when maxFailures nodes, 0 counting as 1, have failed since the last resume. */
  lemma BudgetReached(cfg: Config, w: World, failed: nat, f: Flow)
    requires f == EnforceFailureBudget(cfg, w, failed) && w.calls >= 2
    ensures f.Stop? <==> failed - w.status.failuresAcknowledged >= Max(cfg.policy.maxFailures, 1)
    ensures f.Next? ==> f.w == w
    ensures f.Stop? && cfg.policy.kind.Halt? && w.status.phase.PlanFailed? ==> f == Stop(w)
    ensures f.Stop? && cfg.policy.kind.Halt? ==>
              && f.w.status.phase.PlanFailed? && f.w.paused == w.paused && f.w.jobs == w.jobs
              && (!w.status.phase.PlanFailed? ==> f.w.status.completionTime == Some(Stored(w.now)))
    ensures f.Stop? && cfg.policy.kind.Pause? ==>
              && f.w.status.phase.Paused? && f.w.paused && f.w.jobs == w.jobs
              && f.w.generation == w.generation + if w.paused then 0 else 1
  {
  }

  /** A plan is Completed, dated once, when as many nodes have finished as the rollout has. */
  lemma CompleteSettles(w: World, counts: JobCounts, total: nat, f: Flow)
    requires f == CompletePlan(w, counts, total) && w.calls >= 1
    ensures counts.completed + counts.failed < total ==> f == Next(w)
    ensures counts.completed + counts.failed >= total && w.status.phase.PlanCompleted? ==> f == Stop(w)
    ensures counts.completed + counts.failed >= total && !w.status.phase.PlanCompleted? ==>
              f == Stop(w.(calls := w.calls - 1,
                           status := w.status.(phase := PlanCompleted, completionTime := Some(Stored(w.now)))))
  {
  }

  // ---------------------------------------------------------------- the user's switches

  /** A cancelled plan ends, dated at the first pass that sees it, and goes no further. */
  lemma CancelSettles(w: World, f: Flow)
    requires f == EnsureCancelled(w) && w.calls >= 1
    ensures !w.cancelled ==> f == Next(w)
    ensures w.cancelled ==> f.Stop? && f.w.status.phase.Cancelled? && f.w.jobs == w.jobs
    ensures w.cancelled && w.status.phase.Cancelled? ==> f == Stop(w)
    ensures w.cancelled ==>
              f.w.status.completionTime ==
              if w.status.phase.Cancelled? then w.status.completionTime else Some(Stored(w.now))
  {
  }

  /**
   * A paused plan is marked and goes no further; one that was paused and is not any more is in progress again, with its
   * failures accepted where they would at once make the Pause policy pause it anew.
   */
  lemma PauseSettles(cfg: Config, w: World, failed: int, f: Flow)
    requires f == EnsurePauseState(cfg, w, failed) && w.calls >= 1
    ensures w.paused <==> f.Stop?
    ensures w.paused && w.status.phase.Paused? ==> f == Stop(w)
    ensures f.w == w.(calls := f.w.calls, status := f.w.status) && f.w.status.completionTime == w.status.completionTime
    ensures f.w.status.phase ==
            if w.paused then Paused else if w.status.phase.Paused? then InProgress else w.status.phase
    ensures f.w.status.failuresAcknowledged ==
            if !w.paused && w.status.phase.Paused? && cfg.policy.kind.Pause?
               && failed - w.status.failuresAcknowledged >= Max(cfg.policy.maxFailures, 1)
            then failed else w.status.failuresAcknowledged
  {
  }

  /** A plan that starts, or starts again after it ended, is in progress: it keeps its first start and has no end. */
  lemma StartSettles(w: World, f: Flow)
    requires f == MarkInProgress(w) && w.calls >= 1
    ensures f.Next? && f.w == w.(calls := f.w.calls, status := f.w.status)
    ensures
      var runs := w.status.phase.Preflighting? || w.status.phase.InProgress? || w.status.phase.Paused?;
      var first := if w.status.startTime.Some? then w.status.startTime.value else Stored(w.now);
      f.w.status == if runs then w.status
                    else w.status.(phase := InProgress, completionTime := None, startTime := Some(first))
  {
  }

  /** The Pause policy sets the switch before it says so: the status never calls a plan paused that is switched on. */
  lemma PausesInOrder(w: World, f: Flow)
    requires f == PauseOnFailures(w) && !w.paused && !w.status.phase.Paused?
    ensures f.w.paused <==> w.calls >= 1
    ensures f.w.status.phase.Paused? <==> w.calls >= 2
    ensures f.w.generation == w.generation + if f.w.paused then 1 else 0
  {
  }

  // ---------------------------------------------------------------- windows and history

  lemma StepInWindow(cfg: Config, groups: seq<Group>, w0: World, w1: World, e: Event)
    requires Enabled(w0, e) && Steps(cfg, groups, w0, w1, e) && !(w1.jobs.Keys <= w0.jobs.Keys)
    ensures IsInMaintenanceWindow(cfg.maintenance, w0.now)
  {
    if e.PlanReconciles? && !Untouched(w0, w1) && !Purges(cfg, w0, w1, e.o.retentionJobs) {
      var k: nat :| Passed(cfg, groups, w0, w1, e.o, k);
    }
  }

  /** No job is created outside the maintenance windows. */
  lemma WindowsHold(cfg: Config, ws: seq<World>, es: seq<Event>, i: nat)
    requires IsRun(cfg, ws, es) && i < |es| && CreatesAt(ws, i)
    ensures IsInMaintenanceWindow(cfg.maintenance, ws[i].now)
  {
    RunsAreTraces(cfg, ws, es);
    assert StepAt(cfg, Groups(cfg), ws, es, i);
    StepInWindow(cfg, Groups(cfg), ws[i], ws[i + 1], es[i]);
  }

  /** How long the history is kept: as configured, or seven days. */
  function Kept(cfg: Config): int { if cfg.history > 0 then cfg.history else 7 * 24 * 60 * 60 * 1_000_000_000 }

  /** The plan ended at least that long ago. */
  predicate HistoryOver(cfg: Config, w: World) {
    && (w.status.phase == PlanCompleted || w.status.phase == PlanFailed || w.status.phase == Cancelled)
    && w.status.completionTime.Some? && w.now >= w.status.completionTime.value + Kept(cfg)
  }

  lemma DueIsOver(cfg: Config, w: World)
    ensures PurgeDue(cfg, w.now, w.status) <==> HistoryOver(cfg, w)
  {
  }

  /** Whatever lists a pass goes by, it deletes jobs only of a plan that ended longer ago than its history is kept. */
  lemma HistoryIsKept(cfg: Config, ws: seq<World>, es: seq<Event>, i: nat)
    requires IsRun(cfg, ws, es) && i < |es| && !(ws[i].jobs.Keys <= ws[i + 1].jobs.Keys)
    ensures HistoryOver(cfg, ws[i]) && es[i].PlanReconciles?
    ensures forall j <- es[i].o.retentionJobs :: j.status.phase.Completed? || j.status.phase.Failed?
  {
    RunsAreTraces(cfg, ws, es);
    assert StepAt(cfg, Groups(cfg), ws, es, i);
    StepDeletes(cfg, Groups(cfg), ws[i], ws[i + 1], es[i]);
    DueIsOver(cfg, ws[i]);
  }

  lemma StepDeletes(cfg: Config, groups: seq<Group>, w0: World, w1: World, e: Event)
    requires Enabled(w0, e) && Steps(cfg, groups, w0, w1, e)
    ensures !(w0.jobs.Keys <= w1.jobs.Keys) ==>
              e.PlanReconciles? && PurgeDue(cfg, w0.now, w0.status) && AllFinished(e.o.retentionJobs)
  {
    if e.PlanReconciles? && !Untouched(w0, w1) && !Purges(cfg, w0, w1, e.o.retentionJobs) {
      var k: nat :| Passed(cfg, groups, w0, w1, e.o, k);
    }
  }

  lemma {:induction false} DeletionsRun(w: World, jobs: seq<PatchJob>)
    requires w.calls >= |jobs|
    ensures
      var f := DeleteJobs(w, jobs);
      && f.Next? && f.w.calls >= w.calls - |jobs| && f.w.jobs == w.jobs - (set j <- jobs :: j.node)
      && f.w == w.(jobs := f.w.jobs, calls := f.w.calls)
    decreases |jobs|
  {
    if jobs != [] {
      DeletionsRun(w.(jobs := w.jobs - {jobs[0].node}, calls := w.calls - 1), jobs[1..]);
      assert jobs == [jobs[0]] + jobs[1..];
    }
  }

  /**
   * With working calls and an up-to-date list a pass purges a plan exactly when its history is over and every job has
   * finished: it deletes all jobs and marks the plan.
   */
  lemma PurgeTakesEffect(cfg: Config, w: World, f: Flow, jobs: seq<PatchJob>)
    requires f == ApplyRetention(cfg, w, jobs) && w.calls >= |jobs| + 2 && !w.status.historyPurged
    requires Lists(jobs, w.jobs) && forall n <- w.jobs :: w.jobs[n].node == n
    ensures
      var purges := HistoryOver(cfg, w) && forall n <- w.jobs :: w.jobs[n].Finished();
      && (f.Stop? <==> purges)
      && (purges ==> f.w.jobs == map[] && f.w.status == w.status.(historyPurged := true))
      && (!purges ==> f.w.jobs == w.jobs && f.w.status == w.status)
  {
    DueIsOver(cfg, w);
    FreshListFinished(jobs, w.jobs);
    if HistoryOver(cfg, w) {
      DeletionsLeaveNone(w.(calls := w.calls - 1), jobs);
    }
  }

  lemma DeletionsLeaveNone(w: World, jobs: seq<PatchJob>)
    requires w.calls > |jobs| && Lists(jobs, w.jobs) && forall n <- w.jobs :: w.jobs[n].node == n
    ensures
      var f := DeleteJobs(w, jobs);
      f.Next? && f.w.calls > 0 && f.w == w.(jobs := map[], calls := f.w.calls)
  {
    DeletionsRun(w, jobs);
    forall n | n in w.jobs ensures n in (set j <- jobs :: j.node) {
      assert w.jobs[n] in jobs;
    }
  }

  lemma MarkStays(cfg: Config, groups: seq<Group>, w0: World, w1: World, e: Event)
    requires Enabled(w0, e) && Steps(cfg, groups, w0, w1, e) && Marked(w0)
    ensures Marked(w1) && w1.jobs.Keys <= w0.jobs.Keys
  {
  }

  lemma {:induction false} MarkedTrace(
    cfg: Config, groups: seq<Group>, ws: seq<World>, es: seq<Event>, i: nat, j: nat)
    requires IsTrace(cfg, groups, ws, es) && i <= j < |ws| && Marked(ws[i])
    ensures Marked(ws[j])
    decreases j
  {
    if i < j {
      MarkedTrace(cfg, groups, ws, es, i, j - 1);
      assert StepAt(cfg, groups, ws, es, j - 1);
      MarkStays(cfg, groups, ws[j - 1], ws[j], es[j - 1]);
    }
  }

  /** A plan marked as purged creates no job any more, whatever lists its passes go by and whatever the user sets. */
  lemma MarkedPlanStaysFrozen(cfg: Config, ws: seq<World>, es: seq<Event>, i: nat, j: nat)
    requires IsRun(cfg, ws, es) && i <= j < |es| && ws[i].status.historyPurged && ws[i].status.completionTime.Some?
    requires var p := ws[i].status.phase; p == PlanCompleted || p == PlanFailed || p == Cancelled
    ensures ws[j + 1].jobs.Keys <= ws[j].jobs.Keys
  {
    RunsAreTraces(cfg, ws, es);
    MarkedTrace(cfg, Groups(cfg), ws, es, i, j);
    assert StepAt(cfg, Groups(cfg), ws, es, j);
    MarkStays(cfg, Groups(cfg), ws[j], ws[j + 1], es[j]);
  }

  // ---------------------------------------------------------------- kube-proxy

  /** There is no kube-proxy, or its only rollout under way is done and its first image is of that version. */
  predicate ProxyAt(kubeProxy: Option<DaemonSet>, version: string) {
    kubeProxy.Some? ==>
      var ds := kubeProxy.value;
      && |ds.images| > 0 && ds.images[0] == "registry.k8s.io/kube-proxy:" + version
      && ds.generation <= ds.observedGeneration && ds.ready == ds.desired == ds.updated
  }

  /**
   * Once every control plane node has completed a Kubernetes upgrade, a pass goes on exactly when kube-proxy is at the
   * version; with another image it sets the image, once, and leaves the rest of the DaemonSet as it is.
   */
  lemma KubeProxyRolls(w: World, version: string, f: Flow)
    requires f == EnsureKubeProxy(w, true, version) && w.calls >= 3 && !w.status.kubeProxyUpgraded
    ensures f.Next? <==> ProxyAt(w.kubeProxy, version)
    ensures f.Next? ==> f.w == w.(calls := f.w.calls, status := w.status.(kubeProxyUpgraded := true))
    ensures f.Stop? ==> f.w.jobs == w.jobs && f.w.status == w.status
    ensures w.kubeProxy.Some? && |w.kubeProxy.value.images| > 0 ==>
              var ds, image := w.kubeProxy.value, "registry.k8s.io/kube-proxy:" + version;
              f.w.kubeProxy == Some(if ds.images[0] == image then ds
                                    else ds.(images := [image] + ds.images[1..], generation := ds.generation + 1))
  {
    if w.kubeProxy.Some? && |w.kubeProxy.value.images| > 0 {
      var ds, image := w.kubeProxy.value, "registry.k8s.io/kube-proxy:" + version;
      assert ds.images[0 := image] == [image] + ds.images[1..];
    }
  }

  lemma DoneIsAt(kubeProxy: Option<DaemonSet>, version: string)
    ensures KubeProxyDone(kubeProxy, version) <==> ProxyAt(kubeProxy, version)
  {
  }

  /** kube-proxy is looked at once a Kubernetes upgrade has completed on every control plane node, and not before. */
  lemma KubeProxyWhenDue(cfg: Config, groups: seq<Group>, view: Jobs)
    ensures KubeProxyDue(cfg, groups, view) <==>
              && cfg.target.kubernetesVersion != ""
              && (exists n <- AllNodes(groups) :: IsControlPlane(n))
              && forall n <- AllNodes(groups) :: IsControlPlane(n) ==>
                   n.name in view && view[n.name].status.phase.Completed?
  {
    var controlPlane := ControlPlane(groups);
    assert controlPlane != [] ==> controlPlane[0] in controlPlane;
  }

  // ---------------------------------------------------------------- the counters

  /** What a status reports: the target, every node once, and per group its limit, the slots taken and its nodes. */
  lemma SummaryTells(cfg: Config, groups: seq<Group>, view: Jobs, leases: seq<string>)
    ensures
      var p := Summarized(cfg, groups, view, leases);
      && p.targetTalosVersion == cfg.target.talosVersion && p.targetKubernetesVersion == cfg.target.kubernetesVersion
      && p.totalNodes == |AllNodes(groups)| && Tells(p.counts, NamesOf(AllNodes(groups)), view)
      && |p.groups| == |groups|
      && forall i :: 0 <= i < |groups| ==>
           && p.groups[i].name == groups[i].name && p.groups[i].concurrency == groups[i].concurrency
           && p.groups[i].active == |SlotHolders(groups, view, leases, groups[i].name)|
           && p.groups[i].total == |groups[i].nodes| && Tells(p.groups[i].counts, NamesOf(groups[i].nodes), view)
  {
    CountsTell(NamesOf(AllNodes(groups)), view);
    forall i | 0 <= i < |groups| ensures Tells(StatusOf(groups, view, leases, groups[i]).counts,
                                               NamesOf(groups[i].nodes), view)
    {
      CountsTell(NamesOf(groups[i].nodes), view);
    }
  }

  /** The counters are stored when they change, and acknowledged failures never outnumber those counted. */
  lemma CountersSettle(w: World, progress: Progress, f: Flow)
    requires f == SyncStatus(w, progress)
    ensures
      var acknowledged, failed := w.status.failuresAcknowledged, progress.counts.failed;
      && (w.status.progress == progress && acknowledged <= failed ==> f == Next(w))
      && (w.status.progress != progress || acknowledged > failed ==>
            if w.calls == 0 then f == Stop(w)
            else && f.Next? && f.w.calls == w.calls - 1
                 && f.w.status == w.status.(
                                    progress := progress,
                                    failuresAcknowledged := if acknowledged > failed then failed else acknowledged))
  {
  }

  /** A job counts for the group it is labelled with, and without a label for the group that has its node, if any. */
  lemma JobCountsFor(groups: seq<Group>, job: PatchJob, i: nat)
    requires Distinct(groups)
    ensures job.group != "" ==> GroupOfJob(groups, job) == job.group
    ensures job.group == "" && i < |groups| && job.node in NamesOf(groups[i].nodes) ==>
              GroupOfJob(groups, job) == groups[i].name
    ensures job.group == "" && (forall k :: 0 <= k < |groups| ==> job.node !in NamesOf(groups[k].nodes)) ==>
              GroupOfJob(groups, job) == ""
  {
    if i < |groups| && job.node in NamesOf(groups[i].nodes) {
      GroupIndexIs(groups, i, job.node);
    }
  }

  /** What the status reports of a set of nodes: how many jobs have completed, failed, run, and are still to come. */
  predicate Tells(counts: JobCounts, names: set<string>, jobs: Jobs) {
    && counts.completed == |set n | n in names && n in jobs && jobs[n].status.phase.Completed?|
    && counts.failed == |set n | n in names && n in jobs && jobs[n].status.phase.Failed?|
    && counts.running == |set n | n in names && n in jobs && !jobs[n].status.phase.Completed?
                                  && !jobs[n].status.phase.Failed?|
    && counts.pending == |set n | n in names && n !in jobs|
  }

  lemma CountsTell(names: set<string>, jobs: Jobs)
    ensures Tells(CountsOf(names, jobs), names, jobs)
  {
    assert CompletedIn(names, jobs) == set n | n in names && n in jobs && jobs[n].status.phase.Completed?;
    assert FailedIn(names, jobs) == set n | n in names && n in jobs && jobs[n].status.phase.Failed?;
    assert UnfinishedIn(names, jobs) ==
           set n | n in names && n in jobs && !jobs[n].status.phase.Completed? && !jobs[n].status.phase.Failed?;
    assert MissingIn(names, jobs) == set n | n in names && n !in jobs;
  }
}
