/** The failure policy: how far a rollout can get past its failures, and what a resume accepts. */
module PlanBudget {
  import opened Api
  import opened Scheduling
  import opened Rollouts
  import opened PlanWorld
  import opened PlanSteps
  import opened PlanEffects
  import opened PlanRuns
  import opened PlanSafety
  import opened PlanPurge

  ghost function RolloutNames(groups: seq<Group>): set<string> { NamesOf(AllNodes(groups)) }

  /** The nodes at risk: failed or being patched. */
  ghost function AtRisk(groups: seq<Group>, jobs: Jobs): set<string> {
    FailedIn(RolloutNames(groups), jobs) + UnfinishedIn(RolloutNames(groups), jobs)
  }

  ghost function LargestConcurrency(groups: seq<Group>): (c: int)
    ensures forall i :: 0 <= i < |groups| ==> groups[i].concurrency <= c
    ensures c >= 0 && (c > 0 ==> exists i :: 0 <= i < |groups| && groups[i].concurrency == c)
  {
    if groups == [] then 0
    else Max(LargestConcurrency(groups[..|groups| - 1]), groups[|groups| - 1].concurrency)
  }

  ghost predicate Bounded(cfg: Config, groups: seq<Group>, jobs: Jobs, s: PlanStatus) {
    && |AtRisk(groups, jobs)| <= s.failuresAcknowledged + cfg.policy.Threshold() - 1 + LargestConcurrency(groups)
    && (cfg.policy.kind.Halt? ==> s.failuresAcknowledged == 0)
  }

  /** Acknowledged failures are failures. */
  ghost predicate Acknowledged(groups: seq<Group>, jobs: Jobs, s: PlanStatus) {
    0 <= s.failuresAcknowledged <= Failures(groups, jobs)
  }

  ghost predicate InOrder(cfg: Config, groups: seq<Group>, w: World) {
    SafeInv(cfg, groups, w) && Acknowledged(groups, w.jobs, w.status)
  }

  /** Either the rollout is in order, or its finished history is being purged. */
  ghost predicate FreshInv(cfg: Config, groups: seq<Group>, w: World) {
    Bounded(cfg, groups, w.jobs, w.status) && (InOrder(cfg, groups, w) || Purgeable(cfg, w))
  }

  lemma FailuresGrow(groups: seq<Group>, jobs0: Jobs, jobs1: Jobs)
    requires Earlier(jobs0, jobs1)
    ensures Failures(groups, jobs0) <= Failures(groups, jobs1)
  {
    SubsetSize(FailedIn(RolloutNames(groups), jobs0), FailedIn(RolloutNames(groups), jobs1));
  }

  lemma AtRiskShrinks(groups: seq<Group>, jobs0: Jobs, jobs1: Jobs)
    requires jobs1.Keys <= jobs0.Keys
    requires forall n <- jobs1 :: IsFinished(jobs0, n) ==> jobs1[n] == jobs0[n]
    ensures |AtRisk(groups, jobs1)| <= |AtRisk(groups, jobs0)|
  {
    forall n | n in AtRisk(groups, jobs1) ensures n in AtRisk(groups, jobs0) {
      assert n in jobs0;
    }
    SubsetSize(AtRisk(groups, jobs1), AtRisk(groups, jobs0));
  }

  /** Right after a round everything unfinished is in the group served, within its concurrency. */
  lemma UnfinishedAfterRound(groups: seq<Group>, i: nat, jobs: Jobs, served: string)
    requires Distinct(groups) && OrderInv(groups, jobs) && i < |groups|
    requires served in NamesOf(groups[i].nodes) && IsUnfinished(jobs, served)
    ensures |UnfinishedIn(RolloutNames(groups), jobs)| <= groups[i].concurrency
  {
    GroupIndexIs(groups, i, served);
    forall n | n in UnfinishedIn(RolloutNames(groups), jobs) ensures n in Unfinished(groups[i], jobs) {
      UnfinishedInOneGroup(groups, jobs, served, n);
    }
    SubsetSize(UnfinishedIn(RolloutNames(groups), jobs), Unfinished(groups[i], jobs));
  }

  /** A round that created anything left an unfinished job in the group it served. */
  lemma RoundServes(
    cfg: Config, groups: seq<Group>, i: nat, jobs0: Jobs, jobs1: Jobs, created: seq<Node>)
    returns (served: string)
    requires i < |groups| && created <= PendingNodes(groups[i].nodes, jobs0)
    requires jobs1 == WithJobs(cfg, jobs0, groups[i].name, created) && jobs1 != jobs0
    ensures served in NamesOf(groups[i].nodes) && IsUnfinished(jobs1, served)
    ensures FailedIn(RolloutNames(groups), jobs1) == FailedIn(RolloutNames(groups), jobs0)
  {
    ServedInGroup(groups[i].nodes, jobs0, created);
    NewJobsFailNothing(cfg, groups, groups[i].name, jobs0, jobs1, created);
    assert NamesOf(created) != {};
    served :| served in NamesOf(created);
  }

  lemma NewJobsFailNothing(
    cfg: Config, groups: seq<Group>, group: string, jobs0: Jobs, jobs1: Jobs, created: seq<Node>)
    requires jobs1 == WithJobs(cfg, jobs0, group, created)
    ensures FailedIn(RolloutNames(groups), jobs1) == FailedIn(RolloutNames(groups), jobs0)
  {
  }

  lemma RoundStaysBounded(cfg: Config, groups: seq<Group>, w0: World, w1: World, o: Observation, k: nat)
    requires Distinct(groups) && ByNode(o.jobs) == w0.jobs && OrderInv(groups, w1.jobs)
    requires Scheduled(cfg, groups, w0, w1, o, k) && w1.jobs != w0.jobs
    ensures |AtRisk(groups, w1.jobs)|
            <= w1.status.failuresAcknowledged + cfg.policy.Threshold() - 1 + LargestConcurrency(groups)
  {
    var i := ActiveGroup(groups, w0.jobs);
    var created := PendingNodes(groups[i].nodes, w0.jobs)[..k];
    var served := RoundServes(cfg, groups, i, w0.jobs, w1.jobs, created);
    UnfinishedAfterRound(groups, i, w1.jobs, served);
  }

  lemma PassStaysBounded(cfg: Config, groups: seq<Group>, w0: World, w1: World, o: Observation, k: nat)
    requires Distinct(groups) && ByNode(o.jobs) == w0.jobs && OrderInv(groups, w1.jobs)
    requires Bounded(cfg, groups, w0.jobs, w0.status) && Acknowledged(groups, w0.jobs, w0.status)
    requires Passed(cfg, groups, w0, w1, o, k) && Earlier(w0.jobs, w1.jobs)
    ensures Bounded(cfg, groups, w1.jobs, w1.status) && Acknowledged(groups, w1.jobs, w1.status)
    ensures w0.status.failuresAcknowledged <= w1.status.failuresAcknowledged
  {
    AcknowledgementsGrow(cfg, RolloutChecks(cfg, groups), Failures(groups, w0.jobs), w0, w1);
    FailuresGrow(groups, w0.jobs, w1.jobs);
    if w1.jobs != w0.jobs {
      RoundStaysBounded(cfg, groups, w0, w1, o, k);
    }
  }

  lemma AcknowledgementsGrow(cfg: Config, checked: bool, failed: nat, w0: World, w1: World)
    requires StatusKeeps(cfg, checked, failed, w0, w1) && 0 <= w0.status.failuresAcknowledged <= failed
    ensures w0.status.failuresAcknowledged <= w1.status.failuresAcknowledged <= failed
    ensures cfg.policy.kind.Halt? ==> w1.status.failuresAcknowledged == w0.status.failuresAcknowledged
  {
  }

  lemma KeptStaysBounded(cfg: Config, groups: seq<Group>, w0: World, w1: World, o: Observation)
    requires Untouched(w0, w1) || Purges(cfg, w0, w1, o.retentionJobs)
    requires w0.jobs.Keys <= w1.jobs.Keys
    requires Bounded(cfg, groups, w0.jobs, w0.status) && Acknowledged(groups, w0.jobs, w0.status)
    ensures Bounded(cfg, groups, w1.jobs, w1.status) && Acknowledged(groups, w1.jobs, w1.status)
    ensures w0.status.failuresAcknowledged <= w1.status.failuresAcknowledged
  {
    NothingDeleted(cfg, w0, w1, o.retentionJobs);
  }

  lemma ReconcileStaysBounded(cfg: Config, groups: seq<Group>, w0: World, w1: World, o: Observation)
    requires Distinct(groups) && ByNode(o.jobs) == w0.jobs
    requires Effect(cfg, groups, w0, w1, o)
    requires w0.jobs.Keys <= w1.jobs.Keys && Earlier(w0.jobs, w1.jobs) && OrderInv(groups, w1.jobs)
    requires Bounded(cfg, groups, w0.jobs, w0.status) && Acknowledged(groups, w0.jobs, w0.status)
    ensures Bounded(cfg, groups, w1.jobs, w1.status) && Acknowledged(groups, w1.jobs, w1.status)
    ensures w0.status.failuresAcknowledged <= w1.status.failuresAcknowledged
  {
    if Untouched(w0, w1) || Purges(cfg, w0, w1, o.retentionJobs) {
      KeptStaysBounded(cfg, groups, w0, w1, o);
    } else {
      var k: nat :| Passed(cfg, groups, w0, w1, o, k);
      PassStaysBounded(cfg, groups, w0, w1, o, k);
    }
  }

  lemma OtherStepsStayBounded(cfg: Config, groups: seq<Group>, w0: World, w1: World, e: Event)
    requires SafeInv(cfg, groups, w0) && Enabled(w0, e) && !e.PlanReconciles? && w1 == Apply(cfg, w0, e)
    requires Bounded(cfg, groups, w0.jobs, w0.status) && Acknowledged(groups, w0.jobs, w0.status)
    ensures Bounded(cfg, groups, w1.jobs, w1.status) && Acknowledged(groups, w1.jobs, w1.status)
    ensures w1.status == w0.status
  {
    OtherStepsMoveOn(cfg, w0, w1, e);
    MovingOnStaysBounded(cfg, groups, w0, w1, e);
  }

  lemma MovingOnStaysBounded(cfg: Config, groups: seq<Group>, w0: World, w1: World, e: Event)
    requires OrderInv(groups, w0.jobs) && MovesOn(w0, w1, e)
    requires Bounded(cfg, groups, w0.jobs, w0.status) && Acknowledged(groups, w0.jobs, w0.status)
    ensures Bounded(cfg, groups, w1.jobs, w1.status) && Acknowledged(groups, w1.jobs, w1.status)
  {
    if e.JobMoves? {
      MoveStaysBounded(groups, w0.jobs, w1.jobs, e.job, w0.now);
    }
  }

  lemma MoveStaysBounded(groups: seq<Group>, jobs0: Jobs, jobs1: Jobs, job: PatchJob, now: int)
    requires OrderInv(groups, jobs0) && job.node in jobs0 && Advances(jobs0[job.node], job, now)
    requires jobs1 == jobs0[job.node := job]
    ensures Failures(groups, jobs0) <= Failures(groups, jobs1) && |AtRisk(groups, jobs1)| <= |AtRisk(groups, jobs0)|
  {
    MoveKeepsFit(groups, jobs0, job, now);
    FailuresGrow(groups, jobs0, jobs1);
    AtRiskShrinks(groups, jobs0, jobs1);
  }

  lemma FreshView(groups: seq<Group>, list: seq<PatchJob>, jobs: Jobs)
    requires OrderInv(groups, jobs) && Lists(list, jobs)
    ensures ByNode(list) == jobs && OrderInv(groups, ByNode(list)) && Earlier(ByNode(list), jobs)
  {
    ByNodeOfList(list, jobs);
  }

  /** A step that deletes nothing keeps a rollout in order and takes back no acknowledgement. */
  lemma StepKeepsInOrder(cfg: Config, groups: seq<Group>, w0: World, w1: World, e: Event)
    requires Distinct(groups) && Enabled(w0, e) && FreshAt(w0, e) && Steps(cfg, groups, w0, w1, e)
    requires w0.jobs.Keys <= w1.jobs.Keys
    requires Bounded(cfg, groups, w0.jobs, w0.status) && InOrder(cfg, groups, w0)
    ensures Bounded(cfg, groups, w1.jobs, w1.status) && InOrder(cfg, groups, w1)
    ensures Earlier(w0.jobs, w1.jobs) && w0.status.failuresAcknowledged <= w1.status.failuresAcknowledged
  {
    match e {
      case PlanReconciles(o) =>
        FreshView(groups, o.jobs, w0.jobs);
        ReconcileKeepsSafe(cfg, groups, w0, w1, o);
        ReconcileStaysBounded(cfg, groups, w0, w1, o);
      case _ =>
        OtherStepsKeepSafe(cfg, groups, w0, w1, e);
        OtherStepsStayBounded(cfg, groups, w0, w1, e);
    }
  }

  lemma StepKeepsFreshInv(cfg: Config, groups: seq<Group>, w0: World, w1: World, e: Event)
    requires Distinct(groups) && Enabled(w0, e) && FreshAt(w0, e) && Steps(cfg, groups, w0, w1, e)
    requires FreshInv(cfg, groups, w0)
    ensures FreshInv(cfg, groups, w1)
  {
    FreshIsTold(cfg, w0, e);
    if Purgeable(cfg, w0) {
      PurgeableStays(cfg, groups, w0, w1, e);
      AtRiskShrinks(groups, w0.jobs, w1.jobs);
    } else {
      DeletesOnlyFinishedHistory(cfg, groups, w0, w1, e);
      StepKeepsInOrder(cfg, groups, w0, w1, e);
    }
  }

  lemma InitiallyFresh(cfg: Config, groups: seq<Group>, w: World)
    requires WellFormed(groups) && Initial(w)
    ensures InOrder(cfg, groups, w) && Bounded(cfg, groups, w.jobs, w.status)
  {
    InitiallySafe(cfg, groups, w);
    assert AtRisk(groups, w.jobs) == {};
  }

  lemma FreshTraceInv(cfg: Config, groups: seq<Group>, ws: seq<World>, es: seq<Event>, i: nat)
    requires IsTrace(cfg, groups, ws, es) && FreshReads(ws, es) && i < |ws|
    ensures FreshInv(cfg, groups, ws[i])
  {
    var inv := w => FreshInv(cfg, groups, w);
    InitiallyFresh(cfg, groups, ws[0]);
    forall k: nat | k + 1 < |ws| && inv(ws[k]) ensures inv(ws[k + 1]) {
      FreshInvStep(cfg, groups, ws, es, k, ws[k], ws[k + 1]);
    }
    Induction(inv, ws, i);
  }

  lemma FreshInvStep(
    cfg: Config, groups: seq<Group>, ws: seq<World>, es: seq<Event>, i: nat, w0: World, w1: World)
    requires IsTrace(cfg, groups, ws, es) && FreshReads(ws, es) && i < |es| && w0 == ws[i] && w1 == ws[i + 1]
    requires FreshInv(cfg, groups, w0)
    ensures FreshInv(cfg, groups, w1)
  {
    assert StepAt(cfg, groups, ws, es, i) && ReadsFreshAt(ws, es, i);
    StepKeepsFreshInv(cfg, groups, w0, w1, es[i]);
  }

  /**
   * Blast radius: in every state of a run with fresh reads the failed nodes and the nodes being patched exceed the
   * accepted failures by less than the threshold plus the largest group concurrency; each group stays within its own.
   */
  lemma BlastRadius(cfg: Config, ws: seq<World>, es: seq<Event>, i: nat)
    requires IsRun(cfg, ws, es) && FreshReads(ws, es) && i < |ws|
    ensures
      var groups, jobs, s := Groups(cfg), ws[i].jobs, ws[i].status;
      && |FailedIn(RolloutNames(groups), jobs)| + |UnfinishedIn(RolloutNames(groups), jobs)|
         <= s.failuresAcknowledged + Max(cfg.policy.maxFailures, 1) - 1 + LargestConcurrency(groups)
      && (cfg.policy.kind.Halt? ==>
            |FailedIn(RolloutNames(groups), jobs)|
            <= Max(cfg.policy.maxFailures, 1) - 1 + LargestConcurrency(groups))
      && WithinConcurrency(groups, jobs)
  {
    RunsAreTraces(cfg, ws, es);
    FreshTraceInv(cfg, Groups(cfg), ws, es, i);
    var groups, jobs := Groups(cfg), ws[i].jobs;
    var failed, running := FailedIn(RolloutNames(groups), jobs), UnfinishedIn(RolloutNames(groups), jobs);
    assert failed !! running;
    if Purgeable(cfg, ws[i]) {
      assert forall a :: 0 <= a < |groups| ==> Unfinished(groups[a], jobs) == {};
    }
  }

  // ---------------------------------------------------------------- the policy over time

  /** Under Halt a round needs fewer failures than the threshold. */
  lemma ReachedCreatesNothing(cfg: Config, groups: seq<Group>, w0: World, w1: World, o: Observation)
    requires ByNode(o.jobs) == w0.jobs && Effect(cfg, groups, w0, w1, o) && w0.jobs.Keys <= w1.jobs.Keys
    requires w1.status.failuresAcknowledged == 0 && Failures(groups, w0.jobs) >= cfg.policy.Threshold()
    ensures w1.jobs == w0.jobs
  {
    if Untouched(w0, w1) || Purges(cfg, w0, w1, o.retentionJobs) {
      NothingDeleted(cfg, w0, w1, o.retentionJobs);
    }
  }

  /** The threshold has been reached, or was before the history was purged. */
  ghost predicate Reached(cfg: Config, groups: seq<Group>, w: World) {
    Failures(groups, w.jobs) >= cfg.policy.Threshold() || Purgeable(cfg, w)
  }

  lemma ReachedStays(cfg: Config, groups: seq<Group>, w0: World, w1: World, e: Event)
    requires Distinct(groups) && Enabled(w0, e) && FreshAt(w0, e) && Steps(cfg, groups, w0, w1, e)
    requires cfg.policy.kind.Halt? && FreshInv(cfg, groups, w0) && Reached(cfg, groups, w0)
    ensures Reached(cfg, groups, w1) && w1.jobs.Keys <= w0.jobs.Keys
  {
    FreshIsTold(cfg, w0, e);
    if Purgeable(cfg, w0) {
      PurgeableStays(cfg, groups, w0, w1, e);
    } else {
      DeletesOnlyFinishedHistory(cfg, groups, w0, w1, e);
      ReachedStaysInOrder(cfg, groups, w0, w1, e);
    }
  }

  lemma ReachedStaysInOrder(cfg: Config, groups: seq<Group>, w0: World, w1: World, e: Event)
    requires Distinct(groups) && Enabled(w0, e) && FreshAt(w0, e) && Steps(cfg, groups, w0, w1, e)
    requires cfg.policy.kind.Halt? && Bounded(cfg, groups, w0.jobs, w0.status) && InOrder(cfg, groups, w0)
    requires w0.jobs.Keys <= w1.jobs.Keys && Failures(groups, w0.jobs) >= cfg.policy.Threshold()
    ensures Failures(groups, w1.jobs) >= cfg.policy.Threshold() && w1.jobs.Keys <= w0.jobs.Keys
  {
    StepKeepsInOrder(cfg, groups, w0, w1, e);
    FailuresGrow(groups, w0.jobs, w1.jobs);
    ReachedKeepsNodes(cfg, groups, w0, w1, e);
  }

  lemma ReachedKeepsNodes(cfg: Config, groups: seq<Group>, w0: World, w1: World, e: Event)
    requires Enabled(w0, e) && FreshAt(w0, e) && Steps(cfg, groups, w0, w1, e) && OrderInv(groups, w0.jobs)
    requires w1.status.failuresAcknowledged == 0 && Failures(groups, w0.jobs) >= cfg.policy.Threshold()
    requires w0.jobs.Keys <= w1.jobs.Keys
    ensures w1.jobs.Keys <= w0.jobs.Keys
  {
    match e {
      case PlanReconciles(o) =>
        FreshView(groups, o.jobs, w0.jobs);
        ReachedCreatesNothing(cfg, groups, w0, w1, o);
      case _ =>
    }
  }

  lemma {:induction false} ReachedTrace(cfg: Config, groups: seq<Group>, ws: seq<World>, es: seq<Event>, i: nat, j: nat)
    requires IsTrace(cfg, groups, ws, es) && FreshReads(ws, es) && i <= j < |ws| && cfg.policy.kind.Halt?
    requires Failures(groups, ws[i].jobs) >= cfg.policy.Threshold()
    ensures Reached(cfg, groups, ws[j])
  {
    if i < j {
      ReachedTrace(cfg, groups, ws, es, i, j - 1);
      ReachedStep(cfg, groups, ws, es, j - 1, ws[j]);
    }
  }

  lemma ReachedStep(cfg: Config, groups: seq<Group>, ws: seq<World>, es: seq<Event>, i: nat, w1: World)
    requires IsTrace(cfg, groups, ws, es) && FreshReads(ws, es) && i < |es| && cfg.policy.kind.Halt?
    requires Reached(cfg, groups, ws[i]) && w1 == ws[i + 1]
    ensures Reached(cfg, groups, w1) && w1.jobs.Keys <= ws[i].jobs.Keys
  {
    FreshTraceInv(cfg, groups, ws, es, i);
    assert StepAt(cfg, groups, ws, es, i) && ReadsFreshAt(ws, es, i);
    ReachedStays(cfg, groups, ws[i], w1, es[i]);
  }

  /** Under Halt no step creates a job any more once as many nodes have failed as the threshold says. */
  lemma HaltStopsTheRollout(cfg: Config, ws: seq<World>, es: seq<Event>, i: nat, j: nat)
    requires IsRun(cfg, ws, es) && FreshReads(ws, es) && i <= j < |es| && cfg.policy.kind.Halt?
    requires Failures(Groups(cfg), ws[i].jobs) >= Max(cfg.policy.maxFailures, 1)
    ensures ws[j + 1].jobs.Keys <= ws[j].jobs.Keys
  {
    RunsAreTraces(cfg, ws, es);
    ReachedTrace(cfg, Groups(cfg), ws, es, i, j);
    ReachedStep(cfg, Groups(cfg), ws, es, j, ws[j + 1]);
  }

  lemma {:induction false} InOrderTrace(cfg: Config, groups: seq<Group>, ws: seq<World>, es: seq<Event>, i: nat)
    requires IsTrace(cfg, groups, ws, es) && FreshReads(ws, es) && i < |ws| && KeepsJobs(ws, i)
    ensures InOrder(cfg, groups, ws[i]) && Bounded(cfg, groups, ws[i].jobs, ws[i].status)
  {
    if i == 0 {
      InitiallyFresh(cfg, groups, ws[0]);
    } else {
      InOrderTrace(cfg, groups, ws, es, i - 1);
      assert KeepsJobsAt(ws, i - 1);
      InOrderStep(cfg, groups, ws, es, i - 1, ws[i - 1], ws[i]);
    }
  }

  lemma InOrderStep(
    cfg: Config, groups: seq<Group>, ws: seq<World>, es: seq<Event>, i: nat, w0: World, w1: World)
    requires IsTrace(cfg, groups, ws, es) && FreshReads(ws, es) && i < |es| && w0 == ws[i] && w1 == ws[i + 1]
    requires InOrder(cfg, groups, w0) && Bounded(cfg, groups, w0.jobs, w0.status) && w0.jobs.Keys <= w1.jobs.Keys
    ensures InOrder(cfg, groups, w1) && Bounded(cfg, groups, w1.jobs, w1.status)
    ensures w0.status.failuresAcknowledged <= w1.status.failuresAcknowledged
  {
    assert StepAt(cfg, groups, ws, es, i) && ReadsFreshAt(ws, es, i);
    StepKeepsInOrder(cfg, groups, w0, w1, es[i]);
  }

  /** No step takes an acknowledgement back, not even once the history is being purged. */
  lemma AcknowledgedStep(cfg: Config, groups: seq<Group>, w0: World, w1: World, e: Event)
    requires Distinct(groups) && Enabled(w0, e) && FreshAt(w0, e) && Steps(cfg, groups, w0, w1, e)
    requires FreshInv(cfg, groups, w0)
    ensures w0.status.failuresAcknowledged <= w1.status.failuresAcknowledged
  {
    FreshIsTold(cfg, w0, e);
    if Purgeable(cfg, w0) {
      PurgeableStays(cfg, groups, w0, w1, e);
    } else {
      DeletesOnlyFinishedHistory(cfg, groups, w0, w1, e);
      StepKeepsInOrder(cfg, groups, w0, w1, e);
    }
  }

  lemma {:induction false} AcknowledgedTrace(
    cfg: Config, groups: seq<Group>, ws: seq<World>, es: seq<Event>, i: nat, j: nat)
    requires IsTrace(cfg, groups, ws, es) && FreshReads(ws, es) && i <= j < |ws|
    ensures ws[i].status.failuresAcknowledged <= ws[j].status.failuresAcknowledged
    decreases j
  {
    if i < j {
      AcknowledgedTrace(cfg, groups, ws, es, i, j - 1);
      AcknowledgedAt(cfg, groups, ws, es, j - 1, ws[j]);
    }
  }

  lemma AcknowledgedAt(cfg: Config, groups: seq<Group>, ws: seq<World>, es: seq<Event>, i: nat, w1: World)
    requires IsTrace(cfg, groups, ws, es) && FreshReads(ws, es) && i < |es| && w1 == ws[i + 1]
    ensures ws[i].status.failuresAcknowledged <= w1.status.failuresAcknowledged
  {
    FreshTraceInv(cfg, groups, ws, es, i);
    assert StepAt(cfg, groups, ws, es, i) && ReadsFreshAt(ws, es, i);
    AcknowledgedStep(cfg, groups, ws[i], w1, es[i]);
  }

  /** More acknowledged failures never make the policy react sooner. */
  lemma MoreAcknowledged(cfg: Config, s0: PlanStatus, s1: PlanStatus, failed: int)
    requires s0.failuresAcknowledged <= s1.failuresAcknowledged
    ensures cfg.policy.Exceeded(NewFailures(s1, failed)) ==> cfg.policy.Exceeded(NewFailures(s0, failed))
  {
  }

  /**
   * Acknowledgements are never taken back, and never exceed the failures there are while the history is kept: if the
   * failures at one point do not trigger the policy then the same number of failures never does later.
   */
  lemma AcknowledgedFailuresStaySettled(cfg: Config, ws: seq<World>, es: seq<Event>, i: nat, j: nat)
    requires IsRun(cfg, ws, es) && FreshReads(ws, es) && i <= j < |ws|
    ensures 0 <= ws[i].status.failuresAcknowledged <= ws[j].status.failuresAcknowledged
    ensures KeepsJobs(ws, j) ==> ws[j].status.failuresAcknowledged <= Failures(Groups(cfg), ws[j].jobs)
    ensures forall f: int ::
              cfg.policy.Exceeded(NewFailures(ws[j].status, f)) ==> cfg.policy.Exceeded(NewFailures(ws[i].status, f))
  {
    RunsAreTraces(cfg, ws, es);
    AcknowledgedTrace(cfg, Groups(cfg), ws, es, 0, i);
    AcknowledgedTrace(cfg, Groups(cfg), ws, es, i, j);
    forall f: int | cfg.policy.Exceeded(NewFailures(ws[j].status, f))
      ensures cfg.policy.Exceeded(NewFailures(ws[i].status, f))
    {
      MoreAcknowledged(cfg, ws[i].status, ws[j].status, f);
    }
    if KeepsJobs(ws, j) {
      InOrderTrace(cfg, Groups(cfg), ws, es, j);
    }
  }

  /** Step i resumes the plan: it was paused, nobody cancelled it, and now it is not paused any more. */
  ghost predicate ResumesAt(ws: seq<World>, es: seq<Event>, i: nat)
    requires |ws| == |es| + 1 && i < |es|
  {
    && es[i].PlanReconciles? && !ws[i].cancelled
    && ws[i].status.phase.Paused? && !ws[i + 1].status.phase.Paused?
  }

  /**
   * A resume settles the failures of that moment for good: at no later point of the run do they trigger the Pause
   * policy again, nor do any that are fewer than the threshold above what was acknowledged. A resume after the policy
   * had paused the plan acknowledges them all, so that the threshold counts further failures.
   */
  lemma ResumeSettlesFailures(cfg: Config, ws: seq<World>, es: seq<Event>, i: nat, j: nat, failed: nat)
    requires IsRun(cfg, ws, es) && FreshReads(ws, es) && i < j < |ws| && cfg.policy.kind.Pause?
    requires ResumesAt(ws, es, i) && failed == Failures(Groups(cfg), ws[i].jobs)
    ensures !cfg.policy.Exceeded(NewFailures(ws[j].status, failed))
    ensures failed - ws[j].status.failuresAcknowledged < Max(cfg.policy.maxFailures, 1)
    ensures forall f: int ::
              cfg.policy.Exceeded(NewFailures(ws[j].status, f)) ==>
                f >= ws[i + 1].status.failuresAcknowledged + Max(cfg.policy.maxFailures, 1)
    ensures ws[i + 1].status.failuresAcknowledged ==
            if failed - ws[i].status.failuresAcknowledged >= Max(cfg.policy.maxFailures, 1) then failed
            else ws[i].status.failuresAcknowledged
  {
    RunsAreTraces(cfg, ws, es);
    ResumeStep(cfg, Groups(cfg), ws, es, i, ws[i + 1], failed);
    AcknowledgedFailuresStaySettled(cfg, ws, es, i + 1, j);
  }

  lemma ResumeStep(
    cfg: Config, groups: seq<Group>, ws: seq<World>, es: seq<Event>, i: nat, w1: World, failed: nat)
    requires IsTrace(cfg, groups, ws, es) && FreshReads(ws, es) && i < |es| && cfg.policy.kind.Pause?
    requires ResumesAt(ws, es, i) && w1 == ws[i + 1] && failed == Failures(groups, ws[i].jobs)
    ensures w1.status.failuresAcknowledged == Accepted(cfg, ws[i].status, failed)
    ensures 0 <= ws[i].status.failuresAcknowledged <= failed
    ensures !cfg.policy.Exceeded(NewFailures(w1.status, failed))
  {
    FreshTraceInv(cfg, groups, ws, es, i);
    assert StepAt(cfg, groups, ws, es, i) && ReadsFreshAt(ws, es, i);
    Resuming(cfg, groups, ws[i], w1, es[i], failed);
  }

  lemma Resuming(cfg: Config, groups: seq<Group>, w0: World, w1: World, e: Event, failed: nat)
    requires FreshInv(cfg, groups, w0) && FreshAt(w0, e) && Steps(cfg, groups, w0, w1, e) && e.PlanReconciles?
    requires AwaitsResume(cfg, w0) && !w1.status.phase.Paused? && failed == Failures(groups, w0.jobs)
    ensures w1.status.failuresAcknowledged == Accepted(cfg, w0.status, failed)
    ensures 0 <= w0.status.failuresAcknowledged <= failed
    ensures !cfg.policy.Exceeded(NewFailures(w1.status, failed))
  {
    match e {
      case PlanReconciles(o) =>
        PausedInOrder(cfg, groups, w0, o.jobs);
        PassAccepts(cfg, groups, w0, w1, o, failed);
        AcceptedSettles(cfg, w0.status, w1.status, failed);
    }
  }

  lemma PassAccepts(cfg: Config, groups: seq<Group>, w0: World, w1: World, o: Observation, failed: nat)
    requires Effect(cfg, groups, w0, w1, o) && ByNode(o.jobs) == w0.jobs && failed == Failures(groups, w0.jobs)
    requires AwaitsResume(cfg, w0) && !w1.status.phase.Paused?
    ensures w1.status.failuresAcknowledged == Accepted(cfg, w0.status, failed)
  {
    var k: nat :| Passed(cfg, groups, w0, w1, o, k);
  }

  lemma PausedInOrder(cfg: Config, groups: seq<Group>, w: World, list: seq<PatchJob>)
    requires FreshInv(cfg, groups, w) && w.status.phase.Paused? && Lists(list, w.jobs)
    ensures ByNode(list) == w.jobs
  {
    FreshView(groups, list, w.jobs);
  }

  lemma AcceptedSettles(cfg: Config, s0: PlanStatus, s1: PlanStatus, failed: nat)
    requires s1.failuresAcknowledged == Accepted(cfg, s0, failed)
    ensures !cfg.policy.Exceeded(NewFailures(s1, failed))
  {
    assert cfg.policy.Threshold() >= 1;
  }
}
