/** Safety of every run: concurrency, group order, Kubernetes order and quorum, even when job lists are stale. */
module PlanSafety {
  import opened Api
  import opened Scheduling
  import opened Placement
  import opened Rollouts
  import opened PlanWorld
  import opened PlanSteps
  import opened PlanEffects
  import opened PlanRuns

  /** No worker has a job before the control plane and kube-proxy are done. */
  ghost predicate KubernetesOrder(cfg: Config, groups: seq<Group>, w: World) {
    cfg.target.kubernetesVersion != "" && ControlPlane(groups) != [] ==>
      forall n <- AllNodes(groups) :: !IsControlPlane(n) && n.name in w.jobs ==>
                                        AllCompleted(ControlPlane(groups), w.jobs) && w.status.kubeProxyUpgraded
  }

  /** Nothing starts unless the rollout passed the preflight checks. */
  ghost predicate Preflighted(cfg: Config, groups: seq<Group>, w: World) {
    w.jobs != map[] || (w.status.preflight.Some? && w.status.preflight.value.passed) ==> RolloutChecks(cfg, groups)
  }

  ghost predicate SafeInv(cfg: Config, groups: seq<Group>, w: World) {
    OrderInv(groups, w.jobs) && KubernetesOrder(cfg, groups, w) && Preflighted(cfg, groups, w)
  }

  // ---------------------------------------------------------------- one step

  lemma FinishingKeepsOrder(groups: seq<Group>, jobs0: Jobs, jobs1: Jobs)
    requires OrderInv(groups, jobs0) && JobsFit(groups, jobs1)
    requires Earlier(jobs0, jobs1) && jobs1.Keys == jobs0.Keys
    ensures OrderInv(groups, jobs1)
  {
    FinishingKeepsConcurrency(groups, jobs0, jobs1);
    FinishingKeepsPrefixes(groups, jobs0, jobs1);
    FinishingKeepsGroupOrder(groups, jobs0, jobs1);
  }

  lemma FinishingKeepsConcurrency(groups: seq<Group>, jobs0: Jobs, jobs1: Jobs)
    requires WithinConcurrency(groups, jobs0) && Earlier(jobs0, jobs1) && jobs1.Keys == jobs0.Keys
    ensures WithinConcurrency(groups, jobs1)
  {
    forall i | 0 <= i < |groups| ensures |Unfinished(groups[i], jobs1)| <= groups[i].concurrency {
      SubsetSize(Unfinished(groups[i], jobs1), Unfinished(groups[i], jobs0));
    }
  }

  lemma FinishingKeepsPrefixes(groups: seq<Group>, jobs0: Jobs, jobs1: Jobs)
    requires PrefixesScheduled(groups, jobs0) && jobs1.Keys == jobs0.Keys
    ensures PrefixesScheduled(groups, jobs1)
  {
    forall i | 0 <= i < |groups| ensures PrefixScheduled(groups[i].nodes, jobs1) {
      assert PrefixScheduled(groups[i].nodes, jobs0);
    }
  }

  lemma FinishingKeepsGroupOrder(groups: seq<Group>, jobs0: Jobs, jobs1: Jobs)
    requires GroupOrder(groups, jobs0) && Earlier(jobs0, jobs1) && jobs1.Keys == jobs0.Keys
    ensures GroupOrder(groups, jobs1)
  {
    forall i, j, n | 0 <= i < j < |groups| && n in NamesOf(groups[j].nodes) && n in jobs1
      ensures GroupFinished(groups[i], jobs1)
    {
      assert GroupFinished(groups[i], jobs0);
    }
  }

  lemma MoveKeepsFit(groups: seq<Group>, jobs: Jobs, job: PatchJob, now: int)
    requires JobsFit(groups, jobs) && job.node in jobs && Advances(jobs[job.node], job, now)
    ensures
      var jobs1 := jobs[job.node := job];
      JobsFit(groups, jobs1) && Earlier(jobs, jobs1) && jobs1.Keys == jobs.Keys
  {
  }

  lemma KubernetesOrderStays(cfg: Config, groups: seq<Group>, w0: World, w1: World)
    requires KubernetesOrder(cfg, groups, w0) && Earlier(w0.jobs, w1.jobs) && w1.jobs.Keys == w0.jobs.Keys
    requires w0.status.kubeProxyUpgraded ==> w1.status.kubeProxyUpgraded
    ensures KubernetesOrder(cfg, groups, w1)
  {
  }

  lemma RoundKeepsKubernetesOrder(
    cfg: Config, groups: seq<Group>, i: nat, w0: World, w1: World, view: Jobs, created: seq<Node>)
    requires Distinct(groups) && KubernetesOrder(cfg, groups, w0)
    requires RoundOf(cfg, groups, i, w0.jobs, w1.jobs, view, created)
    requires Earlier(view, w1.jobs) && Earlier(w0.jobs, w1.jobs)
    requires NoneWaits(WorkersGated(cfg, groups, view), created)
    requires KubeProxyDue(cfg, groups, view) ==> w1.status.kubeProxyUpgraded
    requires w0.status.kubeProxyUpgraded ==> w1.status.kubeProxyUpgraded
    ensures KubernetesOrder(cfg, groups, w1)
  {
    if cfg.target.kubernetesVersion != "" && ControlPlane(groups) != [] {
      forall n | n in AllNodes(groups) && !IsControlPlane(n) && n.name in w1.jobs
        ensures AllCompleted(ControlPlane(groups), w1.jobs) && w1.status.kubeProxyUpgraded
      {
        if n.name !in w0.jobs {
          var m :| m in created && m.name == n.name;
          assert m in PendingNodes(groups[i].nodes, view);
          SameNode(groups, i, m, n);
          assert AllCompleted(ControlPlane(groups), view);
        } else {
          assert AllCompleted(ControlPlane(groups), w0.jobs);
        }
      }
    }
  }

  lemma SameNode(groups: seq<Group>, i: nat, m: Node, n: Node)
    requires Distinct(groups) && i < |groups| && m in groups[i].nodes && n in AllNodes(groups) && m.name == n.name
    ensures m == n
  {
    AllNodesMembers(groups);
    AllNodesUniquelyNamed(groups);
    NamesIdentify(AllNodes(groups), m, n);
  }

  lemma NamesIdentify(nodes: seq<Node>, m: Node, n: Node)
    requires UniquelyNamed(nodes) && m in nodes && n in nodes && m.name == n.name
    ensures m == n
  {
  }

  /** A pass keeps the invariant when its list shows the jobs as they were at an earlier, sound point. */
  lemma PassKeepsSafe(cfg: Config, groups: seq<Group>, w0: World, w1: World, o: Observation, k: nat)
    requires Distinct(groups) && SafeInv(cfg, groups, w0)
    requires OrderInv(groups, ByNode(o.jobs)) && Earlier(ByNode(o.jobs), w0.jobs)
    requires Passed(cfg, groups, w0, w1, o, k)
    ensures SafeInv(cfg, groups, w1) && Earlier(w0.jobs, w1.jobs)
  {
    PassKeepsPreflighted(cfg, groups, w0, w1, o, k);
    if CreatesNothing(w0, w1) {
      KubernetesOrderStays(cfg, groups, w0, w1);
    } else {
      RoundKeepsSafe(cfg, groups, w0, w1, o, k);
    }
  }

  /** A job is created only for a plan that has passed the preflight, this one or one before. */
  lemma PassKeepsPreflighted(cfg: Config, groups: seq<Group>, w0: World, w1: World, o: Observation, k: nat)
    requires Preflighted(cfg, groups, w0) && Earlier(ByNode(o.jobs), w0.jobs) && Passed(cfg, groups, w0, w1, o, k)
    ensures Preflighted(cfg, groups, w1)
  {
  }

  lemma RoundKeepsSafe(cfg: Config, groups: seq<Group>, w0: World, w1: World, o: Observation, k: nat)
    requires Distinct(groups) && OrderInv(groups, w0.jobs) && KubernetesOrder(cfg, groups, w0)
    requires OrderInv(groups, ByNode(o.jobs)) && Earlier(ByNode(o.jobs), w0.jobs)
    requires Scheduled(cfg, groups, w0, w1, o, k) && (w0.status.kubeProxyUpgraded ==> w1.status.kubeProxyUpgraded)
    ensures OrderInv(groups, w1.jobs) && KubernetesOrder(cfg, groups, w1) && Earlier(w0.jobs, w1.jobs)
  {
    var view := ByNode(o.jobs);
    var i := ActiveGroup(groups, view);
    var created := PendingNodes(groups[i].nodes, view)[..k];
    SlotHoldersAreUnfinished(groups, view, o.leases, i);
    assert RoundOf(cfg, groups, i, w0.jobs, w1.jobs, view, created);
    RoundKeepsOrder(cfg, groups, i, w0.jobs, w1.jobs, view, created);
    EarlierChain(view, w0.jobs, w1.jobs);
    RoundKeepsKubernetesOrder(cfg, groups, i, w0, w1, view, created);
  }

  lemma EarlierChain(a: Jobs, b: Jobs, c: Jobs)
    requires Earlier(a, b) && Earlier(b, c)
    ensures Earlier(a, c)
  {
  }

  // ---------------------------------------------------------------- every run

  lemma MoveKeepsOrder(groups: seq<Group>, jobs0: Jobs, jobs1: Jobs, job: PatchJob, now: int)
    requires OrderInv(groups, jobs0) && job.node in jobs0 && Advances(jobs0[job.node], job, now)
    requires jobs1 == jobs0[job.node := job]
    ensures OrderInv(groups, jobs1) && Earlier(jobs0, jobs1) && jobs1.Keys == jobs0.Keys && jobs1 != map[]
  {
    MoveKeepsFit(groups, jobs0, job, now);
    FinishingKeepsOrder(groups, jobs0, jobs1);
  }

  /** The plan's status stays, and at most one job moves on. */
  ghost predicate MovesOn(w0: World, w1: World, e: Event) {
    && w1.status == w0.status
    && if e.JobMoves? then
         && e.job.node in w0.jobs && Advances(w0.jobs[e.job.node], e.job, w0.now)
         && w1.jobs == w0.jobs[e.job.node := e.job]
       else w1.jobs == w0.jobs
  }

  lemma OtherStepsMoveOn(cfg: Config, w0: World, w1: World, e: Event)
    requires Enabled(w0, e) && !e.PlanReconciles? && w1 == Apply(cfg, w0, e)
    ensures MovesOn(w0, w1, e)
  {
  }

  lemma MovingOnKeepsSafe(cfg: Config, groups: seq<Group>, w0: World, w1: World, e: Event)
    requires SafeInv(cfg, groups, w0) && MovesOn(w0, w1, e)
    ensures SafeInv(cfg, groups, w1) && Earlier(w0.jobs, w1.jobs)
  {
    if e.JobMoves? {
      MoveKeepsOrder(groups, w0.jobs, w1.jobs, e.job, w0.now);
    }
    KubernetesOrderStays(cfg, groups, w0, w1);
  }

  /** The steps that are no reconcile keep a plan safe. */
  lemma OtherStepsKeepSafe(cfg: Config, groups: seq<Group>, w0: World, w1: World, e: Event)
    requires SafeInv(cfg, groups, w0) && Enabled(w0, e) && !e.PlanReconciles? && w1 == Apply(cfg, w0, e)
    ensures SafeInv(cfg, groups, w1) && Earlier(w0.jobs, w1.jobs)
  {
    OtherStepsMoveOn(cfg, w0, w1, e);
    MovingOnKeepsSafe(cfg, groups, w0, w1, e);
  }

  /** A reconcile that does nothing, or a purge that has not deleted anything yet, leaves the jobs as they are. */
  lemma NothingDeleted(cfg: Config, w0: World, w1: World, listed: seq<PatchJob>)
    requires Untouched(w0, w1) || Purges(cfg, w0, w1, listed)
    requires w0.jobs.Keys <= w1.jobs.Keys
    ensures w1.jobs == w0.jobs && w1.status == w0.status.(historyPurged := w1.status.historyPurged)
  {
    assert w1.jobs == w0.jobs;
  }

  lemma ReconcileKeepsSafe(cfg: Config, groups: seq<Group>, w0: World, w1: World, o: Observation)
    requires Distinct(groups) && SafeInv(cfg, groups, w0) && Effect(cfg, groups, w0, w1, o)
    requires OrderInv(groups, ByNode(o.jobs)) && Earlier(ByNode(o.jobs), w0.jobs)
    requires w0.jobs.Keys <= w1.jobs.Keys
    ensures SafeInv(cfg, groups, w1) && Earlier(w0.jobs, w1.jobs)
  {
    if Untouched(w0, w1) || Purges(cfg, w0, w1, o.retentionJobs) {
      NothingDeleted(cfg, w0, w1, o.retentionJobs);
      KubernetesOrderStays(cfg, groups, w0, w1);
    } else {
      var k: nat :| Passed(cfg, groups, w0, w1, o, k);
      PassKeepsSafe(cfg, groups, w0, w1, o, k);
    }
  }

  lemma InitiallySafe(cfg: Config, groups: seq<Group>, w: World)
    requires WellFormed(groups) && Initial(w)
    ensures SafeInv(cfg, groups, w)
  {
    assert forall i :: 0 <= i < |groups| ==> Unfinished(groups[i], w.jobs) == {};
  }

  /** All states up to i keep the order, and the jobs only moved on since. */
  ghost predicate SafeHistory(groups: seq<Group>, ws: seq<World>, i: nat)
    requires i < |ws|
  {
    forall k :: 0 <= k <= i ==> OrderInv(groups, ws[k].jobs) && Earlier(ws[k].jobs, ws[i].jobs)
  }

  lemma ListedJobsAreEarlier(groups: seq<Group>, ws: seq<World>, i: nat, list: seq<PatchJob>)
    requires i < |ws| && ListsSomeEarlier(list, ws, i) && SafeHistory(groups, ws, i)
    ensures OrderInv(groups, ByNode(list)) && Earlier(ByNode(list), ws[i].jobs)
  {
    var k :| 0 <= k <= i && Lists(list, ws[k].jobs);
    ByNodeOfList(list, ws[k].jobs);
  }

  ghost predicate SafeUpTo(cfg: Config, groups: seq<Group>, ws: seq<World>, i: nat)
    requires i < |ws|
  {
    SafeInv(cfg, groups, ws[i]) && SafeHistory(groups, ws, i)
  }

  lemma SafeAtFirst(cfg: Config, groups: seq<Group>, ws: seq<World>)
    requires |ws| > 0 && WellFormed(groups) && Initial(ws[0])
    ensures SafeUpTo(cfg, groups, ws, 0)
  {
    InitiallySafe(cfg, groups, ws[0]);
  }

  lemma SafeStep(cfg: Config, groups: seq<Group>, ws: seq<World>, es: seq<Event>, i: nat, i1: nat)
    requires IsTrace(cfg, groups, ws, es) && StaleReads(ws, es) && i < |es| && i1 == i + 1
    requires SafeUpTo(cfg, groups, ws, i) && KeepsJobsAt(ws, i)
    ensures SafeUpTo(cfg, groups, ws, i1)
  {
    SafeStepKeeps(cfg, groups, ws, es, i, ws[i], ws[i1]);
    HistoryGrows(groups, ws, i, ws[i].jobs, ws[i1].jobs);
  }

  lemma SafeStepKeeps(
    cfg: Config, groups: seq<Group>, ws: seq<World>, es: seq<Event>, i: nat, w0: World, w1: World)
    requires IsTrace(cfg, groups, ws, es) && StaleReads(ws, es) && i < |es| && w0 == ws[i] && w1 == ws[i + 1]
    requires SafeInv(cfg, groups, w0) && SafeHistory(groups, ws, i) && w0.jobs.Keys <= w1.jobs.Keys
    ensures SafeInv(cfg, groups, w1) && Earlier(w0.jobs, w1.jobs)
  {
    assert StepAt(cfg, groups, ws, es, i);
    match es[i] {
      case PlanReconciles(o) =>
        ListedJobsAreEarlier(groups, ws, i, o.jobs);
        ReconcileKeepsSafe(cfg, groups, w0, w1, o);
      case _ =>
        OtherStepsKeepSafe(cfg, groups, w0, w1, es[i]);
    }
  }

  lemma HistoryGrows(groups: seq<Group>, ws: seq<World>, i: nat, jobs0: Jobs, jobs1: Jobs)
    requires i + 1 < |ws| && SafeHistory(groups, ws, i) && jobs0 == ws[i].jobs && jobs1 == ws[i + 1].jobs
    requires OrderInv(groups, jobs1) && Earlier(jobs0, jobs1)
    ensures SafeHistory(groups, ws, i + 1)
  {
    forall k | 0 <= k <= i ensures Earlier(ws[k].jobs, jobs1) {
      EarlierChain(ws[k].jobs, jobs0, jobs1);
    }
  }

  /**
   * Every state of a run is safe as long as no job has been deleted, although every reconcile may act on a list
   * of jobs that is arbitrarily out of date.
   */
  lemma {:induction false} TraceIsSafe(cfg: Config, groups: seq<Group>, ws: seq<World>, es: seq<Event>, i: nat)
    requires IsTrace(cfg, groups, ws, es) && StaleReads(ws, es) && i < |ws| && KeepsJobs(ws, i)
    ensures SafeUpTo(cfg, groups, ws, i)
  {
    if i == 0 {
      SafeAtFirst(cfg, groups, ws);
    } else {
      TraceIsSafe(cfg, groups, ws, es, i - 1);
      assert KeepsJobsAt(ws, i - 1);
      SafeStep(cfg, groups, ws, es, i - 1, i);
    }
  }

  // ---------------------------------------------------------------- what safety means

  /** All unfinished jobs belong to one group. */
  lemma UnfinishedInOneGroup(groups: seq<Group>, jobs: Jobs, m: string, n: string)
    requires OrderInv(groups, jobs) && IsUnfinished(jobs, m) && IsUnfinished(jobs, n)
    ensures GroupIndex(groups, m) == GroupIndex(groups, n) < |groups|
  {
    var i, j := GroupIndex(groups, m), GroupIndex(groups, n);
    assert i < j ==> GroupFinished(groups[i], jobs);
    assert j < i ==> GroupFinished(groups[j], jobs);
  }

  ghost function UnfinishedControlPlane(groups: seq<Group>, jobs: Jobs): set<string> {
    UnfinishedIn(NamesOf(ControlPlane(groups)), jobs)
  }

  lemma UnfinishedControlPlaneInGroup(groups: seq<Group>, jobs: Jobs, m: string, n: string)
    requires Distinct(groups) && OrderInv(groups, jobs)
    requires m in UnfinishedControlPlane(groups, jobs) && n in UnfinishedControlPlane(groups, jobs)
    ensures
      var i := GroupIndex(groups, m);
      && i < |groups|
      && n in NamesOf(ControlPlaneOf(groups[i].nodes)) && n in Unfinished(groups[i], jobs)
  {
    UnfinishedInOneGroup(groups, jobs, m, n);
    var g := groups[GroupIndex(groups, n)];
    var x :| x in ControlPlane(groups) && x.name == n;
    var y :| y in g.nodes && y.name == n;
    SameNode(groups, GroupIndex(groups, n), y, x);
    assert y in ControlPlaneOf(g.nodes);
  }

  /** The unfinished control plane nodes are among those of one group, and no more than its concurrency. */
  lemma UnfinishedControlPlaneBound(groups: seq<Group>, jobs: Jobs, m: string) returns (g: Group)
    requires Distinct(groups) && OrderInv(groups, jobs) && m in UnfinishedControlPlane(groups, jobs)
    ensures g in groups
    ensures |UnfinishedControlPlane(groups, jobs)| <= Min(g.concurrency, |ControlPlaneOf(g.nodes)|)
  {
    g := UnfinishedControlPlaneGroup(groups, jobs, m);
    var down := UnfinishedControlPlane(groups, jobs);
    SubsetSize(down, NamesOf(ControlPlaneOf(g.nodes)));
    NamesAtMost(ControlPlaneOf(g.nodes));
    SubsetSize(down, Unfinished(g, jobs));
  }

  lemma UnfinishedControlPlaneGroup(groups: seq<Group>, jobs: Jobs, m: string) returns (g: Group)
    requires Distinct(groups) && OrderInv(groups, jobs) && m in UnfinishedControlPlane(groups, jobs)
    ensures g in groups && |Unfinished(g, jobs)| <= g.concurrency
    ensures UnfinishedControlPlane(groups, jobs) <= NamesOf(ControlPlaneOf(g.nodes))
    ensures UnfinishedControlPlane(groups, jobs) <= Unfinished(g, jobs)
  {
    UnfinishedControlPlaneInGroup(groups, jobs, m, m);
    g := groups[GroupIndex(groups, m)];
    forall n | n in UnfinishedControlPlane(groups, jobs)
      ensures n in NamesOf(ControlPlaneOf(g.nodes)) && n in Unfinished(g, jobs)
    {
      UnfinishedControlPlaneInGroup(groups, jobs, m, n);
    }
  }

  /** The names of the control plane nodes nobody is patching. */
  ghost function QuietControlPlane(groups: seq<Group>, jobs: Jobs): set<string> {
    NamesOf(ControlPlane(groups)) - UnfinishedControlPlane(groups, jobs)
  }

  /** More than half of three or more control plane nodes have no unfinished job. */
  ghost predicate MajorityKept(groups: seq<Group>, jobs: Jobs) {
    |ControlPlane(groups)| >= 3 ==> |QuietControlPlane(groups, jobs)| >= |ControlPlane(groups)| / 2 + 1
  }

  lemma QuietCount(groups: seq<Group>, jobs: Jobs)
    requires Distinct(groups)
    ensures |QuietControlPlane(groups, jobs)| == |ControlPlane(groups)| - |UnfinishedControlPlane(groups, jobs)|
  {
    AllNodesUniquelyNamed(groups);
    ControlPlaneUniquelyNamed(AllNodes(groups));
    NamesCount(ControlPlane(groups));
    assert UnfinishedControlPlane(groups, jobs) <= NamesOf(ControlPlane(groups));
  }

  /** The quorum check, concurrency and group order together keep a majority of the control plane alone. */
  lemma QuorumKept(groups: seq<Group>, jobs: Jobs)
    requires Distinct(groups) && OrderInv(groups, jobs) && QuorumSafe(groups)
    ensures MajorityKept(groups, jobs)
  {
    QuietCount(groups, jobs);
    if UnfinishedControlPlane(groups, jobs) != {} {
      var m :| m in UnfinishedControlPlane(groups, jobs);
      var g := UnfinishedControlPlaneBound(groups, jobs, m);
      var atOnce := Min(g.concurrency, |ControlPlaneOf(g.nodes)|);
      assert atOnce <= 1 || atOnce < (|ControlPlane(groups)| + 1) / 2;
    }
  }

  /** Without jobs everybody is quiet; with one the rollout passed the quorum check. */
  lemma MajorityFromChecks(cfg: Config, groups: seq<Group>, jobs: Jobs)
    requires Distinct(groups) && OrderInv(groups, jobs)
    requires jobs != map[] ==> RolloutChecks(cfg, groups)
    ensures MajorityKept(groups, jobs)
  {
    if jobs != map[] {
      QuorumKept(groups, jobs);
    } else {
      QuietCount(groups, jobs);
      assert UnfinishedControlPlane(groups, jobs) == {};
    }
  }

  /** The nodes of the group whose jobs have neither completed nor failed. */
  ghost function StillOpen(g: Group, jobs: Jobs): set<string> {
    set n | n in NamesOf(g.nodes) && n in jobs && !jobs[n].status.phase.Completed? && !jobs[n].status.phase.Failed?
  }

  lemma OpenIsUnfinished(g: Group, jobs: Jobs)
    ensures StillOpen(g, jobs) == Unfinished(g, jobs)
  {
  }

  /** No group has more unfinished jobs than are configured for it. */
  ghost predicate WithinConfigured(cfg: Config, jobs: Jobs)
    requires ValidStrategy(cfg.strategy)
  {
    forall g <- Groups(cfg) :: |StillOpen(g, jobs)| <= Allowed(cfg.strategy, g.name)
  }

  lemma ConfiguredConcurrency(cfg: Config, jobs: Jobs)
    requires ValidStrategy(cfg.strategy) && WithinConcurrency(Groups(cfg), jobs)
    ensures WithinConfigured(cfg, jobs)
  {
    var groups := Groups(cfg);
    forall g | g in groups ensures |StillOpen(g, jobs)| <= Allowed(cfg.strategy, g.name) {
      var i :| 0 <= i < |groups| && groups[i] == g;
      GroupsAsConfigured(cfg.nodes, cfg.strategy, i);
      OpenIsUnfinished(g, jobs);
    }
  }

  /**
   * The rollout-wide promises in one state of any run: the concurrency configured per group, one group at a time in the
   * configured order, no worker upgraded to Kubernetes before the control plane and kube-proxy, and etcd quorum.
   */
  lemma StaleRunsAreSafe(cfg: Config, ws: seq<World>, es: seq<Event>, i: nat)
    requires IsRun(cfg, ws, es) && StaleReads(ws, es) && i < |ws| && KeepsJobs(ws, i)
    ensures
      var groups, jobs := Groups(cfg), ws[i].jobs;
      && WithinConcurrency(groups, jobs) && WithinConfigured(cfg, jobs)
      && GroupOrder(groups, jobs)
      && KubernetesOrder(cfg, groups, ws[i])
      && MajorityKept(groups, jobs)
  {
    RunsAreTraces(cfg, ws, es);
    TraceIsSafe(cfg, Groups(cfg), ws, es, i);
    MajorityFromChecks(cfg, Groups(cfg), ws[i].jobs);
    ConfiguredConcurrency(cfg, ws[i].jobs);
  }

  // ---------------------------------------------------------------- one reconcile, from any state

  /** The unfinished jobs that count against a group, by the group they were scheduled for. */
  ghost function Running(groups: seq<Group>, jobs: Jobs, group: string): set<string> {
    set n | n in jobs && !jobs[n].Finished() && GroupOfJob(groups, jobs[n]) == group
  }

  lemma RoundAddsRunning(
    cfg: Config, groups: seq<Group>, i: nat, jobs0: Jobs, jobs1: Jobs, created: seq<Node>, group: string)
    requires Distinct(groups) && i < |groups| && created <= PendingNodes(groups[i].nodes, jobs0)
    requires jobs1 == WithJobs(cfg, jobs0, groups[i].name, created)
    ensures Running(groups, jobs1, group)
            <= Running(groups, jobs0, group) + if group == groups[i].name then NamesOf(created) else {}
  {
    ServedInGroup(groups[i].nodes, jobs0, created);
    forall n | n in NamesOf(created) ensures n !in jobs0 && GroupOfJob(groups, jobs1[n]) == groups[i].name {
      GroupIndexIs(groups, i, n);
    }
  }

  lemma RoundRunningBound(
    cfg: Config, groups: seq<Group>, i: nat, jobs0: Jobs, jobs1: Jobs, created: seq<Node>, j: nat)
    requires Distinct(groups) && i < |groups| && j < |groups| && created <= PendingNodes(groups[i].nodes, jobs0)
    requires jobs1 == WithJobs(cfg, jobs0, groups[i].name, created)
    requires |created| <= groups[i].concurrency - |Running(groups, jobs0, groups[i].name)|
    ensures |Running(groups, jobs1, groups[j].name)|
            <= Max(|Running(groups, jobs0, groups[j].name)|, groups[j].concurrency)
  {
    var group := groups[j].name;
    RoundAddsRunning(cfg, groups, i, jobs0, jobs1, created, group);
    GrowthBound(groups, i, j, Running(groups, jobs0, group), Running(groups, jobs1, group), created);
  }

  lemma GrowthBound(
    groups: seq<Group>, i: nat, j: nat, before: set<string>, after: set<string>, created: seq<Node>)
    requires Distinct(groups) && i < |groups| && j < |groups|
    requires after <= before + if groups[j].name == groups[i].name then NamesOf(created) else {}
    requires groups[j].name == groups[i].name ==> |created| <= groups[i].concurrency - |before|
    ensures |after| <= Max(|before|, groups[j].concurrency)
  {
    NamesAtMost(created);
    SubsetSize(after, before + if groups[j].name == groups[i].name then NamesOf(created) else {});
  }

  lemma HoldersAreRunning(groups: seq<Group>, jobs: Jobs, leases: seq<string>, group: string)
    requires forall n <- jobs :: !jobs[n].deleting
    ensures SlotHolders(groups, jobs, leases, group) == Running(groups, jobs, group)
  {
  }

  lemma PassRunningBound(
    cfg: Config, groups: seq<Group>, w0: World, w1: World, o: Observation, k: nat, j: nat)
    requires Distinct(groups) && j < |groups| && ByNode(o.jobs) == w0.jobs
    requires forall n <- w0.jobs :: !w0.jobs[n].deleting
    requires Passed(cfg, groups, w0, w1, o, k)
    ensures |Running(groups, w1.jobs, groups[j].name)|
            <= Max(|Running(groups, w0.jobs, groups[j].name)|, groups[j].concurrency)
  {
    if !CreatesNothing(w0, w1) {
      var i := ActiveGroup(groups, w0.jobs);
      HoldersAreRunning(groups, w0.jobs, o.leases, groups[i].name);
      RoundRunningBound(cfg, groups, i, w0.jobs, w1.jobs, PendingNodes(groups[i].nodes, w0.jobs)[..k], j);
    }
  }

  /**
   * From any state whatever, after edits of the spec or the labels too: a reconcile with fresh reads while no job is
   * being deleted never raises the unfinished jobs of a group above its concurrency, or above what they were.
   */
  lemma OneReconcileWithinConcurrency(cfg: Config, w0: World, w1: World, o: Observation, j: nat)
    requires ValidStrategy(cfg.strategy) && j < |Groups(cfg)| && w1 == Reconcile(cfg, w0, o)
    requires Lists(o.jobs, w0.jobs) && forall n <- w0.jobs :: w0.jobs[n].node == n && !w0.jobs[n].deleting
    ensures
      var groups := Groups(cfg);
      |Running(groups, w1.jobs, groups[j].name)|
      <= Max(|Running(groups, w0.jobs, groups[j].name)|, groups[j].concurrency)
  {
    var groups := Groups(cfg);
    ResolvedWellFormed(cfg.nodes, cfg.strategy);
    ByNodeOfList(o.jobs, w0.jobs);
    var k := ReconcileEffect(cfg, groups, w0, w1, o);
    if Untouched(w0, w1) || Purges(cfg, w0, w1, o.retentionJobs) {
      SubsetSize(Running(groups, w1.jobs, groups[j].name), Running(groups, w0.jobs, groups[j].name));
    } else {
      PassRunningBound(cfg, groups, w0, w1, o, k, j);
    }
  }

  // ---------------------------------------------------------------- the gate and the preflight check

  /**
   * If the control plane comes first in the order, then workers of the active group are held back only because
   * a control plane job failed, never because one is still running or missing.
   */
  lemma GateBlocksOnFailureOnly(cfg: Config, groups: seq<Group>, view: Jobs, worker: Node)
    requires ControlPlaneFirst(groups)
    requires ActiveGroup(groups, view) < |groups| && worker in groups[ActiveGroup(groups, view)].nodes
    requires !IsControlPlane(worker) && WorkersGated(cfg, groups, view)
    ensures forall n <- ControlPlane(groups) :: IsFinished(view, n.name)
    ensures exists n <- ControlPlane(groups) :: IsFailed(view, n.name)
  {
    var i := ActiveGroup(groups, view);
    AllNodesMembers(groups);
    forall n | n in ControlPlane(groups) ensures IsFinished(view, n.name) {
      var j :| 0 <= j < |groups| && n in groups[j].nodes;
      assert j < i;
      assert GroupFinished(groups[j], view);
    }
    var n :| n in ControlPlane(groups) && !IsCompleted(view, n.name);
    assert IsFailed(view, n.name);
  }
}
