/** The state a PatchPlan reconcile reads and writes through the API server, and how a reconcile may be cut short. */
module PlanWorld {
  import opened Api
  import opened Scheduling
  import opened Maintenance

  /** The PatchJobs of the plan by node; job names are derived from the node name, so there is one per node. */
  type Jobs = map<string, PatchJob>

  /** The parts of the kube-proxy DaemonSet that decide whether its rollout has finished. */
  datatype DaemonSet = DaemonSet(
    images: seq<string>,
    generation: int,
    observedGeneration: int,
    desired: int,
    updated: int,
    ready: int)

  /** What stays fixed over a rollout: the plan's spec apart from paused and cancelled, and the selected nodes. */
  datatype Config = Config(
    target: TargetSpec,
    policy: FailurePolicy,
    delayBetweenNodes: int,
    history: int,
    maintenance: Option<MaintenanceSpec>,
    strategy: Strategy,
    nodes: seq<Node>)

  /**
   * leases holds the group label of the Lease named after a node's job. calls is the number of API calls of the
   * running reconcile that still succeed: the next one after them fails and ends the reconcile.
   */
  datatype World = World(
    now: int,
    paused: bool,
    cancelled: bool,
    generation: nat,
    status: PlanStatus,
    jobs: Jobs,
    leases: map<string, string>,
    kubeProxy: Option<DaemonSet>,
    calls: nat)

  /**
   * What one reconcile is told: how many API calls succeed, the two PatchJob lists and the Lease list it reads
   * (possibly out of date), and the outcome of the remote preflight checks (None: could not be evaluated).
   */
  datatype Observation = Observation(
    calls: nat,
    retentionJobs: seq<PatchJob>,
    jobs: seq<PatchJob>,
    leases: seq<string>,
    remoteChecks: Option<bool>)

  /** A reconcile either goes on or ends here, with everything it wrote so far in place. */
  datatype Flow = Next(w: World) | Stop(w: World) {
    predicate IsFailure() { Stop? }
    function PropagateFailure(): Flow requires Stop? { this }
    function Extract(): World requires Next? { w }
  }

  function Call(w: World): Flow {
    if w.calls == 0 then Stop(w) else Next(w.(calls := w.calls - 1))
  }

  function WriteStatus(w: World, s: PlanStatus): Flow {
    var w :- Call(w);
    Next(w.(status := s))
  }

  ghost function ByNode(jobs: seq<PatchJob>): Jobs {
    if jobs == [] then map[] else ByNode(jobs[..|jobs| - 1])[jobs[|jobs| - 1].node := jobs[|jobs| - 1]]
  }

  /** A complete, up-to-date list of jobs. */
  ghost predicate Lists(list: seq<PatchJob>, jobs: Jobs) {
    && (forall i, j :: 0 <= i < j < |list| ==> list[i].node != list[j].node)
    && (forall j <- list :: j.node in jobs && jobs[j.node] == j)
    && (forall n <- jobs :: jobs[n] in list)
  }

  lemma {:induction false} ByNodeMembers(list: seq<PatchJob>)
    ensures forall n <- ByNode(list) :: ByNode(list)[n] in list && ByNode(list)[n].node == n
    ensures forall j <- list :: j.node in ByNode(list)
  {
    if list != [] {
      var init, last := list[..|list| - 1], list[|list| - 1];
      ByNodeMembers(init);
      assert list == init + [last];
    }
  }

  lemma ByNodeOfList(list: seq<PatchJob>, jobs: Jobs)
    requires Lists(list, jobs)
    requires forall n <- jobs :: jobs[n].node == n
    ensures ByNode(list) == jobs
  {
    ByNodeMembers(list);
  }

  predicate IsCompleted(jobs: Jobs, n: string) { n in jobs && jobs[n].status.phase.Completed? }

  predicate IsFailed(jobs: Jobs, n: string) { n in jobs && jobs[n].status.phase.Failed? }

  predicate IsFinished(jobs: Jobs, n: string) { n in jobs && jobs[n].Finished() }

  predicate IsUnfinished(jobs: Jobs, n: string) { n in jobs && !jobs[n].Finished() }

  ghost function CompletedIn(names: set<string>, jobs: Jobs): set<string> {
    set n | n in names && IsCompleted(jobs, n)
  }

  ghost function FailedIn(names: set<string>, jobs: Jobs): set<string> {
    set n | n in names && IsFailed(jobs, n)
  }

  ghost function UnfinishedIn(names: set<string>, jobs: Jobs): set<string> {
    set n | n in names && IsUnfinished(jobs, n)
  }

  ghost function MissingIn(names: set<string>, jobs: Jobs): set<string> {
    set n | n in names && n !in jobs
  }

  ghost function CountsOf(names: set<string>, jobs: Jobs): JobCounts {
    JobCounts(
      |CompletedIn(names, jobs)|, |FailedIn(names, jobs)|, |UnfinishedIn(names, jobs)|, |MissingIn(names, jobs)|)
  }
}
