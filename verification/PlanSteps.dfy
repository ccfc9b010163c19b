/** What one pass of the PatchPlan reconciler does, stage by stage (controllers/). */
module PlanSteps {
  import opened Api
  import opened Scheduling
  import opened Rollouts
  import opened Maintenance
  import opened PlanWorld

  const DEFAULT_HISTORY: int := 7 * DAY

  // ---------------------------------------------------------------- retention.go

  predicate IsFinishedPhase(phase: PlanPhase) { phase.PlanCompleted? || phase.PlanFailed? || phase.Cancelled? }

  /** The plan is finished and its history has been kept long enough. */
  predicate PurgeDue(cfg: Config, now: int, s: PlanStatus) {
    && IsFinishedPhase(s.phase) && s.completionTime.Some?
    && now - s.completionTime.value >= OrDefault(cfg.history, DEFAULT_HISTORY)
  }

  ghost function DeleteJobs(w: World, jobs: seq<PatchJob>): Flow
    decreases |jobs|
  {
    if jobs == [] then Next(w)
    else
      var w :- Call(w);
      DeleteJobs(w.(jobs := w.jobs - {jobs[0].node}), jobs[1..])
  }

  ghost function ApplyRetention(cfg: Config, w: World, jobs: seq<PatchJob>): Flow {
    if !IsFinishedPhase(w.status.phase) || w.status.completionTime.None? then Next(w)
    else if w.status.historyPurged then Stop(w)
    else if !PurgeDue(cfg, w.now, w.status) then Next(w)
    else
      var w :- Call(w);
      if exists j <- jobs :: !j.Finished() then Next(w)
      else
        var w :- DeleteJobs(w, jobs);
        var w :- WriteStatus(w, w.status.(historyPurged := true));
        Stop(w)
  }

  // ---------------------------------------------------------------- leases.go

  ghost function GroupOfJob(groups: seq<Group>, job: PatchJob): string {
    if job.group != "" then job.group
    else
      var i := GroupIndex(groups, job.node);
      if i < |groups| then groups[i].name else ""
  }

  /** The listed unfinished jobs that hold a slot: all of them, except those being deleted whose Lease is gone. */
  ghost function SlotHolders(groups: seq<Group>, view: Jobs, leases: seq<string>, group: string): set<string> {
    set n |
      && n in view && !view[n].Finished() && (n in leases || !view[n].deleting)
      && GroupOfJob(groups, view[n]) == group
  }

  function AddLease(w: World, node: string, group: string): Flow {
    var w :- Call(w);
    Next(if node in w.leases then w else w.(leases := w.leases[node := group]))
  }

  /** Releases the Leases of finished jobs; a Lease whose job is not listed is left alone. */
  ghost function ReleaseLeases(w: World, view: Jobs, leases: seq<string>): Flow
    decreases |leases|
  {
    if leases == [] then Next(w)
    else if IsFinished(view, leases[0]) then
      var w :- Call(w);
      ReleaseLeases(w.(leases := w.leases - {leases[0]}), view, leases[1..])
    else ReleaseLeases(w, view, leases[1..])
  }

  predicate NeedsLease(job: PatchJob, leases: seq<string>) {
    !job.Finished() && !job.deleting && job.node !in leases
  }

  /** Gives the unfinished jobs without a Lease theirs back. */
  ghost function RestoreLeases(groups: seq<Group>, w: World, jobs: seq<PatchJob>, leases: seq<string>): Flow
    decreases |jobs|
  {
    if jobs == [] then Next(w)
    else if NeedsLease(jobs[0], leases) then
      var w :- AddLease(w, jobs[0].node, GroupOfJob(groups, jobs[0]));
      RestoreLeases(groups, w, jobs[1..], leases)
    else RestoreLeases(groups, w, jobs[1..], leases)
  }

  ghost function SyncLeases(groups: seq<Group>, w: World, jobs: seq<PatchJob>, leases: seq<string>): Flow {
    var w :- Call(w);
    var w :- ReleaseLeases(w, ByNode(jobs), leases);
    RestoreLeases(groups, w, jobs, leases)
  }

  // ---------------------------------------------------------------- patchplan_controller.go

  ghost function Failures(groups: seq<Group>, view: Jobs): nat { |FailedIn(NamesOf(AllNodes(groups)), view)| }

  function NewFailures(s: PlanStatus, failed: int): int { Max(failed - s.failuresAcknowledged, 0) }

  ghost function StatusOf(groups: seq<Group>, view: Jobs, leases: seq<string>, g: Group): GroupStatus {
    GroupStatus(g.name, g.concurrency, |SlotHolders(groups, view, leases, g.name)|, |g.nodes|,
                CountsOf(NamesOf(g.nodes), view))
  }

  /** The status counters after a look at the jobs. */
  ghost function Summarized(cfg: Config, groups: seq<Group>, view: Jobs, leases: seq<string>): Progress {
    Progress(
      cfg.target.talosVersion,
      cfg.target.kubernetesVersion,
      |AllNodes(groups)|,
      CountsOf(NamesOf(AllNodes(groups)), view),
      seq(|groups|, i requires 0 <= i < |groups| => StatusOf(groups, view, leases, groups[i])))
  }

  /** The status is written only when it changes. */
  function SyncStatus(w: World, progress: Progress): Flow {
    var s := w.status.(
             progress := progress,
             failuresAcknowledged := Min(w.status.failuresAcknowledged, progress.counts.failed));
    if s == w.status then Next(w) else WriteStatus(w, s)
  }

  function EnsureCancelled(w: World): Flow {
    if !w.cancelled then Next(w)
    else if w.status.phase.Cancelled? then Stop(w)
    else
      var w :- WriteStatus(w, w.status.(phase := Cancelled, completionTime := Some(Stored(w.now))));
      Stop(w)
  }

  /** A resume acknowledges the counted failures if they would trigger the Pause policy again. */
  function EnsurePauseState(cfg: Config, w: World, failed: int): Flow {
    if w.paused then
      if w.status.phase.Paused? then Stop(w)
      else
        var w :- WriteStatus(w, w.status.(phase := Paused));
        Stop(w)
    else if w.status.phase.Paused? then
      var accept := cfg.policy.kind.Pause? && cfg.policy.Exceeded(NewFailures(w.status, failed));
      WriteStatus(w, w.status.(
                     phase := InProgress,
                     failuresAcknowledged := if accept then failed else w.status.failuresAcknowledged))
    else Next(w)
  }

  /** The preflight checks that look at the rollout alone. */
  ghost predicate RolloutChecks(cfg: Config, groups: seq<Group>) {
    && AllNodes(groups) != []
    && (cfg.target.kubernetesVersion != "" ==> ControlPlaneFirst(groups))
    && QuorumSafe(groups)
  }

  predicate PreflightKnown(w: World) {
    w.status.preflight == Some(Preflight(true, w.generation))
  }

  function BeginPreflight(w: World): Flow {
    if w.status.phase.Unset? || w.status.phase.PlanPending?
    then WriteStatus(w, w.status.(phase := Preflighting))
    else Next(w)
  }

  function RecordPreflight(w: World, passed: bool): Flow {
    var w :- WriteStatus(w, w.status.(
                            preflight := Some(Preflight(passed, w.generation)),
                            phase := if passed then PlanPending else PlanFailed));
    if passed then Next(w) else Stop(w)
  }

  /**
   * started: some job is listed; checked: the rollout passes the checks above; remote: the outcome of the others,
   * which are not even tried when the rollout has no node.
   */
  function EnsurePreflight(w: World, started: bool, anyNode: bool, checked: bool, remote: Option<bool>): Flow {
    if started || PreflightKnown(w) then Next(w)
    else
      var w :- BeginPreflight(w);
      if anyNode && remote.None? then Stop(w)
      else RecordPreflight(w, checked && remote == Some(true))
  }

  function KubeProxyImage(version: string): string { "registry.k8s.io/kube-proxy:" + version }

  predicate RolledOut(ds: DaemonSet) {
    ds.observedGeneration >= ds.generation && ds.updated == ds.desired && ds.ready == ds.desired
  }

  /** Next when kube-proxy is absent or fully rolled out at the target version. */
  function UpgradeKubeProxy(w: World, version: string): Flow {
    var w :- Call(w);
    match w.kubeProxy
    case None => Next(w)
    case Some(ds) =>
      if ds.images == [] then Stop(w)
      else if ds.images[0] != KubeProxyImage(version) then
        var w :- Call(w);
        Stop(w.(kubeProxy := Some(ds.(
                                  images := ds.images[0 := KubeProxyImage(version)],
                                  generation := ds.generation + 1))))
      else if RolledOut(ds) then Next(w) else Stop(w)
  }

  ghost predicate AllCompleted(nodes: seq<Node>, view: Jobs) { forall n <- nodes :: IsCompleted(view, n.name) }

  /** A Kubernetes upgrade whose control plane nodes, and there are some, have all completed. */
  ghost predicate KubeProxyDue(cfg: Config, groups: seq<Group>, view: Jobs) {
    cfg.target.kubernetesVersion != "" && ControlPlane(groups) != [] && AllCompleted(ControlPlane(groups), view)
  }

  function EnsureKubeProxy(w: World, due: bool, version: string): Flow {
    if !due || w.status.kubeProxyUpgraded then Next(w)
    else
      var w :- UpgradeKubeProxy(w, version);
      WriteStatus(w, w.status.(kubeProxyUpgraded := true))
  }

  /** Sets spec.paused, which counts as a new generation of the plan. */
  function SetPaused(w: World): Flow {
    var w :- Call(w);
    Next(w.(paused := true, generation := w.generation + 1))
  }

  function PauseOnFailures(w: World): Flow {
    var w :- if w.paused then Next(w) else SetPaused(w);
    WriteStatus(w, w.status.(phase := Paused))
  }

  function EnforceFailureBudget(cfg: Config, w: World, failed: int): Flow {
    if !cfg.policy.Exceeded(NewFailures(w.status, failed)) then Next(w)
    else if cfg.policy.kind.Pause? then
      var w :- PauseOnFailures(w);
      Stop(w)
    else if w.status.phase.PlanFailed? then Stop(w)
    else
      var w :- WriteStatus(w, w.status.(phase := PlanFailed, completionTime := Some(Stored(w.now))));
      Stop(w)
  }

  function CompletePlan(w: World, counts: JobCounts, total: nat): Flow {
    if counts.completed + counts.failed < total then Next(w)
    else if w.status.phase.PlanCompleted? then Stop(w)
    else
      var w :- WriteStatus(w, w.status.(phase := PlanCompleted, completionTime := Some(Stored(w.now))));
      Stop(w)
  }

  // ---------------------------------------------------------------- scheduler.go

  ghost predicate GroupFinished(g: Group, view: Jobs) { forall n <- g.nodes :: IsFinished(view, n.name) }

  /** The first group with a node that has no finished job, |groups| when there is none. */
  ghost function ActiveGroup(groups: seq<Group>, view: Jobs): (i: nat)
    ensures i <= |groups|
    ensures forall k :: 0 <= k < i ==> GroupFinished(groups[k], view)
    ensures i < |groups| ==> !GroupFinished(groups[i], view)
  {
    if groups == [] then 0
    else
      var i := ActiveGroup(groups[..|groups| - 1], view);
      if i == |groups| - 1 && GroupFinished(groups[i], view) then |groups| else i
  }

  /** The nodes without a job, in scheduling order. */
  ghost function PendingNodes(ns: seq<Node>, view: Jobs): (r: seq<Node>)
    ensures forall n :: n in r <==> n in ns && n.name !in view
  {
    if ns == [] then []
    else
      var init, last := ns[..|ns| - 1], ns[|ns| - 1];
      assert ns == init + [last];
      if last.name in view then PendingNodes(init, view) else PendingNodes(init, view) + [last]
  }

  /** delayBetweenNodes has passed since the last node was scheduled and since every job that finished. */
  ghost predicate DelayElapsed(cfg: Config, now: int, s: PlanStatus, view: Jobs) {
    && (s.lastNodeScheduledAt.Some? ==> s.lastNodeScheduledAt.value + cfg.delayBetweenNodes <= now)
    && (forall n <- view :: view[n].status.completionTime.Some? ==>
          view[n].status.completionTime.value + cfg.delayBetweenNodes <= now)
  }

  /** During a Kubernetes upgrade workers wait until every control plane node of the rollout has completed. */
  ghost predicate WorkersGated(cfg: Config, groups: seq<Group>, view: Jobs) {
    cfg.target.kubernetesVersion != "" && ControlPlane(groups) != [] && !AllCompleted(ControlPlane(groups), view)
  }

  function MarkInProgress(w: World): Flow {
    match w.status.phase
    case PlanPending | PlanFailed | PlanCompleted | Cancelled | Unset =>
      WriteStatus(w, w.status.(
                     phase := InProgress,
                     startTime := if w.status.startTime.None? then Some(Stored(w.now)) else w.status.startTime,
                     completionTime := None))
    case Preflighting | InProgress | Paused => Next(w)
  }

  function NewJob(cfg: Config, node: string, group: string): PatchJob {
    PatchJob(node, group, cfg.target, false, FRESH_STATUS)
  }

  /** A job that exists already, unseen in the list, is left as it is. */
  function CreatePatchJob(cfg: Config, w: World, node: string, group: string): Flow {
    var w :- Call(w);
    if node in w.jobs then Next(w)
    else
      var w :- AddLease(w.(jobs := w.jobs[node := NewJob(cfg, node, group)]), node, group);
      WriteStatus(w, w.status.(lastNodeScheduledAt := Some(Stored(w.now))))
  }

  function CreateJobs(cfg: Config, w: World, gated: bool, group: string, nodes: seq<Node>): Flow
    decreases |nodes|
  {
    if nodes == [] then Next(w)
    else if gated && !IsControlPlane(nodes[0]) then Stop(w)
    else
      var w :- CreatePatchJob(cfg, w, nodes[0].name, group);
      CreateJobs(cfg, w, gated, group, nodes[1..])
  }

  /** How many nodes the loop above serves to the end. */
  function ServedCount(cfg: Config, w: World, gated: bool, group: string, nodes: seq<Node>): nat
    decreases |nodes|
  {
    if nodes == [] || (gated && !IsControlPlane(nodes[0])) then 0
    else
      var f := CreatePatchJob(cfg, w, nodes[0].name, group);
      if f.Stop? then 0 else 1 + ServedCount(cfg, f.w, gated, group, nodes[1..])
  }

  function StartRound(cfg: Config, w: World, gated: bool, group: string, nodes: seq<Node>): Flow {
    var w :- MarkInProgress(w);
    CreateJobs(cfg, w, gated, group, nodes)
  }

  ghost function FreeSlots(groups: seq<Group>, view: Jobs, leases: seq<string>, g: Group): int {
    g.concurrency - |SlotHolders(groups, view, leases, g.name)|
  }

  ghost function ScheduleNodes(cfg: Config, groups: seq<Group>, w: World, view: Jobs, leases: seq<string>): Flow {
    var i := ActiveGroup(groups, view);
    if i == |groups| then Stop(w)
    else
      var pending := PendingNodes(groups[i].nodes, view);
      var free := FreeSlots(groups, view, leases, groups[i]);
      if pending == [] || free <= 0 || !DelayElapsed(cfg, w.now, w.status, view) then Stop(w)
      else
        StartRound(cfg, w, WorkersGated(cfg, groups, view), groups[i].name, pending[..Min(free, |pending|)])
  }

  // ---------------------------------------------------------------- Reconcile

  /** What a reconcile makes of the rollout and the jobs it listed. */
  datatype Seen = Seen(
    counts: JobCounts,
    total: nat,
    started: bool,
    checked: bool,
    kubeProxyDue: bool,
    remoteChecks: Option<bool>)

  ghost function Look(cfg: Config, groups: seq<Group>, view: Jobs, remoteChecks: Option<bool>): Seen {
    Seen(CountsOf(NamesOf(AllNodes(groups)), view), |AllNodes(groups)|,
         view != map[], RolloutChecks(cfg, groups), KubeProxyDue(cfg, groups, view), remoteChecks)
  }

  /** The user's switches, then the preflight. */
  function Admit(cfg: Config, w: World, seen: Seen): Flow {
    var w :- EnsureCancelled(w);
    var w :- EnsurePauseState(cfg, w, seen.counts.failed);
    EnsurePreflight(w, seen.started, seen.total > 0, seen.checked, seen.remoteChecks)
  }

  /** The reasons to end the plan, then the maintenance windows. */
  function Conclude(cfg: Config, w: World, seen: Seen): Flow {
    var w :- EnforceFailureBudget(cfg, w, seen.counts.failed);
    var w :- CompletePlan(w, seen.counts, seen.total);
    if IsInMaintenanceWindow(cfg.maintenance, w.now) then Next(w) else Stop(w)
  }

  function Proceed(cfg: Config, w: World, seen: Seen): Flow {
    var w :- EnsureKubeProxy(w, seen.kubeProxyDue, cfg.target.kubernetesVersion);
    Conclude(cfg, w, seen)
  }

  /** The part of a reconcile before anything is scheduled: Next means a round may start. */
  ghost function Prepare(cfg: Config, groups: seq<Group>, w: World, o: Observation): Flow {
    var view := ByNode(o.jobs);
    var w :- Call(w);
    var w :- SyncLeases(groups, w, o.jobs, o.leases);
    var w :- SyncStatus(w, Summarized(cfg, groups, view, o.leases));
    var seen := Look(cfg, groups, view, o.remoteChecks);
    var w :- Admit(cfg, w, seen);
    Proceed(cfg, w, seen)
  }

  ghost function ReconcileFlow(cfg: Config, w: World, o: Observation): Flow {
    var w :- Call(w);
    var w :- ApplyRetention(cfg, w, o.retentionJobs);
    var w :- Call(w);
    match Resolved(cfg.nodes, cfg.strategy)
    case None =>
      var w :- WriteStatus(w, w.status.(phase := PlanFailed, preflight := Some(Preflight(false, w.generation))));
      Stop(w)
    case Some(rollout) =>
      var w :- Prepare(cfg, rollout.groups, w, o);
      ScheduleNodes(cfg, rollout.groups, w, ByNode(o.jobs), o.leases)
  }

  ghost function Reconcile(cfg: Config, w: World, o: Observation): World {
    ReconcileFlow(cfg, w.(calls := o.calls), o).w
  }
}
