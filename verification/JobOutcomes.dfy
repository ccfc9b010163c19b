/** When each phase of a job ends and how, told by what a pass finds and by the configured limits. */
module JobOutcomes {
  import opened Api
  import opened Drain
  import opened JobSteps

  /** A duration as configured, or so many minutes where none is. */
  function Limit(configured: int, minutes: nat): int {
    if configured > 0 then configured else minutes * 60 * 1_000_000_000
  }

  /** The calls before a handler that talks to the node succeed. */
  predicate SetUp(o: JobObservation) { o.talosConfig && o.client && o.node.Some? && o.address }

  /** What the pass stores lands. */
  predicate Stores(o: JobObservation) { o.jobRead && o.write }

  /** The pass leaves the job as it is, and no run of errors behind. */
  predicate Waits(w: JobWorld, w1: JobWorld) { w1 == w.(transientSince := None) }

  /** Some container of the component is ready, and of that version unless any will do. */
  predicate Runs(pods: seq<StaticPod>, component: string, version: string) {
    exists i, k ::
      && 0 <= i < |pods| && pods[i].component == Some(component) && 0 <= k < |pods[i].containers|
      && pods[i].containers[k].1
      && (version == "" || pods[i].containers[k].0 == "registry.k8s.io/" + component + ":" + version)
  }

  predicate ControlPlaneRuns(pods: seq<StaticPod>, version: string) {
    && Runs(pods, "kube-apiserver", version)
    && Runs(pods, "kube-controller-manager", version)
    && Runs(pods, "kube-scheduler", version)
  }

  lemma ServedIsRunning(pods: seq<StaticPod>, component: string, version: string)
    ensures (exists p <- pods :: Serves(p, component, version)) <==> Runs(pods, component, version)
  {
    if p :| p in pods && Serves(p, component, version) {
      var i :| 0 <= i < |pods| && pods[i] == p;
      var c :| c in p.containers && (version == "" || c.0 == ComponentImage(component, version)) && c.1;
      var k :| 0 <= k < |p.containers| && p.containers[k] == c;
      assert pods[i].containers[k].1;
    }
    if Runs(pods, component, version) {
      var i, k :|
        && 0 <= i < |pods| && pods[i].component == Some(component) && 0 <= k < |pods[i].containers|
        && pods[i].containers[k].1
        && (version == "" || pods[i].containers[k].0 == "registry.k8s.io/" + component + ":" + version);
      assert pods[i].containers[k] in pods[i].containers;
      assert Serves(pods[i], component, version);
    }
  }

  /** The static pods are ready exactly when API server, controller manager and scheduler all run. */
  lemma StaticPodsRun(pods: seq<StaticPod>, version: string)
    ensures StaticPodsReady(pods, version) <==> ControlPlaneRuns(pods, version)
  {
    forall c | c in COMPONENTS ensures (exists p <- pods :: Serves(p, c, version)) <==> Runs(pods, c, version) {
      ServedIsRunning(pods, c, version);
    }
    var components := COMPONENTS;
    assert components[0] == "kube-apiserver" && components[1] == "kube-controller-manager";
    assert components[2] == "kube-scheduler" && |components| == 3;
    assert components[0] in components && components[1] in components && components[2] in components;
  }

  // ---------------------------------------------------------------- the first look

  /** The node runs another Talos than the target asks for, in version or, where pinned, in schematic. */
  predicate WantsTalos(t: TargetSpec, o: JobObservation) {
    && t.talosVersion != ""
    && (|| o.version != Some(t.talosVersion)
        || (t.source == "factory" && t.schematicID != "" && o.schematic != Some(t.schematicID)))
  }

  /** Its kubelet does, or a control plane component of it. */
  predicate WantsKubernetes(t: TargetSpec, o: JobObservation) {
    && t.kubernetesVersion != "" && o.node.Some?
    && (|| o.node.value.kubeletVersion != t.kubernetesVersion
        || (o.node.value.controlPlane
            && !(o.staticPods.Some? && ControlPlaneRuns(o.staticPods.value, t.kubernetesVersion))))
  }

  /** The target is older than what the node runs, and must not be. */
  predicate Downgrades(cfg: JobConfig, t: TargetSpec, o: JobObservation) {
    || (WantsTalos(t, o) && !t.allowTalosDowngrade && o.version.Some? && cfg.older(o.version.value, t.talosVersion))
    || (t.kubernetesVersion != "" && o.node.Some? && cfg.older(o.node.value.kubeletVersion, t.kubernetesVersion))
  }

  /** Its kubelet is of the version a Kubernetes upgrade asks for. */
  predicate AtVersion(version: string, o: JobObservation) {
    version != "" && o.node.Some? && o.node.value.kubeletVersion == version
  }

  /** The pass can tell all it needs to know about the node. */
  predicate KnowsNode(t: TargetSpec, o: JobObservation) {
    && SetUp(o) && o.version.Some?
    && (t.source == "factory" && t.schematicID != "" ==> o.schematic.Some?)
    && (AtVersion(t.kubernetesVersion, o) && o.node.value.controlPlane ==> o.staticPods.Some?)
  }

  /**
   * The first look at a node decides: a downgrade fails the job, otherwise Talos comes first, then Kubernetes, and a
   * job with neither to do is done.
   */
  lemma FirstLook(cfg: JobConfig, w: JobWorld, w1: JobWorld, o: JobObservation)
    requires w1 == JobReconcile(cfg, w, o) && w.job.status.phase.New? && Stores(o) && KnowsNode(w.job.target, o)
    ensures
      var t, p := w.job.target, w1.job.status.phase;
      var talos, kubernetes, refused := WantsTalos(t, o), WantsKubernetes(t, o), Downgrades(cfg, t, o);
      && (p.Failed? <==> refused)
      && (p.Pending? <==> !refused && talos)
      && (p.UpgradingKubernetes? <==> !refused && !talos && kubernetes)
      && (p.Completed? <==> !refused && !talos && !kubernetes)
    ensures
      var t, s, v, k := w.job.target, w1.job.status, o.version.value, o.node.value.kubeletVersion;
      && s.currentTalosVersion == v && s.currentKubernetesVersion == k && s.startTime == Some(Stored(o.now))
      && (!s.phase.Failed? ==>
            && s.targetTalosVersion == (if t.talosVersion == "" then v else t.talosVersion)
            && s.targetKubernetesVersion == (if t.kubernetesVersion == "" then k else t.kubernetesVersion))
    ensures w1.cordon == if w1.job.status.phase.Completed? && o.uncordon && w.cordon.ours then Cordon(false, false)
                         else w.cordon
  {
    var v := Decide(cfg, w.job, o);
    FirstVerdict(cfg, w.job, o, v);
    VerdictLands(cfg, w, w1, o, v);
  }

  lemma FirstVerdict(cfg: JobConfig, job: PatchJob, o: JobObservation, v: Verdict)
    requires v == InitJob(cfg, job, o) && KnowsNode(job.target, o)
    ensures
      var t := job.target;
      var talos, kubernetes, refused := WantsTalos(t, o), WantsKubernetes(t, o), Downgrades(cfg, t, o);
      && (v.Fail? <==> refused) && (v.Write? <==> !refused)
      && (v.Write? ==>
            v.s.phase == if talos then Pending else if kubernetes then UpgradingKubernetes else Completed)
    ensures v.Fail? || v.Write? ==>
              && v.s.startTime == Some(Stored(o.now)) && v.s.currentTalosVersion == o.version.value
              && v.s.currentKubernetesVersion == o.node.value.kubeletVersion
    ensures v.Write? ==>
              var t := job.target;
              && v.s.targetTalosVersion == (if t.talosVersion == "" then o.version.value else t.talosVersion)
              && v.s.targetKubernetesVersion ==
                 (if t.kubernetesVersion == "" then o.node.value.kubeletVersion else t.kubernetesVersion)
  {
    if o.staticPods.Some? {
      StaticPodsRun(o.staticPods.value, job.target.kubernetesVersion);
    }
  }

  lemma VerdictLands(cfg: JobConfig, w: JobWorld, w1: JobWorld, o: JobObservation, v: Verdict)
    requires w1 == JobReconcile(cfg, w, o) && w.job.status.phase.New? && Stores(o) && v == Decide(cfg, w.job, o)
    ensures v.Fail? ==> w1.job.status == Completion(v.s.(phase := Failed), o.now) && w1.cordon == w.cordon
    ensures v.Write? ==> w1.job.status == Completion(v.s, o.now)
    ensures v.Write? ==>
              w1.cordon ==
              if v.s.phase.Completed? && o.uncordon && w.cordon.ours then Cordon(false, false) else w.cordon
  {
  }

  /** A job that has completed or failed is left alone, with its node, and stays so. */
  lemma FinishedStays(cfg: JobConfig, w: JobWorld, w1: JobWorld, o: JobObservation)
    requires w1 == JobReconcile(cfg, w, o) && (w.job.status.phase.Completed? || w.job.status.phase.Failed?)
    ensures w1 == w.(transientSince := if o.jobRead then None else w.transientSince)
  {
  }

  // ---------------------------------------------------------------- an error on the way to the node

  predicate TalksToNode(p: JobPhase) { p.New? || p.Upgrading? || p.Rebooting? || p.UpgradingKubernetes? }

  /** Without a Talos client a job fails at once; anything else that keeps it from its node is tried again. */
  lemma SetupFailure(cfg: JobConfig, w: JobWorld, w1: JobWorld, o: JobObservation)
    requires w1 == JobReconcile(cfg, w, o) && TalksToNode(w.job.status.phase) && Stores(o) && !SetUp(o)
    ensures o.talosConfig && !o.client ==> w1.job.status.phase.Failed?
    ensures !(o.talosConfig && !o.client) && w.transientSince.None? ==> w1 == w.(transientSince := Some(o.now))
  {
  }

  // ---------------------------------------------------------------- drain

  /** A workload pod: running, of no DaemonSet, and no static pod. */
  predicate IsWorkload(p: Pod) {
    !p.phase.Succeeded? && !p.phase.PodFailed? && !p.mirror && "DaemonSet" !in p.ownerKinds
  }

  predicate LosesBarePod(pods: seq<Pod>) {
    exists i :: 0 <= i < |pods| && IsWorkload(pods[i]) && !pods[i].terminating && !pods[i].controlled
  }

  /** The eviction of a workload pod breaks down, or its deletion past a budget that is not respected. */
  predicate EvictionBreaks(pods: seq<Pod>, opts: DrainOptions, answer: string -> Answer) {
    exists i ::
      && 0 <= i < |pods| && IsWorkload(pods[i]) && !pods[i].terminating
      && (|| answer(pods[i].name) == Refused
          || (!opts.respectPDBs && answer(pods[i].name) == TooManyRequests(false)))
  }

  /** A budget that is respected keeps a workload pod on the node. */
  predicate BudgetBlocks(pods: seq<Pod>, opts: DrainOptions, answer: string -> Answer) {
    exists i ::
      && 0 <= i < |pods| && IsWorkload(pods[i]) && !pods[i].terminating
      && opts.respectPDBs && answer(pods[i].name).TooManyRequests?
  }

  lemma DrainEnds(pods: seq<Pod>, opts: DrainOptions, answer: string -> Answer)
    ensures
      var r := DrainOutcome(Some(pods), opts, answer);
      var refused, broken := !opts.evictUnmanaged && LosesBarePod(pods), EvictionBreaks(pods, opts, answer);
      && (r.UnmanagedPods? <==> refused)
      && (r.EvictionFailed? <==> !refused && broken)
      && (r.Attempted? <==> !refused && !broken)
      && (r.Attempted? ==> (r.blocked <==> BudgetBlocks(pods, opts, answer)))
      && !r.ListFailed?
  {
    var list := Evictable(pods);
    forall i | 0 <= i < |pods| && IsWorkload(pods[i]) && !pods[i].terminating ensures pods[i] in list {
      assert pods[i] in pods;
    }
    if p :| p in list && Breaks(answer(p.name), opts) {
      var i :| 0 <= i < |pods| && pods[i] == p;
      assert EvictionBreaks(pods, opts, answer);
    }
    if p :| p in list && PDBBlocks(answer(p.name), opts) {
      var i :| 0 <= i < |pods| && pods[i] == p;
      assert BudgetBlocks(pods, opts, answer);
    }
    if p :| p in pods && IsBare(p) {
      var i :| 0 <= i < |pods| && pods[i] == p;
      assert LosesBarePod(pods);
    }
  }

  /**
   * A drain attempt moves the job on unless a budget blocks it; blocked, it is tried again until the drain timeout has
   * passed since the first attempt. A bare pod that would be lost fails the job at once.
   */
  lemma DrainSettles(cfg: JobConfig, w: JobWorld, w1: JobWorld, o: JobObservation)
    requires w1 == JobReconcile(cfg, w, o) && w.job.status.phase.Pending? && Stores(o)
    requires o.plan && o.cordon && o.pods.Some?
    requires !EvictionBreaks(o.pods.value, cfg.drainOptions, o.evictions)
    ensures
      var s, s1, start := w.job.status, w1.job.status, w.job.status.drainStartTime;
      var refused := !cfg.drainOptions.evictUnmanaged && LosesBarePod(o.pods.value);
      var blocked := BudgetBlocks(o.pods.value, cfg.drainOptions, o.evictions);
      var late := start.Some? && o.now - start.value > Limit(cfg.drainTimeout, 5);
      && (s1.phase.Failed? <==> refused || (blocked && late))
      && (s1.phase.Draining? <==> !refused && !blocked)
      && (s1.phase.Pending? <==> !refused && blocked && !late)
      && s1.drainStartTime == (if start.Some? then start else Some(Stored(o.now)))
      && w1.cordon == (if s1.phase.Failed? && o.uncordon then Uncordoned(Cordoned(w.cordon)) else Cordoned(w.cordon))
  {
    DrainEnds(o.pods.value, cfg.drainOptions, o.evictions);
  }

  /** A job waits in Draining for the last workload pod, terminating ones included, until the drain timeout. */
  lemma DrainWaits(cfg: JobConfig, w: JobWorld, w1: JobWorld, o: JobObservation)
    requires w1 == JobReconcile(cfg, w, o) && w.job.status.phase.Draining? && Stores(o)
    requires o.plan && o.pods.Some?
    ensures
      var start := w.job.status.drainStartTime;
      var drained := forall i :: 0 <= i < |o.pods.value| ==> !IsWorkload(o.pods.value[i]);
      var late := start.Some? && o.now - start.value > Limit(cfg.drainTimeout, 5);
      && (w1.job.status.phase.Upgrading? <==> drained)
      && (w1.job.status.phase.Failed? <==> !drained && late)
      && (!drained && !late ==> Waits(w, w1))
      && (drained ==> w1.job.status == w.job.status.(phase := Upgrading) && w1.cordon == w.cordon)
  {
    WorkloadBlocks(o.pods.value);
  }

  lemma WorkloadBlocks(pods: seq<Pod>)
    ensures NodeDrained(pods) <==> forall i :: 0 <= i < |pods| ==> !IsWorkload(pods[i])
  {
    forall i | 0 <= i < |pods| && IsWorkload(pods[i]) ensures BlocksDrain(pods[i]) && pods[i] in pods {
    }
  }

  // ---------------------------------------------------------------- upgrade and reboot

  /** The installer of a factory target needs its own name and a schematic, the target's or else the node's. */
  predicate InstallerNamed(t: TargetSpec, o: JobObservation) {
    || t.source == "" || t.source == "ghcr"
    || (&& t.installer != ""
        && (|| t.schematicID != ""
            || (t.source == "factory" && o.schematic.Some? && o.schematic.value != "")))
  }

  /** An upgrade without an installer image fails the job; otherwise it goes on exactly when it is acknowledged. */
  lemma UpgradeSettles(cfg: JobConfig, w: JobWorld, w1: JobWorld, o: JobObservation)
    requires w1 == JobReconcile(cfg, w, o) && w.job.status.phase.Upgrading? && Stores(o) && SetUp(o)
    requires w.job.target.source == "factory" && w.job.target.schematicID == "" ==> o.schematic.Some?
    ensures
      var s, named := w1.job.status, InstallerNamed(w.job.target, o);
      && (!named ==> s.phase.Failed?)
      && (s.phase.Rebooting? <==> named && o.upgrade.Acknowledged?)
      && (s.phase.Rebooting? ==>
            && s == w.job.status.(phase := Rebooting, rebootStartTime := Some(Stored(o.now)),
                                  preUpgradeBootID := o.node.value.bootID)
            && w1.cordon == w.cordon)
      && w1.upgrades == w.upgrades + (if named && !o.upgrade.Declined? then 1 else 0)
      && (named && !o.upgrade.Acknowledged? && w.transientSince.None? ==> w1.job == w.job)
  {
  }

  /** The node runs the version it was upgraded to, from a new boot, Ready, and with its control plane back. */
  predicate IsBack(s: JobStatus, o: JobObservation) {
    && o.version == Some(s.targetTalosVersion) && o.node.Some?
    && (s.preUpgradeBootID == "" || o.node.value.bootID != s.preUpgradeBootID) && o.node.value.ready
    && (o.node.value.controlPlane ==> o.staticPods.Some? && ControlPlaneRuns(o.staticPods.value, ""))
  }

  /** It came up from a new boot with another version. */
  predicate RolledBack(s: JobStatus, o: JobObservation) {
    && o.version.Some? && o.version.value != s.targetTalosVersion && o.node.Some?
    && s.preUpgradeBootID != "" && o.node.value.bootID != s.preUpgradeBootID
  }

  /** Whether the control plane is back can be told where it matters. */
  predicate HealthKnown(s: JobStatus, o: JobObservation) {
    (&& o.version == Some(s.targetTalosVersion) && o.node.Some? && o.node.value.ready && o.node.value.controlPlane
     && (s.preUpgradeBootID == "" || o.node.value.bootID != s.preUpgradeBootID)) ==> o.staticPods.Some?
  }

  /** A rebooting job waits for its node to be back, until that has rolled back or the reboot timeout has passed. */
  lemma RebootSettles(cfg: JobConfig, w: JobWorld, w1: JobWorld, o: JobObservation)
    requires w1 == JobReconcile(cfg, w, o) && w.job.status.phase.Rebooting? && Stores(o) && SetUp(o) && o.plan
    requires w.job.status.rebootStartTime.Some? && HealthKnown(w.job.status, o) && o.uncordon
    ensures
      var s, t := w.job.status, w.job.target;
      var late := o.now - s.rebootStartTime.value >= Limit(cfg.rebootTimeout, 10);
      var kubernetes := t.kubernetesVersion != "" && s.currentKubernetesVersion != t.kubernetesVersion;
      && (w1.job.status.phase.Failed? <==> !IsBack(s, o) && (RolledBack(s, o) || late))
      && (w1.job.status.phase.UpgradingKubernetes? <==> IsBack(s, o) && kubernetes)
      && (w1.job.status.phase.Completed? <==> IsBack(s, o) && !kubernetes)
      && (!IsBack(s, o) && !RolledBack(s, o) && !late ==> Waits(w, w1))
      && (IsBack(s, o) ==> w1.job.status.currentTalosVersion == s.targetTalosVersion)
      && w1.cordon == (if IsBack(s, o) && w.cordon.ours then Cordon(false, false) else w.cordon)
  {
    RebootVerdict(cfg, w.job, o, Decide(cfg, w.job, o));
  }

  lemma RebootVerdict(cfg: JobConfig, job: PatchJob, o: JobObservation, v: Verdict)
    requires v == Decide(cfg, job, o) && job.status.phase.Rebooting? && SetUp(o) && o.plan
    requires job.status.rebootStartTime.Some? && HealthKnown(job.status, o) && o.uncordon
    ensures
      var s, t := job.status, job.target;
      var late := o.now - s.rebootStartTime.value >= Limit(cfg.rebootTimeout, 10);
      && (v.Fail? <==> !IsBack(s, o) && (RolledBack(s, o) || late))
      && (v.Wait? <==> !IsBack(s, o) && !RolledBack(s, o) && !late)
      && (v.Write? <==> IsBack(s, o))
      && (v.Fail? ==> v.s == s)
      && (v.Write? ==>
            v.s == s.(currentTalosVersion := s.targetTalosVersion,
                      phase := if t.kubernetesVersion != "" && s.currentKubernetesVersion != t.kubernetesVersion
                               then UpgradingKubernetes else Completed))
  {
    if o.staticPods.Some? {
      StaticPodsRun(o.staticPods.value, "");
    }
  }

  // ---------------------------------------------------------------- Kubernetes

  /** Kubernetes is patched on the control plane, if the node is part of it, and in the kubelet, or tried again. */
  lemma KubernetesStarts(cfg: JobConfig, w: JobWorld, w1: JobWorld, o: JobObservation)
    requires w1 == JobReconcile(cfg, w, o) && w.job.status.phase.UpgradingKubernetes? && Stores(o) && SetUp(o)
    ensures
      var patched := (o.node.value.controlPlane ==> o.patchControlPlane) && o.patchKubelet;
      && (w1.job.status.phase.ValidatingKubernetes? <==> patched)
      && (patched ==> w1.job.status.kubernetesUpgradeStartTime == Some(Stored(o.now)))
      && (!patched && w.transientSince.None? ==> w1.job == w.job)
      && w1.cordon == w.cordon
  {
  }

  /** A job waits for kubelet and control plane to run the target, until the Kubernetes timeout. */
  lemma KubernetesSettles(cfg: JobConfig, w: JobWorld, w1: JobWorld, o: JobObservation)
    requires w1 == JobReconcile(cfg, w, o) && w.job.status.phase.ValidatingKubernetes? && Stores(o) && o.plan
    requires w.job.status.kubernetesUpgradeStartTime.Some? && o.node.Some?
    requires o.node.value.kubeletVersion == w.job.target.kubernetesVersion && o.node.value.controlPlane ==>
               o.staticPods.Some?
    ensures
      var s, n, v := w.job.status, o.node.value, w.job.target.kubernetesVersion;
      var there := n.kubeletVersion == v && (n.controlPlane ==> ControlPlaneRuns(o.staticPods.value, v));
      var late := o.now - s.kubernetesUpgradeStartTime.value >= Limit(cfg.kubernetesTimeout, 10);
      && (w1.job.status.phase.Completed? <==> there)
      && (w1.job.status.phase.Failed? <==> !there && late)
      && (!there && !late ==> Waits(w, w1))
      && (there ==> w1.job.status.currentKubernetesVersion == v)
      && w1.cordon == w.cordon
  {
    if o.staticPods.Some? {
      StaticPodsRun(o.staticPods.value, w.job.target.kubernetesVersion);
    }
  }

  // ---------------------------------------------------------------- what cannot be read is tried again

  /** A read or a call that the phase cannot do without has failed. */
  predicate IsBlind(w: JobWorld, o: JobObservation) {
    var s, t := w.job.status, w.job.target;
    match s.phase
    case New =>
      SetUp(o)
      && (|| o.version.None? || (t.source == "factory" && t.schematicID != "" && o.schematic.None?)
          || (AtVersion(t.kubernetesVersion, o) && o.node.value.controlPlane && o.staticPods.None?))
    case Pending => !o.plan || !o.cordon || o.pods.None?
    case Draining => o.pods.None? || (!o.plan && exists i :: 0 <= i < |o.pods.value| && IsWorkload(o.pods.value[i]))
    case Upgrading => SetUp(o) && t.source == "factory" && t.schematicID == "" && o.schematic.None?
    case Rebooting =>
      SetUp(o)
      && (|| !o.plan
          || (s.rebootStartTime.Some? && (!HealthKnown(s, o) || (IsBack(s, o) && !o.uncordon))))
    case UpgradingKubernetes => SetUp(o) && ((o.node.value.controlPlane && !o.patchControlPlane) || !o.patchKubelet)
    case ValidatingKubernetes =>
      !o.plan
      || (s.kubernetesUpgradeStartTime.Some?
          && (o.node.None?
              || (o.node.value.kubeletVersion == t.kubernetesVersion && o.node.value.controlPlane
                  && o.staticPods.None?)))
    case Completed | Failed => false
  }

  /** Then the job stays as it is and the error is remembered: the first one opens the time such errors may last. */
  lemma BlindPassRetries(cfg: JobConfig, w: JobWorld, w1: JobWorld, o: JobObservation)
    requires w1 == JobReconcile(cfg, w, o) && o.jobRead && IsBlind(w, o) && w.transientSince.None?
    ensures w1.job == w.job && w1.transientSince == Some(o.now)
    ensures w1.cordon == if w.job.status.phase.Pending? && o.plan && o.cordon then Cordoned(w.cordon) else w.cordon
  {
    if o.pods.Some? {
      WorkloadBlocks(o.pods.value);
    }
    if o.staticPods.Some? {
      StaticPodsRun(o.staticPods.value, "");
    }
  }

  // ---------------------------------------------------------------- jobs without a start time

  /** The job with its wait for the reboot, or for Kubernetes, begun at that instant. */
  function Begun(w: JobWorld, at: int): JobWorld {
    var s := w.job.status;
    if s.phase.Rebooting? then w.(job := w.job.(status := s.(rebootStartTime := Some(at))))
    else w.(job := w.job.(status := s.(kubernetesUpgradeStartTime := Some(at))))
  }

  /** A waiting job whose start was never recorded begins its timeout now, if that can be written, and waits on. */
  lemma MissingStartBeginsNow(cfg: JobConfig, w: JobWorld, w1: JobWorld, o: JobObservation)
    requires w1 == JobReconcile(cfg, w, o) && o.jobRead && o.plan
    requires || (w.job.status.phase.Rebooting? && w.job.status.rebootStartTime.None? && SetUp(o))
             || (w.job.status.phase.ValidatingKubernetes? && w.job.status.kubernetesUpgradeStartTime.None?)
    ensures w1 == if o.stampWrite then JobReconcile(cfg, Begun(w, Stored(o.now)), o) else w
  {
  }
}
