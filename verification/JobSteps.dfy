/** What one pass of the PatchJob reconciler does, phase by phase (controllers/patchjob_controller.go). */
module JobSteps {
  import opened Api
  import opened Drain

  const TRANSIENT_ERROR_DEADLINE: int := 5 * MINUTE
  const DEFAULT_DRAIN_TIMEOUT: int := 5 * MINUTE
  const DEFAULT_REBOOT_TIMEOUT: int := 10 * MINUTE
  const DEFAULT_KUBERNETES_TIMEOUT: int := 10 * MINUTE

  /** The parts of the plan a job reads; older(a, b): version b is older than version a. */
  datatype JobConfig = JobConfig(
    drainOptions: DrainOptions,
    drainTimeout: int,
    rebootTimeout: int,
    kubernetesTimeout: int,
    older: (string, string) -> bool)
  {
    function DrainTimeout(): (t: int)
      ensures t > 0
    {
      OrDefault(drainTimeout, DEFAULT_DRAIN_TIMEOUT)
    }

    function RebootTimeout(): (t: int)
      ensures t > 0
    {
      OrDefault(rebootTimeout, DEFAULT_REBOOT_TIMEOUT)
    }

    function KubernetesTimeout(): (t: int)
      ensures t > 0
    {
      OrDefault(kubernetesTimeout, DEFAULT_KUBERNETES_TIMEOUT)
    }
  }

  /** A pod of kube-system on the job's node: its component label and the image and readiness of its containers. */
  datatype StaticPod = StaticPod(component: Option<string>, containers: seq<(string, bool)>)

  datatype NodeInfo = NodeInfo(kubeletVersion: string, bootID: string, ready: bool, controlPlane: bool)

  /**
   * What becomes of an Upgrade call: the node does not take it on, it does but the call reports an error all the same,
   * or it does and the call says so.
   */
  datatype UpgradeReply = Declined | LostReply | Acknowledged

  /**
   * What one pass is told, at the instant now: which reads and calls succeed (None or false: the call fails), what
   * they return, and whether the status writes land. stampWrite is the write of a missing start time.
   */
  datatype JobObservation = JobObservation(
    now: int,
    jobRead: bool,
    plan: bool,
    talosConfig: bool,
    client: bool,
    node: Option<NodeInfo>,
    address: bool,
    version: Option<string>,
    schematic: Option<string>,
    staticPods: Option<seq<StaticPod>>,
    pods: Option<seq<Pod>>,
    evictions: string -> Answer,
    cordon: bool,
    uncordon: bool,
    upgrade: UpgradeReply,
    patchControlPlane: bool,
    patchKubelet: bool,
    stampWrite: bool,
    write: bool)

  /** upgrades counts the Upgrade calls the node took on; transientSince is the start of a run of errors. */
  datatype JobWorld = JobWorld(job: PatchJob, transientSince: Option<int>, cordon: Cordon, upgrades: nat)

  // ---------------------------------------------------------------- pure checks

  predicate ChecksSchematic(t: TargetSpec) { t.source == "factory" && t.schematicID != "" }

  /** Talos has to be upgraded: its version differs, or its schematic where the target asks for one. */
  predicate NeedsTalosUpgrade(t: TargetSpec, version: string, schematicID: string) {
    t.talosVersion != "" && (version != t.talosVersion || (ChecksSchematic(t) && schematicID != t.schematicID))
  }

  function FirstNonEmpty(a: string, b: string): string { if a != "" then a else b }

  /** Whether an installer image can be named, nodeSchematicID standing in for a schematic the target leaves open. */
  predicate InstallerKnown(t: TargetSpec, nodeSchematicID: string) {
    t.source in ["", "ghcr"] || (FirstNonEmpty(t.schematicID, nodeSchematicID) != "" && t.installer != "")
  }

  const COMPONENTS := ["kube-apiserver", "kube-controller-manager", "kube-scheduler"]

  function ComponentImage(component: string, version: string): string {
    "registry.k8s.io/" + component + ":" + version
  }

  /** The component has a ready container with the image of that version; an empty version accepts any image. */
  predicate Serves(p: StaticPod, component: string, version: string) {
    && p.component == Some(component)
    && exists c <- p.containers :: (version == "" || c.0 == ComponentImage(component, version)) && c.1
  }

  predicate StaticPodsReady(pods: seq<StaticPod>, version: string) {
    forall c <- COMPONENTS :: exists p <- pods :: Serves(p, c, version)
  }

  // ---------------------------------------------------------------- verdicts

  /**
   * How a phase handler ends: Wait leaves the status alone, Retry is an error that fails the job once errors have
   * persisted, Fail fails it now, Write stores a new status, Abort is a write error before anything was decided.
   */
  datatype Verdict = Wait | Retry(s: JobStatus) | Fail(s: JobStatus) | Write(s: JobStatus) | Abort

  /** The Talos client could be opened and the node and its address found. */
  predicate TalosOpens(o: JobObservation) { o.talosConfig && o.client && o.node.Some? && o.address }

  function TalosFailure(s: JobStatus, o: JobObservation): Verdict
    requires !TalosOpens(o)
  {
    if o.talosConfig && !o.client then Fail(s) else Retry(s)
  }

  /** The kubelet, or the static pods of a control plane node, do not run the wanted version yet. */
  predicate KubernetesLags(n: NodeInfo, staticPods: Option<seq<StaticPod>>, version: string) {
    && version != ""
    && (|| n.kubeletVersion != version
        || (n.controlPlane && !(staticPods.Some? && StaticPodsReady(staticPods.value, version))))
  }

  /** The way on for a node that runs these versions and needs these upgrades, unless one would be a downgrade. */
  function ChooseUpgrade(
    cfg: JobConfig, t: TargetSpec, s: JobStatus, version: string, kubelet: string, talos: bool, kubernetes: bool)
    : Verdict
  {
    var s1 := s.(currentTalosVersion := version, currentKubernetesVersion := kubelet);
    if talos && !t.allowTalosDowngrade && cfg.older(version, t.talosVersion) then Fail(s1)
    else if t.kubernetesVersion != "" && cfg.older(kubelet, t.kubernetesVersion) then Fail(s1)
    else
      Write(s1.(
            targetTalosVersion := FirstNonEmpty(t.talosVersion, version),
            targetKubernetesVersion := FirstNonEmpty(t.kubernetesVersion, kubelet),
            phase := if talos then Pending else if kubernetes then UpgradingKubernetes else Completed))
  }

  function InitJob(cfg: JobConfig, job: PatchJob, o: JobObservation): Verdict {
    var t := job.target;
    var s0 := job.status.(startTime := Some(Stored(o.now)));
    if !TalosOpens(o) then TalosFailure(s0, o)
    else if o.version.None? || (ChecksSchematic(t) && o.schematic.None?) then Retry(s0)
    else
      var n, version := o.node.value, o.version.value;
      if t.kubernetesVersion != "" && n.kubeletVersion == t.kubernetesVersion && n.controlPlane && o.staticPods.None?
      then Retry(s0)
      else
        var talos := NeedsTalosUpgrade(t, version, if ChecksSchematic(t) then o.schematic.value else "");
        var kubernetes := KubernetesLags(n, o.staticPods, t.kubernetesVersion);
        ChooseUpgrade(cfg, t, s0, version, n.kubeletVersion, talos, kubernetes)
  }

  /** The instant the drain began, this very pass if it had not. */
  function DrainStarted(s: JobStatus, now: int): JobStatus {
    if s.drainStartTime.None? then s.(drainStartTime := Some(Stored(now))) else s
  }

  function DrainElapsed(s: JobStatus, now: int): int {
    if s.drainStartTime.None? then 0 else now - s.drainStartTime.value
  }

  function StartDrain(cfg: JobConfig, s: JobStatus, o: JobObservation): Verdict {
    if !o.plan || !o.cordon then Retry(s)
    else
      var s1 := DrainStarted(s, o.now);
      match DrainOutcome(o.pods, cfg.drainOptions, o.evictions)
      case UnmanagedPods => Fail(s1)
      case ListFailed | EvictionFailed => Retry(s1)
      case Attempted(blocked) =>
        if !blocked then Write(s1.(phase := Draining))
        else if DrainElapsed(s, o.now) > cfg.DrainTimeout() then Fail(s1)
        else Write(s1)
  }

  function WaitForDrain(cfg: JobConfig, s: JobStatus, o: JobObservation): Verdict {
    if o.pods.None? then Retry(s)
    else if NodeDrained(o.pods.value) then Write(s.(phase := Upgrading))
    else if !o.plan then Retry(s)
    else if s.drainStartTime.Some? && o.now - s.drainStartTime.value > cfg.DrainTimeout() then Fail(s)
    else Wait
  }

  predicate AsksNodeSchematic(t: TargetSpec) { t.source == "factory" && t.schematicID == "" }

  /** The pass gets as far as the Upgrade call. */
  predicate UpgradeIssued(t: TargetSpec, o: JobObservation) {
    && TalosOpens(o) && (AsksNodeSchematic(t) ==> o.schematic.Some?)
    && InstallerKnown(t, if AsksNodeSchematic(t) then o.schematic.value else "")
  }

  /** The node takes the upgrade on, whether or not the call says so. */
  predicate UpgradeAccepted(t: TargetSpec, o: JobObservation) { UpgradeIssued(t, o) && !o.upgrade.Declined? }

  function StartUpgrade(job: PatchJob, o: JobObservation): Verdict {
    var s, t := job.status, job.target;
    if !TalosOpens(o) then TalosFailure(s, o)
    else if AsksNodeSchematic(t) && o.schematic.None? then Retry(s)
    else if !InstallerKnown(t, if AsksNodeSchematic(t) then o.schematic.value else "") then Fail(s)
    else if !o.upgrade.Acknowledged? then Retry(s)
    else
      Write(s.(phase := Rebooting, rebootStartTime := Some(Stored(o.now)), preUpgradeBootID := o.node.value.bootID))
  }

  /** The node is back: a new boot if the old one is known, Ready, and the static pods run on a control plane node. */
  predicate NodeHealthy(n: NodeInfo, bootID: string, staticPods: Option<seq<StaticPod>>) {
    && (bootID == "" || n.bootID != bootID) && n.ready
    && (n.controlPlane ==> staticPods.Some? && StaticPodsReady(staticPods.value, ""))
  }

  /** The health check needs the static pods and cannot list them. */
  predicate HealthUnknown(n: NodeInfo, bootID: string, staticPods: Option<seq<StaticPod>>) {
    (bootID == "" || n.bootID != bootID) && n.ready && n.controlPlane && staticPods.None?
  }

  predicate Rebooted(s: JobStatus, n: NodeInfo) { s.preUpgradeBootID != "" && n.bootID != s.preUpgradeBootID }

  function AwaitOrFail(timedOut: bool, s: JobStatus): Verdict { if timedOut then Fail(s) else Wait }

  predicate TimedOut(start: Option<int>, now: int, timeout: int) { start.Some? && timeout - (now - start.value) <= 0 }

  /** s is the status after a missing reboot start time was stamped. */
  function CheckReboot(cfg: JobConfig, t: TargetSpec, s: JobStatus, n: NodeInfo, o: JobObservation): Verdict {
    var timedOut := TimedOut(s.rebootStartTime, o.now, cfg.RebootTimeout());
    if o.version.None? then AwaitOrFail(timedOut, s)
    else if o.version.value != s.targetTalosVersion then AwaitOrFail(timedOut || Rebooted(s, n), s)
    else if HealthUnknown(n, s.preUpgradeBootID, o.staticPods) then Retry(s)
    else if !NodeHealthy(n, s.preUpgradeBootID, o.staticPods) then AwaitOrFail(timedOut, s)
    else
      var s1 := s.(currentTalosVersion := o.version.value);
      if !o.uncordon then Retry(s1)
      else
        Write(s1.(phase := if t.kubernetesVersion != "" && s.currentKubernetesVersion != t.kubernetesVersion
        then UpgradingKubernetes else Completed))
  }

  function StartKubernetesUpgrade(s: JobStatus, o: JobObservation): Verdict {
    if !TalosOpens(o) then TalosFailure(s, o)
    else if (o.node.value.controlPlane && !o.patchControlPlane) || !o.patchKubelet then Retry(s)
    else Write(s.(phase := ValidatingKubernetes, kubernetesUpgradeStartTime := Some(Stored(o.now))))
  }

  /** s is the status after a missing start time was stamped. */
  function CheckKubernetes(cfg: JobConfig, t: TargetSpec, s: JobStatus, o: JobObservation): Verdict {
    var timedOut := TimedOut(s.kubernetesUpgradeStartTime, o.now, cfg.KubernetesTimeout());
    if o.node.None? then Retry(s)
    else if o.node.value.kubeletVersion != t.kubernetesVersion then AwaitOrFail(timedOut, s)
    else if o.node.value.controlPlane && o.staticPods.None? then Retry(s)
    else if o.node.value.controlPlane && !StaticPodsReady(o.staticPods.value, t.kubernetesVersion)
    then AwaitOrFail(timedOut, s)
    else Write(s.(currentKubernetesVersion := t.kubernetesVersion, phase := Completed))
  }

  // ---------------------------------------------------------------- one pass

  /** The phases whose handler first stamps a start time it finds missing. */
  predicate LacksStamp(s: JobStatus) {
    || (s.phase.Rebooting? && s.rebootStartTime.None?)
    || (s.phase.ValidatingKubernetes? && s.kubernetesUpgradeStartTime.None?)
  }

  function Stamped(s: JobStatus, now: int): JobStatus {
    if !LacksStamp(s) then s
    else if s.phase.Rebooting? then s.(rebootStartTime := Some(Stored(now)))
    else s.(kubernetesUpgradeStartTime := Some(Stored(now)))
  }

  /** The handler gets as far as the stamp. */
  predicate ReachesStamp(s: JobStatus, o: JobObservation) { o.plan && (s.phase.Rebooting? ==> TalosOpens(o)) }

  /** The status the handler of the phase works on, once a missing start time has been stamped and written. */
  function Working(s: JobStatus, o: JobObservation): JobStatus {
    if ReachesStamp(s, o) && o.stampWrite then Stamped(s, o.now) else s
  }

  function Decide(cfg: JobConfig, job: PatchJob, o: JobObservation): Verdict {
    var s := job.status;
    match s.phase
    case New => InitJob(cfg, job, o)
    case Pending => StartDrain(cfg, s, o)
    case Draining => WaitForDrain(cfg, s, o)
    case Upgrading => StartUpgrade(job, o)
    case Rebooting =>
      if !TalosOpens(o) then TalosFailure(s, o)
      else if !o.plan then Retry(s)
      else if LacksStamp(s) && !o.stampWrite then Abort
      else CheckReboot(cfg, job.target, Working(s, o), o.node.value, o)
    case UpgradingKubernetes => StartKubernetesUpgrade(s, o)
    case ValidatingKubernetes =>
      if !o.plan then Retry(s)
      else if LacksStamp(s) && !o.stampWrite then Abort
      else CheckKubernetes(cfg, job.target, Working(s, o), o)
    case Completed | Failed => Wait
  }

  /** A job that fails before its node reboots gives the cordon back: nothing on the node has changed yet. */
  predicate ReleasesOnFailure(phase: JobPhase) { phase.Pending? || phase.Draining? || phase.Upgrading? }

  /** The cordon once the handler is done, before a failure is dealt with. */
  function CordonAfter(cfg: JobConfig, job: PatchJob, o: JobObservation, c: Cordon, v: Verdict): Cordon {
    match job.status.phase
    case New => if v.Write? && v.s.phase.Completed? && o.uncordon then Uncordoned(c) else c
    case Pending => if o.plan && o.cordon then Cordoned(c) else c
    case Rebooting => if v.Write? then Uncordoned(c) else c
    case _ => c
  }

  function UpgradesAfter(job: PatchJob, o: JobObservation, upgrades: nat): nat {
    if job.status.phase.Upgrading? && UpgradeAccepted(job.target, o) then upgrades + 1 else upgrades
  }

  /** A terminal status gets its completion time with the write. */
  function Completion(s: JobStatus, now: int): JobStatus {
    if s.phase.IsTerminal() && s.completionTime.None? then s.(completionTime := Some(Stored(now))) else s
  }

  /** A write that lands ends a run of errors; one that fails is an error, but not one that starts or ends a run. */
  function WriteJob(w: JobWorld, s: JobStatus, o: JobObservation): JobWorld {
    if o.write then w.(job := w.job.(status := Completion(s, o.now)), transientSince := None) else w
  }

  function FailJob(w: JobWorld, s: JobStatus, o: JobObservation): JobWorld {
    var c := if ReleasesOnFailure(w.job.status.phase) && o.uncordon then Uncordoned(w.cordon) else w.cordon;
    WriteJob(w.(cordon := c), s.(phase := Failed), o)
  }

  function RetryOrFail(w: JobWorld, s: JobStatus, o: JobObservation): JobWorld {
    var since := if w.transientSince.Some? then w.transientSince.value else o.now;
    var w1 := w.(transientSince := Some(since));
    if o.now - since > TRANSIENT_ERROR_DEADLINE then FailJob(w1, s, o) else w1
  }

  function Settle(w: JobWorld, v: Verdict, o: JobObservation): JobWorld {
    match v
    case Wait => w.(transientSince := None)
    case Retry(s) => RetryOrFail(w, s, o)
    case Fail(s) => FailJob(w, s, o)
    case Write(s) => WriteJob(w, s, o)
    case Abort => w
  }

  /** The world when the handler of the phase is done. */
  function Handled(cfg: JobConfig, w: JobWorld, o: JobObservation): JobWorld {
    JobWorld(
      w.job.(status := Working(w.job.status, o)),
      w.transientSince,
      CordonAfter(cfg, w.job, o, w.cordon, Decide(cfg, w.job, o)),
      UpgradesAfter(w.job, o, w.upgrades))
  }

  function JobReconcile(cfg: JobConfig, w: JobWorld, o: JobObservation): JobWorld {
    if !o.jobRead then w
    else if w.job.Finished() then w.(transientSince := None)
    else Settle(Handled(cfg, w, o), Decide(cfg, w.job, o), o)
  }
}
