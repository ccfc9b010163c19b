/** The resource types of the operator: nodes, PatchJobs and the parts of a PatchPlan that decide scheduling. */
module Api {

  datatype Option<+T> = None | Some(value: T)

  function Max(a: int, b: int): int { if a < b then b else a }

  function Min(a: int, b: int): int { if a < b then a else b }

  lemma SubsetSize<T>(a: set<T>, b: set<T>)
    requires a <= b
    ensures |a| <= |b|
  {
    assert b == a + (b - a);
  }

  /** Instants and durations are whole nanoseconds, as in Go's time package. */
  const SECOND: int := 1_000_000_000
  const MINUTE: int := 60 * SECOND
  const HOUR: int := 60 * MINUTE
  const DAY: int := 24 * HOUR

  /** What is read back after an instant went through a status field, which keeps whole seconds only. */
  function Stored(t: int): (r: int)
    ensures r <= t < r + SECOND
    ensures t % SECOND == 0 ==> r == t
  {
    t - t % SECOND
  }

  /** Go code writes `if d <= 0 { d = default }` for an unset duration. */
  function OrDefault(d: int, default: int): int { if d <= 0 then default else d }

  // ---------------------------------------------------------------- nodes

  datatype Node = Node(name: string, labels: map<string, string>)

  const CONTROL_PLANE_LABEL := "node-role.kubernetes.io/control-plane"

  predicate IsControlPlane(n: Node) { CONTROL_PLANE_LABEL in n.labels }

  function NamesOf(nodes: seq<Node>): set<string> { set n | n in nodes :: n.name }

  ghost predicate UniquelyNamed(nodes: seq<Node>) {
    forall i, j :: 0 <= i < j < |nodes| ==> nodes[i].name != nodes[j].name
  }

  // ---------------------------------------------------------------- PatchJobs

  datatype TargetSpec = TargetSpec(
    talosVersion: string,
    kubernetesVersion: string,
    allowTalosDowngrade: bool,
    source: string,
    installer: string,
    schematicID: string)

  /** New is the empty phase of a PatchJob nobody has reconciled yet. */
  datatype JobPhase =
    | New | Pending | Draining | Upgrading | Rebooting
    | UpgradingKubernetes | ValidatingKubernetes | Completed | Failed
  {
    predicate IsTerminal() { Completed? || Failed? }
  }

  datatype JobStatus = JobStatus(
    phase: JobPhase,
    startTime: Option<int>,
    completionTime: Option<int>,
    drainStartTime: Option<int>,
    rebootStartTime: Option<int>,
    kubernetesUpgradeStartTime: Option<int>,
    preUpgradeBootID: string,
    currentTalosVersion: string,
    targetTalosVersion: string,
    currentKubernetesVersion: string,
    targetKubernetesVersion: string)

  const FRESH_STATUS := JobStatus(New, None, None, None, None, None, "", "", "", "", "")

  datatype PatchJob = PatchJob(
    node: string,
    group: string,
    target: TargetSpec,
    deleting: bool,
    status: JobStatus)
  {
    predicate Finished() { status.phase.IsTerminal() }
  }

  // ---------------------------------------------------------------- PatchPlans

  datatype PolicyType = Halt | Pause

  datatype FailurePolicy = FailurePolicy(kind: PolicyType, maxFailures: int) {
    /** maxFailures 0 is treated as 1. */
    function Threshold(): (t: int)
      ensures t >= 1 && t >= maxFailures && (t == 1 || t == maxFailures)
    {
      Max(maxFailures, 1)
    }

    predicate Exceeded(newFailures: int) { newFailures >= Threshold() }
  }

  datatype PlanPhase =
    | Unset | PlanPending | Preflighting | InProgress | Paused | Cancelled | PlanCompleted | PlanFailed

  datatype JobCounts = JobCounts(completed: nat, failed: nat, running: nat, pending: nat)

  datatype GroupStatus = GroupStatus(
    name: string,
    concurrency: int,
    active: int,
    total: nat,
    counts: JobCounts)

  /** Outcome of the last preflight run and the plan generation it looked at. */
  datatype Preflight = Preflight(passed: bool, generation: nat)

  /** The part of a plan's status that only reports: derived from the jobs on every reconcile, never read back. */
  datatype Progress = Progress(
    targetTalosVersion: string,
    targetKubernetesVersion: string,
    totalNodes: nat,
    counts: JobCounts,
    groups: seq<GroupStatus>)

  datatype PlanStatus = PlanStatus(
    phase: PlanPhase,
    progress: Progress,
    kubeProxyUpgraded: bool,
    failuresAcknowledged: int,
    historyPurged: bool,
    lastNodeScheduledAt: Option<int>,
    startTime: Option<int>,
    completionTime: Option<int>,
    preflight: Option<Preflight>)

  const FRESH_PLAN_STATUS := PlanStatus(
    Unset, Progress("", "", 0, JobCounts(0, 0, 0, 0), []), false, 0, false, None, None, None, None)
}
