/** Runs in which a job does what one would rather it did not. */
module JobWitness {
  import opened Api
  import opened Drain
  import opened JobSteps
  import opened JobRuns
  import opened JobEvidence

  /** The static pods of a control plane node, ready, all from one version. */
  function PodsAt(version: string): seq<StaticPod> {
    seq(3, i requires 0 <= i < 3 => StaticPod(Some(COMPONENTS[i]), [(ComponentImage(COMPONENTS[i], version), true)]))
  }

  const OLD := NodeInfo("v1.32.4", "a", true, true)

  /** A pass in which every call succeeds, on a drained control plane node that runs Talos v1.11.4. */
  function Calm(now: int): JobObservation {
    JobObservation(
      now, true, true, true, true, Some(OLD), true, Some("v1.11.4"), Some(""), Some(PodsAt("v1.31.0")), Some([]),
      _ => Accepted, true, true, Acknowledged, true, true, true, true)
  }

  const TALOS_ONLY := TargetSpec("v1.11.5", "", true, "", "", "")
  const TALOS_AND_KUBERNETES := TargetSpec("v1.11.5", "v1.32.4", true, "", "", "")
  const PINNED := TargetSpec("v1.11.5", "", true, "factory", "factory.talos.dev", "pinned")

  const FREE := Cordon(false, false)
  const HELD := Cordon(true, true)

  /** A job in the given phase whose drain, if it began, began at instant 0. */
  function At(t: TargetSpec, phase: JobPhase, drainStart: Option<int>, cordon: Cordon, upgrades: nat): JobWorld {
    var s := JobStatus(
               phase, Some(0), None, drainStart, None, None, "", "v1.11.4", "v1.11.5", "v1.32.4", "v1.32.4");
    JobWorld(PatchJob("node", "controlPlane", t, false, s), None, cordon, upgrades)
  }

  function Fresh(t: TargetSpec): JobWorld {
    JobWorld(PatchJob("node", "controlPlane", t, false, FRESH_STATUS), None, FREE, 0)
  }

  /** A relation between equal versions is all that could keep the job from starting. */
  predicate Suits(cfg: JobConfig, t: TargetSpec) {
    t == TALOS_ONLY || t == PINNED || (t == TALOS_AND_KUBERNETES && !cfg.older("v1.32.4", "v1.32.4"))
  }

  lemma CalmDrained(cfg: JobConfig, t: TargetSpec, cordon: Cordon, now: int)
    ensures JobReconcile(cfg, At(t, Draining, Some(0), cordon, 0), Calm(now)) == At(t, Upgrading, Some(0), cordon, 0)
  {
  }

  lemma Extend(cfg: JobConfig, ws: seq<JobWorld>, os: seq<JobObservation>, w: JobWorld, o: JobObservation)
    requires IsJobRun(cfg, ws, os) && w == JobReconcile(cfg, ws[|os|], o)
    ensures IsJobRun(cfg, ws + [w], os + [o])
  {
    forall i: nat | i < |os + [o]| ensures PassAt(cfg, ws + [w], os + [o], i) {
      assert i < |os| ==> PassAt(cfg, ws, os, i);
    }
  }

  lemma ToDraining(cfg: JobConfig, t: TargetSpec) returns (ws: seq<JobWorld>, os: seq<JobObservation>)
    requires Suits(cfg, t)
    ensures IsJobRun(cfg, ws, os) && |os| == 2
    ensures ws[2] == At(t, Draining, Some(0), HELD, 0) && ws[0] == Fresh(t)
    ensures os == [Calm(0), Calm(0)]
  {
    ws, os := [Fresh(t)], [];
    assert IsJobRun(cfg, ws, os);
    Extend(cfg, ws, os, At(t, Pending, None, FREE, 0), Calm(0));
    ws, os := ws + [At(t, Pending, None, FREE, 0)], os + [Calm(0)];
    Extend(cfg, ws, os, At(t, Draining, Some(0), HELD, 0), Calm(0));
    ws, os := ws + [At(t, Draining, Some(0), HELD, 0)], os + [Calm(0)];
  }

  lemma ToUpgrading(cfg: JobConfig, t: TargetSpec) returns (ws: seq<JobWorld>, os: seq<JobObservation>)
    requires Suits(cfg, t)
    ensures IsJobRun(cfg, ws, os) && |os| == 3
    ensures ws[3] == At(t, Upgrading, Some(0), HELD, 0) && ws[0] == Fresh(t)
    ensures os == [Calm(0), Calm(0), Calm(0)]
  {
    ws, os := ToDraining(cfg, t);
    CalmDrained(cfg, t, HELD, 0);
    Extend(cfg, ws, os, At(t, Upgrading, Some(0), HELD, 0), Calm(0));
    ws, os := ws + [At(t, Upgrading, Some(0), HELD, 0)], os + [Calm(0)];
  }

  /** One more pass at the end of a run. */
  lemma Then(cfg: JobConfig, ws: seq<JobWorld>, os: seq<JobObservation>, o: JobObservation)
    returns (ws1: seq<JobWorld>, os1: seq<JobObservation>)
    requires IsJobRun(cfg, ws, os)
    ensures os1 == os + [o] && |ws1| == |ws| + 1 && IsJobRun(cfg, ws1, os1)
    ensures ws1[..|ws|] == ws && ws1[|ws|] == JobReconcile(cfg, ws[|os|], o)
  {
    Extend(cfg, ws, os, JobReconcile(cfg, ws[|os|], o), o);
    ws1, os1 := ws + [JobReconcile(cfg, ws[|os|], o)], os + [o];
  }

  // ---------------------------------------------------------------- a release nobody knows of

  /** A pass in which a pod is still on the node and the status cannot be written. */
  function Stuck(now: int): JobObservation {
    Calm(now).(pods := Some([Pod("default/stuck", Active, [], true, false, true)]), write := false)
  }

  lemma StuckGivesBack(cfg: JobConfig, t: TargetSpec, now: int)
    requires now > cfg.DrainTimeout()
    ensures JobReconcile(cfg, At(t, Draining, Some(0), HELD, 0), Stuck(now)) == At(t, Draining, Some(0), FREE, 0)
  {
    var pods := Stuck(now).pods.value;
    assert BlocksDrain(pods[0]);
  }

  /**
   * A run that upgrades a schedulable node, whatever the plan: the drain times out and gives the node back, the failure
   * cannot be written, and the next pass finds the node drained.
   */
  lemma LostReleaseUpgradesSchedulableNode(cfg: JobConfig) returns (ws: seq<JobWorld>, os: seq<JobObservation>)
    ensures IsJobRun(cfg, ws, os) && |os| == 5
    ensures AcceptedAt(ws, os, 4) && !ws[4].cordon.unschedulable && ws[5].upgrades == 1
  {
    var late, t := cfg.DrainTimeout() + 1, TALOS_ONLY;
    StuckGivesBack(cfg, t, late);
    CalmDrained(cfg, t, FREE, late);
    var ws2, os2 := ToDraining(cfg, t);
    var ws3, os3 := Then(cfg, ws2, os2, Stuck(late));
    var ws4, os4 := Then(cfg, ws3, os3, Calm(late));
    ws, os := Then(cfg, ws4, os4, Calm(late));
    assert ws[4] == ws4[4] == At(t, Upgrading, Some(0), FREE, 0);
  }

  // ---------------------------------------------------------------- two upgrades

  lemma SecondUpgrade(cfg: JobConfig, t: TargetSpec, first: JobObservation)
    requires t == TALOS_ONLY
    requires first == Calm(0).(upgrade := LostReply) || first == Calm(0).(write := false)
    ensures
      var w1 := JobReconcile(cfg, At(t, Upgrading, Some(0), HELD, 0), first);
      w1.upgrades == 1 && JobReconcile(cfg, w1, Calm(0)).upgrades == 2
  {
  }

  /** A node is upgraded twice when the reply to the first call gets lost, and when its record does. */
  lemma LostRecordUpgradesTwice(cfg: JobConfig, first: JobObservation)
    returns (ws: seq<JobWorld>, os: seq<JobObservation>)
    requires first == Calm(0).(upgrade := LostReply) || first == Calm(0).(write := false)
    ensures IsJobRun(cfg, ws, os) && |os| == 5 && os[3] == first && ws[5].upgrades == 2
  {
    var t := TALOS_ONLY;
    SecondUpgrade(cfg, t, first);
    var ws3, os3 := ToUpgrading(cfg, t);
    var ws4, os4 := Then(cfg, ws3, os3, first);
    ws, os := Then(cfg, ws4, os4, Calm(0));
  }

  // ---------------------------------------------------------------- completed without Kubernetes

  /** The node is back at the target from another boot; its static pods are as old as before. */
  function Back(now: int): JobObservation {
    Calm(now).(version := Some("v1.11.5"), node := Some(OLD.(bootID := "b")))
  }

  lemma OldPodsServe()
    ensures StaticPodsReady(PodsAt("v1.31.0"), "")
  {
    var pods := PodsAt("v1.31.0");
    forall c | c in COMPONENTS ensures exists p <- pods :: Serves(p, c, "") {
      var i :| 0 <= i < |COMPONENTS| && COMPONENTS[i] == c;
      assert pods[i].containers[0].1;
      assert Serves(pods[i], c, "");
    }
  }

  lemma OldImageDoesNotServe(pods: seq<StaticPod>)
    requires pods == PodsAt("v1.31.0")
    ensures !StaticPodsReady(pods, "v1.32.4")
  {
    var c := COMPONENTS[0];
    assert c in COMPONENTS;
    if StaticPodsReady(pods, "v1.32.4") {
      var p :| p in pods && Serves(p, c, "v1.32.4");
      assert p.containers == [(ComponentImage(c, "v1.31.0"), true)];
      ImagesDiffer(c, "v1.31.0", "v1.32.4");
    }
  }

  lemma ImagesDiffer(component: string, a: string, b: string)
    requires a != b
    ensures ComponentImage(component, a) != ComponentImage(component, b)
  {
    var prefix := "registry.k8s.io/" + component + ":";
    assert ComponentImage(component, a)[|prefix|..] == a;
    assert ComponentImage(component, b)[|prefix|..] == b;
  }

  /** A control plane node whose static pods are not at the requested Kubernetes version. */
  predicate ShowsOldPods(o: JobObservation) {
    && o.node.Some? && o.node.value.controlPlane
    && KubernetesLags(o.node.value, o.staticPods, TALOS_AND_KUBERNETES.kubernetesVersion)
  }

  lemma BackCompletes(cfg: JobConfig, t: TargetSpec, w: JobWorld)
    requires t == TALOS_AND_KUBERNETES || t == PINNED
    requires w == JobReconcile(cfg, At(t, Upgrading, Some(0), HELD, 0), Calm(0))
    ensures JobReconcile(cfg, w, Back(0)).job.status.phase.Completed?
  {
    OldPodsServe();
    assert w.job.status.phase.Rebooting? && w.job.status.rebootStartTime == Some(0);
    assert w.job.status.preUpgradeBootID == "a";
  }

  /**
   * A run that completes a control plane node whose static pods never ran the requested Kubernetes version: its kubelet
   * did from the start, and its Talos had to be upgraded.
   */
  lemma RebootCompletesWithOldStaticPods(cfg: JobConfig) returns (ws: seq<JobWorld>, os: seq<JobObservation>)
    requires !cfg.older("v1.32.4", "v1.32.4")
    ensures IsJobRun(cfg, ws, os) && |os| == 5 && ws[5].job.status.phase.Completed?
    ensures ws[0].job.target == TALOS_AND_KUBERNETES
    ensures forall o <- os :: ShowsOldPods(o)
  {
    var t := TALOS_AND_KUBERNETES;
    var ws3, os3 := ToUpgrading(cfg, t);
    var ws4, os4 := Then(cfg, ws3, os3, Calm(0));
    BackCompletes(cfg, t, ws4[4]);
    ws, os := Then(cfg, ws4, os4, Back(0));
    OldImageDoesNotServe(PodsAt("v1.31.0"));
    assert ws[0] == ws4[0] == ws3[0];
  }

  // ---------------------------------------------------------------- completed with another schematic

  /** The node answers with a schematic other than the pinned one. */
  predicate ShowsOtherSchematic(o: JobObservation) {
    o.schematic.Some? && o.schematic.value != PINNED.schematicID
  }

  /** A run that completes a job on a node that never ran the schematic its target pins, its last pass included. */
  lemma CompletesWithOtherSchematic(cfg: JobConfig) returns (ws: seq<JobWorld>, os: seq<JobObservation>)
    ensures IsJobRun(cfg, ws, os) && |os| == 5 && ws[5].job.status.phase.Completed?
    ensures ws[0].job.target == PINNED && ChecksSchematic(PINNED)
    ensures forall o <- os :: ShowsOtherSchematic(o)
  {
    var t := PINNED;
    var ws3, os3 := ToUpgrading(cfg, t);
    var ws4, os4 := Then(cfg, ws3, os3, Calm(0));
    BackCompletes(cfg, t, ws4[4]);
    ws, os := Then(cfg, ws4, os4, Back(0));
    assert ws[0] == ws4[0] == ws3[0];
  }
}
