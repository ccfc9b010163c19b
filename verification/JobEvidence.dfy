/** What a job has seen before it moves on: a drained node, one accepted upgrade, a new boot at the target version. */
module JobEvidence {
  import opened Api
  import opened Drain
  import opened JobSteps
  import opened JobRuns

  /** Pass k makes the node take on an upgrade. */
  predicate AcceptedAt(ws: seq<JobWorld>, os: seq<JobObservation>, k: nat)
    requires k < |os| < |ws|
  {
    os[k].jobRead && ws[k].job.status.phase.Upgrading? && UpgradeAccepted(ws[k].job.target, os[k])
  }

  /** Pass k makes the node take on an upgrade and is told so. */
  predicate ReportedAt(ws: seq<JobWorld>, os: seq<JobObservation>, k: nat)
    requires k < |os| < |ws|
  {
    AcceptedAt(ws, os, k) && os[k].upgrade.Acknowledged?
  }

  /** Pass k saw the node drained and moved the job on for that reason. */
  predicate DrainedAt(ws: seq<JobWorld>, os: seq<JobObservation>, k: nat)
    requires k < |os| < |ws|
  {
    && ws[k].job.status.phase.Draining? && !ws[k + 1].job.status.phase.Draining?
    && os[k].pods.Some? && NodeDrained(os[k].pods.value)
  }

  predicate LeavesReboot(p: JobPhase) { p.UpgradingKubernetes? || p.Completed? }

  /** The node answered with the target version, from another boot than before, Ready and with its static pods. */
  predicate BackAtTarget(s: JobStatus, o: JobObservation) {
    && o.version == Some(s.targetTalosVersion) && o.node.Some?
    && (s.preUpgradeBootID != "" ==> o.node.value.bootID != s.preUpgradeBootID)
    && o.node.value.ready
    && (o.node.value.controlPlane ==> o.staticPods.Some? && StaticPodsReady(o.staticPods.value, ""))
  }

  lemma RebootEvidence(cfg: JobConfig, w: JobWorld, w1: JobWorld, o: JobObservation)
    requires w1 == JobReconcile(cfg, w, o) && w.job.status.phase.Rebooting? && LeavesReboot(w1.job.status.phase)
    ensures BackAtTarget(w.job.status, o) && w1.job.status.currentTalosVersion == w.job.status.targetTalosVersion
    ensures w1.job.status.phase.Completed? <==> KubernetesAtTarget(w.job.target, w.job.status)
  {
    var v := Decide(cfg, w.job, o);
    DecideKeeps(cfg, w.job, o, v);
    PassOutcome(cfg, w, w1, o, v);
  }

  lemma DrainEvidence(cfg: JobConfig, w: JobWorld, w1: JobWorld, o: JobObservation)
    requires w1 == JobReconcile(cfg, w, o) && w.job.status.phase.Draining? && w1.job.status.phase.Upgrading?
    ensures o.pods.Some? && NodeDrained(o.pods.value)
  {
    var v := Decide(cfg, w.job, o);
    DecideKeeps(cfg, w.job, o, v);
    PassOutcome(cfg, w, w1, o, v);
  }

  /** How a job gets into and stays in the phases around the upgrade. */
  lemma UpgradePhases(cfg: JobConfig, w: JobWorld, w1: JobWorld, o: JobObservation)
    requires w1 == JobReconcile(cfg, w, o)
    ensures w1.job.status.phase.Upgrading? ==> w.job.status.phase.Upgrading? || w.job.status.phase.Draining?
    ensures w1.job.status.phase.Rebooting? ==>
              || (w.job.status.phase.Rebooting? && w1.job.status.preUpgradeBootID == w.job.status.preUpgradeBootID)
              || (&& w.job.status.phase.Upgrading? && o.jobRead && UpgradeAccepted(w.job.target, o)
                  && o.upgrade.Acknowledged?
                  && w1.job.status.preUpgradeBootID == o.node.value.bootID)
  {
    if o.jobRead && !w.job.Finished() {
      var v := Decide(cfg, w.job, o);
      DecideKeeps(cfg, w.job, o, v);
      PassOutcome(cfg, w, w1, o, v);
    }
  }

  lemma {:induction false} SeenDrained(cfg: JobConfig, ws: seq<JobWorld>, os: seq<JobObservation>, i: nat)
    requires IsJobRun(cfg, ws, os) && i < |ws| && ws[i].job.status.phase.Upgrading?
    ensures exists k: nat :: k < i && DrainedAt(ws, os, k)
  {
    if i > 0 {
      assert PassAt(cfg, ws, os, i - 1);
      UpgradePhases(cfg, ws[i - 1], ws[i], os[i - 1]);
      if ws[i - 1].job.status.phase.Upgrading? {
        SeenDrained(cfg, ws, os, i - 1);
      } else {
        DrainEvidence(cfg, ws[i - 1], ws[i], os[i - 1]);
        assert DrainedAt(ws, os, i - 1);
      }
    }
  }

  /** The boot ID a rebooting job compares with is the one the node had when it took on the upgrade. */
  lemma {:induction false} BootIDRecorded(cfg: JobConfig, ws: seq<JobWorld>, os: seq<JobObservation>, i: nat)
    returns (k: nat)
    requires IsJobRun(cfg, ws, os) && i < |ws| && ws[i].job.status.phase.Rebooting?
    ensures k < i && ReportedAt(ws, os, k) && os[k].node.value.bootID == ws[i].job.status.preUpgradeBootID
  {
    assert i > 0;
    assert PassAt(cfg, ws, os, i - 1);
    UpgradePhases(cfg, ws[i - 1], ws[i], os[i - 1]);
    if ws[i - 1].job.status.phase.Rebooting? {
      k := BootIDRecorded(cfg, ws, os, i - 1);
    } else {
      k := i - 1;
    }
  }

  /**
   * A job leaves Rebooting for anything but Failed only when the node took on an upgrade before and answers now with
   * the requested version, from another boot if the old boot ID was known, Ready, and with ready static pods if it is
   * a control plane node.
   */
  lemma RebootIsProven(cfg: JobConfig, ws: seq<JobWorld>, os: seq<JobObservation>, i: nat) returns (k: nat)
    requires IsJobRun(cfg, ws, os) && i < |os|
    requires ws[i].job.status.phase.Rebooting? && LeavesReboot(ws[i + 1].job.status.phase)
    ensures k < i && ReportedAt(ws, os, k)
    ensures os[i].version == Some(ws[0].job.target.talosVersion) && os[i].node.Some?
    ensures os[k].node.value.bootID != "" ==> os[i].node.value.bootID != os[k].node.value.bootID
    ensures os[i].node.value.ready
    ensures os[i].node.value.controlPlane ==> os[i].staticPods.Some? && StaticPodsReady(os[i].staticPods.value, "")
  {
    k := BootIDRecorded(cfg, ws, os, i);
    RunFits(cfg, ws, os, i);
    assert PassAt(cfg, ws, os, i);
    RebootEvidence(cfg, ws[i], ws[i + 1], os[i]);
  }

  // ---------------------------------------------------------------- how often a node is upgraded

  /** Passes before i whose call reported an error although the node took the upgrade on. */
  function LostReplies(ws: seq<JobWorld>, os: seq<JobObservation>, i: nat): nat
    requires i <= |os| < |ws|
  {
    if i == 0 then 0
    else LostReplies(ws, os, i - 1) + if AcceptedAt(ws, os, i - 1) && os[i - 1].upgrade.LostReply? then 1 else 0
  }

  /** Passes before i that were told of the upgrade, and none of whose tries to record it succeeded. */
  function LostWrites(ws: seq<JobWorld>, os: seq<JobObservation>, i: nat): nat
    requires i <= |os| < |ws|
  {
    if i == 0 then 0
    else LostWrites(ws, os, i - 1) + if ReportedAt(ws, os, i - 1) && !os[i - 1].write then 1 else 0
  }

  lemma UpgradesStep(cfg: JobConfig, w: JobWorld, w1: JobWorld, o: JobObservation)
    requires StatusFits(w.job.target, w.job.status) && w1 == JobReconcile(cfg, w, o)
    ensures
      var accepted := o.jobRead && w.job.status.phase.Upgrading? && UpgradeAccepted(w.job.target, o);
      && w1.upgrades == w.upgrades + (if accepted then 1 else 0)
      && (w1.job.status.rebootStartTime.Some? <==>
            w.job.status.rebootStartTime.Some? || (accepted && o.upgrade.Acknowledged? && o.write))
      && (accepted ==> w.job.status.rebootStartTime.None?)
  {
    if o.jobRead && !w.job.Finished() {
      var v := Decide(cfg, w.job, o);
      DecideKeeps(cfg, w.job, o, v);
      PassOutcome(cfg, w, w1, o, v);
      RebootStartKept(cfg, w.job, o, v);
    }
  }

  lemma RebootStartKept(cfg: JobConfig, job: PatchJob, o: JobObservation, v: Verdict)
    requires v == Decide(cfg, job, o) && StatusFits(job.target, job.status)
    ensures v.Write? && v.s.phase.Rebooting? ==> v.s.rebootStartTime.Some?
    ensures (v.Write? && !v.s.phase.Rebooting?) || v.Fail? || v.Retry? ==>
              v.s.rebootStartTime == job.status.rebootStartTime
    ensures job.status.phase.Upgrading? ==>
              (v.Write? <==> UpgradeAccepted(job.target, o) && o.upgrade.Acknowledged?)
  {
  }

  /** A node takes on the upgrade the status records, and one more for every lost reply and every lost write. */
  lemma {:induction false} UpgradesCounted(cfg: JobConfig, ws: seq<JobWorld>, os: seq<JobObservation>, i: nat)
    requires IsJobRun(cfg, ws, os) && i < |ws|
    ensures ws[i].upgrades == LostReplies(ws, os, i) + LostWrites(ws, os, i)
                              + if ws[i].job.status.rebootStartTime.Some? then 1 else 0
  {
    if i > 0 {
      UpgradesCounted(cfg, ws, os, i - 1);
      UpgradesPass(cfg, ws, os, i - 1, ws[i - 1], ws[i]);
    }
  }

  lemma UpgradesPass(cfg: JobConfig, ws: seq<JobWorld>, os: seq<JobObservation>, i: nat, w: JobWorld, w1: JobWorld)
    requires IsJobRun(cfg, ws, os) && i < |os| && w == ws[i] && w1 == ws[i + 1]
    ensures
      var accepted := AcceptedAt(ws, os, i);
      && w1.upgrades == w.upgrades + (if accepted then 1 else 0)
      && (w1.job.status.rebootStartTime.Some? <==>
            w.job.status.rebootStartTime.Some? || (accepted && os[i].upgrade.Acknowledged? && os[i].write))
      && (accepted ==> w.job.status.rebootStartTime.None?)
  {
    RunFits(cfg, ws, os, i);
    assert PassAt(cfg, ws, os, i);
    UpgradesStep(cfg, w, w1, os[i]);
  }

  /** Every upgrade a node took on before i was reported and recorded. */
  predicate UpgradesRecorded(ws: seq<JobWorld>, os: seq<JobObservation>, i: nat)
    requires i <= |os| < |ws|
  {
    forall k: nat :: k < i && AcceptedAt(ws, os, k) ==> os[k].upgrade.Acknowledged? && os[k].write
  }

  lemma {:induction false} NothingLost(ws: seq<JobWorld>, os: seq<JobObservation>, i: nat)
    requires i <= |os| < |ws|
    ensures UpgradesRecorded(ws, os, i) <==> LostReplies(ws, os, i) == 0 && LostWrites(ws, os, i) == 0
  {
    if i > 0 {
      NothingLost(ws, os, i - 1);
      assert UpgradesRecorded(ws, os, i) <==>
             UpgradesRecorded(ws, os, i - 1)
             && (AcceptedAt(ws, os, i - 1) ==> os[i - 1].upgrade.Acknowledged? && os[i - 1].write);
    }
  }

  /** A node never takes on more upgrades than its job records, one at most, exactly while none goes unrecorded. */
  lemma UpgradedOnce(cfg: JobConfig, ws: seq<JobWorld>, os: seq<JobObservation>, i: nat)
    requires IsJobRun(cfg, ws, os) && i < |ws|
    ensures UpgradesRecorded(ws, os, i) <==>
              ws[i].upgrades == if ws[i].job.status.rebootStartTime.Some? then 1 else 0
  {
    UpgradesCounted(cfg, ws, os, i);
    NothingLost(ws, os, i);
  }

  // ---------------------------------------------------------------- what completion does not show

  /**
   * Where the Kubernetes upgrade is judged by kubelet and static pods, completion shows both at the target; leaving
   * Rebooting it is judged by the kubelet version recorded at the start only.
   */
  lemma CompletionEvidence(cfg: JobConfig, w: JobWorld, w1: JobWorld, o: JobObservation)
    requires w1 == JobReconcile(cfg, w, o) && !w.job.Finished() && w1.job.status.phase.Completed?
    requires w.job.target.kubernetesVersion != "" && !w.job.status.phase.Rebooting?
    ensures o.node.Some? && !KubernetesLags(o.node.value, o.staticPods, w.job.target.kubernetesVersion)
  {
    var v := Decide(cfg, w.job, o);
    DecideKeeps(cfg, w.job, o, v);
    PassOutcome(cfg, w, w1, o, v);
  }

  /** The node needs the Talos upgrade, and it is no downgrade unless that is allowed. */
  predicate UpgradeJustified(cfg: JobConfig, t: TargetSpec, o: JobObservation) {
    && o.node.Some? && o.version.Some? && (ChecksSchematic(t) ==> o.schematic.Some?)
    && NeedsTalosUpgrade(t, o.version.value, if ChecksSchematic(t) then o.schematic.value else "")
    && (t.allowTalosDowngrade || !cfg.older(o.version.value, t.talosVersion))
    && (t.kubernetesVersion == "" || !cfg.older(o.node.value.kubeletVersion, t.kubernetesVersion))
  }

  /** Pass k starts a Talos upgrade. */
  predicate StartedAt(cfg: JobConfig, ws: seq<JobWorld>, os: seq<JobObservation>, k: nat)
    requires k < |os| < |ws|
  {
    && ws[k].job.status.phase.New? && ws[k + 1].job.status.phase.Pending?
    && UpgradeJustified(cfg, ws[k].job.target, os[k])
  }

  lemma KubeletRecorded(cfg: JobConfig, w: JobWorld, w1: JobWorld, o: JobObservation)
    requires w1 == JobReconcile(cfg, w, o) && TalosUpgradePending(w1.job.status.phase)
    ensures TalosUpgradePending(w.job.status.phase) ==>
              w1.job.status.currentKubernetesVersion == w.job.status.currentKubernetesVersion
    ensures !TalosUpgradePending(w.job.status.phase) ==>
              && w.job.status.phase.New? && w1.job.status.phase.Pending? && UpgradeJustified(cfg, w.job.target, o)
              && w1.job.status.currentKubernetesVersion == o.node.value.kubeletVersion
  {
    if o.jobRead && !w.job.Finished() {
      var v := Decide(cfg, w.job, o);
      DecideKeeps(cfg, w.job, o, v);
      PassOutcome(cfg, w, w1, o, v);
    }
  }

  lemma {:induction false} StartOfUpgrade(cfg: JobConfig, ws: seq<JobWorld>, os: seq<JobObservation>, i: nat)
    returns (k: nat)
    requires IsJobRun(cfg, ws, os) && i < |ws| && TalosUpgradePending(ws[i].job.status.phase)
    ensures k < i && StartedAt(cfg, ws, os, k)
    ensures ws[i].job.status.currentKubernetesVersion == os[k].node.value.kubeletVersion
  {
    assert i > 0;
    assert PassAt(cfg, ws, os, i - 1);
    KubeletRecorded(cfg, ws[i - 1], ws[i], os[i - 1]);
    if TalosUpgradePending(ws[i - 1].job.status.phase) {
      k := StartOfUpgrade(cfg, ws, os, i - 1);
    } else {
      k := i - 1;
    }
  }

  /** A node is upgraded only if the first look at it showed that it needs to be and may be. */
  lemma UpgradesAreJustified(cfg: JobConfig, ws: seq<JobWorld>, os: seq<JobObservation>, i: nat) returns (k: nat)
    requires IsJobRun(cfg, ws, os) && i < |os| && AcceptedAt(ws, os, i)
    ensures k < i && StartedAt(cfg, ws, os, k) && UpgradeJustified(cfg, ws[0].job.target, os[k])
  {
    k := StartOfUpgrade(cfg, ws, os, i);
    RunFits(cfg, ws, os, k);
  }

  /**
   * Whether a Kubernetes upgrade follows the reboot was settled before it: it does exactly when the kubelet was not
   * at the target at the start, so static pods found lagging behind a kubelet at the target are not upgraded.
   */
  lemma KubernetesSettledAtStart(cfg: JobConfig, ws: seq<JobWorld>, os: seq<JobObservation>, i: nat) returns (k: nat)
    requires IsJobRun(cfg, ws, os) && i < |os|
    requires ws[i].job.status.phase.Rebooting? && LeavesReboot(ws[i + 1].job.status.phase)
    ensures k < i && StartedAt(cfg, ws, os, k)
    ensures ws[i + 1].job.status.phase.UpgradingKubernetes? <==>
              ws[0].job.target.kubernetesVersion != ""
              && os[k].node.value.kubeletVersion != ws[0].job.target.kubernetesVersion
  {
    k := StartOfUpgrade(cfg, ws, os, i);
    RunFits(cfg, ws, os, i);
    assert PassAt(cfg, ws, os, i);
    RebootEvidence(cfg, ws[i], ws[i + 1], os[i]);
  }

  lemma SameSettling(
    w: JobWorld, w1: JobWorld, v: Verdict, o: JobObservation, o1: JobObservation, schematic: Option<string>)
    requires o1 == o.(schematic := schematic) && w1 == Settle(w, v, o)
    ensures Settle(w, v, o1) == w1
  {
  }

  /** The schematic a node runs matters to the first pass and the upgrade only: no later pass looks at it again. */
  lemma SchematicNotRechecked(
    cfg: JobConfig, w: JobWorld, o: JobObservation, o1: JobObservation, schematic: Option<string>)
    requires !w.job.status.phase.New? && !w.job.status.phase.Upgrading? && o1 == o.(schematic := schematic)
    ensures JobReconcile(cfg, w, o1) == JobReconcile(cfg, w, o)
  {
    if o.jobRead && !w.job.Finished() {
      var v, handled := Decide(cfg, w.job, o), Handled(cfg, w, o);
      assert Handled(cfg, w, o1) == handled;
      SameSettling(handled, Settle(handled, v, o), v, o, o1, schematic);
    }
  }
}
