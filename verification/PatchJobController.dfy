/** The PatchJob reconciler as an object that updates the job and its node (controllers/patchjob_controller.go). */
module PatchJobController {
  import opened Api
  import opened Drain
  import opened JobSteps

  /** Looks for a ready container of each control plane component on the node. */
  method ControlPlaneStaticPodsReady(pods: seq<StaticPod>, version: string) returns (ready: bool)
    ensures ready <==> StaticPodsReady(pods, version)
  {
    var found: set<string> := {};
    for i := 0 to |pods|
      invariant found == set c | c in COMPONENTS && exists p <- pods[..i] :: Serves(p, c, version)
    {
      var pod := pods[i];
      assert pods[..i + 1] == pods[..i] + [pod];
      if pod.component.Some? && pod.component.value in COMPONENTS {
        var serves := HasReadyContainer(pod, pod.component.value, version);
        if serves {
          found := found + {pod.component.value};
        }
      }
    }
    assert pods[..|pods|] == pods;
    AllFound(found);
    return |found| == |COMPONENTS|;
  }

  method HasReadyContainer(pod: StaticPod, component: string, version: string) returns (found: bool)
    requires pod.component == Some(component)
    ensures found <==> Serves(pod, component, version)
  {
    for i := 0 to |pod.containers|
      invariant forall k :: 0 <= k < i ==>
                  !((version == "" || pod.containers[k].0 == ComponentImage(component, version)) && pod.containers[k].1)
    {
      var c := pod.containers[i];
      if (version == "" || c.0 == ComponentImage(component, version)) && c.1 {
        return true;
      }
    }
    return false;
  }

  lemma AllFound(found: set<string>)
    requires forall c <- found :: c in COMPONENTS
    ensures |found| == |COMPONENTS| <==> forall c <- COMPONENTS :: c in found
  {
    var all := {COMPONENTS[0], COMPONENTS[1], COMPONENTS[2]};
    assert |COMPONENTS[0]| == 14 && |COMPONENTS[1]| == 23;
    assert |all| == 3;
    assert found <= all;
    if forall c <- COMPONENTS :: c in found {
      assert found == all;
    } else {
      var missing :| missing in COMPONENTS && missing !in found;
      SubsetSize(found, all - {missing});
    }
  }

  class PatchJobReconciler {
    const cfg: JobConfig
    var job: PatchJob
    var transientSince: Option<int>
    var cordon: Cordon
    var upgrades: nat

    constructor (cfg: JobConfig, w: JobWorld)
      ensures this.cfg == cfg && View() == w
    {
      this.cfg := cfg;
      job := w.job;
      transientSince := w.transientSince;
      cordon := w.cordon;
      upgrades := w.upgrades;
    }

    function View(): JobWorld
      reads this
    {
      JobWorld(job, transientSince, cordon, upgrades)
    }

    /** The API server's copy of the job, once a pass that ended with or without an error has settled as w says. */
    predicate Ended(ok: bool, w: JobWorld)
      reads this
    {
      (if ok then View().(transientSince := None) else View()) == w
    }

    method Reconcile(o: JobObservation)
      modifies this
      ensures View() == JobReconcile(cfg, old(View()), o)
    {
      if !o.jobRead {
        return;
      }
      if job.status.phase.IsTerminal() {
        transientSince := None;
        return;
      }
      var ok := ReconcilePhase(o);
      if ok {
        transientSince := None;
      }
    }

    method ReconcilePhase(o: JobObservation) returns (ok: bool)
      requires !job.Finished()
      modifies this
      ensures Ended(ok, Settle(Handled(cfg, old(View()), o), Decide(cfg, old(job), o), o))
    {
      match job.status.phase {
        case New => ok := InitJob(o);
        case Pending => ok := StartDrain(o);
        case Draining => ok := WaitForDrain(o);
        case Upgrading => ok := StartUpgrade(o);
        case Rebooting => ok := WaitForReboot(o);
        case UpgradingKubernetes => ok := StartKubernetesUpgrade(o);
        case ValidatingKubernetes => ok := WaitForKubernetesUpgrade(o);
      }
    }

    /** A terminal status is dated with the write that makes it so. */
    method PatchStatus(modified: JobStatus, now: int, lands: bool) returns (ok: bool)
      modifies this`job
      ensures ok <==> lands
      ensures job == if lands then old(job).(status := Completion(modified, now)) else old(job)
    {
      var s := modified;
      if s.phase.IsTerminal() && s.completionTime.None? {
        s := s.(completionTime := Some(Stored(now)));
      }
      if lands {
        job := job.(status := s);
      }
      return lands;
    }

    method UncordonNode(succeeds: bool) returns (ok: bool)
      modifies this`cordon
      ensures ok <==> succeeds
      ensures cordon == if succeeds then Uncordoned(old(cordon)) else old(cordon)
    {
      var drainer := new Drainer(cordon);
      ok := drainer.UncordonNode(succeeds, true);
      cordon := drainer.cordon;
    }

    method CordonNode(succeeds: bool) returns (ok: bool)
      modifies this`cordon
      ensures ok <==> succeeds
      ensures cordon == if succeeds then Cordoned(old(cordon)) else old(cordon)
    {
      var drainer := new Drainer(cordon);
      ok := drainer.CordonNode(succeeds, true);
      cordon := drainer.cordon;
    }

    method FailJob(modified: JobStatus, o: JobObservation) returns (ok: bool)
      modifies this
      ensures Ended(ok, JobSteps.FailJob(old(View()), modified, o))
    {
      match job.status.phase {
        case Pending | Draining | Upgrading =>
          var released := UncordonNode(o.uncordon);
        case _ =>
      }
      ok := PatchStatus(modified.(phase := Failed), o.now, o.write);
    }

    method RetryOrFail(modified: JobStatus, o: JobObservation) returns (ok: bool)
      modifies this
      ensures Ended(ok, JobSteps.RetryOrFail(old(View()), modified, o))
    {
      if transientSince.None? {
        transientSince := Some(o.now);
      }
      if o.now - transientSince.value > TRANSIENT_ERROR_DEADLINE {
        ok := FailJob(modified, o);
      } else {
        ok := false;
      }
    }

    /** Settles the pass when the Talos client cannot be opened or the node not be found. */
    method WithTalos(modified: JobStatus, o: JobObservation) returns (open: bool, ok: bool)
      modifies this
      ensures open <==> TalosOpens(o)
      ensures open ==> View() == old(View())
      ensures !open ==> Ended(ok, Settle(old(View()), TalosFailure(modified, o), o))
    {
      open, ok := false, false;
      if !o.talosConfig {
        ok := RetryOrFail(modified, o);
      } else if !o.client {
        ok := FailJob(modified, o);
      } else if o.node.None? {
        ok := RetryOrFail(modified, o);
      } else if !o.address {
        ok := RetryOrFail(modified, o);
      } else {
        open := true;
      }
    }

    method InitJob(o: JobObservation) returns (ok: bool)
      requires job.status.phase.New?
      modifies this
      ensures Ended(ok, Settle(Handled(cfg, old(View()), o), Decide(cfg, old(job), o), o))
    {
      var target := job.target;
      var modified := job.status.(startTime := Some(Stored(o.now)));
      var open;
      open, ok := WithTalos(modified, o);
      if !open {
        return;
      }
      if o.version.None? {
        ok := RetryOrFail(modified, o);
        return;
      }
      var node, nodeSchematicID := o.node.value, "";
      if ChecksSchematic(target) {
        if o.schematic.None? {
          ok := RetryOrFail(modified, o);
          return;
        }
        nodeSchematicID := o.schematic.value;
      }
      var talosNeedsUpgrade := NeedsTalosUpgrade(target, o.version.value, nodeSchematicID);
      var kubernetesNeedsUpgrade, known := NeedsKubernetesUpgrade(node, o.staticPods, target.kubernetesVersion);
      if !known {
        ok := RetryOrFail(modified, o);
        return;
      }
      ok := ChooseUpgrade(modified, o, talosNeedsUpgrade, kubernetesNeedsUpgrade);
    }

    /** The rest of initJob, once it is known what the node needs. */
    method ChooseUpgrade(
      status: JobStatus, o: JobObservation, talosNeedsUpgrade: bool, kubernetesNeedsUpgrade: bool)
      returns (ok: bool)
      requires job.status.phase.New? && o.version.Some? && o.node.Some?
      modifies this
      ensures
        var v := JobSteps.ChooseUpgrade(
                   cfg, old(job).target, status, o.version.value, o.node.value.kubeletVersion,
                   talosNeedsUpgrade, kubernetesNeedsUpgrade);
        var released := v.Write? && v.s.phase.Completed? && o.uncordon;
        Ended(ok, Settle(old(View()).(cordon := if released then Uncordoned(old(cordon)) else old(cordon)), v, o))
    {
      var target, node := job.target, o.node.value;
      var modified := status.(currentTalosVersion := o.version.value, currentKubernetesVersion := node.kubeletVersion);
      if talosNeedsUpgrade && !target.allowTalosDowngrade && cfg.older(o.version.value, target.talosVersion) {
        ok := FailJob(modified, o);
        return;
      }
      if target.kubernetesVersion != "" && cfg.older(node.kubeletVersion, target.kubernetesVersion) {
        ok := FailJob(modified, o);
        return;
      }
      modified := modified.(
      targetTalosVersion := FirstNonEmpty(target.talosVersion, o.version.value),
      targetKubernetesVersion := FirstNonEmpty(target.kubernetesVersion, node.kubeletVersion));
      if !talosNeedsUpgrade && !kubernetesNeedsUpgrade {
        var released := UncordonNode(o.uncordon);
        modified := modified.(phase := Completed);
      } else if talosNeedsUpgrade {
        modified := modified.(phase := Pending);
      } else {
        modified := modified.(phase := UpgradingKubernetes);
      }
      ok := PatchStatus(modified, o.now, o.write);
    }

    /** On a control plane node a matching kubelet version is not enough: its static pods are looked at as well. */
    method NeedsKubernetesUpgrade(node: NodeInfo, staticPods: Option<seq<StaticPod>>, version: string)
      returns (needed: bool, known: bool)
      ensures known <==> !(version != "" && node.kubeletVersion == version && node.controlPlane && staticPods.None?)
      ensures known ==> (needed <==> KubernetesLags(node, staticPods, version))
    {
      needed := version != "" && node.kubeletVersion != version;
      if version != "" && !needed && node.controlPlane {
        if staticPods.None? {
          return false, false;
        }
        var ready := ControlPlaneStaticPodsReady(staticPods.value, version);
        needed := !ready;
      }
      known := true;
    }

    method StartDrain(o: JobObservation) returns (ok: bool)
      requires job.status.phase.Pending?
      modifies this
      ensures Ended(ok, Settle(Handled(cfg, old(View()), o), Decide(cfg, old(job), o), o))
    {
      var modified := job.status;
      if !o.plan {
        ok := RetryOrFail(modified, o);
        return;
      }
      ok := CordonNode(o.cordon);
      if !ok {
        ok := RetryOrFail(modified, o);
        return;
      }
      var elapsed := 0;
      if modified.drainStartTime.None? {
        modified := modified.(drainStartTime := Some(Stored(o.now)));
      } else {
        elapsed := o.now - modified.drainStartTime.value;
      }
      var drainer := new Drainer(cordon);
      var result := drainer.DrainNode(o.pods, cfg.drainOptions, o.evictions);
      match result {
        case UnmanagedPods =>
          ok := FailJob(modified, o);
          return;
        case ListFailed | EvictionFailed =>
          ok := RetryOrFail(modified, o);
          return;
        case Attempted(blocked) =>
          if blocked {
            if elapsed > cfg.DrainTimeout() {
              ok := FailJob(modified, o);
              return;
            }
          } else {
            modified := modified.(phase := Draining);
          }
      }
      ok := PatchStatus(modified, o.now, o.write);
    }

    method WaitForDrain(o: JobObservation) returns (ok: bool)
      requires job.status.phase.Draining?
      modifies this
      ensures Ended(ok, Settle(Handled(cfg, old(View()), o), Decide(cfg, old(job), o), o))
    {
      var modified := job.status;
      if o.pods.None? {
        ok := RetryOrFail(modified, o);
        return;
      }
      var drainer := new Drainer(cordon);
      var drained := drainer.IsDrained(o.pods.value);
      if !drained {
        if !o.plan {
          ok := RetryOrFail(modified, o);
          return;
        }
        var start := modified.drainStartTime;
        if start.Some? && o.now - start.value > cfg.DrainTimeout() {
          ok := FailJob(modified, o);
          return;
        }
        return true;
      }
      ok := PatchStatus(modified.(phase := Upgrading), o.now, o.write);
    }

    method StartUpgrade(o: JobObservation) returns (ok: bool)
      requires job.status.phase.Upgrading?
      modifies this
      ensures Ended(ok, Settle(Handled(cfg, old(View()), o), Decide(cfg, old(job), o), o))
    {
      var modified, target := job.status, job.target;
      var open;
      open, ok := WithTalos(modified, o);
      if !open {
        return;
      }
      var nodeSchematicID := "";
      if target.source == "factory" && target.schematicID == "" {
        if o.schematic.None? {
          ok := RetryOrFail(modified, o);
          return;
        }
        nodeSchematicID := o.schematic.value;
      }
      if !InstallerKnown(target, nodeSchematicID) {
        ok := FailJob(modified, o);
        return;
      }
      if !o.upgrade.Declined? {
        upgrades := upgrades + 1;
      }
      if !o.upgrade.Acknowledged? {
        ok := RetryOrFail(modified, o);
        return;
      }
      modified := modified.(
      phase := Rebooting, rebootStartTime := Some(Stored(o.now)), preUpgradeBootID := o.node.value.bootID);
      ok := PatchStatus(modified, o.now, o.write);
    }

    method WaitForReboot(o: JobObservation) returns (ok: bool)
      requires job.status.phase.Rebooting?
      modifies this
      ensures Ended(ok, Settle(Handled(cfg, old(View()), o), Decide(cfg, old(job), o), o))
    {
      var modified := job.status;
      var open;
      open, ok := WithTalos(modified, o);
      if !open {
        return;
      }
      if !o.plan {
        ok := RetryOrFail(modified, o);
        return;
      }
      if modified.rebootStartTime.None? {
        modified := modified.(rebootStartTime := Some(Stored(o.now)));
        ok := PatchStatus(modified, o.now, o.stampWrite);
        if !ok {
          return;
        }
      }
      ok := CheckReboot(modified, o);
    }

    /** The rest of waitForReboot, once the start time is known. */
    method CheckReboot(status: JobStatus, o: JobObservation) returns (ok: bool)
      requires job.status == status && status.phase.Rebooting? && status.rebootStartTime.Some? && TalosOpens(o)
      modifies this
      ensures
        var v := JobSteps.CheckReboot(cfg, old(job).target, status, o.node.value, o);
        Ended(ok, Settle(old(View()).(cordon := if v.Write? then Uncordoned(old(cordon)) else old(cordon)), v, o))
    {
      var modified, node := status, o.node.value;
      var remaining := cfg.RebootTimeout() - (o.now - modified.rebootStartTime.value);
      var timedOut := remaining <= 0;
      if o.version.None? {
        ok := FailIf(timedOut, modified, o);
        return;
      }
      if o.version.value != modified.targetTalosVersion {
        var bootID := modified.preUpgradeBootID;
        var rolledBack := bootID != "" && node.bootID != bootID;
        ok := FailIf(rolledBack || timedOut, modified, o);
        return;
      }
      var healthy, known := NodeHealthy(node, modified.preUpgradeBootID, o.staticPods);
      if !known {
        ok := RetryOrFail(modified, o);
        return;
      }
      if !healthy {
        ok := FailIf(timedOut, modified, o);
        return;
      }
      modified := modified.(currentTalosVersion := o.version.value);
      ok := UncordonNode(o.uncordon);
      if !ok {
        ok := RetryOrFail(modified, o);
        return;
      }
      var target := job.target.kubernetesVersion;
      if target != "" && modified.currentKubernetesVersion != target {
        modified := modified.(phase := UpgradingKubernetes);
      } else {
        modified := modified.(phase := Completed);
      }
      ok := PatchStatus(modified, o.now, o.write);
    }

    /** Fails the job, or leaves it waiting. */
    method FailIf(failing: bool, modified: JobStatus, o: JobObservation) returns (ok: bool)
      modifies this
      ensures Ended(ok, Settle(old(View()), AwaitOrFail(failing, modified), o))
    {
      if failing {
        ok := FailJob(modified, o);
      } else {
        ok := true;
      }
    }

    method NodeHealthy(node: NodeInfo, bootID: string, staticPods: Option<seq<StaticPod>>)
      returns (healthy: bool, known: bool)
      ensures known <==> !HealthUnknown(node, bootID, staticPods)
      ensures known ==> (healthy <==> JobSteps.NodeHealthy(node, bootID, staticPods))
    {
      if bootID != "" && node.bootID == bootID {
        return false, true;
      }
      if !node.ready {
        return false, true;
      }
      if node.controlPlane {
        if staticPods.None? {
          return false, false;
        }
        healthy := ControlPlaneStaticPodsReady(staticPods.value, "");
        return healthy, true;
      }
      return true, true;
    }

    method StartKubernetesUpgrade(o: JobObservation) returns (ok: bool)
      requires job.status.phase.UpgradingKubernetes?
      modifies this
      ensures Ended(ok, Settle(Handled(cfg, old(View()), o), Decide(cfg, old(job), o), o))
    {
      var modified := job.status;
      var open;
      open, ok := WithTalos(modified, o);
      if !open {
        return;
      }
      if o.node.value.controlPlane && !o.patchControlPlane {
        ok := RetryOrFail(modified, o);
        return;
      }
      if !o.patchKubelet {
        ok := RetryOrFail(modified, o);
        return;
      }
      modified := modified.(phase := ValidatingKubernetes, kubernetesUpgradeStartTime := Some(Stored(o.now)));
      ok := PatchStatus(modified, o.now, o.write);
    }

    method WaitForKubernetesUpgrade(o: JobObservation) returns (ok: bool)
      requires job.status.phase.ValidatingKubernetes?
      modifies this
      ensures Ended(ok, Settle(Handled(cfg, old(View()), o), Decide(cfg, old(job), o), o))
    {
      var modified := job.status;
      if !o.plan {
        ok := RetryOrFail(modified, o);
        return;
      }
      if modified.kubernetesUpgradeStartTime.None? {
        modified := modified.(kubernetesUpgradeStartTime := Some(Stored(o.now)));
        ok := PatchStatus(modified, o.now, o.stampWrite);
        if !ok {
          return;
        }
      }
      ok := CheckKubernetes(modified, o);
    }

    /** The rest of waitForKubernetesUpgrade, once the start time is known. */
    method CheckKubernetes(status: JobStatus, o: JobObservation) returns (ok: bool)
      requires job.status == status && status.phase.ValidatingKubernetes? && status.kubernetesUpgradeStartTime.Some?
      modifies this
      ensures Ended(ok, Settle(old(View()), JobSteps.CheckKubernetes(cfg, old(job).target, status, o), o))
    {
      var modified, target := status, job.target.kubernetesVersion;
      var remaining := cfg.KubernetesTimeout() - (o.now - modified.kubernetesUpgradeStartTime.value);
      var timedOut := remaining <= 0;
      if o.node.None? {
        ok := RetryOrFail(modified, o);
        return;
      }
      if o.node.value.kubeletVersion != target {
        ok := FailIf(timedOut, modified, o);
        return;
      }
      if o.node.value.controlPlane {
        if o.staticPods.None? {
          ok := RetryOrFail(modified, o);
          return;
        }
        var ready := ControlPlaneStaticPodsReady(o.staticPods.value, target);
        if !ready {
          ok := FailIf(timedOut, modified, o);
          return;
        }
      }
      modified := modified.(currentKubernetesVersion := target, phase := Completed);
      ok := PatchStatus(modified, o.now, o.write);
    }
  }
}
