/** A job that meets no obstacle completes. */
module JobProgress {
  import opened Api
  import opened Drain
  import opened JobSteps
  import opened JobRuns
  import opened JobEvidence
  import opened JobTermination

  /** Every call of the pass succeeds and the pods have left the node. */
  predicate CallsSucceed(t: TargetSpec, o: JobObservation) {
    && Lands(o) && o.plan && TalosOpens(o) && o.version.Some? && o.schematic.Some? && o.staticPods.Some?
    && o.pods.Some? && NodeDrained(o.pods.value)
    && o.cordon && o.uncordon && o.upgrade.Acknowledged? && o.patchControlPlane && o.patchKubelet
    && InstallerKnown(t, if AsksNodeSchematic(t) then o.schematic.value else "")
  }

  /** What the node shows does not refuse the upgrade, and shows it done where the job waits for that. */
  predicate NodeAgrees(cfg: JobConfig, w: JobWorld, o: JobObservation)
    requires CallsSucceed(w.job.target, o)
  {
    var t, n := w.job.target, o.node.value;
    match w.job.status.phase
    case New =>
      && (t.allowTalosDowngrade || !cfg.older(o.version.value, t.talosVersion))
      && (t.kubernetesVersion == "" || !cfg.older(n.kubeletVersion, t.kubernetesVersion))
    case Rebooting => BackAtTarget(w.job.status, o)
    case ValidatingKubernetes => !KubernetesLags(n, o.staticPods, t.kubernetesVersion)
    case _ => true
  }

  predicate HealthyPass(cfg: JobConfig, w: JobWorld, o: JobObservation) {
    w.job.Finished() || (CallsSucceed(w.job.target, o) && NodeAgrees(cfg, w, o))
  }

  lemma HealthyPassDecides(cfg: JobConfig, w: JobWorld, o: JobObservation, v: Verdict)
    requires StatusFits(w.job.target, w.job.status) && !w.job.Finished() && HealthyPass(cfg, w, o)
    requires v == Decide(cfg, w.job, o)
    ensures v.Write? && Rank(v.s.phase) > Rank(w.job.status.phase) && !v.s.phase.Failed?
  {
    if w.job.status.phase.Pending? {
      DrainedNeedsNoEviction(o.pods.value, cfg.drainOptions, o.evictions);
    }
  }

  lemma HealthyPassAdvances(cfg: JobConfig, w: JobWorld, w1: JobWorld, o: JobObservation)
    requires StatusFits(w.job.target, w.job.status) && HealthyPass(cfg, w, o) && w1 == JobReconcile(cfg, w, o)
    ensures w.job.Finished() ==> w1.job == w.job
    ensures !w.job.Finished() ==> Rank(w1.job.status.phase) > Rank(w.job.status.phase) && !w1.job.status.phase.Failed?
  {
    if !w.job.Finished() {
      var v := Decide(cfg, w.job, o);
      HealthyPassDecides(cfg, w, o, v);
      LandingPass(cfg, w, w1, o, v);
    }
  }

  ghost predicate HealthyAt(cfg: JobConfig, ws: seq<JobWorld>, os: seq<JobObservation>, i: nat)
    requires i < |os| < |ws|
  {
    HealthyPass(cfg, ws[i], os[i])
  }

  lemma {:induction false} HealthyRunAdvances(cfg: JobConfig, ws: seq<JobWorld>, os: seq<JobObservation>, i: nat)
    requires IsJobRun(cfg, ws, os) && i < |ws|
    requires forall k: nat :: k < i ==> HealthyAt(cfg, ws, os, k)
    ensures Rank(ws[i].job.status.phase) >= Min(i, 7) && !ws[i].job.status.phase.Failed?
  {
    if i > 0 {
      HealthyRunAdvances(cfg, ws, os, i - 1);
      RunFits(cfg, ws, os, i - 1);
      assert PassAt(cfg, ws, os, i - 1) && HealthyAt(cfg, ws, os, i - 1);
      HealthyPassAdvances(cfg, ws[i - 1], ws[i], os[i - 1]);
    }
  }

  /**
   * Seven passes without an obstacle complete a job, with every requested version reported and the node upgraded at
   * most once.
   */
  lemma HealthyRunCompletes(cfg: JobConfig, ws: seq<JobWorld>, os: seq<JobObservation>, i: nat)
    requires IsJobRun(cfg, ws, os) && 7 <= i < |ws|
    requires forall k: nat :: k < i ==> HealthyAt(cfg, ws, os, k)
    ensures ws[i].job.status.phase.Completed?
    ensures TalosAtTarget(ws[0].job.target, ws[i].job.status) && KubernetesAtTarget(ws[0].job.target, ws[i].job.status)
    ensures ws[i].upgrades <= 1
  {
    HealthyRunAdvances(cfg, ws, os, i);
    RunFits(cfg, ws, os, i);
    forall k: nat | k < i && AcceptedAt(ws, os, k) ensures os[k].upgrade.Acknowledged? && os[k].write {
      assert HealthyAt(cfg, ws, os, k);
    }
    UpgradedOnce(cfg, ws, os, i);
  }
}
