/** Whole runs of one PatchJob, whatever the node and the API server answer. */
module JobRuns {
  import opened Api
  import opened JobSteps
  import PlanRuns

  // ---------------------------------------------------------------- runs

  /** A job nobody has reconciled yet, on a node without a cordon of this operator. */
  predicate Untouched(w: JobWorld) {
    w.job.status == FRESH_STATUS && w.transientSince.None? && w.upgrades == 0 && !w.cordon.ours
  }

  ghost predicate PassAt(cfg: JobConfig, ws: seq<JobWorld>, os: seq<JobObservation>, i: nat)
    requires |ws| == |os| + 1 && i < |os|
  {
    ws[i + 1] == JobReconcile(cfg, ws[i], os[i])
  }

  /** ws are the states of a job between the passes os; nobody else touches the job or the node's cordon. */
  ghost predicate IsJobRun(cfg: JobConfig, ws: seq<JobWorld>, os: seq<JobObservation>) {
    |ws| == |os| + 1 && Untouched(ws[0]) && forall i: nat :: i < |os| ==> PassAt(cfg, ws, os, i)
  }

  function Rank(p: JobPhase): nat {
    match p
    case New => 0
    case Pending => 1
    case Draining => 2
    case Upgrading => 3
    case Rebooting => 4
    case UpgradingKubernetes => 5
    case ValidatingKubernetes => 6
    case Completed | Failed => 7
  }

  /** What a handler may store, phase by phase. */
  predicate StoresAllowed(p0: JobPhase, p1: JobPhase) {
    match p0
    case New => p1.Pending? || p1.UpgradingKubernetes? || p1.Completed?
    case Pending => p1.Pending? || p1.Draining?
    case Draining => p1.Upgrading?
    case Upgrading => p1.Rebooting?
    case Rebooting => p1.UpgradingKubernetes? || p1.Completed?
    case UpgradingKubernetes => p1.ValidatingKubernetes?
    case ValidatingKubernetes => p1.Completed?
    case Completed | Failed => false
  }

  /** Handlers move a job along the phases only, and leave failing it and dating its end to the common part. */
  lemma DecideKeeps(cfg: JobConfig, job: PatchJob, o: JobObservation, v: Verdict)
    requires v == Decide(cfg, job, o)
    ensures v.Write? ==> StoresAllowed(job.status.phase, v.s.phase)
    ensures v.Write? || v.Fail? || v.Retry? ==> v.s.completionTime == job.status.completionTime
    ensures v.Fail? || v.Retry? ==> v.s.phase == job.status.phase
  {
  }

  /** Every pass leaves the status alone but for a stamp, stores what the handler decided, or fails the job. */
  lemma PassOutcome(cfg: JobConfig, w: JobWorld, w1: JobWorld, o: JobObservation, v: Verdict)
    requires o.jobRead && !w.job.Finished()
    requires v == Decide(cfg, w.job, o) && w1 == JobReconcile(cfg, w, o)
    ensures w1.job == w.job.(status := w1.job.status)
    ensures
      || w1.job.status == Working(w.job.status, o)
      || (o.write && v.Write? && w1.job.status == Completion(v.s, o.now))
      || (o.write && (v.Fail? || v.Retry?) && w1.job.status == Completion(v.s.(phase := Failed), o.now))
    ensures w1.upgrades == UpgradesAfter(w.job, o, w.upgrades)
  {
  }

  /** A pass is a legal step of the job in the rollout: only its status changes, and not once it has finished. */
  lemma JobReconcileAdvances(cfg: JobConfig, w: JobWorld, w1: JobWorld, o: JobObservation)
    requires w1 == JobReconcile(cfg, w, o)
    ensures PlanRuns.Advances(w.job, w1.job, o.now)
    ensures Rank(w.job.status.phase) <= Rank(w1.job.status.phase)
  {
    if o.jobRead && !w.job.Finished() {
      var v := Decide(cfg, w.job, o);
      DecideKeeps(cfg, w.job, o, v);
      PassOutcome(cfg, w, w1, o, v);
    }
  }

  // ---------------------------------------------------------------- what the status says

  predicate TalosUpgradePending(p: JobPhase) { p.Pending? || p.Draining? || p.Upgrading? || p.Rebooting? }

  predicate KubernetesUpgradePending(p: JobPhase) { p.UpgradingKubernetes? || p.ValidatingKubernetes? }

  predicate TalosAtTarget(t: TargetSpec, s: JobStatus) {
    t.talosVersion != "" ==> s.currentTalosVersion == t.talosVersion
  }

  predicate KubernetesAtTarget(t: TargetSpec, s: JobStatus) {
    t.kubernetesVersion != "" ==> s.currentKubernetesVersion == t.kubernetesVersion
  }

  /** The recorded versions and instants match the phase. */
  predicate StatusFits(t: TargetSpec, s: JobStatus) {
    && (TalosUpgradePending(s.phase) ==> t.talosVersion != "" && s.targetTalosVersion == t.talosVersion)
    && (KubernetesUpgradePending(s.phase) ==> t.kubernetesVersion != "" && TalosAtTarget(t, s))
    && (s.phase.Completed? ==> TalosAtTarget(t, s) && KubernetesAtTarget(t, s))
    && (s.phase.Draining? ==> s.drainStartTime.Some?)
    && (s.phase.Rebooting? ==> s.rebootStartTime.Some?)
    && (Rank(s.phase) < Rank(Rebooting) ==> s.rebootStartTime.None?)
    && (s.phase.ValidatingKubernetes? ==> s.kubernetesUpgradeStartTime.Some?)
  }

  lemma DecideFits(cfg: JobConfig, job: PatchJob, o: JobObservation, v: Verdict)
    requires StatusFits(job.target, job.status) && v == Decide(cfg, job, o) && v.Write?
    ensures StatusFits(job.target, v.s)
  {
  }

  lemma PassFits(cfg: JobConfig, w: JobWorld, w1: JobWorld, o: JobObservation)
    requires StatusFits(w.job.target, w.job.status) && w1 == JobReconcile(cfg, w, o)
    ensures StatusFits(w1.job.target, w1.job.status) && w1.job.target == w.job.target
  {
    if o.jobRead && !w.job.Finished() {
      var v := Decide(cfg, w.job, o);
      PassOutcome(cfg, w, w1, o, v);
      if v.Write? {
        DecideFits(cfg, w.job, o, v);
      }
    }
  }

  lemma {:induction false} RunFits(cfg: JobConfig, ws: seq<JobWorld>, os: seq<JobObservation>, i: nat)
    requires IsJobRun(cfg, ws, os) && i < |ws|
    ensures StatusFits(ws[i].job.target, ws[i].job.status) && ws[i].job.target == ws[0].job.target
  {
    if i > 0 {
      RunFits(cfg, ws, os, i - 1);
      assert PassAt(cfg, ws, os, i - 1);
      PassFits(cfg, ws[i - 1], ws[i], os[i - 1]);
    }
  }

  /** A job that completes reports every requested version as the current one. */
  lemma CompletedAtTarget(cfg: JobConfig, ws: seq<JobWorld>, os: seq<JobObservation>, i: nat)
    requires IsJobRun(cfg, ws, os) && i < |ws| && ws[i].job.status.phase.Completed?
    ensures
      var t, s := ws[0].job.target, ws[i].job.status;
      && (t.talosVersion != "" ==> s.currentTalosVersion == t.talosVersion)
      && (t.kubernetesVersion != "" ==> s.currentKubernetesVersion == t.kubernetesVersion)
  {
    RunFits(cfg, ws, os, i);
  }
}
