/** The cordon of the node over the runs of its job. */
module JobCordon {
  import opened Api
  import opened Drain
  import opened JobSteps
  import opened JobRuns
  import opened JobErrors
  import opened JobEvidence

  /** The phases in which the job may hold a cordon. */
  predicate MayHoldCordon(p: JobPhase) { TalosUpgradePending(p) || p.Failed? }

  /** c0 is the cordon before the job: an admin's stays, and otherwise the node is cordoned only by this operator. */
  predicate CordonFits(c0: Cordon, w: JobWorld) {
    && (c0.unschedulable ==> w.cordon == c0)
    && (!c0.unschedulable ==> (w.cordon.unschedulable <==> w.cordon.ours))
    && (!MayHoldCordon(w.job.status.phase) ==> w.cordon == c0)
  }

  lemma PassCordons(cfg: JobConfig, w: JobWorld, w1: JobWorld, o: JobObservation, v: Verdict)
    requires o.jobRead && !w.job.Finished()
    requires v == Decide(cfg, w.job, o) && w1 == JobReconcile(cfg, w, o)
    ensures w1.cordon in {w.cordon, Cordoned(w.cordon), Uncordoned(w.cordon), Uncordoned(Cordoned(w.cordon))}
    ensures w1.cordon != w.cordon ==>
              || (w.job.status.phase.New? && v.Write?)
              || w.job.status.phase.Pending?
              || ((w.job.status.phase.Draining? || w.job.status.phase.Upgrading?) && (v.Fail? || v.Retry?))
              || (w.job.status.phase.Rebooting? && v.Write?)
    ensures w.job.status.phase.Rebooting? && v.Write? ==> w1.cordon == Uncordoned(w.cordon)
    ensures w.job.status.phase.Pending? && v.Write? ==> w1.cordon == Cordoned(w.cordon)
  {
  }

  lemma PassKeepsCordonFit(cfg: JobConfig, c0: Cordon, w: JobWorld, w1: JobWorld, o: JobObservation)
    requires !c0.ours && CordonFits(c0, w) && w1 == JobReconcile(cfg, w, o)
    ensures CordonFits(c0, w1)
  {
    if o.jobRead && !w.job.Finished() {
      var v := Decide(cfg, w.job, o);
      DecideKeeps(cfg, w.job, o, v);
      PassOutcome(cfg, w, w1, o, v);
      PassCordons(cfg, w, w1, o, v);
    }
  }

  lemma {:induction false} RunCordons(cfg: JobConfig, ws: seq<JobWorld>, os: seq<JobObservation>, i: nat)
    requires IsJobRun(cfg, ws, os) && i < |ws|
    ensures CordonFits(ws[0].cordon, ws[i])
  {
    if i > 0 {
      RunCordons(cfg, ws, os, i - 1);
      assert PassAt(cfg, ws, os, i - 1);
      PassKeepsCordonFit(cfg, ws[0].cordon, ws[i - 1], ws[i], os[i - 1]);
    }
  }

  /** An admin's cordon survives every run, and a job that completes leaves the node as schedulable as it found it. */
  lemma CordonRestored(cfg: JobConfig, ws: seq<JobWorld>, os: seq<JobObservation>, i: nat)
    requires IsJobRun(cfg, ws, os) && i < |ws|
    ensures ws[0].cordon.unschedulable ==> ws[i].cordon == ws[0].cordon
    ensures ws[i].job.status.phase.Completed? ==> ws[i].cordon == ws[0].cordon
  {
    RunCordons(cfg, ws, os, i);
  }

  lemma FailureUncordons(cfg: JobConfig, w: JobWorld, w1: JobWorld, o: JobObservation)
    requires w1 == JobReconcile(cfg, w, o) && !w.job.Finished() && w1.job.status.phase.Failed?
    ensures ReleasesOnFailure(w.job.status.phase) && o.uncordon ==>
              w1.cordon == Uncordoned(w.cordon) || w1.cordon == Uncordoned(Cordoned(w.cordon))
    ensures !ReleasesOnFailure(w.job.status.phase) ==> w1.cordon == w.cordon
  {
    var v := Decide(cfg, w.job, o);
    DecideKeeps(cfg, w.job, o, v);
  }

  /** A job failing before its upgrade was accepted gives the node back, if only the uncordon call succeeds. */
  lemma EarlyFailureRestores(cfg: JobConfig, ws: seq<JobWorld>, os: seq<JobObservation>, i: nat)
    requires IsJobRun(cfg, ws, os) && i < |os|
    requires !ws[i].job.Finished() && ws[i + 1].job.status.phase.Failed? && !ws[i].job.status.phase.Rebooting?
    requires ReleasesOnFailure(ws[i].job.status.phase) ==> os[i].uncordon
    ensures ws[i + 1].cordon == ws[0].cordon
  {
    RunCordons(cfg, ws, os, i);
    assert PassAt(cfg, ws, os, i);
    FailureUncordons(cfg, ws[i], ws[i + 1], os[i]);
  }

  // ---------------------------------------------------------------- while the node is being upgraded

  predicate NeedsCordon(p: JobPhase) { p.Draining? || p.Upgrading? || p.Rebooting? }

  /** The node is given back in this phase: it is done with its upgrade, or the job fails before one was taken on. */
  predicate GivesBack(cfg: JobConfig, w: JobWorld, o: JobObservation) {
    var v := Decide(cfg, w.job, o);
    match w.job.status.phase
    case Rebooting => v.Write?
    case Draining | Upgrading => o.uncordon && (v.Fail? || (v.Retry? && PersistedAt(w, o)))
    case _ => false
  }

  /** The cordon is the operator's, the node is given back, and then the status cannot be written. */
  predicate LosesRelease(cfg: JobConfig, w: JobWorld, o: JobObservation) {
    o.jobRead && w.cordon.ours && GivesBack(cfg, w, o) && !o.write
  }

  predicate ReleaseLostAt(cfg: JobConfig, ws: seq<JobWorld>, os: seq<JobObservation>, k: nat)
    requires k < |os| < |ws|
  {
    LosesRelease(cfg, ws[k], os[k])
  }

  predicate NoReleaseLost(cfg: JobConfig, ws: seq<JobWorld>, os: seq<JobObservation>, i: nat)
    requires i <= |os| < |ws|
  {
    forall k: nat :: k < i ==> !ReleaseLostAt(cfg, ws, os, k)
  }

  /** A pass that keeps needing the cordon keeps it unless it loses a release; one that comes to need it has it. */
  lemma PassHoldsCordon(cfg: JobConfig, c0: Cordon, w: JobWorld, w1: JobWorld, o: JobObservation)
    requires !c0.ours && CordonFits(c0, w) && w1 == JobReconcile(cfg, w, o)
    ensures NeedsCordon(w.job.status.phase) && NeedsCordon(w1.job.status.phase) ==>
              (w1.cordon.unschedulable <==>
                 w.cordon.unschedulable && !LosesRelease(cfg, w, o))
    ensures LosesRelease(cfg, w, o) ==> NeedsCordon(w.job.status.phase)
    ensures !NeedsCordon(w.job.status.phase) && NeedsCordon(w1.job.status.phase) ==>
              w.job.status.phase.Pending? && w1.cordon.unschedulable
    ensures w.job.status.phase.Rebooting? && w1.job.status.phase.Failed? ==> w1.cordon == w.cordon
  {
    if o.jobRead && !w.job.Finished() {
      var v := Decide(cfg, w.job, o);
      DecideKeeps(cfg, w.job, o, v);
      PassOutcome(cfg, w, w1, o, v);
      PassCordons(cfg, w, w1, o, v);
      ReleaseIsRecorded(cfg, w, w1, o, v);
      UnrecordedRelease(cfg, w, w1, o);
    }
  }

  lemma UnrecordedRelease(cfg: JobConfig, w: JobWorld, w1: JobWorld, o: JobObservation)
    requires w1 == JobReconcile(cfg, w, o)
    ensures LosesRelease(cfg, w, o) <==>
              NeedsCordon(w.job.status.phase) && w.cordon.ours && !w1.cordon.ours && !o.write
  {
  }

  /** Draining, upgrading or rebooting, a release whose write lands comes with a change of phase. */
  lemma ReleaseIsRecorded(cfg: JobConfig, w: JobWorld, w1: JobWorld, o: JobObservation, v: Verdict)
    requires o.jobRead && !w.job.Finished()
    requires v == Decide(cfg, w.job, o) && w1 == JobReconcile(cfg, w, o)
    ensures NeedsCordon(w.job.status.phase) && w1.cordon != w.cordon && o.write ==>
              !NeedsCordon(w1.job.status.phase) && (w.job.status.phase.Rebooting? ==> !w1.job.status.phase.Failed?)
    ensures w.job.status.phase.Rebooting? && w1.job.status.phase.Failed? ==> o.write
  {
  }

  ghost predicate CordonTold(cfg: JobConfig, ws: seq<JobWorld>, os: seq<JobObservation>, i: nat)
    requires i <= |os| < |ws|
  {
    && (NeedsCordon(ws[i].job.status.phase) ==> (ws[i].cordon.unschedulable <==> NoReleaseLost(cfg, ws, os, i)))
    && (Rank(ws[i].job.status.phase) <= Rank(Pending) ==> NoReleaseLost(cfg, ws, os, i))
  }

  lemma OneMorePass(cfg: JobConfig, ws: seq<JobWorld>, os: seq<JobObservation>, i: nat)
    requires i < |os| < |ws|
    ensures NoReleaseLost(cfg, ws, os, i + 1) <==> NoReleaseLost(cfg, ws, os, i) && !ReleaseLostAt(cfg, ws, os, i)
  {
  }

  lemma StepTellsCordon(
    cfg: JobConfig, ws: seq<JobWorld>, os: seq<JobObservation>, i: nat, i1: nat, w: JobWorld, w1: JobWorld)
    requires IsJobRun(cfg, ws, os) && i < |os| && i1 == i + 1 && w == ws[i] && w1 == ws[i1]
    requires CordonTold(cfg, ws, os, i)
    ensures CordonTold(cfg, ws, os, i1)
  {
    RunCordons(cfg, ws, os, i);
    assert PassAt(cfg, ws, os, i);
    PassHoldsCordon(cfg, ws[0].cordon, w, w1, os[i]);
    JobReconcileAdvances(cfg, w, w1, os[i]);
    OneMorePass(cfg, ws, os, i);
  }

  /** Draining, upgrading or rebooting, the node is unschedulable exactly when no release was lost before. */
  lemma {:induction false} CordonHeldIff(cfg: JobConfig, ws: seq<JobWorld>, os: seq<JobObservation>, i: nat)
    requires IsJobRun(cfg, ws, os) && i < |ws|
    ensures CordonTold(cfg, ws, os, i)
  {
    if i > 0 {
      CordonHeldIff(cfg, ws, os, i - 1);
      StepTellsCordon(cfg, ws, os, i - 1, i, ws[i - 1], ws[i]);
    }
  }

  /**
   * A node gets its upgrade only after it was seen drained; it is unschedulable then exactly when no pass since the
   * drain began gave it back without being able to record that.
   */
  lemma UpgradeOnDrainedNode(cfg: JobConfig, ws: seq<JobWorld>, os: seq<JobObservation>, i: nat)
    requires IsJobRun(cfg, ws, os) && i < |os| && AcceptedAt(ws, os, i)
    ensures exists k: nat :: k < i && DrainedAt(ws, os, k)
    ensures ws[i].cordon.unschedulable <==> NoReleaseLost(cfg, ws, os, i)
  {
    SeenDrained(cfg, ws, os, i);
    CordonHeldIff(cfg, ws, os, i);
  }

  /** Failing after the reboot leaves the node unschedulable for inspection, exactly when no release was lost. */
  lemma LateFailureKeepsCordon(cfg: JobConfig, ws: seq<JobWorld>, os: seq<JobObservation>, i: nat)
    requires IsJobRun(cfg, ws, os) && i < |os|
    requires ws[i].job.status.phase.Rebooting? && ws[i + 1].job.status.phase.Failed?
    ensures ws[i + 1].cordon.unschedulable <==> NoReleaseLost(cfg, ws, os, i)
  {
    CordonHeldIff(cfg, ws, os, i);
    RunCordons(cfg, ws, os, i);
    assert PassAt(cfg, ws, os, i);
    PassHoldsCordon(cfg, ws[0].cordon, ws[i], ws[i + 1], os[i]);
  }
}
