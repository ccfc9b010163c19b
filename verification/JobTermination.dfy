/** Every job finishes: a bound on how long it can take, whatever the node, the pods and the API answer. */
module JobTermination {
  import opened Api
  import opened Drain
  import opened JobSteps
  import opened JobRuns

  const D: int := TRANSIENT_ERROR_DEADLINE

  /** The pass reads the job and its status writes land. */
  predicate Lands(o: JobObservation) { o.jobRead && o.write && o.stampWrite }

  /** Passes come at most gap apart, the first one at most gap after t0. */
  ghost predicate Paced(os: seq<JobObservation>, t0: int, gap: int) {
    && (os != [] ==> t0 <= os[0].now <= t0 + gap)
    && (forall i :: 0 < i < |os| ==> os[i - 1].now <= os[i].now <= os[i - 1].now + gap)
  }

  /** The latest start of the run of errors that is going on at t, or of the next one. */
  function LatestErrorStart(since: Option<int>, t: int, gap: int): int {
    if since.Some? then since.value else t + gap
  }

  /** When a phase that waits until an instant is left, errors lasting as long as they are tolerated. */
  function LeavesBy(errorStart: int, until: int, gap: int): int {
    Max(errorStart, until + gap) + D + gap
  }

  /** The latest instant at which the phase is left, seen from t. */
  function Exit(cfg: JobConfig, s: JobStatus, since: Option<int>, t: int, gap: int): int {
    var start := LatestErrorStart(since, t, gap);
    match s.phase
    case New | Upgrading | UpgradingKubernetes => start + D + gap
    case Pending =>
      if s.drainStartTime.None? then start + D + gap + cfg.DrainTimeout() + D + 2 * gap
      else LeavesBy(start, s.drainStartTime.value + cfg.DrainTimeout(), gap)
    case Draining =>
      if s.drainStartTime.None? then 0 else LeavesBy(start, s.drainStartTime.value + cfg.DrainTimeout(), gap)
    case Rebooting =>
      if s.rebootStartTime.None? then 0 else LeavesBy(start, s.rebootStartTime.value + cfg.RebootTimeout(), gap)
    case ValidatingKubernetes =>
      if s.kubernetesUpgradeStartTime.None? then 0
      else LeavesBy(start, s.kubernetesUpgradeStartTime.value + cfg.KubernetesTimeout(), gap)
    case Completed | Failed => t
  }

  /** How long the phases after this one can take together. */
  function Rest(cfg: JobConfig, p: JobPhase, gap: int): int {
    var unit := D + 2 * gap;
    match p
    case New => 7 * unit + cfg.DrainTimeout() + cfg.RebootTimeout() + cfg.KubernetesTimeout()
    case Pending => 5 * unit + cfg.RebootTimeout() + cfg.KubernetesTimeout()
    case Draining => 4 * unit + cfg.RebootTimeout() + cfg.KubernetesTimeout()
    case Upgrading => 3 * unit + cfg.RebootTimeout() + cfg.KubernetesTimeout()
    case Rebooting => 2 * unit + cfg.KubernetesTimeout()
    case UpgradingKubernetes => unit + cfg.KubernetesTimeout()
    case ValidatingKubernetes | Completed | Failed => 0
  }

  function Horizon(cfg: JobConfig, w: JobWorld, t: int, gap: int): int {
    Exit(cfg, w.job.status, w.transientSince, t, gap) + Rest(cfg, w.job.status.phase, gap)
  }

  /** Seen right after the pass at t, a run of errors began by then and has not lasted longer than tolerated. */
  predicate ErrorsTolerated(since: Option<int>, t: int) { since.Some? ==> since.value <= t <= since.value + D }

  /** A waiting handler ends with Wait, or stores a blocked drain, only before its deadline. */
  lemma WaitsInTime(cfg: JobConfig, job: PatchJob, o: JobObservation, v: Verdict)
    requires StatusFits(job.target, job.status) && v == Decide(cfg, job, o) && !job.Finished()
    ensures v != Abort || !o.stampWrite
    ensures
      var s := job.status;
      v.Wait? ==>
        match s.phase
        case Draining => o.now <= s.drainStartTime.value + cfg.DrainTimeout()
        case Rebooting => o.now < s.rebootStartTime.value + cfg.RebootTimeout()
        case ValidatingKubernetes => o.now < s.kubernetesUpgradeStartTime.value + cfg.KubernetesTimeout()
        case _ => false
    ensures
      var s := job.status;
      s.phase.Pending? && v.Write? ==>
        && v.s == DrainStarted(s, o.now).(phase := v.s.phase)
        && (v.s.phase.Pending? && s.drainStartTime.Some? ==> o.now <= s.drainStartTime.value + cfg.DrainTimeout())
  {
  }

  /** The drain has not begun before the first pass in Pending. */
  predicate DrainNotBegun(s: JobStatus) { s.phase.New? ==> s.drainStartTime.None? }

  ghost predicate OnTime(cfg: JobConfig, w: JobWorld, t: int, gap: int, limit: int) {
    && StatusFits(w.job.target, w.job.status) && DrainNotBegun(w.job.status)
    && ErrorsTolerated(w.transientSince, t)
    && (w.job.Finished() || Horizon(cfg, w, t, gap) <= limit)
  }

  /** Whatever a pass finds, the phase has not outlived its exit. */
  lemma NotLate(cfg: JobConfig, w: JobWorld, t: int, now: int, gap: int)
    requires StatusFits(w.job.target, w.job.status) && ErrorsTolerated(w.transientSince, t)
    requires t <= now <= t + gap && !w.job.Finished()
    ensures now <= Exit(cfg, w.job.status, w.transientSince, t, gap)
    ensures now <= LatestErrorStart(w.transientSince, t, gap) + D + gap
  {
  }

  /** Storing a status keeps to the horizon. */
  lemma WriteOnTime(
    cfg: JobConfig, w: JobWorld, w1: JobWorld, t: int, o: JobObservation, gap: int, v: Verdict)
    requires StatusFits(w.job.target, w.job.status) && DrainNotBegun(w.job.status)
    requires ErrorsTolerated(w.transientSince, t)
    requires t <= o.now <= t + gap && !w.job.Finished() && v == Decide(cfg, w.job, o) && v.Write?
    requires w1.job.status == Completion(v.s, o.now) && w1.transientSince.None?
    ensures w1.job.Finished() || Horizon(cfg, w1, o.now, gap) <= Horizon(cfg, w, t, gap)
  {
    NotLate(cfg, w, t, o.now, gap);
    DecideKeeps(cfg, w.job, o, v);
    WaitsInTime(cfg, w.job, o, v);
  }

  /** Staying in a phase, with or without an error, keeps to the horizon. */
  lemma StayOnTime(
    cfg: JobConfig, w: JobWorld, w1: JobWorld, t: int, o: JobObservation, gap: int, v: Verdict)
    requires StatusFits(w.job.target, w.job.status) && ErrorsTolerated(w.transientSince, t)
    requires t <= o.now <= t + gap && !w.job.Finished() && v == Decide(cfg, w.job, o)
    requires w1.job.status == w.job.status
    requires (v.Wait? && w1.transientSince.None?)
             || w1.transientSince == Some(if w.transientSince.Some? then w.transientSince.value else o.now)
    ensures Horizon(cfg, w1, o.now, gap) <= Horizon(cfg, w, t, gap)
  {
    WaitsInTime(cfg, w.job, o, v);
  }

  /** A landing pass settles its verdict like this. */
  lemma LandingPass(cfg: JobConfig, w: JobWorld, w1: JobWorld, o: JobObservation, v: Verdict)
    requires Lands(o) && !w.job.Finished() && StatusFits(w.job.target, w.job.status)
    requires v == Decide(cfg, w.job, o) && w1 == JobReconcile(cfg, w, o)
    ensures v.Write? ==> w1.job.status == Completion(v.s, o.now) && w1.transientSince.None?
    ensures v.Fail? ==> w1.job.Finished() && w1.transientSince.None?
    ensures v.Wait? ==> w1.job.status == w.job.status && w1.transientSince.None?
    ensures v.Retry? && !w1.job.Finished() ==>
              var since := if w.transientSince.Some? then w.transientSince.value else o.now;
              w1.job.status == w.job.status && w1.transientSince == Some(since) && o.now - since <= D
    ensures v.Retry? && w1.job.Finished() ==> w1.transientSince.None?
    ensures v != Abort
  {
  }

  lemma PassOnTime(
    cfg: JobConfig, w: JobWorld, w1: JobWorld, t: int, o: JobObservation, gap: int, limit: int)
    requires OnTime(cfg, w, t, gap, limit) && Lands(o) && t <= o.now <= t + gap && w1 == JobReconcile(cfg, w, o)
    ensures OnTime(cfg, w1, o.now, gap, limit)
  {
    PassFits(cfg, w, w1, o);
    JobReconcileAdvances(cfg, w, w1, o);
    if !w.job.Finished() {
      var v := Decide(cfg, w.job, o);
      LandingPass(cfg, w, w1, o, v);
      DecideKeeps(cfg, w.job, o, v);
      if v.Write? {
        WriteOnTime(cfg, w, w1, t, o, gap, v);
      } else if !w1.job.Finished() {
        StayOnTime(cfg, w, w1, t, o, gap, v);
      }
    }
  }

  /** The longest a job can take from its creation to its last pass but one. */
  function Bound(cfg: JobConfig, gap: int): int {
    8 * (D + 2 * gap) + cfg.DrainTimeout() + cfg.RebootTimeout() + cfg.KubernetesTimeout()
  }

  ghost predicate AllLand(os: seq<JobObservation>) { forall o <- os :: Lands(o) }

  function LastPass(os: seq<JobObservation>, t0: int, i: nat): int
    requires i <= |os|
  {
    if i == 0 then t0 else os[i - 1].now
  }

  lemma {:induction false} RunOnTime(
    cfg: JobConfig, ws: seq<JobWorld>, os: seq<JobObservation>, t0: int, gap: nat, i: nat)
    requires IsJobRun(cfg, ws, os) && AllLand(os) && Paced(os, t0, gap) && i < |ws|
    ensures OnTime(cfg, ws[i], LastPass(os, t0, i), gap, t0 + Bound(cfg, gap))
  {
    if i > 0 {
      RunOnTime(cfg, ws, os, t0, gap, i - 1);
      assert PassAt(cfg, ws, os, i - 1) && os[i - 1] in os;
      PassOnTime(cfg, ws[i - 1], ws[i], LastPass(os, t0, i - 1), os[i - 1], gap, t0 + Bound(cfg, gap));
    }
  }

  /**
   * Created at t0 and reconciled at least every gap, with status writes that land, a job has finished by every pass
   * later than the drain, reboot and Kubernetes timeouts and eight windows of tolerated errors allow.
   */
  lemma EveryJobFinishes(
    cfg: JobConfig, ws: seq<JobWorld>, os: seq<JobObservation>, t0: int, gap: nat, i: nat)
    requires IsJobRun(cfg, ws, os) && AllLand(os) && Paced(os, t0, gap) && i < |os|
    requires os[i].now > t0 + Bound(cfg, gap)
    ensures ws[i + 1].job.Finished()
  {
    RunOnTime(cfg, ws, os, t0, gap, i + 1);
  }

  /** A job that is Draining without a drain start time never times out: no run gets it there, but a user could. */
  lemma DrainingNeedsItsStart(cfg: JobConfig, w: JobWorld, o: JobObservation)
    requires w.job.status.phase.Draining? && o.jobRead && o.plan && o.pods.Some? && !NodeDrained(o.pods.value)
    ensures w.job.status.drainStartTime.None? ==> JobReconcile(cfg, w, o) == w.(transientSince := None)
    ensures w.job.status.drainStartTime.Some? && o.write ==>
              (JobReconcile(cfg, w, o).job.Finished() <==>
                 o.now > w.job.status.drainStartTime.value + cfg.DrainTimeout())
  {
  }
}
