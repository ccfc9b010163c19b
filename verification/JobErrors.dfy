/** Transient errors fail a job only once they have persisted. */
module JobErrors {
  import opened Api
  import opened JobSteps
  import opened JobRuns

  /** The pass ends without an error. */
  predicate EndsWell(cfg: JobConfig, w: JobWorld, o: JobObservation) {
    && o.jobRead
    && (w.job.Finished()
        || match Decide(cfg, w.job, o)
           case Wait => true
           case Write(_) => o.write
           case Fail(_) => o.write
           case Retry(_) => o.write && PersistedAt(w, o)
           case Abort => false)
  }

  /** At this pass a run of errors has lasted longer than is tolerated. */
  predicate PersistedAt(w: JobWorld, o: JobObservation) {
    w.transientSince.Some? && o.now - w.transientSince.value > TRANSIENT_ERROR_DEADLINE
  }

  /** Pass k runs into an error that may go away. */
  predicate RetriesAt(cfg: JobConfig, ws: seq<JobWorld>, os: seq<JobObservation>, k: nat)
    requires k < |os| < |ws|
  {
    os[k].jobRead && !ws[k].job.Finished() && Decide(cfg, ws[k].job, os[k]).Retry?
  }

  predicate EndsWellAt(cfg: JobConfig, ws: seq<JobWorld>, os: seq<JobObservation>, k: nat)
    requires k < |os| < |ws|
  {
    EndsWell(cfg, ws[k], os[k])
  }

  /** Pass k ran into such an error, and no pass from it up to i ended well. */
  predicate FailingSince(cfg: JobConfig, ws: seq<JobWorld>, os: seq<JobObservation>, k: nat, i: nat)
    requires k < i <= |os| < |ws|
  {
    RetriesAt(cfg, ws, os, k) && forall m: nat :: k <= m < i ==> !EndsWellAt(cfg, ws, os, m)
  }

  lemma PassRemembers(cfg: JobConfig, w: JobWorld, w1: JobWorld, o: JobObservation)
    requires w1 == JobReconcile(cfg, w, o)
    ensures EndsWell(cfg, w, o) ==> w1.transientSince.None?
    ensures !EndsWell(cfg, w, o) ==>
              || w1.transientSince == w.transientSince
              || (&& w.transientSince.None? && w1.transientSince == Some(o.now)
                  && o.jobRead && !w.job.Finished() && Decide(cfg, w.job, o).Retry?)
    ensures !EndsWell(cfg, w, o) && o.jobRead && !w.job.Finished() && Decide(cfg, w.job, o).Retry? ==>
              w1.transientSince.Some?
  {
  }

  /** The start of a run of errors a job remembers is the instant of the error that began it. */
  lemma {:induction false} RememberedStart(cfg: JobConfig, ws: seq<JobWorld>, os: seq<JobObservation>, i: nat)
    returns (k: nat)
    requires IsJobRun(cfg, ws, os) && i < |ws| && ws[i].transientSince.Some?
    ensures k < i && FailingSince(cfg, ws, os, k, i) && os[k].now == ws[i].transientSince.value
  {
    assert i > 0;
    assert PassAt(cfg, ws, os, i - 1);
    PassRemembers(cfg, ws[i - 1], ws[i], os[i - 1]);
    assert !EndsWellAt(cfg, ws, os, i - 1);
    if ws[i - 1].transientSince.Some? {
      k := RememberedStart(cfg, ws, os, i - 1);
    } else {
      k := i - 1;
    }
  }

  predicate ClockAdvances(os: seq<JobObservation>) { forall i, j :: 0 <= i < j < |os| ==> os[i].now <= os[j].now }

  /** An unbroken run of errors is remembered from no later than any of its retries. */
  lemma {:induction false} ErrorsRemembered(
    cfg: JobConfig, ws: seq<JobWorld>, os: seq<JobObservation>, k: nat, i: nat)
    requires IsJobRun(cfg, ws, os) && k < i <= |os| && ClockAdvances(os) && FailingSince(cfg, ws, os, k, i)
    ensures ws[i].transientSince.Some? && ws[i].transientSince.value <= os[k].now
    decreases i
  {
    assert PassAt(cfg, ws, os, i - 1) && !EndsWellAt(cfg, ws, os, i - 1);
    PassRemembers(cfg, ws[i - 1], ws[i], os[i - 1]);
    if i - 1 > k {
      ErrorsRemembered(cfg, ws, os, k, i - 1);
    } else if ws[i - 1].transientSince.Some? {
      var first := RememberedStart(cfg, ws, os, i - 1);
    }
  }

  /**
   * A pass that runs into an error that may go away fails the job exactly when passes have been failing without a break
   * for longer than the deadline.
   */
  lemma FailsOnPersistentErrors(cfg: JobConfig, ws: seq<JobWorld>, os: seq<JobObservation>, i: nat)
    requires IsJobRun(cfg, ws, os) && i < |os| && ClockAdvances(os) && RetriesAt(cfg, ws, os, i) && os[i].write
    ensures ws[i + 1].job.status.phase.Failed? <==>
              exists k: nat :: k < i && FailingSince(cfg, ws, os, k, i)
                               && os[i].now - os[k].now > 5 * 60 * 1_000_000_000
  {
    assert PassAt(cfg, ws, os, i);
    DecideKeeps(cfg, ws[i].job, os[i], Decide(cfg, ws[i].job, os[i]));
    assert ws[i + 1].job.status.phase.Failed? <==> PersistedAt(ws[i], os[i]);
    if ws[i + 1].job.status.phase.Failed? {
      var k := RememberedStart(cfg, ws, os, i);
    }
    if k: nat :| k < i && FailingSince(cfg, ws, os, k, i) && os[i].now - os[k].now > 5 * 60 * 1_000_000_000 {
      ErrorsRemembered(cfg, ws, os, k, i);
    }
  }

}
