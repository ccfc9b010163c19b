/** The history purge: it only ever removes finished history, and nothing is scheduled once it has begun. */
module PlanPurge {
  import opened Api
  import opened Scheduling
  import opened PlanWorld
  import opened PlanSteps
  import opened PlanEffects
  import opened PlanRuns
  import opened PlanSafety

  ghost predicate AllJobsFinished(jobs: Jobs) { forall n <- jobs :: IsFinished(jobs, n) }

  /** The state a purge starts from and leaves behind wherever it is cut short. */
  ghost predicate Purgeable(cfg: Config, w: World) { PurgeDue(cfg, w.now, w.status) && AllJobsFinished(w.jobs) }

  lemma FreshListFinished(list: seq<PatchJob>, jobs: Jobs)
    requires Lists(list, jobs)
    ensures AllFinished(list) <==> AllJobsFinished(jobs)
  {
    forall n | n in jobs ensures jobs[n] in list {}
    if AllFinished(list) {
      forall n | n in jobs ensures IsFinished(jobs, n) { assert jobs[n] in list; }
    }
  }

  /** When a purge is due, the list a reconcile decides on the retention by tells whether every job has finished. */
  ghost predicate RetentionTold(cfg: Config, w: World, e: Event) {
    e.PlanReconciles? && PurgeDue(cfg, w.now, w.status) ==>
      (AllFinished(e.o.retentionJobs) <==> AllJobsFinished(w.jobs))
  }

  ghost predicate RetentionToldAt(cfg: Config, ws: seq<World>, es: seq<Event>, i: nat)
    requires |ws| == |es| + 1 && i < |es|
  {
    RetentionTold(cfg, ws[i], es[i])
  }

  ghost predicate SoundRetention(cfg: Config, ws: seq<World>, es: seq<Event>)
    requires |ws| == |es| + 1
  {
    forall i: nat :: i < |es| ==> RetentionToldAt(cfg, ws, es, i)
  }

  lemma FreshIsTold(cfg: Config, w: World, e: Event)
    requires FreshAt(w, e)
    ensures RetentionTold(cfg, w, e)
  {
    if e.PlanReconciles? {
      FreshListFinished(e.o.retentionJobs, w.jobs);
    }
  }

  lemma FreshReadsAreSound(cfg: Config, ws: seq<World>, es: seq<Event>)
    requires |ws| == |es| + 1 && FreshReads(ws, es)
    ensures SoundRetention(cfg, ws, es)
  {
    forall i: nat | i < |es| ensures RetentionToldAt(cfg, ws, es, i) {
      assert ReadsFreshAt(ws, es, i);
      FreshIsTold(cfg, ws[i], es[i]);
    }
  }

  /** A step deletes a job only as a due purge of a plan whose jobs have all finished. */
  lemma DeletesOnlyFinishedHistory(cfg: Config, groups: seq<Group>, w0: World, w1: World, e: Event)
    requires Enabled(w0, e) && RetentionTold(cfg, w0, e) && Steps(cfg, groups, w0, w1, e)
    ensures !(w0.jobs.Keys <= w1.jobs.Keys) ==> Purgeable(cfg, w0)
  {
    if e.PlanReconciles? && !Untouched(w0, w1) && !Purges(cfg, w0, w1, e.o.retentionJobs) {
      var k: nat :| Passed(cfg, groups, w0, w1, e.o, k);
    }
  }

  /** From a purgeable state no step creates a job, and the state stays purgeable. */
  lemma PurgeableStays(cfg: Config, groups: seq<Group>, w0: World, w1: World, e: Event)
    requires Enabled(w0, e) && RetentionTold(cfg, w0, e) && Steps(cfg, groups, w0, w1, e)
    requires Purgeable(cfg, w0)
    ensures Purgeable(cfg, w1) && w1.jobs.Keys <= w0.jobs.Keys
    ensures w1.status.failuresAcknowledged == w0.status.failuresAcknowledged
    ensures forall n <- w1.jobs :: w1.jobs[n] == w0.jobs[n]
  {
    if e.PlanReconciles? {
      assert Untouched(w0, w1) || Purges(cfg, w0, w1, e.o.retentionJobs);
    }
  }

  lemma {:induction false} PurgedTraceStaysFrozen(
    cfg: Config, groups: seq<Group>, ws: seq<World>, es: seq<Event>, i: nat, j: nat)
    requires IsTrace(cfg, groups, ws, es) && SoundRetention(cfg, ws, es) && i < j < |ws|
    requires !(ws[i].jobs.Keys <= ws[i + 1].jobs.Keys)
    ensures Purgeable(cfg, ws[i]) && Purgeable(cfg, ws[j])
    ensures ws[j].jobs.Keys <= ws[j - 1].jobs.Keys
  {
    assert StepAt(cfg, groups, ws, es, i) && RetentionToldAt(cfg, ws, es, i);
    DeletesOnlyFinishedHistory(cfg, groups, ws[i], ws[i + 1], es[i]);
    if j > i + 1 {
      PurgedTraceStaysFrozen(cfg, groups, ws, es, i, j - 1);
    }
    assert StepAt(cfg, groups, ws, es, j - 1) && RetentionToldAt(cfg, ws, es, j - 1);
    PurgeableStays(cfg, groups, ws[j - 1], ws[j], es[j - 1]);
  }

  /**
   * Once a job has been deleted no job is ever created again, whichever of the following API calls fail, the write
   * of HistoryPurged included, whatever the user toggles and however old the lists are that scheduling goes by: i is
   * the step that deletes and j any later one.
   */
  lemma PurgedPlanStaysFrozen(cfg: Config, ws: seq<World>, es: seq<Event>, i: nat, j: nat)
    requires IsRun(cfg, ws, es) && SoundRetention(cfg, ws, es) && i < j < |ws|
    requires !(ws[i].jobs.Keys <= ws[i + 1].jobs.Keys)
    ensures AllJobsFinished(ws[i].jobs) && PurgeDue(cfg, ws[i].now, ws[i].status)
    ensures ws[j].jobs.Keys <= ws[j - 1].jobs.Keys
  {
    RunsAreTraces(cfg, ws, es);
    PurgedTraceStaysFrozen(cfg, Groups(cfg), ws, es, i, j);
  }

  /** When all calls of a purge succeed it leaves no job behind and marks the plan. */
  lemma CompletePurgeRemovesAll(cfg: Config, groups: seq<Group>, w0: World, w1: World, o: Observation)
    requires Effect(cfg, groups, w0, w1, o) && Lists(o.retentionJobs, w0.jobs)
    requires forall n <- w0.jobs :: w0.jobs[n].node == n
    requires w1.status.historyPurged && !w0.status.historyPurged
    ensures w1.jobs == map[] && Purgeable(cfg, w0)
  {
    assert Purges(cfg, w0, w1, o.retentionJobs);
    FreshListFinished(o.retentionJobs, w0.jobs);
    var listed := set j <- o.retentionJobs :: j.node;
    forall n | n in w0.jobs ensures n in listed {
      assert w0.jobs[n] in o.retentionJobs;
    }
  }

  // ---------------------------------------------------------------- before and after the purge

  /** A step that creates a job comes before any deletion. */
  lemma KeepsJobsUntilRound(cfg: Config, groups: seq<Group>, ws: seq<World>, es: seq<Event>, j: nat)
    requires IsTrace(cfg, groups, ws, es) && SoundRetention(cfg, ws, es) && j < |es|
    requires !(ws[j + 1].jobs.Keys <= ws[j].jobs.Keys)
    ensures KeepsJobs(ws, j)
  {
    forall k: nat | k < j ensures KeepsJobsAt(ws, k) {
      if !KeepsJobsAt(ws, k) {
        PurgedTraceStaysFrozen(cfg, groups, ws, es, k, j + 1);
      }
    }
  }

  lemma FinishedIsQuiet(groups: seq<Group>, jobs: Jobs)
    requires WellFormed(groups) && AllJobsFinished(jobs)
    ensures WithinConcurrency(groups, jobs) && MajorityKept(groups, jobs)
  {
    forall i | 0 <= i < |groups| ensures |Unfinished(groups[i], jobs)| <= groups[i].concurrency {
      assert Unfinished(groups[i], jobs) == {};
    }
    QuietCount(groups, jobs);
    assert UnfinishedControlPlane(groups, jobs) == {};
  }

  /**
   * However old the lists that scheduling goes by: in every state of every run the unfinished jobs of a group are
   * within its concurrency and a majority of the control plane is left alone. Only the retention needs the jobs as they
   * are.
   */
  lemma StaleRunsWithinConcurrency(cfg: Config, ws: seq<World>, es: seq<Event>, i: nat)
    requires IsRun(cfg, ws, es) && StaleReads(ws, es) && SoundRetention(cfg, ws, es) && i < |ws|
    ensures WithinConfigured(cfg, ws[i].jobs) && MajorityKept(Groups(cfg), ws[i].jobs)
  {
    if KeepsJobs(ws, i) {
      StaleRunsAreSafe(cfg, ws, es, i);
    } else {
      var k: nat :| k < i && !KeepsJobsAt(ws, k);
      RunsAreTraces(cfg, ws, es);
      PurgedTraceStaysFrozen(cfg, Groups(cfg), ws, es, k, i);
      FinishedIsQuiet(Groups(cfg), ws[i].jobs);
      ConfiguredConcurrency(cfg, ws[i].jobs);
    }
  }
}
