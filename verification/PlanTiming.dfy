/** delayBetweenNodes over a whole run. */
module PlanTiming {
  import opened Api
  import opened Scheduling
  import opened PlanWorld
  import opened PlanSteps
  import opened PlanEffects
  import opened PlanRuns
  import opened PlanSafety
  import opened PlanPurge

  /** Step i creates a job. */
  ghost predicate CreatesAt(ws: seq<World>, i: nat)
    requires i + 1 < |ws|
  {
    !(ws[i + 1].jobs.Keys <= ws[i].jobs.Keys)
  }

  /** The plan's status shows the scheduling instant of step i. */
  ghost predicate StampedAt(ws: seq<World>, i: nat)
    requires i + 1 < |ws|
  {
    ws[i + 1].status.lastNodeScheduledAt == Some(Stored(ws[i].now))
  }

  lemma StoredKeepsOrder(a: int, b: int)
    requires a <= b
    ensures Stored(a) <= Stored(b)
  {
  }

  /** The clock and the scheduling instant only go forward. */
  lemma StepKeepsTime(cfg: Config, groups: seq<Group>, w0: World, w1: World, e: Event)
    requires Enabled(w0, e) && Steps(cfg, groups, w0, w1, e)
    ensures w0.now <= w1.now
    ensures || w1.status.lastNodeScheduledAt == w0.status.lastNodeScheduledAt
            || (w1.status.lastNodeScheduledAt == Some(Stored(w0.now)) && w1.now == w0.now)
    ensures !(w1.jobs.Keys <= w0.jobs.Keys) ==>
              && e.PlanReconciles? && DelayElapsed(cfg, w0.now, w0.status, ByNode(e.o.jobs))
              && (w1.status.lastNodeScheduledAt == Some(Stored(w0.now)) || w1.calls == 0)
  {
    if e.PlanReconciles? && !Untouched(w0, w1) && !Purges(cfg, w0, w1, e.o.retentionJobs) {
      var k: nat :| Passed(cfg, groups, w0, w1, e.o, k);
    }
  }

  lemma {:induction false} StampKept(
    cfg: Config, groups: seq<Group>, ws: seq<World>, es: seq<Event>, i: nat, j: nat)
    requires IsTrace(cfg, groups, ws, es) && i < j < |ws| && StampedAt(ws, i)
    ensures ws[i].now <= ws[j].now
    ensures ws[j].status.lastNodeScheduledAt.Some? && ws[j].status.lastNodeScheduledAt.value >= Stored(ws[i].now)
  {
    if j > i + 1 {
      StampKept(cfg, groups, ws, es, i, j - 1);
    }
    assert StepAt(cfg, groups, ws, es, j - 1);
    StepKeepsTime(cfg, groups, ws[j - 1], ws[j], es[j - 1]);
    if j > i + 1 {
      StoredKeepsOrder(ws[i].now, ws[j - 1].now);
    }
  }

  /** The instant at which a plan first started is kept. */
  lemma StepKeepsStart(cfg: Config, groups: seq<Group>, w0: World, w1: World, e: Event)
    requires Enabled(w0, e) && Steps(cfg, groups, w0, w1, e)
    ensures w0.status.startTime.Some? ==> w1.status.startTime == w0.status.startTime
  {
    if e.PlanReconciles? && !Untouched(w0, w1) && !Purges(cfg, w0, w1, e.o.retentionJobs) {
      var k: nat :| Passed(cfg, groups, w0, w1, e.o, k);
    }
  }

  lemma {:induction false} StartKept(cfg: Config, groups: seq<Group>, ws: seq<World>, es: seq<Event>, i: nat, j: nat)
    requires IsTrace(cfg, groups, ws, es) && i <= j < |ws| && ws[i].status.startTime.Some?
    ensures ws[j].status.startTime == ws[i].status.startTime
    decreases j
  {
    if i < j {
      StartKept(cfg, groups, ws, es, i, j - 1);
      assert StepAt(cfg, groups, ws, es, j - 1);
      StepKeepsStart(cfg, groups, ws[j - 1], ws[j], es[j - 1]);
    }
  }

  /** However often a plan ends, is resumed and starts again, it keeps its first start time. */
  lemma StartTimeIsKept(cfg: Config, ws: seq<World>, es: seq<Event>, i: nat, j: nat)
    requires IsRun(cfg, ws, es) && i <= j < |ws| && ws[i].status.startTime.Some?
    ensures ws[j].status.startTime == ws[i].status.startTime
  {
    RunsAreTraces(cfg, ws, es);
    StartKept(cfg, Groups(cfg), ws, es, i, j);
  }

  /**
   * Two scheduling rounds are at least delayBetweenNodes apart, counted from the whole second in which the first one
   * recorded itself; it fails to record itself only when an API call of that very reconcile failed.
   */
  lemma RoundsAreSpaced(cfg: Config, ws: seq<World>, es: seq<Event>, i: nat, j: nat)
    requires IsRun(cfg, ws, es) && i < j < |es| && CreatesAt(ws, i) && CreatesAt(ws, j)
    ensures StampedAt(ws, i) || ws[i + 1].calls == 0
    ensures StampedAt(ws, i) ==> Stored(ws[i].now) + cfg.delayBetweenNodes <= ws[j].now
    ensures StampedAt(ws, i) && ws[i].now % SECOND == 0 ==> ws[i].now + cfg.delayBetweenNodes <= ws[j].now
  {
    RunsAreTraces(cfg, ws, es);
    assert StepAt(cfg, Groups(cfg), ws, es, i);
    assert StepAt(cfg, Groups(cfg), ws, es, j);
    StepKeepsTime(cfg, Groups(cfg), ws[i], ws[i + 1], es[i]);
    StepKeepsTime(cfg, Groups(cfg), ws[j], ws[j + 1], es[j]);
    if StampedAt(ws, i) {
      StampKept(cfg, Groups(cfg), ws, es, i, j);
    }
  }

  /** Step i finishes the job of node n. */
  ghost predicate FinishesAt(ws: seq<World>, i: nat, n: string)
    requires i + 1 < |ws|
  {
    IsUnfinished(ws[i].jobs, n) && IsFinished(ws[i + 1].jobs, n)
  }

  lemma ReconcileFinishesNothing(cfg: Config, groups: seq<Group>, w0: World, w1: World, o: Observation, n: string)
    requires Effect(cfg, groups, w0, w1, o) && IsUnfinished(w0.jobs, n)
    ensures !IsFinished(w1.jobs, n)
  {
    if !Untouched(w0, w1) && !Purges(cfg, w0, w1, o.retentionJobs) {
      var k: nat :| Passed(cfg, groups, w0, w1, o, k);
    }
  }

  lemma FinishIsDated(cfg: Config, groups: seq<Group>, w0: World, w1: World, e: Event, n: string)
    requires Enabled(w0, e) && Steps(cfg, groups, w0, w1, e) && JobsFit(groups, w0.jobs)
    requires IsUnfinished(w0.jobs, n) && IsFinished(w1.jobs, n)
    ensures w1.jobs[n].status.completionTime == Some(Stored(w0.now))
  {
    if e.PlanReconciles? {
      ReconcileFinishesNothing(cfg, groups, w0, w1, e.o, n);
    }
  }

  lemma FinishedBeforeRound(cfg: Config, groups: seq<Group>, w0: World, w1: World, e: Event, n: string, finished: int)
    requires Enabled(w0, e) && Steps(cfg, groups, w0, w1, e) && JobsFit(groups, w0.jobs)
    requires e.PlanReconciles? && Lists(e.o.jobs, w0.jobs) && !(w1.jobs.Keys <= w0.jobs.Keys)
    requires n in w0.jobs && w0.jobs[n].status.completionTime == Some(finished)
    ensures finished + cfg.delayBetweenNodes <= w0.now
  {
    StepKeepsTime(cfg, groups, w0, w1, e);
    ByNodeOfList(e.o.jobs, w0.jobs);
  }

  lemma {:induction false} FinishedJobKept(
    cfg: Config, groups: seq<Group>, ws: seq<World>, es: seq<Event>, i: nat, j: nat, n: string)
    requires IsTrace(cfg, groups, ws, es) && StaleReads(ws, es) && i < j < |ws| && KeepsJobs(ws, j)
    requires FinishesAt(ws, i, n)
    ensures JobsFit(groups, ws[j].jobs)
    ensures n in ws[j].jobs && ws[j].jobs[n].status.completionTime == Some(Stored(ws[i].now))
  {
    TraceIsSafe(cfg, groups, ws, es, j);
    assert Earlier(ws[i + 1].jobs, ws[j].jobs);
    assert StepAt(cfg, groups, ws, es, i);
    FinishIsDated(cfg, groups, ws[i], ws[i + 1], es[i], n);
  }

  /** A round with a fresh job list is also at least delayBetweenNodes after every job that finished before it. */
  lemma RoundsFollowFinishedJobs(cfg: Config, ws: seq<World>, es: seq<Event>, i: nat, j: nat, n: string)
    requires IsRun(cfg, ws, es) && FreshReads(ws, es) && i < j < |es|
    requires FinishesAt(ws, i, n) && CreatesAt(ws, j)
    ensures Stored(ws[i].now) + cfg.delayBetweenNodes <= ws[j].now
  {
    RunsAreTraces(cfg, ws, es);
    FreshIsStale(ws, es);
    FreshReadsAreSound(cfg, ws, es);
    KeepsJobsUntilRound(cfg, Groups(cfg), ws, es, j);
    FinishedJobKept(cfg, Groups(cfg), ws, es, i, j, n);
    assert StepAt(cfg, Groups(cfg), ws, es, j) && ReadsFreshAt(ws, es, j);
    StepKeepsTime(cfg, Groups(cfg), ws[j], ws[j + 1], es[j]);
    FinishedBeforeRound(cfg, Groups(cfg), ws[j], ws[j + 1], es[j], n, Stored(ws[i].now));
  }

  lemma FreshIsStale(ws: seq<World>, es: seq<Event>)
    requires |ws| == |es| + 1 && FreshReads(ws, es)
    ensures StaleReads(ws, es)
  {
    forall i | 0 <= i < |es| && es[i].PlanReconciles? ensures ListsSomeEarlier(es[i].o.jobs, ws, i) {
      assert ReadsFreshAt(ws, es, i);
    }
  }
}
