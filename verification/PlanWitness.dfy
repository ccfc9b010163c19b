/** Runs in which a plan does what one would rather it did not. */
module PlanWitness {
  import opened Api
  import opened Scheduling
  import opened Rollouts
  import opened PlanWorld
  import opened PlanSteps
  import opened PlanEffects
  import opened PlanRuns
  import opened PlanProgress
  import opened PlanTiming

  // ---------------------------------------------------------------- a plan for two workers

  const A := Node("a", map[])
  const B := Node("b", map[])

  function OnlyWorkers(concurrency: int): Strategy {
    Strategy([GROUP_WORKERS], map[GROUP_WORKERS := GroupSpec(Absent, concurrency)], _ => true)
  }

  function TwoWorkers(concurrency: int, delay: int, history: int): Config {
    Config(
      TargetSpec("v1.11.5", "", false, "", "", ""), FailurePolicy(Halt, 1), delay, history, None,
      OnlyWorkers(concurrency), [A, B])
  }

  function Workers(concurrency: int): Group { Group(GROUP_WORKERS, concurrency, [A, B]) }

  lemma WorkersSorted()
    ensures Sorted(Unique([A, B])) == [A, B]
  {
    assert StringLess("a", "b");
    assert NodeLess(A, B) && StrictlySorted([A, B]) && UniquelyNamed([A, B]);
    UniqueKeepsAll([A, B]);
    SortedSorts([A, B]);
    SortedIsUnique(Sorted([A, B]), [A, B]);
  }

  lemma TwoClaimed(ms: seq<Matcher>, a: Node, b: Node)
    requires FirstMatch(ms, a) == 0 && FirstMatch(ms, b) == 0
    ensures Claimed([a, b], ms, 0) == [a, b]
  {
    assert [a, b][..1] == [a] && [a][..0] == [];
    assert Claimed([a], ms, 0) == [a];
  }

  lemma WorkersGrouped(concurrency: int, ms: seq<Matcher>)
    requires ms == [Matcher(GROUP_WORKERS, concurrency, Absent)]
    ensures GroupsOf([A, B], ms) == [Workers(concurrency)]
  {
    TwoClaimed(ms, A, B);
  }

  lemma WorkersValid(concurrency: int, s: Strategy)
    requires concurrency >= 1 && s == OnlyWorkers(concurrency)
    ensures ValidStrategy(s) && MatchersOf(s, Order(s)) == [Matcher(GROUP_WORKERS, concurrency, Absent)]
  {
  }

  lemma TwoWorkersResolve(concurrency: int, delay: int, history: int)
    requires concurrency >= 1
    ensures ValidStrategy(TwoWorkers(concurrency, delay, history).strategy)
    ensures Groups(TwoWorkers(concurrency, delay, history)) == [Workers(concurrency)]
  {
    var s := TwoWorkers(concurrency, delay, history).strategy;
    WorkersValid(concurrency, s);
    WorkersSorted();
    WorkersGrouped(concurrency, MatchersOf(s, Order(s)));
  }

  lemma {:induction false} OnlyWorkersMeansNone(ns: seq<Node>)
    requires forall n <- ns :: !IsControlPlane(n)
    ensures ControlPlaneOf(ns) == []
  {
    if ns != [] {
      OnlyWorkersMeansNone(ns[..|ns| - 1]);
    }
  }

  lemma AllWorkers(concurrency: int)
    ensures AllNodes([Workers(concurrency)]) == [A, B] && ControlPlane([Workers(concurrency)]) == []
    ensures QuorumSafe([Workers(concurrency)])
  {
    var groups := [Workers(concurrency)];
    assert groups[..0] == [];
    assert AllNodes(groups) == [] + [A, B];
    OnlyWorkersMeansNone([A, B]);
  }

  // ---------------------------------------------------------------- what a list may show

  function Job(phase: JobPhase, done: Option<int>): PatchJob {
    PatchJob("a", GROUP_WORKERS, TargetSpec("v1.11.5", "", false, "", "", ""), false,
             FRESH_STATUS.(phase := phase, completionTime := done))
  }

  /** A list without jobs, or with the job of node a only, as it was created or Completed. */
  predicate Shown(jobs: seq<PatchJob>) {
    jobs == [] || jobs == [Job(New, None)] || (|jobs| == 1 && jobs[0] == Job(Completed, jobs[0].status.completionTime))
  }

  function View(jobs: seq<PatchJob>): Jobs { if jobs == [] then map[] else map[jobs[0].node := jobs[0]] }

  lemma ViewOf(jobs: seq<PatchJob>)
    requires |jobs| <= 1
    ensures ByNode(jobs) == View(jobs) && Lists(jobs, View(jobs))
  {
    if jobs != [] {
      assert jobs[..0] == [];
    }
  }

  /** How many slots are free. */
  function Free(concurrency: int, jobs: seq<PatchJob>): int {
    concurrency - if jobs == [Job(New, None)] then 1 else 0
  }

  /** The nodes without a job. */
  function Waiting(jobs: seq<PatchJob>): seq<Node> { if jobs == [] then [A, B] else [B] }

  lemma ActiveWorkers(concurrency: int, jobs: seq<PatchJob>)
    requires Shown(jobs)
    ensures ActiveGroup([Workers(concurrency)], View(jobs)) == 0
  {
    assert B in Workers(concurrency).nodes && !IsFinished(View(jobs), B.name);
  }

  lemma TwoPending(a: Node, b: Node, view: Jobs)
    requires b.name !in view
    ensures PendingNodes([a, b], view) == if a.name in view then [b] else [a, b]
  {
    assert [a, b][..1] == [a] && [a][..0] == [];
    assert PendingNodes([a], view) == if a.name in view then [] else [a];
  }

  lemma FreeWorkers(concurrency: int, jobs: seq<PatchJob>)
    requires Shown(jobs)
    ensures FreeSlots([Workers(concurrency)], View(jobs), [], Workers(concurrency)) == Free(concurrency, jobs)
  {
    var holders := SlotHolders([Workers(concurrency)], View(jobs), [], GROUP_WORKERS);
    assert holders == if jobs == [Job(New, None)] then {"a"} else {};
  }

  // ---------------------------------------------------------------- one round

  function Watch(calls: nat, retentionJobs: seq<PatchJob>, jobs: seq<PatchJob>): Observation {
    Observation(calls, retentionJobs, jobs, [], Some(true))
  }

  const PLENTY: nat := 100

  /** The plan is on, nothing is acknowledged, and the delay has passed as far as the list shows. */
  ghost predicate Open(cfg: Config, w: World, o: Observation) {
    && !w.cancelled && !w.paused && w.status.failuresAcknowledged == 0
    && RetentionPasses(cfg, w, o.retentionJobs) && DelayElapsed(cfg, w.now, w.status, View(o.jobs))
  }

  lemma WorkersSeen(concurrency: int, delay: int, history: int, o: Observation, seen: Seen)
    requires Shown(o.jobs) && seen == Look(TwoWorkers(concurrency, delay, history), [Workers(concurrency)],
                                           View(o.jobs), o.remoteChecks)
    ensures seen.counts.failed == 0 && seen.total == 2 && seen.checked && !seen.kubeProxyDue
    ensures o.jobs == [] ==> seen.counts.completed == 0
  {
    AllWorkers(concurrency);
    assert FailedIn(NamesOf([A, B]), View(o.jobs)) == {};
    assert o.jobs == [] ==> CompletedIn(NamesOf([A, B]), View(o.jobs)) == {};
  }

  /** The nodes a round serves. */
  function Served(concurrency: int, jobs: seq<PatchJob>): seq<Node>
    requires Free(concurrency, jobs) >= 0
  {
    Waiting(jobs)[..Min(Free(concurrency, jobs), |Waiting(jobs)|)]
  }

  lemma NothingHinders(concurrency: int, delay: int, history: int, cfg: Config, w: World, o: Observation)
    requires cfg == TwoWorkers(concurrency, delay, history) && Shown(o.jobs) && Open(cfg, w, o)
    requires o == Watch(PLENTY, o.retentionJobs, o.jobs)
    ensures NothingInTheWay(cfg, [Workers(concurrency)], w, o) && CallsSuffice([Workers(concurrency)], o)
    ensures Acknowledging(cfg, w, SeenBy(cfg, [Workers(concurrency)], o).counts.failed) == 0
  {
    ViewOf(o.jobs);
    AllWorkers(concurrency);
    WorkersSeen(concurrency, delay, history, o, SeenBy(cfg, [Workers(concurrency)], o));
  }

  /** A reconcile of an open plan serves the nodes the list shows without a job, as far as it shows free slots. */
  lemma Serves(concurrency: int, delay: int, history: int, cfg: Config, w0: World, w1: World, o: Observation)
    requires concurrency >= 1 && cfg == TwoWorkers(concurrency, delay, history) && w1 == Reconcile(cfg, w0, o)
    requires Shown(o.jobs) && Free(concurrency, o.jobs) > 0 && Open(cfg, w0, o)
    requires o == Watch(PLENTY, o.retentionJobs, o.jobs)
    ensures w1.jobs == WithJobs(cfg, w0.jobs, GROUP_WORKERS, Served(concurrency, o.jobs))
    ensures RoundDone(w0, w1) && w1.status.failuresAcknowledged == 0
  {
    TwoWorkersResolve(concurrency, delay, history);
    NothingHinders(concurrency, delay, history, cfg, w0, o);
    ViewOf(o.jobs);
    ActiveWorkers(concurrency, o.jobs);
    TwoPending(A, B, View(o.jobs));
    FreeWorkers(concurrency, o.jobs);
    FreeSlotsAreFilled(cfg, w0, w1, o, [Workers(concurrency)], 0, Served(concurrency, o.jobs));
  }

  const NEW_A := Job(New, None)

  /** After a round: the plan is on, in progress, and nothing is acknowledged. */
  ghost predicate GoingOn(w: World, now: int) {
    && w.now == now && !w.cancelled && !w.paused && !IsFinishedPhase(w.status.phase)
    && w.status.failuresAcknowledged == 0 && !w.status.historyPurged
  }

  /** The first round of a plan for one worker at a time creates the job of node a. */
  lemma FirstRound(delay: int, history: int, cfg: Config, w: World, o: Observation) returns (w1: World)
    requires cfg == TwoWorkers(1, delay, history) && w.jobs == map[] && !w.status.historyPurged
    requires o == Watch(PLENTY, o.retentionJobs, []) && Open(cfg, w, o)
    ensures w1 == Reconcile(cfg, w, o) && w1.jobs == map["a" := NEW_A] && GoingOn(w1, w.now)
    ensures w1.status.lastNodeScheduledAt == Some(Stored(w.now))
  {
    w1 := Reconcile(cfg, w, o);
    Serves(1, delay, history, cfg, w, w1, o);
    assert Served(1, []) == [A];
    assert "a" in w1.jobs;
  }

  /** A round that goes by a list with the job of node a, and a slot to spare, creates the one of node b. */
  lemma SecondRound(concurrency: int, delay: int, history: int, cfg: Config, w: World, o: Observation)
    returns (w1: World)
    requires concurrency >= 1 && cfg == TwoWorkers(concurrency, delay, history) && w.jobs.Keys == {"a"}
    requires Shown(o.jobs) && o.jobs != [] && Free(concurrency, o.jobs) > 0
    requires o == Watch(PLENTY, o.retentionJobs, o.jobs) && Open(cfg, w, o)
    ensures w1 == Reconcile(cfg, w, o) && w1.jobs == w.jobs["b" := NewJob(cfg, "b", GROUP_WORKERS)]
  {
    w1 := Reconcile(cfg, w, o);
    Serves(concurrency, delay, history, cfg, w, w1, o);
    assert Served(concurrency, o.jobs) == [B];
    assert NamesOf([B]) == {"b"};
  }

  lemma CancelRound(delay: int, history: int, cfg: Config, w: World, o: Observation) returns (w1: World)
    requires cfg == TwoWorkers(1, delay, history) && Shown(o.jobs) && o == Watch(PLENTY, o.retentionJobs, o.jobs)
    requires w.cancelled && !IsFinishedPhase(w.status.phase) && w.status.failuresAcknowledged == 0
    ensures w1 == Reconcile(cfg, w, o) && w1.status.phase.Cancelled? && Ready(w, w1)
    ensures w1.status.completionTime == Some(Stored(w.now)) && w1.status.failuresAcknowledged == 0
  {
    w1 := Reconcile(cfg, w, o);
    TwoWorkersResolve(1, delay, history);
    AllWorkers(1);
    CancelTakesEffect(cfg, w, w1, o, [Workers(1)]);
  }

  // ---------------------------------------------------------------- runs, step by step

  ghost predicate IsRunTo(cfg: Config, ws: seq<World>, es: seq<Event>, w: World) {
    IsRun(cfg, ws, es) && ws[|es|] == w
  }

  /** One more step at the end of a run. */
  lemma Then(cfg: Config, ws: seq<World>, es: seq<Event>, w: World, e: Event, w1: World)
    requires IsRunTo(cfg, ws, es, w) && Enabled(w, e) && w1 == Apply(cfg, w, e)
    ensures IsRunTo(cfg, ws + [w1], es + [e], w1)
  {
    var ws1, es1 := ws + [w1], es + [e];
    forall i: nat | i < |es1| ensures MovesAt(cfg, ws1, es1, i) {
      if i < |es| {
        assert MovesAt(cfg, ws, es, i);
        assert ws1[i] == ws[i] && ws1[i + 1] == ws[i + 1] && es1[i] == es[i];
      }
    }
  }

  lemma ThenReconciles(cfg: Config, ws: seq<World>, es: seq<Event>, w: World, o: Observation, w1: World)
    returns (ws1: seq<World>, es1: seq<Event>)
    requires IsRunTo(cfg, ws, es, w) && w1 == Reconcile(cfg, w, o)
    ensures ws1 == ws + [w1] && es1 == es + [PlanReconciles(o)] && IsRunTo(cfg, ws1, es1, w1)
  {
    Then(cfg, ws, es, w, PlanReconciles(o), w1);
    ws1, es1 := ws + [w1], es + [PlanReconciles(o)];
  }

  function Start(now: int): World {
    World(now, false, false, 0, FRESH_PLAN_STATUS, map[], map[], None, 0)
  }

  lemma Begin(cfg: Config, now: int) returns (ws: seq<World>, es: seq<Event>, w: World)
    requires ValidStrategy(cfg.strategy)
    ensures ws == [w] && |es| == 0 && IsRunTo(cfg, ws, es, w)
    ensures w.status == FRESH_PLAN_STATUS && w.jobs == map[] && GoingOn(w, now)
  {
    w := Start(now);
    ws, es := [w], [];
  }

  /** A list of the jobs as they were before, at or after the first round. */
  predicate Past(list: seq<PatchJob>, done: PatchJob) { list == [] || list == [NEW_A] || list == [done] }

  /** Step i goes by such lists, and by empty ones before the first job is done. */
  predicate ReadsPastAt(es: seq<Event>, i: nat, done: PatchJob)
    requires i < |es|
  {
    es[i].PlanReconciles? ==>
      if i < 2 then es[i].o.jobs == [] && es[i].o.retentionJobs == []
      else Past(es[i].o.jobs, done) && Past(es[i].o.retentionJobs, done)
  }

  /** A run by such lists as far as w, which begins with a round that creates the job of node a, and with its end. */
  ghost predicate Reached(cfg: Config, ws: seq<World>, es: seq<Event>, done: PatchJob, w: World) {
    && IsRunTo(cfg, ws, es, w) && |es| >= 2 && done.node == "a"
    && ws[0].jobs == map[] && ws[1].jobs == map["a" := NEW_A] && ws[2].jobs == map["a" := done]
    && ws[1].status.lastNodeScheduledAt == Some(Stored(ws[0].now))
    && forall i: nat :: i < |es| ==> ReadsPastAt(es, i, done)
  }

  lemma Reach(cfg: Config, ws: seq<World>, es: seq<Event>, done: PatchJob, w: World, e: Event, w1: World)
    returns (ws1: seq<World>, es1: seq<Event>)
    requires Reached(cfg, ws, es, done, w) && Enabled(w, e) && w1 == Apply(cfg, w, e)
    requires e.PlanReconciles? ==> Past(e.o.jobs, done) && Past(e.o.retentionJobs, done)
    ensures ws1 == ws + [w1] && es1 == es + [e] && Reached(cfg, ws1, es1, done, w1)
  {
    Then(cfg, ws, es, w, e, w1);
    ws1, es1 := ws + [w1], es + [e];
    assert ws1[0] == ws[0] && ws1[1] == ws[1] && ws1[2] == ws[2];
    forall i: nat | i < |es1| ensures ReadsPastAt(es1, i, done) {
      assert i < |es| ==> es1[i] == es[i] && ReadsPastAt(es, i, done);
    }
  }

  lemma ReachBy(cfg: Config, ws: seq<World>, es: seq<Event>, done: PatchJob, w: World, o: Observation, w1: World)
    returns (ws1: seq<World>, es1: seq<Event>)
    requires Reached(cfg, ws, es, done, w) && w1 == Reconcile(cfg, w, o)
    requires Past(o.jobs, done) && Past(o.retentionJobs, done)
    ensures ws1 == ws + [w1] && es1 == es + [PlanReconciles(o)] && Reached(cfg, ws1, es1, done, w1)
  {
    ws1, es1 := Reach(cfg, ws, es, done, w, PlanReconciles(o), w1);
  }

  lemma FirstServed(delay: int, history: int, cfg: Config, now: int, o: Observation)
    returns (ws: seq<World>, es: seq<Event>, w: World)
    requires cfg == TwoWorkers(1, delay, history) && o == Watch(PLENTY, [], [])
    ensures IsRunTo(cfg, ws, es, w) && es == [PlanReconciles(o)] && ws[0].now == now && ws[0].jobs == map[]
    ensures w.jobs == map["a" := NEW_A] && GoingOn(w, now) && w.status.lastNodeScheduledAt == Some(Stored(now))
  {
    WorkersValid(1, cfg.strategy);
    var ws0, es0, w0 := Begin(cfg, now);
    w := FirstRound(delay, history, cfg, w0, o);
    ws, es := ThenReconciles(cfg, ws0, es0, w0, o, w);
  }

  /** A first round at the given instant, after which the job of node a completes. */
  lemma AFinished(delay: int, history: int, cfg: Config, now: int, o: Observation, done: PatchJob)
    returns (ws: seq<World>, es: seq<Event>, w: World)
    requires cfg == TwoWorkers(1, delay, history) && o == Watch(PLENTY, [], [])
    requires done == Job(Completed, Some(Stored(now)))
    ensures Reached(cfg, ws, es, done, w) && |es| == 2 && ws[0].now == now
    ensures w.jobs == map["a" := done] && GoingOn(w, now) && w.status.lastNodeScheduledAt == Some(Stored(now))
  {
    var ws1, es1, w1 := FirstServed(delay, history, cfg, now, o);
    w := w1.(jobs := map["a" := done]);
    assert w.jobs == w1.jobs["a" := done];
    Then(cfg, ws1, es1, w1, JobMoves(done), w);
    ws, es := ws1 + [w], es1 + [JobMoves(done)];
    assert ReadsPastAt(es, 0, done) && ReadsPastAt(es, 1, done);
  }

  lemma OpenAfter(cfg: Config, w: World, o: Observation, done: PatchJob, scheduled: int, finished: int)
    requires !w.cancelled && !w.paused && w.status.failuresAcknowledged == 0 && RetentionPasses(cfg, w, o.retentionJobs)
    requires o.jobs == [done] && done == Job(Completed, Some(finished))
    requires w.status.lastNodeScheduledAt == Some(scheduled)
    requires scheduled + cfg.delayBetweenNodes <= w.now && finished + cfg.delayBetweenNodes <= w.now
    ensures Open(cfg, w, o)
  {
  }

  // ---------------------------------------------------------------- rounds closer than the delay

  /**
   * Whatever the delay: a first round that does not fall on a whole second, although recorded, need not be waited for
   * to the end. So RoundsAreSpaced asks no more of the first round than it must.
   */
  lemma RoundsCloserThanDelay(delay: int, now: int) returns (cfg: Config, ws: seq<World>, es: seq<Event>)
    requires delay > 0 && now % SECOND != 0
    ensures IsRun(cfg, ws, es) && |es| == 4 && cfg.delayBetweenNodes == delay && ws[0].now == now
    ensures CreatesAt(ws, 0) && StampedAt(ws, 0) && CreatesAt(ws, 3)
    ensures ws[3].now < ws[0].now + delay
  {
    var done := Job(Completed, Some(Stored(now)));
    cfg := TwoWorkers(1, delay, 1);
    ws, es := CloserRounds(cfg, delay, now, Max(Stored(now) + delay - now, 0), Watch(PLENTY, [], []), done,
                           Watch(PLENTY, [], [done]));
  }

  lemma CloserRounds(
    cfg: Config, delay: int, now: int, wait: nat, o0: Observation, done: PatchJob, o3: Observation)
    returns (ws: seq<World>, es: seq<Event>)
    requires cfg == TwoWorkers(1, delay, 1) && Stored(now) + delay <= now + wait
    requires done == Job(Completed, Some(Stored(now)))
    requires o0 == Watch(PLENTY, [], []) && o3 == Watch(PLENTY, [], [done])
    ensures IsRun(cfg, ws, es) && |es| == 4 && CreatesAt(ws, 0) && StampedAt(ws, 0) && CreatesAt(ws, 3)
    ensures ws[0].now == now && ws[3].now == now + wait
  {
    var ws2, es2, w2 := AFinished(delay, 1, cfg, now, o0, done);
    var w3 := w2.(now := w2.now + wait);
    var ws3, es3 := Reach(cfg, ws2, es2, done, w2, Tick(wait), w3);
    OpenAfter(cfg, w3, o3, done, Stored(now), Stored(now));
    var w4 := SecondRound(1, delay, 1, cfg, w3, o3);
    ws, es := ReachBy(cfg, ws3, es3, done, w3, o3, w4);
    assert "a" in ws[1].jobs && "b" in ws[4].jobs && ws[3] == w3;
  }

  // ---------------------------------------------------------------- a cancelled plan that goes on

  /** A finished plan, at the given instant, with the jobs it ended with. */
  ghost predicate Finished(w: World, jobs: Jobs, now: int) {
    && w.jobs == jobs && !w.paused && w.status.phase.Cancelled? && w.status.failuresAcknowledged == 0
    && w.status.completionTime == Some(0) && w.now == now && !w.status.historyPurged
    && w.status.lastNodeScheduledAt == Some(0)
  }

  lemma UserCancels(cfg: Config, ws: seq<World>, es: seq<Event>, done: PatchJob, w: World, cancelled: bool)
    returns (ws1: seq<World>, es1: seq<Event>, w1: World)
    requires Reached(cfg, ws, es, done, w) && !w.paused
    ensures ws1 == ws + [w1] && es1 == es + [UserSets(false, cancelled)] && Reached(cfg, ws1, es1, done, w1)
    ensures w1 == w.(cancelled := cancelled, generation := w.generation + 1)
  {
    w1 := w.(cancelled := cancelled, generation := w.generation + 1);
    ws1, es1 := Reach(cfg, ws, es, done, w, UserSets(false, cancelled), w1);
  }

  /** A plan is cancelled after the first of its two jobs, and a pass ends it. */
  lemma CancelledHalfway(history: int, cfg: Config, o0: Observation, o3: Observation, done: PatchJob)
    returns (ws: seq<World>, es: seq<Event>, w: World)
    requires cfg == TwoWorkers(1, 0, history) && o0 == Watch(PLENTY, [], []) && o3 == Watch(PLENTY, [], [done])
    requires done == Job(Completed, Some(Stored(0)))
    ensures Reached(cfg, ws, es, done, w) && |es| == 4 && Finished(w, map["a" := done], 0)
  {
    var ws2, es2, w2 := AFinished(0, history, cfg, 0, o0, done);
    var ws3, es3, w3 := UserCancels(cfg, ws2, es2, done, w2, true);
    w := CancelRound(0, history, cfg, w3, o3);
    ws, es := ReachBy(cfg, ws3, es3, done, w3, o3, w);
  }

  lemma GoesOn(history: int, cfg: Config, o0: Observation, o: Observation, done: PatchJob)
    returns (ws: seq<World>, es: seq<Event>)
    requires cfg == TwoWorkers(1, 0, history) && history > 0 && done == Job(Completed, Some(Stored(0)))
    requires o0 == Watch(PLENTY, [], []) && o == Watch(PLENTY, [], [done])
    ensures IsRun(cfg, ws, es) && |es| == 6
    ensures ws[4].status.phase.Cancelled? && es[4] == UserSets(false, false) && CreatesAt(ws, 5)
  {
    var ws4, es4, w4 := CancelledHalfway(history, cfg, o0, o, done);
    var ws5, es5, w5 := UserCancels(cfg, ws4, es4, done, w4, false);
    OpenAfter(cfg, w5, o, done, 0, 0);
    var w6 := SecondRound(1, 0, history, cfg, w5, o);
    ws, es := ReachBy(cfg, ws5, es5, done, w5, o, w6);
    assert ws[4] == w4 && ws[5] == w5 && ws[6] == w6 && es[4] == es5[4];
    assert "b" in w6.jobs;
  }

  /** A run in which a plan is Cancelled, and creates a job once its user clears cancelled again. */
  lemma CancelledPlanGoesOn() returns (cfg: Config, ws: seq<World>, es: seq<Event>)
    ensures IsRun(cfg, ws, es) && |es| == 6
    ensures ws[4].status.phase.Cancelled? && es[4] == UserSets(false, false) && CreatesAt(ws, 5)
  {
    cfg := TwoWorkers(1, 0, DAY);
    var done := Job(Completed, Some(Stored(0)));
    ws, es := GoesOn(DAY, cfg, Watch(PLENTY, [], []), Watch(PLENTY, [], [done]), done);
  }

  // ---------------------------------------------------------------- a round left unrecorded

  /** With seven calls left after the nodes were listed, a new plan gets as far as scheduling with two of them. */
  lemma NewPlanPrepares(cfg: Config, groups: seq<Group>, w: World, o: Observation, seen: Seen) returns (w1: World)
    requires w.calls == 7 && w.status == FRESH_PLAN_STATUS && !w.cancelled && !w.paused
    requires cfg.maintenance.None? && o.jobs == [] && o.leases == []
    requires seen == Look(cfg, groups, map[], Some(true)) && o.remoteChecks == Some(true)
    requires seen.counts.failed == 0 && seen.counts.completed == 0 && seen.total == 2 && seen.checked
    requires !seen.kubeProxyDue
    ensures Prepare(cfg, groups, w, o) == Next(w1) && w1.calls == 2 && w1.status.phase.PlanPending?
    ensures w1 == w.(calls := 2, status := w1.status) && w1.status.lastNodeScheduledAt.None?
    ensures w1.status.failuresAcknowledged == 0 && !w1.status.historyPurged
  {
    var c := w.(calls := 5);
    var progress := Summarized(cfg, groups, map[], []);
    assert SyncLeases(groups, w.(calls := 6), [], []) == Next(c);
    var w2 := NewPlanCounts(c, progress);
    w1 := NewPlanAdmitted(cfg, w2, seen);
  }

  lemma NewPlanCounts(w: World, progress: Progress) returns (w1: World)
    requires w.calls == 5 && w.status == FRESH_PLAN_STATUS && progress.totalNodes == 2 && progress.counts.failed == 0
    ensures SyncStatus(w, progress) == Next(w1)
    ensures w1 == w.(calls := 4, status := FRESH_PLAN_STATUS.(progress := progress))
  {
    w1 := SyncStatus(w, progress).w;
  }

  lemma NewPlanAdmitted(cfg: Config, w: World, seen: Seen) returns (w1: World)
    requires w.calls == 4 && w.status == FRESH_PLAN_STATUS.(progress := w.status.progress)
    requires !w.cancelled && !w.paused && cfg.maintenance.None?
    requires !seen.started && seen.counts.failed == 0 && seen.counts.completed == 0 && seen.total == 2
    requires seen.checked && !seen.kubeProxyDue && seen.remoteChecks == Some(true)
    ensures Admit(cfg, w, seen) == Next(w1) && Proceed(cfg, w1, seen) == Next(w1)
    ensures w1 == w.(calls := 2, status := w1.status) && w1.status.phase.PlanPending?
    ensures w1.status.lastNodeScheduledAt.None? && w1.status.failuresAcknowledged == 0 && !w1.status.historyPurged
  {
    w1 := Admit(cfg, w, seen).w;
  }

  /** With two calls left a round creates its first job, and neither its Lease nor the scheduling instant. */
  lemma RoundCutShort(cfg: Config, w: World, group: string, nodes: seq<Node>) returns (w1: World)
    requires w.calls == 2 && w.status.phase.PlanPending? && w.jobs == map[] && nodes == [A, B]
    ensures w1 == StartRound(cfg, w, false, group, nodes).w
    ensures w1.jobs == map["a" := NewJob(cfg, "a", group)] && w1.calls == 0
    ensures w1 == w.(jobs := w1.jobs, status := w1.status, calls := 0)
    ensures w1.status.phase.InProgress? && w1.status == w.status.(
                                                          phase := InProgress, startTime := w1.status.startTime,
                                                          completionTime := None)
  {
    w1 := StartRound(cfg, w, false, group, nodes).w;
  }

  lemma CutRound(delay: int, cfg: Config, groups: seq<Group>, w: World, w1: World)
    requires cfg == TwoWorkers(2, delay, 1) && groups == [Workers(2)]
    requires w.calls == 2 && w.status.phase.PlanPending? && w.status.lastNodeScheduledAt.None? && w.jobs == map[]
    requires w1 == ScheduleNodes(cfg, groups, w, map[], []).w
    ensures w1.jobs == map["a" := NEW_A] && w1.status.phase.InProgress?
    ensures w1 == w.(jobs := w1.jobs, status := w1.status, calls := 0)
    ensures w1.status.lastNodeScheduledAt.None? && w1.status.historyPurged == w.status.historyPurged
    ensures w1.status.failuresAcknowledged == w.status.failuresAcknowledged
  {
    ActiveWorkers(2, []);
    TwoPending(A, B, map[]);
    FreeWorkers(2, []);
    assert [A, B][..2] == [A, B];
    var w2 := RoundCutShort(cfg, w, GROUP_WORKERS, [A, B]);
  }

  lemma CutReconcile(delay: int, cfg: Config, w: World, o: Observation) returns (w1: World)
    requires cfg == TwoWorkers(2, delay, 1) && o == Watch(9, [], [])
    requires w.status == FRESH_PLAN_STATUS && !w.cancelled && !w.paused && w.jobs == map[]
    ensures w1 == Reconcile(cfg, w, o)
    ensures w1.jobs == map["a" := NEW_A] && GoingOn(w1, w.now) && w1.status.lastNodeScheduledAt.None?
  {
    var groups, c := [Workers(2)], w.(calls := 7);
    TwoWorkersResolve(2, delay, 1);
    var seen := Look(cfg, groups, map[], Some(true));
    WorkersSeen(2, delay, 1, o, seen);
    var w2 := NewPlanPrepares(cfg, groups, c, o, seen);
    w1 := FreshPlanPasses(cfg, groups, w, w2, o);
    CutRound(delay, cfg, groups, w2, w1);
  }

  lemma FreshPlanPasses(cfg: Config, groups: seq<Group>, w: World, w2: World, o: Observation) returns (w1: World)
    requires o.calls == 9 && w.status.phase.Unset? && o.jobs == [] && o.leases == []
    requires ValidStrategy(cfg.strategy) && groups == Groups(cfg)
    requires Prepare(cfg, groups, w.(calls := 7), o) == Next(w2)
    ensures w1 == Reconcile(cfg, w, o) && w1 == ScheduleNodes(cfg, groups, w2, map[], []).w
  {
    w1 := Reconcile(cfg, w, o);
    RetentionThenPass(cfg, groups, w, w1, o, w.(calls := 8), w.(calls := 7));
  }

  lemma UnrecordedFirst(delay: int, cfg: Config, o: Observation)
    returns (ws: seq<World>, es: seq<Event>, w: World)
    requires cfg == TwoWorkers(2, delay, 1) && o == Watch(9, [], [])
    ensures IsRunTo(cfg, ws, es, w) && |es| == 1 && ws[0].jobs == map[] && ws[0].now == w.now
    ensures w.jobs == map["a" := NEW_A] && GoingOn(w, w.now) && w.status.lastNodeScheduledAt.None?
  {
    WorkersValid(2, cfg.strategy);
    var ws0, es0, w0 := Begin(cfg, 0);
    w := CutReconcile(delay, cfg, w0, o);
    ws, es := ThenReconciles(cfg, ws0, es0, w0, o, w);
  }

  lemma SecondSoon(delay: int, cfg: Config, o0: Observation, o1: Observation)
    returns (ws: seq<World>, es: seq<Event>)
    requires cfg == TwoWorkers(2, delay, 1) && o0 == Watch(9, [], []) && o1 == Watch(PLENTY, [NEW_A], [NEW_A])
    ensures IsRun(cfg, ws, es) && |es| == 2 && CreatesAt(ws, 0) && !StampedAt(ws, 0) && CreatesAt(ws, 1)
    ensures ws[1].now == ws[0].now
  {
    var ws1, es1, w1 := UnrecordedFirst(delay, cfg, o0);
    var w2 := SecondRound(2, delay, 1, cfg, w1, o1);
    ws, es := ThenReconciles(cfg, ws1, es1, w1, o1, w2);
    assert ws[0] == ws1[0] && ws[1] == w1 && ws[2] == w2;
    assert "a" in w1.jobs && "b" in w2.jobs;
  }

  /**
   * A run in which the first round creates a job and records nothing, its next call having failed, and the second one
   * follows at the same instant although a second is asked for.
   */
  lemma UnrecordedRoundIsNotWaitedFor() returns (cfg: Config, ws: seq<World>, es: seq<Event>)
    ensures IsRun(cfg, ws, es) && |es| == 2 && CreatesAt(ws, 0) && !StampedAt(ws, 0) && CreatesAt(ws, 1)
    ensures ws[1].now < ws[0].now + cfg.delayBetweenNodes
  {
    cfg := TwoWorkers(2, SECOND, 1);
    ws, es := SecondSoon(SECOND, cfg, Watch(9, [], []), Watch(PLENTY, [NEW_A], [NEW_A]));
  }

  // ---------------------------------------------------------------- an outdated retention list

  /** The two calls of a purge that delete the listed job succeed, and HistoryPurged is not written. */
  lemma PurgeCutShort(cfg: Config, w: World, o: Observation, done: PatchJob) returns (w1: World)
    requires cfg.history == 1 && o == Watch(3, [done], []) && done.Finished() && done.node == "a"
    requires Finished(w, map["a" := done], SECOND)
    ensures w1 == Reconcile(cfg, w, o) && Finished(w1, map[], SECOND) && w1.cancelled == w.cancelled
  {
    w1 := Reconcile(cfg, w, o);
    var c, f := w.(calls := 1), w.(jobs := map[], calls := 0);
    assert [done][1..] == [];
    assert DeleteJobs(c, [done]) == Next(f);
    assert ApplyRetention(cfg, w.(calls := 2), [done]) == Stop(f);
  }

  /** Its history is purged but for the mark, and cancelled is cleared. */
  lemma PurgedHalfway(cfg: Config, o0: Observation, o3: Observation, o5: Observation, done: PatchJob)
    returns (ws: seq<World>, es: seq<Event>, w: World)
    requires cfg == TwoWorkers(1, 0, 1) && o0 == Watch(PLENTY, [], []) && o3 == Watch(PLENTY, [], [done])
    requires done == Job(Completed, Some(Stored(0))) && o5 == Watch(3, [done], [])
    ensures Reached(cfg, ws, es, done, w) && |es| == 7 && Finished(w, map[], SECOND) && !w.cancelled
  {
    var ws4, es4, w4 := CancelledHalfway(1, cfg, o0, o3, done);
    var w5 := w4.(now := w4.now + SECOND);
    var ws5, es5 := Reach(cfg, ws4, es4, done, w4, Tick(SECOND), w5);
    var w6 := PurgeCutShort(cfg, w5, o5, done);
    var ws6, es6 := ReachBy(cfg, ws5, es5, done, w5, o5, w6);
    ws, es, w := UserCancels(cfg, ws6, es6, done, w6, false);
  }

  /** An outdated retention list lets the purged plan begin anew, and an outdated job list lets it go too far. */
  lemma TooManyAtOnce(cfg: Config, o7: Observation, o8: Observation, done: PatchJob)
    returns (ws: seq<World>, es: seq<Event>, w: World)
    requires cfg == TwoWorkers(1, 0, 1) && done == Job(Completed, Some(Stored(0)))
    requires o7 == Watch(PLENTY, [NEW_A], []) && o8 == Watch(PLENTY, [], [done])
    ensures Reached(cfg, ws, es, done, w) && |es| == 9
    ensures w.jobs == map["a" := NEW_A]["b" := NewJob(cfg, "b", GROUP_WORKERS)]
  {
    var ws7, es7, w7 := PurgedHalfway(
      cfg, Watch(PLENTY, [], []), Watch(PLENTY, [], [done]), Watch(3, [done], []), done);
    assert NEW_A in o7.retentionJobs && !NEW_A.Finished();
    var w8 := FirstRound(0, 1, cfg, w7, o7);
    var ws8, es8 := ReachBy(cfg, ws7, es7, done, w7, o7, w8);
    OpenAfter(cfg, w8, o8, done, SECOND, 0);
    w := SecondRound(1, 0, 1, cfg, w8, o8);
    ws, es := ReachBy(cfg, ws8, es8, done, w8, o8, w);
  }

  lemma BothUnfinished(cfg: Config, jobs: Jobs)
    requires cfg == TwoWorkers(1, 0, 1) && jobs == map["a" := NEW_A]["b" := NewJob(cfg, "b", GROUP_WORKERS)]
    ensures !WithinConcurrency([Workers(1)], jobs)
  {
    var groups := [Workers(1)];
    assert Unfinished(groups[0], jobs) == {"a", "b"};
  }

  /** All lists of such a run are from some earlier point of it, those for the retention as well. */
  lemma PastIsEarlier(
    cfg: Config, ws: seq<World>, es: seq<Event>, done: PatchJob, w: World, i: nat, list: seq<PatchJob>)
    requires Reached(cfg, ws, es, done, w) && i < |es| && (if i < 2 then list == [] else Past(list, done))
    ensures ListsSomeEarlier(list, ws, i)
  {
    ViewOf(list);
    var k := if list == [] then 0 else if list == [NEW_A] then 1 else 2;
    assert Lists(list, ws[k].jobs);
  }

  lemma ReachedIsStale(cfg: Config, ws: seq<World>, es: seq<Event>, done: PatchJob, w: World)
    requires Reached(cfg, ws, es, done, w)
    ensures StaleReads(ws, es)
    ensures forall i :: 0 <= i < |es| && es[i].PlanReconciles? ==> ListsSomeEarlier(es[i].o.retentionJobs, ws, i)
  {
    forall i | 0 <= i < |es| && es[i].PlanReconciles?
      ensures ListsSomeEarlier(es[i].o.jobs, ws, i) && ListsSomeEarlier(es[i].o.retentionJobs, ws, i)
    {
      assert ReadsPastAt(es, i, done);
      PastIsEarlier(cfg, ws, es, done, w, i, es[i].o.jobs);
      PastIsEarlier(cfg, ws, es, done, w, i, es[i].o.retentionJobs);
    }
  }

  /**
   * A run by lists from earlier points of it, the retention lists included, in which two jobs of a group that allows
   * one are unfinished: a purge deletes the jobs and fails to mark the plan, and a list from before they had finished
   * keeps the next pass from purging on.
   */
  lemma OldRetentionListExceedsConcurrency() returns (cfg: Config, ws: seq<World>, es: seq<Event>)
    ensures IsRun(cfg, ws, es) && StaleReads(ws, es) && |es| == 9
    ensures forall i :: 0 <= i < 9 && es[i].PlanReconciles? ==> ListsSomeEarlier(es[i].o.retentionJobs, ws, i)
    ensures !WithinConcurrency(Groups(cfg), ws[9].jobs)
  {
    var done := Job(Completed, Some(Stored(0)));
    cfg := TwoWorkers(1, 0, 1);
    var w: World;
    ws, es, w := TooManyAtOnce(cfg, Watch(PLENTY, [NEW_A], []), Watch(PLENTY, [], [done]), done);
    TwoWorkersResolve(1, 0, 1);
    BothUnfinished(cfg, w.jobs);
    ReachedIsStale(cfg, ws, es, done, w);
  }
}
