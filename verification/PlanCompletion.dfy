/** A rollout completes within as many unobstructed passes as its groups need batches, whatever happens in between. */
module PlanCompletion {
  import opened Api
  import opened Scheduling
  import opened Rollouts
  import opened PlanWorld
  import opened PlanSteps
  import opened PlanRuns
  import opened PlanSafety
  import opened PlanPurge
  import opened PlanProgress
  import opened PlanSlots

  // ---------------------------------------------------------------- batches

  /** How many batches of that size count nodes make. */
  function Batches(count: nat, size: int): nat {
    if count == 0 then 0 else 1 + Batches(count - Min(count, Max(size, 1)), size)
  }

  lemma {:induction false} FewerBatches(a: nat, b: nat, size: int)
    requires a <= b
    ensures Batches(a, size) <= Batches(b, size) <= b
  {
    if b > 0 {
      var s := Max(size, 1);
      FewerBatches(a - Min(a, s), b - Min(b, s), size);
    }
  }

  ghost function Missing(g: Group, jobs: Jobs): set<string> { MissingIn(NamesOf(g.nodes), jobs) }

  /** The batches the nodes without a job make, group by group. */
  ghost function BatchesLeft(groups: seq<Group>, jobs: Jobs): nat {
    if groups == [] then 0
    else
      var last := groups[|groups| - 1];
      BatchesLeft(groups[..|groups| - 1], jobs) + Batches(|Missing(last, jobs)|, last.concurrency)
  }

  lemma {:induction false} MoreJobsFewerBatches(groups: seq<Group>, jobs0: Jobs, jobs1: Jobs)
    requires jobs0.Keys <= jobs1.Keys
    ensures BatchesLeft(groups, jobs1) <= BatchesLeft(groups, jobs0)
  {
    if groups != [] {
      var last := groups[|groups| - 1];
      MoreJobsFewerBatches(groups[..|groups| - 1], jobs0, jobs1);
      SubsetSize(Missing(last, jobs1), Missing(last, jobs0));
      FewerBatches(|Missing(last, jobs1)|, |Missing(last, jobs0)|, last.concurrency);
    }
  }

  /** jobs1 has jobs for a whole batch of the group more than jobs0, or for all of its nodes. */
  ghost predicate BatchServed(g: Group, jobs0: Jobs, jobs1: Jobs) {
    var count := |Missing(g, jobs0)|;
    count > 0 && g.concurrency >= 1 && |Missing(g, jobs1)| == count - Min(count, g.concurrency)
  }

  lemma {:induction false} OneBatchFewer(groups: seq<Group>, i: nat, jobs0: Jobs, jobs1: Jobs)
    requires i < |groups| && jobs0.Keys <= jobs1.Keys && BatchServed(groups[i], jobs0, jobs1)
    ensures BatchesLeft(groups, jobs1) < BatchesLeft(groups, jobs0)
  {
    var init, last := groups[..|groups| - 1], groups[|groups| - 1];
    if i < |init| {
      OneBatchFewer(init, i, jobs0, jobs1);
      SubsetSize(Missing(last, jobs1), Missing(last, jobs0));
      FewerBatches(|Missing(last, jobs1)|, |Missing(last, jobs0)|, last.concurrency);
    } else {
      MoreJobsFewerBatches(init, jobs0, jobs1);
    }
  }

  /** A rollout has no more batches than nodes. */
  lemma {:induction false} BatchesAtMostNodes(groups: seq<Group>, jobs: Jobs)
    ensures BatchesLeft(groups, jobs) <= |AllNodes(groups)|
  {
    if groups != [] {
      var last := groups[|groups| - 1];
      BatchesAtMostNodes(groups[..|groups| - 1], jobs);
      NamesAtMost(last.nodes);
      SubsetSize(Missing(last, jobs), NamesOf(last.nodes));
      FewerBatches(0, |Missing(last, jobs)|, last.concurrency);
    }
  }

  // ---------------------------------------------------------------- one unobstructed pass

  /** The guards are open, every call succeeds, the list is up to date, nobody is at work and the delay has passed. */
  ghost predicate Unobstructed(cfg: Config, groups: seq<Group>, w: World, o: Observation) {
    && NothingInTheWay(cfg, groups, w, o) && CallsSuffice(groups, o)
    && Lists(o.jobs, w.jobs) && AllJobsFinished(w.jobs) && DelayElapsed(cfg, w.now, w.status, w.jobs)
  }

  lemma {:induction false} PendingNames(nodes: seq<Node>, view: Jobs)
    requires UniquelyNamed(nodes)
    ensures NamesOf(PendingNodes(nodes, view)) == MissingIn(NamesOf(nodes), view)
    ensures |PendingNodes(nodes, view)| == |MissingIn(NamesOf(nodes), view)|
    ensures UniquelyNamed(PendingNodes(nodes, view))
  {
    PendingUniquelyNamed(nodes, view);
    NamesCount(PendingNodes(nodes, view));
    forall n | n in MissingIn(NamesOf(nodes), view) ensures n in NamesOf(PendingNodes(nodes, view)) {
      var m :| m in nodes && m.name == n;
      assert m in PendingNodes(nodes, view);
    }
  }

  /** Jobs for the first of the pending nodes, as many as the group may have at once, are one batch. */
  lemma FirstPendingAreBatch(
    g: Group, jobs0: Jobs, jobs1: Jobs, pending: seq<Node>, batch: seq<Node>)
    requires UniquelyNamed(g.nodes) && pending == PendingNodes(g.nodes, jobs0) && pending != [] && g.concurrency >= 1
    requires batch == pending[..Min(g.concurrency, |pending|)] && jobs1.Keys == jobs0.Keys + NamesOf(batch)
    ensures BatchServed(g, jobs0, jobs1)
  {
    PendingNames(g.nodes, jobs0);
    PrefixIsBatch(g, jobs0, jobs1, pending, batch);
  }

  lemma PrefixIsBatch(g: Group, jobs0: Jobs, jobs1: Jobs, pending: seq<Node>, batch: seq<Node>)
    requires UniquelyNamed(pending) && pending != [] && g.concurrency >= 1
    requires NamesOf(pending) == Missing(g, jobs0) && |pending| == |Missing(g, jobs0)|
    requires batch == pending[..Min(g.concurrency, |pending|)] && jobs1.Keys == jobs0.Keys + NamesOf(batch)
    ensures BatchServed(g, jobs0, jobs1)
  {
    PrefixNames(pending, |batch|, batch);
    FewerMissing(g, jobs0, jobs1, NamesOf(batch));
  }

  lemma PrefixNames(nodes: seq<Node>, k: nat, prefix: seq<Node>)
    requires k <= |nodes| && UniquelyNamed(nodes) && prefix == nodes[..k]
    ensures NamesOf(prefix) <= NamesOf(nodes) && |NamesOf(prefix)| == k
  {
    forall n | n in prefix ensures n in nodes {
    }
    NamesCount(prefix);
  }

  lemma FewerMissing(g: Group, jobs0: Jobs, jobs1: Jobs, served: set<string>)
    requires jobs1.Keys == jobs0.Keys + served && served <= Missing(g, jobs0)
    ensures |Missing(g, jobs1)| == |Missing(g, jobs0)| - |served|
  {
    assert Missing(g, jobs1) == Missing(g, jobs0) - served;
  }

  /** With nobody at work every slot of the active group is free, and it has a node without a job. */
  lemma IdleGroupIsServable(cfg: Config, groups: seq<Group>, w: World, leases: seq<string>, i: nat)
    requires WellFormed(groups) && i == ActiveGroup(groups, w.jobs) < |groups| && AllJobsFinished(w.jobs)
    requires DelayElapsed(cfg, w.now, w.status, w.jobs)
    ensures Servable(cfg, groups, w, w.jobs, leases, i)
    ensures FreeSlots(groups, w.jobs, leases, groups[i]) == groups[i].concurrency
  {
    var n :| n in groups[i].nodes && !IsFinished(w.jobs, n.name);
    assert n in PendingNodes(groups[i].nodes, w.jobs);
    assert SlotHolders(groups, w.jobs, leases, groups[i].name) == {};
  }

  /** An unobstructed pass completes the plan or serves a batch. */
  lemma UnobstructedPass(cfg: Config, groups: seq<Group>, w0: World, w1: World, o: Observation)
    requires ValidStrategy(cfg.strategy) && groups == Groups(cfg) && WellFormed(groups) && w1 == Reconcile(cfg, w0, o)
    requires Unobstructed(cfg, groups, w0, o) && ByNode(o.jobs) == w0.jobs
    ensures w1.status.phase.PlanCompleted? || BatchesLeft(groups, w1.jobs) < BatchesLeft(groups, w0.jobs)
  {
    var i := ActiveGroup(groups, w0.jobs);
    if i == |groups| {
      CompletesWhenAllFinished(cfg, w0, w1, o, groups);
    } else {
      var batch := UnobstructedRound(cfg, groups, w0, w1, o, i);
      FirstPendingAreBatch(groups[i], w0.jobs, w1.jobs, PendingNodes(groups[i].nodes, w0.jobs), batch);
      OneBatchFewer(groups, i, w0.jobs, w1.jobs);
    }
  }

  lemma UnobstructedRound(cfg: Config, groups: seq<Group>, w0: World, w1: World, o: Observation, i: nat)
    returns (batch: seq<Node>)
    requires ValidStrategy(cfg.strategy) && groups == Groups(cfg) && WellFormed(groups) && w1 == Reconcile(cfg, w0, o)
    requires Unobstructed(cfg, groups, w0, o) && ByNode(o.jobs) == w0.jobs
    requires i == ActiveGroup(groups, w0.jobs) < |groups|
    ensures
      var pending := PendingNodes(groups[i].nodes, w0.jobs);
      pending != [] && batch == pending[..Min(groups[i].concurrency, |pending|)]
    ensures w1.jobs.Keys == w0.jobs.Keys + NamesOf(batch)
  {
    IdleGroupIsServable(cfg, groups, w0, o.leases, i);
    batch := Batch(groups, w0.jobs, o.leases, i);
    FreeSlotsAreFilled(cfg, w0, w1, o, groups, i, batch);
    WithJobsKeys(cfg, w0.jobs, groups[i].name, batch, w1.jobs);
  }

  // ---------------------------------------------------------------- over a run

  ghost predicate UnobstructedAt(cfg: Config, ws: seq<World>, es: seq<Event>, i: nat)
    requires |ws| == |es| + 1 && i < |es| && ValidStrategy(cfg.strategy)
  {
    es[i].PlanReconciles? && Unobstructed(cfg, Groups(cfg), ws[i], es[i].o)
  }

  /** The unobstructed passes before state j. */
  ghost function UnobstructedPasses(cfg: Config, ws: seq<World>, es: seq<Event>, j: nat): nat
    requires |ws| == |es| + 1 && j <= |es| && ValidStrategy(cfg.strategy)
  {
    if j == 0 then 0
    else UnobstructedPasses(cfg, ws, es, j - 1) + if UnobstructedAt(cfg, ws, es, j - 1) then 1 else 0
  }

  ghost predicate CompletedBy(ws: seq<World>, j: nat)
    requires j < |ws|
  {
    exists k: nat :: k <= j && ws[k].status.phase.PlanCompleted?
  }

  lemma StepServes(
    cfg: Config, groups: seq<Group>, ws: seq<World>, es: seq<Event>, i: nat, w0: World, w1: World)
    requires IsRun(cfg, ws, es) && StaleReads(ws, es) && i < |es| && KeepsJobs(ws, i) && groups == Groups(cfg)
    requires w0 == ws[i] && w1 == ws[i + 1] && UnobstructedAt(cfg, ws, es, i) && WellFormed(groups)
    ensures w1.status.phase.PlanCompleted? || BatchesLeft(groups, w1.jobs) < BatchesLeft(groups, w0.jobs)
  {
    var o := es[i].o;
    ListedAsTheyAre(cfg, groups, ws, es, i, w0.jobs, o.jobs);
    StepReconciles(cfg, ws, es, i, w0, w1, o);
    UnobstructedPass(cfg, groups, w0, w1, o);
  }

  lemma StepReconciles(
    cfg: Config, ws: seq<World>, es: seq<Event>, i: nat, w0: World, w1: World, o: Observation)
    requires IsRun(cfg, ws, es) && i < |es| && w0 == ws[i] && w1 == ws[i + 1] && es[i] == PlanReconciles(o)
    ensures w1 == Reconcile(cfg, w0, o)
  {
    assert MovesAt(cfg, ws, es, i);
  }

  lemma ListedAsTheyAre(
    cfg: Config, groups: seq<Group>, ws: seq<World>, es: seq<Event>, i: nat, jobs: Jobs, list: seq<PatchJob>)
    requires IsRun(cfg, ws, es) && StaleReads(ws, es) && i < |es| && KeepsJobs(ws, i) && groups == Groups(cfg)
    requires jobs == ws[i].jobs && Lists(list, jobs)
    ensures ByNode(list) == jobs
  {
    RunsAreTraces(cfg, ws, es);
    TraceIsSafe(cfg, groups, ws, es, i);
    ByNodeOfList(list, jobs);
  }

  /** Up to the first deletion, and until the plan completes, every unobstructed pass serves a batch. */
  lemma {:induction false} PassesServe(cfg: Config, groups: seq<Group>, ws: seq<World>, es: seq<Event>, j: nat)
    requires IsRun(cfg, ws, es) && StaleReads(ws, es) && j <= |es| && KeepsJobs(ws, j) && groups == Groups(cfg)
    requires WellFormed(groups)
    ensures || CompletedBy(ws, j)
            || BatchesLeft(groups, ws[j].jobs) + UnobstructedPasses(cfg, ws, es, j) <= BatchesLeft(groups, map[])
  {
    if j > 0 {
      PassesServe(cfg, groups, ws, es, j - 1);
      assert KeepsJobsAt(ws, j - 1);
      MoreJobsFewerBatches(groups, ws[j - 1].jobs, ws[j].jobs);
      if UnobstructedAt(cfg, ws, es, j - 1) {
        StepServes(cfg, groups, ws, es, j - 1, ws[j - 1], ws[j]);
      }
    }
  }

  lemma NothingPurgedYet(cfg: Config, groups: seq<Group>, ws: seq<World>, es: seq<Event>, i: nat)
    requires IsTrace(cfg, groups, ws, es) && SoundRetention(cfg, ws, es) && i < |es| && !Purgeable(cfg, ws[i])
    ensures KeepsJobs(ws, i + 1)
  {
    forall k: nat | k < i + 1 ensures KeepsJobsAt(ws, k) {
      if !KeepsJobsAt(ws, k) {
        PurgedTraceStaysFrozen(cfg, groups, ws, es, k, if k < i then i else i + 1);
      }
    }
  }

  lemma NothingPurgedBefore(cfg: Config, groups: seq<Group>, ws: seq<World>, es: seq<Event>, i: nat)
    requires IsRun(cfg, ws, es) && SoundRetention(cfg, ws, es) && i < |es| && groups == Groups(cfg)
    requires UnobstructedAt(cfg, ws, es, i)
    ensures KeepsJobs(ws, i + 1) && WellFormed(groups)
  {
    RunsAreTraces(cfg, ws, es);
    assert RetentionToldAt(cfg, ws, es, i);
    assert !Purgeable(cfg, ws[i]);
    NothingPurgedYet(cfg, groups, ws, es, i);
  }

  /**
   * Once a run has seen more unobstructed passes than the rollout has batches, its plan has been called Completed:
   * whatever came in between, failures within the budget, pauses, lost calls and outdated lists among it.
   */
  lemma {:induction false} CompletesWithinBatches(cfg: Config, ws: seq<World>, es: seq<Event>, j: nat)
    requires IsRun(cfg, ws, es) && StaleReads(ws, es) && SoundRetention(cfg, ws, es) && j <= |es|
    requires UnobstructedPasses(cfg, ws, es, j) > BatchesLeft(Groups(cfg), map[])
    ensures CompletedBy(ws, j)
  {
    if UnobstructedAt(cfg, ws, es, j - 1) {
      NothingPurgedBefore(cfg, Groups(cfg), ws, es, j - 1);
      PassesServe(cfg, Groups(cfg), ws, es, j);
    } else {
      CompletesWithinBatches(cfg, ws, es, j - 1);
    }
  }
}
