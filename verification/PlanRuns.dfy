/** The rollout engine as a transition system: plan reconciles, job steps, the user, the cluster and the clock. */
module PlanRuns {
  import opened Api
  import opened Scheduling
  import opened Rollouts
  import opened PlanWorld
  import opened PlanSteps
  import opened PlanEffects

  datatype Event =
    | Tick(elapsed: nat)
    | JobMoves(job: PatchJob)
    | UserSets(paused: bool, cancelled: bool)
    | ClusterChanges(kubeProxy: Option<DaemonSet>, leases: map<string, string>)
    | PlanReconciles(o: Observation)

  /** What one pass of the PatchJob reconciler may turn a job into (see JobRuns.JobReconcileAdvances). */
  predicate Advances(j0: PatchJob, j1: PatchJob, now: int) {
    && j1 == j0.(status := j1.status)
    && (j0.Finished() ==> j1 == j0)
    && (!j0.Finished() && j0.status.completionTime.None? ==>
          j1.status.completionTime == if j1.Finished() then Some(Stored(now)) else None)
  }

  predicate Enabled(w: World, e: Event) {
    e.JobMoves? ==> e.job.node in w.jobs && Advances(w.jobs[e.job.node], e.job, w.now)
  }

  ghost function Apply(cfg: Config, w: World, e: Event): World {
    match e
    case Tick(elapsed) => w.(now := w.now + elapsed)
    case JobMoves(job) => w.(jobs := w.jobs[job.node := job])
    case UserSets(paused, cancelled) => w.(paused := paused, cancelled := cancelled, generation := w.generation + 1)
    case ClusterChanges(kubeProxy, leases) => w.(kubeProxy := kubeProxy, leases := leases)
    case PlanReconciles(o) => Reconcile(cfg, w, o)
  }

  ghost predicate Initial(w: World) { w.status == FRESH_PLAN_STATUS && w.jobs == map[] }

  ghost predicate MovesAt(cfg: Config, ws: seq<World>, es: seq<Event>, i: nat)
    requires |ws| == |es| + 1 && i < |es|
  {
    Enabled(ws[i], es[i]) && ws[i + 1] == Apply(cfg, ws[i], es[i])
  }

  /** ws are the states of a run and es the events between them. */
  ghost predicate IsRun(cfg: Config, ws: seq<World>, es: seq<Event>) {
    && |ws| == |es| + 1 && Initial(ws[0]) && ValidStrategy(cfg.strategy)
    && forall i: nat :: i < |es| ==> MovesAt(cfg, ws, es, i)
  }

  // ---------------------------------------------------------------- runs by their effects

  /** A reconcile does nothing, is a purge, or is a pass; it is no pass when a purge is due and not blocked. */
  ghost predicate Effect(cfg: Config, groups: seq<Group>, w0: World, w1: World, o: Observation) {
    || Untouched(w0, w1)
    || Purges(cfg, w0, w1, o.retentionJobs)
    || (&& !(PurgeDue(cfg, w0.now, w0.status) && AllFinished(o.retentionJobs)) && !Marked(w0)
        && exists k: nat :: Passed(cfg, groups, w0, w1, o, k))
  }

  ghost predicate Steps(cfg: Config, groups: seq<Group>, w0: World, w1: World, e: Event) {
    match e
    case PlanReconciles(o) => Effect(cfg, groups, w0, w1, o)
    case _ => w1 == Apply(cfg, w0, e)
  }

  ghost predicate StepAt(cfg: Config, groups: seq<Group>, ws: seq<World>, es: seq<Event>, i: nat)
    requires |ws| == |es| + 1 && i < |es|
  {
    Enabled(ws[i], es[i]) && Steps(cfg, groups, ws[i], ws[i + 1], es[i])
  }

  /** A run described by what its steps change; every run is one (RunsAreTraces). */
  ghost predicate IsTrace(cfg: Config, groups: seq<Group>, ws: seq<World>, es: seq<Event>) {
    && |ws| == |es| + 1 && Initial(ws[0]) && WellFormed(groups)
    && forall i: nat :: i < |es| ==> StepAt(cfg, groups, ws, es, i)
  }

  lemma ApplySteps(cfg: Config, groups: seq<Group>, w0: World, w1: World, e: Event)
    requires ValidStrategy(cfg.strategy) && groups == Groups(cfg) && w1 == Apply(cfg, w0, e)
    ensures Steps(cfg, groups, w0, w1, e)
  {
    if e.PlanReconciles? {
      var k := ReconcileEffect(cfg, groups, w0, w1, e.o);
    }
  }

  lemma RunsAreTraces(cfg: Config, ws: seq<World>, es: seq<Event>)
    requires IsRun(cfg, ws, es)
    ensures IsTrace(cfg, Groups(cfg), ws, es)
  {
    ResolvedWellFormed(cfg.nodes, cfg.strategy);
    forall i: nat | i < |es| ensures StepAt(cfg, Groups(cfg), ws, es, i) {
      assert MovesAt(cfg, ws, es, i);
      ApplySteps(cfg, Groups(cfg), ws[i], ws[i + 1], es[i]);
    }
  }

  lemma {:induction false} Induction(inv: World -> bool, ws: seq<World>, i: nat)
    requires i < |ws| && inv(ws[0])
    requires forall k: nat :: k + 1 < |ws| && inv(ws[k]) ==> inv(ws[k + 1])
    ensures inv(ws[i])
  {
    if i > 0 {
      var k := i - 1;
      Induction(inv, ws, k);
      assert inv(ws[k + 1]);
    }
  }

  ghost predicate ListsSomeEarlier(list: seq<PatchJob>, ws: seq<World>, i: nat)
    requires i < |ws|
  {
    exists k :: 0 <= k <= i && Lists(list, ws[k].jobs)
  }

  /** Every reconcile lists the jobs as they were at some earlier point of the run, or as they are. */
  ghost predicate StaleReads(ws: seq<World>, es: seq<Event>)
    requires |ws| == |es| + 1
  {
    forall i :: 0 <= i < |es| && es[i].PlanReconciles? ==> ListsSomeEarlier(es[i].o.jobs, ws, i)
  }

  /** A reconcile lists the jobs as they are. */
  ghost predicate FreshAt(w: World, e: Event) {
    e.PlanReconciles? ==> Lists(e.o.jobs, w.jobs) && Lists(e.o.retentionJobs, w.jobs)
  }

  ghost predicate ReadsFreshAt(ws: seq<World>, es: seq<Event>, i: nat)
    requires |ws| == |es| + 1 && i < |es|
  {
    FreshAt(ws[i], es[i])
  }

  /** Every reconcile lists the jobs as they are. */
  ghost predicate FreshReads(ws: seq<World>, es: seq<Event>)
    requires |ws| == |es| + 1
  {
    forall i: nat :: i < |es| ==> ReadsFreshAt(ws, es, i)
  }

  ghost predicate KeepsJobsAt(ws: seq<World>, i: nat)
    requires i + 1 < |ws|
  {
    ws[i].jobs.Keys <= ws[i + 1].jobs.Keys
  }

  /** No job has been deleted up to state i. */
  ghost predicate KeepsJobs(ws: seq<World>, i: nat)
    requires i < |ws|
  {
    forall k: nat :: k < i ==> KeepsJobsAt(ws, k)
  }

  ghost function Groups(cfg: Config): seq<Group>
    requires ValidStrategy(cfg.strategy)
  {
    Resolved(cfg.nodes, cfg.strategy).value.groups
  }

  // ---------------------------------------------------------------- the order invariant

  /** Each job belongs to a node of the rollout and carries its group; unfinished jobs have no completion time. */
  ghost predicate JobsFit(groups: seq<Group>, jobs: Jobs) {
    forall n <- jobs ::
      var i := GroupIndex(groups, n);
      && i < |groups|
      && jobs[n].node == n && jobs[n].group == groups[i].name && !jobs[n].deleting
      && (!jobs[n].Finished() ==> jobs[n].status.completionTime.None?)
  }

  /** Within a group jobs exist for a prefix of the nodes. */
  ghost predicate PrefixScheduled(nodes: seq<Node>, jobs: Jobs) {
    forall p, q :: 0 <= p < q < |nodes| && nodes[q].name in jobs ==> nodes[p].name in jobs
  }

  /** If a node of a group has a job then every node of every earlier group has a finished one. */
  ghost predicate GroupOrder(groups: seq<Group>, jobs: Jobs) {
    forall i, j, n :: 0 <= i < j < |groups| && n in NamesOf(groups[j].nodes) && n in jobs ==>
                        GroupFinished(groups[i], jobs)
  }

  ghost function Unfinished(g: Group, jobs: Jobs): set<string> { UnfinishedIn(NamesOf(g.nodes), jobs) }

  ghost predicate WithinConcurrency(groups: seq<Group>, jobs: Jobs) {
    forall i :: 0 <= i < |groups| ==> |Unfinished(groups[i], jobs)| <= groups[i].concurrency
  }

  ghost predicate PrefixesScheduled(groups: seq<Group>, jobs: Jobs) {
    forall i :: 0 <= i < |groups| ==> PrefixScheduled(groups[i].nodes, jobs)
  }

  ghost predicate OrderInv(groups: seq<Group>, jobs: Jobs) {
    && JobsFit(groups, jobs)
    && PrefixesScheduled(groups, jobs)
    && GroupOrder(groups, jobs)
    && WithinConcurrency(groups, jobs)
  }

  /** Jobs only appear and finish; a finished job never changes. */
  ghost predicate Earlier(j0: Jobs, j1: Jobs) {
    && j0.Keys <= j1.Keys
    && forall n <- j0 :: IsFinished(j0, n) ==> j1[n] == j0[n]
  }

  lemma {:induction false} PendingPrefixClosed(nodes: seq<Node>, view: Jobs, k: nat, p: nat, q: nat)
    requires UniquelyNamed(nodes) && k <= |PendingNodes(nodes, view)|
    requires p < q < |nodes| && nodes[q] in PendingNodes(nodes, view)[..k] && nodes[p].name !in view
    ensures nodes[p] in PendingNodes(nodes, view)[..k]
  {
    var init, last := nodes[..|nodes| - 1], nodes[|nodes| - 1];
    var before := PendingNodes(init, view);
    if k <= |before| {
      assert PendingNodes(nodes, view)[..k] == before[..k];
      assert nodes[q] in init;
      PendingPrefixClosed(init, view, k, p, q);
    } else {
      assert nodes[p] == init[p] && nodes[p] in before;
      assert PendingNodes(nodes, view)[..k] == before + [last];
    }
  }

  lemma SlotHoldersAreUnfinished(groups: seq<Group>, view: Jobs, leases: seq<string>, i: nat)
    requires Distinct(groups) && i < |groups| && JobsFit(groups, view)
    ensures SlotHolders(groups, view, leases, groups[i].name) == Unfinished(groups[i], view)
  {
    forall n | n in view
      ensures GroupOfJob(groups, view[n]) == groups[i].name <==> n in NamesOf(groups[i].nodes)
    {
      var k := GroupIndex(groups, n);
      if n in NamesOf(groups[i].nodes) {
        GroupIndexIs(groups, i, n);
      }
      assert groups[k].name == groups[i].name ==> k == i;
    }
  }

  // ---------------------------------------------------------------- one round keeps it, even on old reads

  lemma {:induction false} NamesAtMost(ns: seq<Node>)
    ensures |NamesOf(ns)| <= |ns|
  {
    if ns != [] {
      NamesAtMost(ns[..|ns| - 1]);
      assert ns == ns[..|ns| - 1] + [ns[|ns| - 1]];
      assert NamesOf(ns) == NamesOf(ns[..|ns| - 1]) + {ns[|ns| - 1].name};
    }
  }

  /** A node before a served node of its group either had a job in the view or is served too. */
  lemma ServedBefore(nodes: seq<Node>, view: Jobs, created: seq<Node>, p: nat, q: nat)
    requires UniquelyNamed(nodes) && created <= PendingNodes(nodes, view)
    requires p < q < |nodes| && nodes[q].name in NamesOf(created)
    ensures nodes[p].name in view.Keys + NamesOf(created)
  {
    var m :| m in created && m.name == nodes[q].name;
    assert m in PendingNodes(nodes, view);
    var l :| 0 <= l < |nodes| && nodes[l] == m;
    assert l == q;
    if nodes[p].name !in view {
      PendingPrefixClosed(nodes, view, |created|, p, q);
    }
  }

  lemma ServedInGroup(nodes: seq<Node>, view: Jobs, created: seq<Node>)
    requires created <= PendingNodes(nodes, view)
    ensures NamesOf(created) <= NamesOf(nodes) - view.Keys
  {
    forall n | n in NamesOf(created) ensures n in NamesOf(nodes) && n !in view {
      var m :| m in created && m.name == n;
      assert m in PendingNodes(nodes, view);
    }
  }

  lemma RoundKeepsPrefix(nodes: seq<Node>, jobs0: Jobs, jobs1: Jobs, view: Jobs, created: seq<Node>)
    requires UniquelyNamed(nodes) && created <= PendingNodes(nodes, view)
    requires PrefixScheduled(nodes, jobs0) && view.Keys <= jobs0.Keys
    requires jobs1.Keys == jobs0.Keys + NamesOf(created)
    ensures PrefixScheduled(nodes, jobs1)
  {
    forall p, q | 0 <= p < q < |nodes| && nodes[q].name in jobs1 ensures nodes[p].name in jobs1 {
      if nodes[q].name !in jobs0 {
        ServedBefore(nodes, view, created, p, q);
      }
    }
  }

  /**
   * Whatever the view missed, the jobs unfinished in the view and those of the round bound what is unfinished
   * now: the real jobs and the round both extend the view along the same order of nodes.
   */
  lemma RoundCoversUnfinished(
    nodes: seq<Node>, jobs0: Jobs, jobs1: Jobs, view: Jobs, created: seq<Node>, served: string)
    requires UniquelyNamed(nodes) && created <= PendingNodes(nodes, view)
    requires PrefixScheduled(nodes, jobs0) && Earlier(view, jobs0) && Earlier(jobs0, jobs1)
    requires jobs1.Keys == jobs0.Keys + NamesOf(created)
    requires served in NamesOf(created) && served !in jobs0
    ensures UnfinishedIn(NamesOf(nodes), jobs1) <= UnfinishedIn(NamesOf(nodes), view) + NamesOf(created)
  {
    ServedInGroup(nodes, view, created);
    var a :| 0 <= a < |nodes| && nodes[a].name == served;
    forall n | n in UnfinishedIn(NamesOf(nodes), jobs1) && n !in NamesOf(created)
      ensures n in UnfinishedIn(NamesOf(nodes), view)
    {
      var b :| 0 <= b < |nodes| && nodes[b].name == n;
      UnfinishedWasSeen(nodes, jobs0, jobs1, view, created, a, b);
    }
  }

  /** Next to a node served first now, a node not served now but unfinished was unfinished in the view already. */
  lemma UnfinishedWasSeen(
    nodes: seq<Node>, jobs0: Jobs, jobs1: Jobs, view: Jobs, created: seq<Node>, a: nat, b: nat)
    requires UniquelyNamed(nodes) && created <= PendingNodes(nodes, view) && a < |nodes| && b < |nodes|
    requires PrefixScheduled(nodes, jobs0) && Earlier(view, jobs0) && Earlier(jobs0, jobs1)
    requires jobs1.Keys == jobs0.Keys + NamesOf(created)
    requires nodes[a].name in NamesOf(created) && nodes[a].name !in jobs0
    requires IsUnfinished(jobs1, nodes[b].name) && nodes[b].name !in NamesOf(created)
    ensures IsUnfinished(view, nodes[b].name)
  {
    if b < a {
      ServedBefore(nodes, view, created, b, a);
    }
  }

  lemma RoundWithinConcurrency(nodes: seq<Node>, limit: int, jobs0: Jobs, jobs1: Jobs, view: Jobs, created: seq<Node>)
    requires UniquelyNamed(nodes) && created <= PendingNodes(nodes, view)
    requires PrefixScheduled(nodes, jobs0) && Earlier(view, jobs0) && Earlier(jobs0, jobs1)
    requires jobs1.Keys == jobs0.Keys + NamesOf(created) && (NamesOf(created) <= jobs0.Keys ==> jobs1 == jobs0)
    requires |UnfinishedIn(NamesOf(nodes), view)| + |created| <= limit
    requires |UnfinishedIn(NamesOf(nodes), jobs0)| <= limit
    ensures |UnfinishedIn(NamesOf(nodes), jobs1)| <= limit
  {
    if !(NamesOf(created) <= jobs0.Keys) {
      var served :| served in NamesOf(created) && served !in jobs0;
      RoundCoversUnfinished(nodes, jobs0, jobs1, view, created, served);
      SubsetSize(UnfinishedIn(NamesOf(nodes), jobs1), UnfinishedIn(NamesOf(nodes), view) + NamesOf(created));
      NamesAtMost(created);
    }
  }

  /** Only nodes of group i got jobs. */
  ghost predicate GrowsIn(groups: seq<Group>, i: nat, jobs0: Jobs, jobs1: Jobs)
    requires i < |groups|
  {
    Earlier(jobs0, jobs1) && jobs1.Keys - jobs0.Keys <= NamesOf(groups[i].nodes)
  }

  lemma RoundKeepsGroupOrder(groups: seq<Group>, i: nat, jobs0: Jobs, jobs1: Jobs)
    requires Distinct(groups) && i < |groups| && GroupOrder(groups, jobs0) && GrowsIn(groups, i, jobs0, jobs1)
    requires forall a :: 0 <= a < i ==> GroupFinished(groups[a], jobs0)
    ensures GroupOrder(groups, jobs1)
  {
    forall a, b, n | 0 <= a < b < |groups| && n in NamesOf(groups[b].nodes) && n in jobs1
      ensures GroupFinished(groups[a], jobs1)
    {
      if n !in jobs0 {
        GroupIndexIs(groups, b, n);
        GroupIndexIs(groups, i, n);
      }
      assert GroupFinished(groups[a], jobs0);
    }
  }

  lemma RoundKeepsFit(cfg: Config, groups: seq<Group>, i: nat, jobs0: Jobs, jobs1: Jobs, created: seq<Node>)
    requires Distinct(groups) && i < |groups| && JobsFit(groups, jobs0)
    requires NamesOf(created) <= NamesOf(groups[i].nodes)
    requires jobs1 == WithJobs(cfg, jobs0, groups[i].name, created)
    ensures JobsFit(groups, jobs1) && GrowsIn(groups, i, jobs0, jobs1)
  {
    forall n | n in NamesOf(created) ensures GroupIndex(groups, n) == i {
      GroupIndexIs(groups, i, n);
    }
  }

  lemma OtherGroupKept(groups: seq<Group>, i: nat, j: nat, jobs0: Jobs, jobs1: Jobs)
    requires Distinct(groups) && i < |groups| && j < |groups| && i != j
    requires GrowsIn(groups, i, jobs0, jobs1) && forall n <- jobs0 :: jobs1[n] == jobs0[n]
    requires PrefixScheduled(groups[j].nodes, jobs0)
    ensures PrefixScheduled(groups[j].nodes, jobs1)
    ensures Unfinished(groups[j], jobs1) == Unfinished(groups[j], jobs0)
  {
    forall n | n in NamesOf(groups[j].nodes) ensures n in jobs1 <==> n in jobs0 {
      if n in jobs1 && n !in jobs0 {
        GroupIndexIs(groups, j, n);
        GroupIndexIs(groups, i, n);
      }
    }
  }

  /** A round of group i, on a view that may be out of date. */
  ghost predicate RoundOf(
    cfg: Config, groups: seq<Group>, i: nat, jobs0: Jobs, jobs1: Jobs, view: Jobs, created: seq<Node>)
  {
    && i < |groups| && (forall a :: 0 <= a < i ==> GroupFinished(groups[a], view))
    && created <= PendingNodes(groups[i].nodes, view)
    && |Unfinished(groups[i], view)| + |created| <= groups[i].concurrency
    && jobs1 == WithJobs(cfg, jobs0, groups[i].name, created)
  }

  lemma WithJobsKeys(cfg: Config, jobs: Jobs, group: string, nodes: seq<Node>, jobs1: Jobs)
    requires jobs1 == WithJobs(cfg, jobs, group, nodes)
    ensures jobs1.Keys == jobs.Keys + NamesOf(nodes)
    ensures NamesOf(nodes) <= jobs.Keys ==> jobs1 == jobs
  {
  }

  lemma RoundKeepsGroup(
    cfg: Config, groups: seq<Group>, i: nat, jobs0: Jobs, jobs1: Jobs, view: Jobs, created: seq<Node>, j: nat)
    requires Distinct(groups) && j < |groups| && RoundOf(cfg, groups, i, jobs0, jobs1, view, created)
    requires Earlier(view, jobs0) && GrowsIn(groups, i, jobs0, jobs1)
    requires PrefixScheduled(groups[j].nodes, jobs0) && |Unfinished(groups[j], jobs0)| <= groups[j].concurrency
    ensures PrefixScheduled(groups[j].nodes, jobs1) && |Unfinished(groups[j], jobs1)| <= groups[j].concurrency
  {
    if j == i {
      WithJobsKeys(cfg, jobs0, groups[i].name, created, jobs1);
      RoundKeepsPrefix(groups[j].nodes, jobs0, jobs1, view, created);
      RoundWithinConcurrency(groups[j].nodes, groups[j].concurrency, jobs0, jobs1, view, created);
    } else {
      OtherGroupKept(groups, i, j, jobs0, jobs1);
    }
  }

  lemma RoundKeepsOrder(
    cfg: Config, groups: seq<Group>, i: nat, jobs0: Jobs, jobs1: Jobs, view: Jobs, created: seq<Node>)
    requires Distinct(groups) && OrderInv(groups, jobs0) && Earlier(view, jobs0)
    requires RoundOf(cfg, groups, i, jobs0, jobs1, view, created)
    ensures OrderInv(groups, jobs1) && Earlier(jobs0, jobs1)
  {
    ServedInGroup(groups[i].nodes, view, created);
    RoundKeepsFit(cfg, groups, i, jobs0, jobs1, created);
    RoundKeepsGroupOrder(groups, i, jobs0, jobs1);
    forall j | 0 <= j < |groups|
      ensures PrefixScheduled(groups[j].nodes, jobs1) && |Unfinished(groups[j], jobs1)| <= groups[j].concurrency
    {
      RoundKeepsGroup(cfg, groups, i, jobs0, jobs1, view, created, j);
    }
  }

}
