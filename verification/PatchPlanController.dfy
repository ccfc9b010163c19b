/** The PatchPlan reconciler, step by step as it changes the plan, its jobs and its Leases (controllers/). */
module PatchPlanController {
  import opened Api
  import opened Scheduling
  import opened Rollouts
  import opened Maintenance
  import opened PlanWorld
  import P = PlanSteps

  function Slots(active: map<string, nat>, group: string): nat { if group in active then active[group] else 0 }

  /** active counts the slots held per group. */
  ghost predicate CountsSlots(
    active: map<string, nat>, groups: seq<Group>, view: Jobs, leases: seq<string>)
  {
    forall g: string :: Slots(active, g) == |P.SlotHolders(groups, view, leases, g)|
  }

  ghost predicate DistinctJobs(jobs: seq<PatchJob>) {
    forall i, j :: 0 <= i < j < |jobs| ==> jobs[i].node != jobs[j].node
  }

  ghost predicate DistinctNames(names: seq<string>) { forall i, j :: 0 <= i < j < |names| ==> names[i] != names[j] }

  method IndexJobs(jobs: seq<PatchJob>) returns (jobsByNode: Jobs)
    ensures jobsByNode == ByNode(jobs)
  {
    jobsByNode := map[];
    for i := 0 to |jobs|
      invariant jobsByNode == ByNode(jobs[..i])
    {
      assert jobs[..i + 1][..i] == jobs[..i];
      jobsByNode := jobsByNode[jobs[i].node := jobs[i]];
    }
    assert jobs[..|jobs|] == jobs;
  }

  method GroupOfJob(groups: seq<Group>, job: PatchJob) returns (group: string)
    ensures group == P.GroupOfJob(groups, job)
  {
    if job.group != "" {
      return job.group;
    }
    var found;
    group, found := GroupOf(groups, job.node);
  }

  method AllNodesCompleted(nodes: seq<Node>, jobsByNode: Jobs) returns (all: bool)
    ensures all <==> P.AllCompleted(nodes, jobsByNode)
  {
    for i := 0 to |nodes|
      invariant P.AllCompleted(nodes[..i], jobsByNode)
    {
      if !IsCompleted(jobsByNode, nodes[i].name) {
        assert nodes[i] in nodes;
        return false;
      }
    }
    assert nodes[..|nodes|] == nodes;
    return true;
  }

  /** The instant of the latest scheduling or completion. */
  ghost predicate IsEvent(s: PlanStatus, view: Jobs, t: int) {
    || s.lastNodeScheduledAt == Some(t)
    || exists n <- view :: view[n].status.completionTime == Some(t)
  }

  /** The rest of the delay: positive exactly while it has not elapsed, and then to the instant. */
  method DelayRemaining(cfg: Config, now: int, s: PlanStatus, jobsByNode: Jobs) returns (wait: int)
    ensures wait > 0 <==> !P.DelayElapsed(cfg, now, s, jobsByNode)
    ensures wait > 0 <==> exists t: int :: now < t + cfg.delayBetweenNodes && IsEvent(s, jobsByNode, t)
    ensures wait > 0 ==> P.DelayElapsed(cfg, now + wait, s, jobsByNode)
                         && !P.DelayElapsed(cfg, now + wait - 1, s, jobsByNode)
  {
    var last := s.lastNodeScheduledAt;
    var names := jobsByNode.Keys;
    while names != {}
      invariant names <= jobsByNode.Keys
      invariant last.Some? ==> IsEvent(s, jobsByNode, last.value)
      invariant s.lastNodeScheduledAt.Some? ==> last.Some? && s.lastNodeScheduledAt.value <= last.value
      invariant forall n <- jobsByNode.Keys - names :: jobsByNode[n].status.completionTime.Some? ==>
                    last.Some? && jobsByNode[n].status.completionTime.value <= last.value
      decreases |names|
    {
      var name :| name in names;
      var t := jobsByNode[name].status.completionTime;
      if t.Some? && (last.None? || last.value < t.value) {
        last := t;
      }
      names := names - {name};
    }
    if last.None? {
      return 0;
    }
    wait := last.value + cfg.delayBetweenNodes - now;
    assert IsEvent(s, jobsByNode, last.value);
  }

  // ---------------------------------------------------------------- counting

  function Sum(a: JobCounts, b: JobCounts): JobCounts {
    JobCounts(a.completed + b.completed, a.failed + b.failed, a.running + b.running, a.pending + b.pending)
  }

  lemma CompletedAddUp(a: set<string>, b: set<string>, jobs: Jobs)
    requires a !! b
    ensures |CompletedIn(a + b, jobs)| == |CompletedIn(a, jobs)| + |CompletedIn(b, jobs)|
  {
    assert CompletedIn(a + b, jobs) == CompletedIn(a, jobs) + CompletedIn(b, jobs);
  }

  lemma FailedAddUp(a: set<string>, b: set<string>, jobs: Jobs)
    requires a !! b
    ensures |FailedIn(a + b, jobs)| == |FailedIn(a, jobs)| + |FailedIn(b, jobs)|
  {
    assert FailedIn(a + b, jobs) == FailedIn(a, jobs) + FailedIn(b, jobs);
  }

  lemma UnfinishedAddUp(a: set<string>, b: set<string>, jobs: Jobs)
    requires a !! b
    ensures |UnfinishedIn(a + b, jobs)| == |UnfinishedIn(a, jobs)| + |UnfinishedIn(b, jobs)|
  {
    assert UnfinishedIn(a + b, jobs) == UnfinishedIn(a, jobs) + UnfinishedIn(b, jobs);
  }

  lemma MissingAddUp(a: set<string>, b: set<string>, jobs: Jobs)
    requires a !! b
    ensures |MissingIn(a + b, jobs)| == |MissingIn(a, jobs)| + |MissingIn(b, jobs)|
  {
    assert MissingIn(a + b, jobs) == MissingIn(a, jobs) + MissingIn(b, jobs);
  }

  /** Disjoint sets of nodes add up, and every node is counted once. */
  lemma CountsAddUp(a: set<string>, b: set<string>, jobs: Jobs)
    requires a !! b
    ensures CountsOf(a + b, jobs) == Sum(CountsOf(a, jobs), CountsOf(b, jobs))
  {
    CompletedAddUp(a, b, jobs);
    FailedAddUp(a, b, jobs);
    UnfinishedAddUp(a, b, jobs);
    MissingAddUp(a, b, jobs);
  }

  /** The four counts of a plan's status add up to its nodes. */
  lemma CountsCoverAll(names: set<string>, jobs: Jobs)
    ensures
      var c := CountsOf(names, jobs);
      c.completed + c.failed + c.running + c.pending == |names|
  {
    var done, running := CompletedIn(names, jobs) + FailedIn(names, jobs), UnfinishedIn(names, jobs);
    assert CompletedIn(names, jobs) !! FailedIn(names, jobs);
    assert names == done + running + MissingIn(names, jobs);
    assert done !! running && (done + running) !! MissingIn(names, jobs);
  }

  /** counts are those of the first j nodes. */
  ghost predicate CountedTo(counts: JobCounts, nodes: seq<Node>, j: nat, jobs: Jobs)
    requires j <= |nodes|
  {
    counts == CountsOf(NamesOf(nodes[..j]), jobs)
  }

  method CountNodes(nodes: seq<Node>, jobsByNode: Jobs) returns (counts: JobCounts)
    requires UniquelyNamed(nodes)
    ensures counts == CountsOf(NamesOf(nodes), jobsByNode)
  {
    counts := JobCounts(0, 0, 0, 0);
    NothingCounted(nodes, jobsByNode);
    for j := 0 to |nodes|
      invariant CountedTo(counts, nodes, j, jobsByNode)
    {
      OneMoreCounted(counts, nodes, j, jobsByNode);
      counts := CountOne(counts, nodes[j].name, jobsByNode);
    }
    AllCounted(counts, nodes, jobsByNode);
  }

  method CountOne(counts: JobCounts, name: string, jobsByNode: Jobs) returns (more: JobCounts)
    ensures more == Sum(counts, OneCount(name, jobsByNode))
  {
    more := counts;
    if name !in jobsByNode {
      more := more.(pending := more.pending + 1);
    } else if IsCompleted(jobsByNode, name) {
      more := more.(completed := more.completed + 1);
    } else if IsFailed(jobsByNode, name) {
      more := more.(failed := more.failed + 1);
    } else {
      more := more.(running := more.running + 1);
    }
  }

  function OneCount(n: string, jobs: Jobs): JobCounts {
    if n !in jobs then JobCounts(0, 0, 0, 1)
    else if IsCompleted(jobs, n) then JobCounts(1, 0, 0, 0)
    else if IsFailed(jobs, n) then JobCounts(0, 1, 0, 0)
    else JobCounts(0, 0, 1, 0)
  }

  lemma NoCounts(jobs: Jobs)
    ensures CountsOf({}, jobs) == JobCounts(0, 0, 0, 0)
  {
    CountsCoverAll({}, jobs);
  }

  lemma NothingCounted(nodes: seq<Node>, jobs: Jobs)
    ensures CountedTo(JobCounts(0, 0, 0, 0), nodes, 0, jobs)
  {
    assert NamesOf(nodes[..0]) == {};
    NoCounts(jobs);
  }

  lemma OneMoreCounted(counts: JobCounts, nodes: seq<Node>, j: nat, jobs: Jobs)
    requires UniquelyNamed(nodes) && j < |nodes| && CountedTo(counts, nodes, j, jobs)
    ensures CountedTo(Sum(counts, OneCount(nodes[j].name, jobs)), nodes, j + 1, jobs)
  {
    var n, before := nodes[j].name, NamesOf(nodes[..j]);
    assert nodes[..j + 1] == nodes[..j] + [nodes[j]];
    assert NamesOf(nodes[..j + 1]) == before + {n};
    CountsAddUp(before, {n}, jobs);
    CountsOfOne(n, jobs);
  }

  lemma AllCounted(counts: JobCounts, nodes: seq<Node>, jobs: Jobs)
    requires CountedTo(counts, nodes, |nodes|, jobs)
    ensures counts == CountsOf(NamesOf(nodes), jobs)
  {
    assert nodes[..|nodes|] == nodes;
  }

  lemma CountsOfOne(n: string, jobs: Jobs)
    ensures CountsOf({n}, jobs) == OneCount(n, jobs)
  {
    assert CompletedIn({n}, jobs) == if IsCompleted(jobs, n) then {n} else {};
    assert FailedIn({n}, jobs) == if IsFailed(jobs, n) then {n} else {};
    assert UnfinishedIn({n}, jobs) == if IsUnfinished(jobs, n) then {n} else {};
    assert MissingIn({n}, jobs) == if n !in jobs then {n} else {};
  }

  lemma AllNamesGrow(groups: seq<Group>, i: nat)
    requires Distinct(groups) && i < |groups|
    ensures NamesOf(AllNodes(groups[..i + 1])) == NamesOf(AllNodes(groups[..i])) + NamesOf(groups[i].nodes)
    ensures NamesOf(AllNodes(groups[..i])) !! NamesOf(groups[i].nodes)
  {
    assert groups[..i + 1][..i] == groups[..i];
    AllNodesMembers(groups[..i]);
    forall n | n in NamesOf(AllNodes(groups[..i])) ensures n !in NamesOf(groups[i].nodes) {
      var m :| m in AllNodes(groups[..i]) && m.name == n;
      var k :| 0 <= k < i && m in groups[..i][k].nodes;
      assert m.name in NamesOf(groups[k].nodes);
    }
  }

  lemma TotalGrows(groups: seq<Group>, i: nat, jobs: Jobs)
    requires Distinct(groups) && i < |groups|
    ensures CountsOf(NamesOf(AllNodes(groups[..i + 1])), jobs) ==
            Sum(CountsOf(NamesOf(AllNodes(groups[..i])), jobs), CountsOf(NamesOf(groups[i].nodes), jobs))
  {
    AllNamesGrow(groups, i);
    CountsAddUp(NamesOf(AllNodes(groups[..i])), NamesOf(groups[i].nodes), jobs);
  }

  lemma PrefixGrows<T>(all: seq<T>, i: nat, next: T)
    requires i < |all| && next == all[i]
    ensures all[..i] + [next] == all[..i + 1]
  {
  }

  method SummarizeGroup(
    groups: seq<Group>, g: Group, jobsByNode: Jobs, active: map<string, nat>, ghost leases: seq<string>)
    returns (status: GroupStatus)
    requires UniquelyNamed(g.nodes) && CountsSlots(active, groups, jobsByNode, leases)
    ensures status == P.StatusOf(groups, jobsByNode, leases, g)
  {
    var counts := CountNodes(g.nodes, jobsByNode);
    status := GroupStatus(g.name, g.concurrency, Slots(active, g.name), |g.nodes|, counts);
  }

  /** The counters of the status, each node counted in one of them. */
  method Summarize(
    cfg: Config, groups: seq<Group>, jobsByNode: Jobs, active: map<string, nat>, ghost leases: seq<string>)
    returns (progress: Progress)
    requires WellFormed(groups) && CountsSlots(active, groups, jobsByNode, leases)
    ensures progress == P.Summarized(cfg, groups, jobsByNode, leases)
  {
    var total := JobCounts(0, 0, 0, 0);
    var statuses: seq<GroupStatus> := [];
    ghost var want := P.Summarized(cfg, groups, jobsByNode, leases).groups;
    NoCounts(jobsByNode);
    assert NamesOf(AllNodes(groups[..0])) == {};
    for i := 0 to |groups|
      invariant total == CountsOf(NamesOf(AllNodes(groups[..i])), jobsByNode)
      invariant statuses == want[..i]
    {
      var status := SummarizeGroup(groups, groups[i], jobsByNode, active, leases);
      TotalGrows(groups, i, jobsByNode);
      total := Sum(total, status.counts);
      PrefixGrows(want, i, status);
      statuses := statuses + [status];
    }
    assert groups[..|groups|] == groups;
    var totalNodes := Total(groups);
    progress := Progress(cfg.target.talosVersion, cfg.target.kubernetesVersion, totalNodes, total, statuses);
  }

  // ---------------------------------------------------------------- counting slots

  /** The slots of a group held by the Leases in list. */
  ghost function HeldBy(groups: seq<Group>, view: Jobs, list: seq<string>, group: string): set<string> {
    set n | n in list && IsUnfinished(view, n) && P.GroupOfJob(groups, view[n]) == group
  }

  /** The slots of a group given back to jobs without a Lease. */
  ghost function RestoredTo(groups: seq<Group>, jobs: seq<PatchJob>, leases: seq<string>, group: string): set<string> {
    set j | j in jobs && P.NeedsLease(j, leases) && P.GroupOfJob(groups, j) == group :: j.node
  }

  lemma SlotsSplit(groups: seq<Group>, jobs: seq<PatchJob>, leases: seq<string>, group: string)
    requires DistinctJobs(jobs)
    ensures
      var view := ByNode(jobs);
      && P.SlotHolders(groups, view, leases, group) ==
         HeldBy(groups, view, leases, group) + RestoredTo(groups, jobs, leases, group)
      && HeldBy(groups, view, leases, group) !! RestoredTo(groups, jobs, leases, group)
  {
    ByNodeMembers(jobs);
    forall j | j in jobs ensures j.node in ByNode(jobs) && ByNode(jobs)[j.node] == j {}
  }

  ghost predicate CountsHeld(active: map<string, nat>, groups: seq<Group>, view: Jobs, list: seq<string>) {
    forall g: string :: Slots(active, g) == |HeldBy(groups, view, list, g)|
  }

  lemma HeldGrows(
    groups: seq<Group>, view: Jobs, list: seq<string>, n: string, before: map<string, nat>, after: map<string, nat>)
    requires CountsHeld(before, groups, view, list) && n !in list
    requires after == if IsUnfinished(view, n)
                      then before[P.GroupOfJob(groups, view[n]) := Slots(before, P.GroupOfJob(groups, view[n])) + 1]
                      else before
    ensures CountsHeld(after, groups, view, list + [n])
  {
    forall g: string ensures Slots(after, g) == |HeldBy(groups, view, list + [n], g)| {
      HeldByOneMore(groups, view, list, n, g);
    }
  }

  lemma HeldByOneMore(groups: seq<Group>, view: Jobs, list: seq<string>, n: string, g: string)
    requires n !in list
    ensures |HeldBy(groups, view, list + [n], g)| ==
            |HeldBy(groups, view, list, g)|
            + if IsUnfinished(view, n) && P.GroupOfJob(groups, view[n]) == g then 1 else 0
  {
    assert HeldBy(groups, view, list + [n], g) ==
           HeldBy(groups, view, list, g)
           + if IsUnfinished(view, n) && P.GroupOfJob(groups, view[n]) == g then {n} else {};
  }

  ghost predicate CountsBoth(
    active: map<string, nat>, groups: seq<Group>, view: Jobs, jobs: seq<PatchJob>, leases: seq<string>)
  {
    forall g: string :: Slots(active, g) == |HeldBy(groups, view, leases, g)| + |RestoredTo(groups, jobs, leases, g)|
  }

  lemma RestoredGrows(
    groups: seq<Group>, view: Jobs, jobs: seq<PatchJob>, leases: seq<string>, job: PatchJob,
    before: map<string, nat>, after: map<string, nat>)
    requires CountsBoth(before, groups, view, jobs, leases) && forall j <- jobs :: j.node != job.node
    requires after == if P.NeedsLease(job, leases)
                      then before[P.GroupOfJob(groups, job) := Slots(before, P.GroupOfJob(groups, job)) + 1]
                      else before
    ensures CountsBoth(after, groups, view, jobs + [job], leases)
  {
    forall g: string
      ensures Slots(after, g) == |HeldBy(groups, view, leases, g)| + |RestoredTo(groups, jobs + [job], leases, g)|
    {
      RestoredToOneMore(groups, jobs, leases, job, g);
    }
  }

  lemma RestoredToOneMore(groups: seq<Group>, jobs: seq<PatchJob>, leases: seq<string>, job: PatchJob, g: string)
    requires forall j <- jobs :: j.node != job.node
    ensures |RestoredTo(groups, jobs + [job], leases, g)| ==
            |RestoredTo(groups, jobs, leases, g)|
            + if P.NeedsLease(job, leases) && P.GroupOfJob(groups, job) == g then 1 else 0
  {
    assert RestoredTo(groups, jobs + [job], leases, g) ==
           RestoredTo(groups, jobs, leases, g)
           + if P.NeedsLease(job, leases) && P.GroupOfJob(groups, job) == g then {job.node} else {};
  }

  lemma AllSlotsCounted(active: map<string, nat>, groups: seq<Group>, jobs: seq<PatchJob>, leases: seq<string>)
    requires DistinctJobs(jobs) && CountsBoth(active, groups, ByNode(jobs), jobs, leases)
    ensures CountsSlots(active, groups, ByNode(jobs), leases)
  {
    forall g: string ensures Slots(active, g) == |P.SlotHolders(groups, ByNode(jobs), leases, g)| {
      SlotsSplit(groups, jobs, leases, g);
    }
  }

  lemma RoundStarts(
    cfg: Config, groups: seq<Group>, w: World, view: Jobs, leases: seq<string>, i: nat, free: int, nodes: seq<Node>)
    requires i == P.ActiveGroup(groups, view) < |groups| && P.PendingNodes(groups[i].nodes, view) != []
    requires free == P.FreeSlots(groups, view, leases, groups[i]) > 0 && P.DelayElapsed(cfg, w.now, w.status, view)
    requires nodes == P.PendingNodes(groups[i].nodes, view)[..Min(free, |P.PendingNodes(groups[i].nodes, view)|)]
    ensures P.ScheduleNodes(cfg, groups, w, view, leases) ==
            P.StartRound(cfg, w, P.WorkersGated(cfg, groups, view), groups[i].name, nodes)
  {
  }

  /** What a round makes of the counts: one more slot of its group per node served, and of no other group. */
  ghost predicate RoundCounted(active: map<string, nat>, after: map<string, nat>, group: string, served: nat) {
    forall g: string :: Slots(after, g) == Slots(active, g) + if g == group then served else 0
  }

  class PatchPlanReconciler {
    const cfg: Config
    var now: int
    var paused: bool
    var cancelled: bool
    var generation: nat
    var status: PlanStatus
    var jobs: Jobs
    var leases: map<string, string>
    var kubeProxy: Option<DaemonSet>
    var calls: nat

    ghost function View(): World
      reads this
    {
      World(now, paused, cancelled, generation, status, jobs, leases, kubeProxy, calls)
    }

    constructor (cfg: Config, w: World)
      ensures this.cfg == cfg && View() == w
    {
      this.cfg, now, paused, cancelled, generation := cfg, w.now, w.paused, w.cancelled, w.generation;
      status, jobs, leases, kubeProxy, calls := w.status, w.jobs, w.leases, w.kubeProxy, w.calls;
    }

    /** One API call: it succeeds while the budget lasts. */
    method Call() returns (ok: bool)
      modifies this
      ensures View() == PlanWorld.Call(old(View())).w && ok == PlanWorld.Call(old(View())).Next?
    {
      ok := calls > 0;
      if ok {
        calls := calls - 1;
      }
    }

    method UpdateStatus(s: PlanStatus) returns (ok: bool)
      modifies this
      ensures View() == WriteStatus(old(View()), s).w && ok == WriteStatus(old(View()), s).Next?
    {
      ok := Call();
      if ok {
        status := s;
      }
    }

    // -------------------------------------------------------------- retention.go

    /** ok means the reconcile goes on; otherwise the plan is purged and frozen, or a call failed. */
    method ApplyRetention(listed: seq<PatchJob>) returns (ok: bool)
      modifies this
      ensures
        var f := P.ApplyRetention(cfg, old(View()), listed);
        View() == f.w && ok == f.Next?
    {
      if !P.IsFinishedPhase(status.phase) || status.completionTime.None? {
        return true;
      }
      if status.historyPurged {
        return false;
      }
      if now - status.completionTime.value < OrDefault(cfg.history, P.DEFAULT_HISTORY) {
        return true;
      }
      ok := Call();
      if !ok { return; }
      for i := 0 to |listed|
        invariant forall k :: 0 <= k < i ==> listed[k].Finished()
      {
        if !listed[i].Finished() {
          assert listed[i] in listed;
          return true;
        }
      }
      ghost var w := View();
      for i := 0 to |listed|
        invariant P.DeleteJobs(w, listed) == P.DeleteJobs(View(), listed[i..])
        invariant status == w.status
      {
        ok := Call();
        if !ok { return; }
        jobs := jobs - {listed[i].node};
        assert listed[i..][1..] == listed[i + 1..];
      }
      ok := UpdateStatus(status.(historyPurged := true));
      ok := false;
    }

    // -------------------------------------------------------------- leases.go

    method AcquireLease(node: string, group: string) returns (ok: bool)
      modifies this
      ensures
        var f := P.AddLease(old(View()), node, group);
        View() == f.w && ok == f.Next?
    {
      ok := Call();
      if ok && node !in leases {
        leases := leases[node := group];
      }
    }

    /** Releases the Leases of finished jobs and counts the slots the others hold. */
    method ReleaseLeases(groups: seq<Group>, jobsByName: Jobs, listedLeases: seq<string>)
      returns (ok: bool, active: map<string, nat>)
      requires DistinctNames(listedLeases)
      modifies this
      ensures
        var f := P.ReleaseLeases(old(View()), jobsByName, listedLeases);
        View() == f.w && ok == f.Next?
      ensures ok ==> CountsHeld(active, groups, jobsByName, listedLeases)
    {
      active, ok := map[], true;
      ghost var w := View();
      for i := 0 to |listedLeases|
        invariant P.ReleaseLeases(w, jobsByName, listedLeases) == P.ReleaseLeases(View(), jobsByName, listedLeases[i..])
        invariant CountsHeld(active, groups, jobsByName, listedLeases[..i])
      {
        var name := listedLeases[i];
        ghost var before := active;
        assert listedLeases[i..][1..] == listedLeases[i + 1..];
        assert listedLeases[..i + 1] == listedLeases[..i] + [name];
        if name in jobsByName {
          var job := jobsByName[name];
          if job.Finished() {
            ok := Call();
            if !ok { return; }
            leases := leases - {name};
          } else {
            var group := GroupOfJob(groups, job);
            active := active[group := Slots(active, group) + 1];
          }
        }
        HeldGrows(groups, jobsByName, listedLeases[..i], name, before, active);
      }
      assert listedLeases[..|listedLeases|] == listedLeases;
      ok := true;
    }

    /** Gives the unfinished jobs without a Lease theirs back and counts those slots too. */
    method RestoreLeases(
      groups: seq<Group>, ghost jobsByName: Jobs, listed: seq<PatchJob>, listedLeases: seq<string>,
      held: map<string, nat>)
      returns (ok: bool, active: map<string, nat>)
      requires DistinctJobs(listed) && CountsHeld(held, groups, jobsByName, listedLeases)
      modifies this
      ensures
        var f := P.RestoreLeases(groups, old(View()), listed, listedLeases);
        View() == f.w && ok == f.Next?
      ensures ok ==> CountsBoth(active, groups, jobsByName, listed, listedLeases)
    {
      active, ok := held, true;
      ghost var w := View();
      for i := 0 to |listed|
        invariant P.RestoreLeases(groups, w, listed, listedLeases) ==
                  P.RestoreLeases(groups, View(), listed[i..], listedLeases)
        invariant CountsBoth(active, groups, jobsByName, listed[..i], listedLeases)
      {
        var job := listed[i];
        ghost var before := active;
        assert listed[i..][1..] == listed[i + 1..];
        assert listed[..i + 1] == listed[..i] + [job];
        if !job.Finished() && !job.deleting && job.node !in listedLeases {
          var group := GroupOfJob(groups, job);
          ok := AcquireLease(job.node, group);
          if !ok { return; }
          active := active[group := Slots(active, group) + 1];
        }
        RestoredGrows(groups, jobsByName, listed[..i], listedLeases, job, before, active);
      }
      assert listed[..|listed|] == listed;
      ok := true;
    }

    /** Makes the Leases mirror the unfinished jobs and counts the slots held per group. */
    method SyncLeases(groups: seq<Group>, listed: seq<PatchJob>, listedLeases: seq<string>)
      returns (ok: bool, active: map<string, nat>)
      requires DistinctJobs(listed) && DistinctNames(listedLeases)
      modifies this
      ensures
        var f := P.SyncLeases(groups, old(View()), listed, listedLeases);
        View() == f.w && ok == f.Next?
      ensures ok ==> CountsSlots(active, groups, ByNode(listed), listedLeases)
    {
      active := map[];
      ok := Call();
      if !ok { return; }
      var jobsByName := IndexJobs(listed);
      ok, active := ReleaseLeases(groups, jobsByName, listedLeases);
      if !ok { return; }
      ok, active := RestoreLeases(groups, jobsByName, listed, listedLeases, active);
      if !ok { return; }
      AllSlotsCounted(active, groups, listed, listedLeases);
    }

    // -------------------------------------------------------------- patchplan_controller.go

    method SyncStatus(progress: Progress) returns (ok: bool)
      modifies this
      ensures
        var f := P.SyncStatus(old(View()), progress);
        View() == f.w && ok == f.Next?
    {
      var s := status.(
               progress := progress,
               failuresAcknowledged := Min(status.failuresAcknowledged, progress.counts.failed));
      ok := true;
      if s != status {
        ok := UpdateStatus(s);
      }
    }

    /** ok means the plan is not cancelled. */
    method EnsureCancelledState() returns (ok: bool)
      modifies this
      ensures
        var f := P.EnsureCancelled(old(View()));
        View() == f.w && ok == f.Next?
    {
      if !cancelled {
        return true;
      }
      if !status.phase.Cancelled? {
        ok := UpdateStatus(status.(phase := Cancelled, completionTime := Some(Stored(now))));
      }
      ok := false;
    }

    /** ok means the plan is not paused, or was resumed just now. */
    method EnsurePauseState(failed: nat) returns (ok: bool)
      modifies this
      ensures
        var f := P.EnsurePauseState(cfg, old(View()), failed);
        View() == f.w && ok == f.Next?
    {
      if paused {
        if !status.phase.Paused? {
          ok := UpdateStatus(status.(phase := Paused));
        }
        return false;
      }
      ok := true;
      if status.phase.Paused? {
        var acknowledge := cfg.policy.kind.Pause? && cfg.policy.Exceeded(P.NewFailures(status, failed));
        var s := status.(phase := InProgress);
        if acknowledge {
          s := s.(failuresAcknowledged := failed);
        }
        ok := UpdateStatus(s);
      }
    }

    /** The checks of runPreflight that look at the rollout alone. */
    method CheckRollout(groups: seq<Group>) returns (anyNode: bool, checked: bool)
      ensures anyNode <==> |AllNodes(groups)| > 0
      ensures checked <==> P.RolloutChecks(cfg, groups)
    {
      var total := Total(groups);
      anyNode := total > 0;
      checked := false;
      if anyNode {
        checked := true;
        if cfg.target.kubernetesVersion != "" {
          checked := CheckControlPlaneFirst(groups);
        }
        var safe := CheckControlPlaneQuorum(groups);
        checked := checked && safe;
      }
    }

    /** Runs the preflight once, before the first job. */
    method EnsurePreflight(groups: seq<Group>, jobsByNode: Jobs, remote: Option<bool>) returns (ok: bool)
      modifies this
      ensures
        var f := P.EnsurePreflight(
                   old(View()), jobsByNode != map[], |AllNodes(groups)| > 0, P.RolloutChecks(cfg, groups), remote);
        View() == f.w && ok == f.Next?
      ensures ok ==>
                || jobsByNode != map[] || old(status.preflight) == Some(Preflight(true, old(generation)))
                || (P.RolloutChecks(cfg, groups) && remote == Some(true))
    {
      if jobsByNode != map[] {
        return true;
      }
      if status.preflight == Some(Preflight(true, generation)) {
        return true;
      }
      if status.phase.Unset? || status.phase.PlanPending? {
        ok := UpdateStatus(status.(phase := Preflighting));
        if !ok { return; }
      }
      var anyNode, checked := CheckRollout(groups);
      if anyNode && remote.None? {
        return false;
      }
      var passed := checked && remote == Some(true);
      var phase := if passed then PlanPending else PlanFailed;
      ok := UpdateStatus(status.(preflight := Some(Preflight(passed, generation)), phase := phase));
      ok := ok && passed;
    }

    /** Bumps the kube-proxy image and reports whether its rollout has finished. */
    method EnsureKubeProxyUpgraded(version: string) returns (done: bool)
      modifies this
      ensures
        var f := P.UpgradeKubeProxy(old(View()), version);
        View() == f.w && done == f.Next?
    {
      done := Call();
      if !done { return; }
      if kubeProxy.None? {
        return true;
      }
      var ds := kubeProxy.value;
      if ds.images == [] {
        return false;
      }
      if ds.images[0] != P.KubeProxyImage(version) {
        done := Call();
        if done {
          kubeProxy := Some(ds.(images := ds.images[0 := P.KubeProxyImage(version)], generation := ds.generation + 1));
        }
        return false;
      }
      return P.RolledOut(ds);
    }

    method EnsureKubeProxy(groups: seq<Group>, jobsByNode: Jobs) returns (ok: bool)
      modifies this
      ensures
        var f := P.EnsureKubeProxy(old(View()), P.KubeProxyDue(cfg, groups, jobsByNode), cfg.target.kubernetesVersion);
        View() == f.w && ok == f.Next?
    {
      if cfg.target.kubernetesVersion == "" || status.kubeProxyUpgraded {
        return true;
      }
      var controlPlane := ControlPlaneNodes(groups);
      var completed := AllNodesCompleted(controlPlane, jobsByNode);
      if |controlPlane| == 0 || !completed {
        return true;
      }
      ok := EnsureKubeProxyUpgraded(cfg.target.kubernetesVersion);
      if ok {
        ok := UpdateStatus(status.(kubeProxyUpgraded := true));
      }
    }

    /** Sets spec.paused so the pause handling takes over. */
    method PauseOnFailures()
      modifies this
      ensures View() == P.PauseOnFailures(old(View())).w
    {
      var ok := true;
      if !paused {
        ok := Call();
        if !ok { return; }
        paused, generation := true, generation + 1;
      }
      ok := UpdateStatus(status.(phase := Paused));
    }

    /** ok means the failure budget is not used up. */
    method FailureBudgetExceeded(failed: nat) returns (ok: bool)
      modifies this
      ensures
        var f := P.EnforceFailureBudget(cfg, old(View()), failed);
        View() == f.w && ok == f.Next?
    {
      if !cfg.policy.Exceeded(P.NewFailures(status, failed)) {
        return true;
      }
      if cfg.policy.kind.Pause? {
        PauseOnFailures();
        return false;
      }
      if !status.phase.PlanFailed? {
        ok := UpdateStatus(status.(phase := PlanFailed, completionTime := Some(Stored(now))));
      }
      ok := false;
    }

    /** ok means some node is still to be processed. */
    method AllNodesProcessed(counts: JobCounts, total: nat) returns (ok: bool)
      modifies this
      ensures
        var f := P.CompletePlan(old(View()), counts, total);
        View() == f.w && ok == f.Next?
    {
      if counts.completed + counts.failed < total {
        return true;
      }
      if !status.phase.PlanCompleted? {
        ok := UpdateStatus(status.(phase := PlanCompleted, completionTime := Some(Stored(now))));
      }
      ok := false;
    }

    // -------------------------------------------------------------- scheduler.go

    method MarkInProgress() returns (ok: bool)
      modifies this
      ensures
        var f := P.MarkInProgress(old(View()));
        View() == f.w && ok == f.Next?
    {
      match status.phase {
        case PlanPending | PlanFailed | PlanCompleted | Cancelled | Unset =>
          var s := status.(phase := InProgress, completionTime := None);
          if s.startTime.None? {
            s := s.(startTime := Some(Stored(now)));
          }
          ok := UpdateStatus(s);
        case Preflighting | InProgress | Paused =>
          ok := true;
      }
    }

    /** Whether the node has to wait for the control plane. */
    method WaitForControlPlane(groups: seq<Group>, jobsByNode: Jobs, node: Node) returns (wait: bool)
      ensures wait <==> P.WorkersGated(cfg, groups, jobsByNode) && !IsControlPlane(node)
    {
      if cfg.target.kubernetesVersion == "" || IsControlPlane(node) {
        return false;
      }
      var controlPlane := ControlPlaneNodes(groups);
      if |controlPlane| == 0 {
        return false;
      }
      var completed := AllNodesCompleted(controlPlane, jobsByNode);
      return !completed;
    }

    method CreatePatchJob(node: string, group: string) returns (ok: bool)
      modifies this
      ensures
        var f := P.CreatePatchJob(cfg, old(View()), node, group);
        View() == f.w && ok == f.Next?
    {
      ok := Call();
      if !ok || node in jobs { return; }
      jobs := jobs[node := PatchJob(node, group, cfg.target, false, FRESH_STATUS)];
      ok := AcquireLease(node, group);
      if ok {
        ok := UpdateStatus(status.(lastNodeScheduledAt := Some(Stored(now))));
      }
    }

    /** The nodes of a group without a job, and whether the group has finished. */
    method InspectGroup(g: Group, jobsByNode: Jobs) returns (pending: seq<Node>, finished: bool)
      ensures pending == P.PendingNodes(g.nodes, jobsByNode)
      ensures finished <==> P.GroupFinished(g, jobsByNode)
    {
      pending, finished := [], true;
      for j := 0 to |g.nodes|
        invariant pending == P.PendingNodes(g.nodes[..j], jobsByNode)
        invariant finished <==> forall n <- g.nodes[..j] :: IsFinished(jobsByNode, n.name)
      {
        assert g.nodes[..j + 1][..j] == g.nodes[..j];
        assert g.nodes[..j + 1] == g.nodes[..j] + [g.nodes[j]];
        var name := g.nodes[j].name;
        if name !in jobsByNode {
          pending := pending + [g.nodes[j]];
          finished := false;
        } else if !jobsByNode[name].Finished() {
          finished := false;
        }
      }
      assert g.nodes[..|g.nodes|] == g.nodes;
    }

    /** One round: fills the free slots of the active group and counts each node served. */
    method StartRound(groups: seq<Group>, jobsByNode: Jobs, group: string, nodes: seq<Node>, active: map<string, nat>)
      returns (activeAfter: map<string, nat>)
      modifies this
      ensures
        var w, gated := old(View()), P.WorkersGated(cfg, groups, jobsByNode);
        && View() == P.StartRound(cfg, w, gated, group, nodes).w
        && RoundCounted(active, activeAfter, group,
                        if P.MarkInProgress(w).Stop? then 0
                        else P.ServedCount(cfg, P.MarkInProgress(w).w, gated, group, nodes))
    {
      activeAfter := active;
      var ok := MarkInProgress();
      if !ok { return; }
      ghost var w, gated := View(), P.WorkersGated(cfg, groups, jobsByNode);
      for i := 0 to |nodes|
        invariant P.CreateJobs(cfg, w, gated, group, nodes) == P.CreateJobs(cfg, View(), gated, group, nodes[i..])
        invariant P.ServedCount(cfg, w, gated, group, nodes) == i + P.ServedCount(cfg, View(), gated, group, nodes[i..])
        invariant RoundCounted(active, activeAfter, group, i)
      {
        assert nodes[i..][1..] == nodes[i + 1..];
        var wait := WaitForControlPlane(groups, jobsByNode, nodes[i]);
        if wait { return; }
        ok := CreatePatchJob(nodes[i].name, group);
        if !ok { return; }
        activeAfter := activeAfter[group := Slots(activeAfter, group) + 1];
      }
    }

    /** The first group in the order that still has work, with its nodes that have no job. */
    method FindActiveGroup(groups: seq<Group>, jobsByNode: Jobs) returns (i: nat, pending: seq<Node>)
      ensures i == P.ActiveGroup(groups, jobsByNode)
      ensures i < |groups| ==> pending == P.PendingNodes(groups[i].nodes, jobsByNode)
    {
      i := 0;
      while i < |groups|
        invariant i <= |groups|
        invariant forall k :: 0 <= k < i ==> P.GroupFinished(groups[k], jobsByNode)
      {
        var finished;
        pending, finished := InspectGroup(groups[i], jobsByNode);
        if !finished { return; }
        i := i + 1;
      }
      pending := [];
    }

    method ScheduleNodes(groups: seq<Group>, jobsByNode: Jobs, active: map<string, nat>, ghost leases: seq<string>)
      requires CountsSlots(active, groups, jobsByNode, leases)
      modifies this
      ensures View() == P.ScheduleNodes(cfg, groups, old(View()), jobsByNode, leases).w
    {
      var i, pending := FindActiveGroup(groups, jobsByNode);
      if i == |groups| || |pending| == 0 { return; }
      FillSlots(groups, jobsByNode, i, pending, active, leases);
    }

    /** Serves the active group, if it has free slots and the delay has passed. */
    method FillSlots(
      groups: seq<Group>, jobsByNode: Jobs, i: nat, pending: seq<Node>, active: map<string, nat>,
      ghost leases: seq<string>)
      requires CountsSlots(active, groups, jobsByNode, leases)
      requires i == P.ActiveGroup(groups, jobsByNode) < |groups|
      requires pending == P.PendingNodes(groups[i].nodes, jobsByNode) && |pending| > 0
      modifies this
      ensures View() == P.ScheduleNodes(cfg, groups, old(View()), jobsByNode, leases).w
    {
      var g := groups[i];
      var free := g.concurrency - Slots(active, g.name);
      if free <= 0 { return; }
      var wait := DelayRemaining(cfg, now, status, jobsByNode);
      if wait > 0 { return; }
      var nodes := pending[..Min(free, |pending|)];
      RoundStarts(cfg, groups, View(), jobsByNode, leases, i, free, nodes);
      var _ := StartRound(groups, jobsByNode, g.name, nodes, active);
    }

    /** The part of Reconcile after the jobs were listed and the Leases synced. */
    method Proceed(
      groups: seq<Group>, jobsByNode: Jobs, active: map<string, nat>, ghost leases: seq<string>, remote: Option<bool>)
      returns (ok: bool)
      requires WellFormed(groups) && CountsSlots(active, groups, jobsByNode, leases)
      modifies this
      ensures
        var f := P.SyncStatus(old(View()), P.Summarized(cfg, groups, jobsByNode, leases));
        if f.Stop? then View() == f.w && !ok
        else
          var seen := P.Look(cfg, groups, jobsByNode, remote);
          var a := P.Admit(cfg, f.w, seen);
          if a.Stop? then View() == a.w && !ok
          else View() == P.Proceed(cfg, a.w, seen).w && ok == P.Proceed(cfg, a.w, seen).Next?
    {
      var progress := Summarize(cfg, groups, jobsByNode, active, leases);
      ok := SyncStatus(progress);
      if !ok { return; }
      ok := EnsureCancelledState();
      if !ok { return; }
      ok := EnsurePauseState(progress.counts.failed);
      if !ok { return; }
      ok := EnsurePreflight(groups, jobsByNode, remote);
      if !ok { return; }
      ok := EnsureKubeProxy(groups, jobsByNode);
      if !ok { return; }
      ok := FailureBudgetExceeded(progress.counts.failed);
      if !ok { return; }
      ok := AllNodesProcessed(progress.counts, progress.totalNodes);
      if !ok { return; }
      ok := IsInMaintenanceWindow(cfg.maintenance, now);
    }

    method Reconcile(o: Observation)
      requires calls == o.calls
      requires DistinctJobs(o.jobs) && DistinctNames(o.leases)
      modifies this
      ensures View() == P.Reconcile(cfg, old(View()), o)
    {
      var ok := Call();
      if !ok { return; }
      ok := ApplyRetention(o.retentionJobs);
      if !ok { return; }
      ok := Call();
      if !ok { return; }
      var rollout := Resolve(cfg.nodes, cfg.strategy);
      if rollout.None? {
        ok := UpdateStatus(status.(phase := PlanFailed, preflight := Some(Preflight(false, generation))));
        return;
      }
      ResolvedWellFormed(cfg.nodes, cfg.strategy);
      var groups := rollout.value.groups;
      ok := Call();
      if !ok { return; }
      var jobsByNode := IndexJobs(o.jobs);
      var active;
      ok, active := SyncLeases(groups, o.jobs, o.leases);
      if !ok { return; }
      ok := Proceed(groups, jobsByNode, active, o.leases, o.remoteChecks);
      if !ok { return; }
      ScheduleNodes(groups, jobsByNode, active, o.leases);
    }
  }
}
