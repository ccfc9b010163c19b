/** The slots counted per group are the Leases held for it, from the sync to the end of a round. */
module PlanSlots {
  import opened Api
  import opened Scheduling
  import opened PlanWorld
  import opened PlanSteps
  import opened PlanLeases
  import Controller = PatchPlanController

  /** The Leases that carry the group's label. */
  ghost function LeasesFor(leases: map<string, string>, group: string): set<string> {
    set n | n in leases && leases[n] == group
  }

  // ---------------------------------------------------------------- scheduling

  /** None of the nodes has a job or a Lease. */
  ghost predicate Unserved(w: World, nodes: seq<Node>) {
    UniquelyNamed(nodes) && forall n <- nodes :: n.name !in w.jobs && n.name !in w.leases
  }

  lemma StopsOutOfCalls(cfg: Config, w: World, w1: World, node: string, group: string)
    requires CreatePatchJob(cfg, w, node, group) == Stop(w1)
    ensures w1.calls == 0
  {
  }

  lemma RestUnserved(w: World, w1: World, nodes: seq<Node>)
    requires nodes != [] && Unserved(w, nodes)
    requires w1.jobs.Keys == w.jobs.Keys + {nodes[0].name} && w1.leases.Keys == w.leases.Keys + {nodes[0].name}
    ensures Unserved(w1, nodes[1..])
  {
    forall n | n in nodes[1..] ensures n.name !in w1.jobs && n.name !in w1.leases {
      var i :| 0 <= i < |nodes| - 1 && nodes[1..][i] == n;
      assert nodes[i + 1] == n;
    }
  }

  lemma OneMoreLease(leases: map<string, string>, node: string, group: string, g: string)
    requires node !in leases
    ensures |LeasesFor(leases[node := group], g)| == |LeasesFor(leases, g)| + if g == group then 1 else 0
  {
    assert LeasesFor(leases[node := group], g) == LeasesFor(leases, g) + if g == group then {node} else {};
  }

  /** The loop was not cut short by a call that failed. */
  predicate RanThrough(f: Flow) { f.Next? || f.w.calls > 0 }

  /** A creation loop adds a Lease per node it serves to the group it serves, and none to any other. */
  lemma {:induction false} LeasesFollowSlots(
    cfg: Config, w: World, f: Flow, gated: bool, group: string, nodes: seq<Node>, g: string)
    requires Unserved(w, nodes) && f == CreateJobs(cfg, w, gated, group, nodes) && RanThrough(f)
    ensures |LeasesFor(f.w.leases, g)| ==
            |LeasesFor(w.leases, g)| + if g == group then ServedCount(cfg, w, gated, group, nodes) else 0
    ensures f.Next? ==> ServedCount(cfg, w, gated, group, nodes) == |nodes|
    decreases |nodes|
  {
    if nodes != [] && !(gated && !IsControlPlane(nodes[0])) {
      match CreatePatchJob(cfg, w, nodes[0].name, group) {
        case Next(w2) =>
          assert nodes[0] in nodes;
          OneMoreLease(w.leases, nodes[0].name, group, g);
          RestUnserved(w, w2, nodes);
          LeasesFollowSlots(cfg, w2, f, gated, group, nodes[1..], g);
        case Stop(w2) =>
          StopsOutOfCalls(cfg, w, w2, nodes[0].name, group);
      }
    }
  }

  // ---------------------------------------------------------------- from the sync on

  /** Every Lease belongs to a job and carries its group. */
  ghost predicate LeasesFit(groups: seq<Group>, leases: map<string, string>, all: Jobs) {
    forall n <- leases :: n in all && leases[n] == GroupOfJob(groups, all[n])
  }

  ghost predicate JobsNamed(all: Jobs) { forall n <- all :: all[n].node == n }

  ghost predicate CountsLeases(active: map<string, nat>, leases: map<string, string>) {
    forall g: string :: Controller.Slots(active, g) == |LeasesFor(leases, g)|
  }

  lemma SyncKeepsFit(groups: seq<Group>, w0: World, w1: World, jobs: seq<PatchJob>, list: seq<string>, all: Jobs)
    requires Lists(jobs, all) && JobsNamed(all) && ListsLeases(list, w0.leases) && LeasesFit(groups, w0.leases, all)
    requires SyncLeases(groups, w0, jobs, list) == Next(w1)
    ensures LeasesFit(groups, w1.leases, all)
  {
    SyncLeasesResult(groups, w0, w1, jobs, list);
    var kept := w0.leases - set n | n in list && IsFinished(ByNode(jobs), n);
    forall n | n in w1.leases ensures n in all && w1.leases[n] == GroupOfJob(groups, all[n]) {
      if n !in kept {
        assert LabelledFor(groups, jobs, list, n, w1.leases[n]);
      }
    }
  }

  lemma HoldersHaveLeases(
    groups: seq<Group>, w0: World, w1: World, jobs: seq<PatchJob>, list: seq<string>, all: Jobs, g: string)
    requires Lists(jobs, all) && JobsNamed(all) && ListsLeases(list, w0.leases) && LeasesFit(groups, w0.leases, all)
    requires SyncLeases(groups, w0, jobs, list) == Next(w1)
    ensures SlotHolders(groups, all, list, g) == LeasesFor(w1.leases, g)
  {
    LeasesMirrorJobs(groups, w0, w1, jobs, list, all);
    SyncKeepsFit(groups, w0, w1, jobs, list, all);
  }

  /** The map a sync returns counts the Leases of every group. */
  lemma SyncCountsLeases(
    groups: seq<Group>, w0: World, w1: World, jobs: seq<PatchJob>, list: seq<string>, all: Jobs,
    active: map<string, nat>)
    requires Lists(jobs, all) && JobsNamed(all) && ListsLeases(list, w0.leases) && LeasesFit(groups, w0.leases, all)
    requires SyncLeases(groups, w0, jobs, list) == Next(w1)
    requires Controller.CountsSlots(active, groups, all, list)
    ensures CountsLeases(active, w1.leases) && LeasesFit(groups, w1.leases, all)
  {
    SyncKeepsFit(groups, w0, w1, jobs, list, all);
    forall g: string ensures Controller.Slots(active, g) == |LeasesFor(w1.leases, g)| {
      HoldersHaveLeases(groups, w0, w1, jobs, list, all, g);
    }
  }

  lemma {:induction false} PendingUniquelyNamed(nodes: seq<Node>, view: Jobs)
    requires UniquelyNamed(nodes)
    ensures UniquelyNamed(PendingNodes(nodes, view))
  {
    if nodes != [] {
      var init := nodes[..|nodes| - 1];
      PendingUniquelyNamed(init, view);
      var r := PendingNodes(init, view);
      forall k | 0 <= k < |r| ensures r[k].name != nodes[|nodes| - 1].name {
        assert r[k] in init;
      }
    }
  }

  lemma PendingUnserved(groups: seq<Group>, w: World, nodes: seq<Node>, i: nat)
    requires Distinct(groups) && i < |groups| && LeasesFit(groups, w.leases, w.jobs)
    requires nodes <= PendingNodes(groups[i].nodes, w.jobs)
    ensures Unserved(w, nodes)
  {
    PendingUniquelyNamed(groups[i].nodes, w.jobs);
    forall n | n in nodes ensures n.name !in w.jobs && n.name !in w.leases {
      assert n in PendingNodes(groups[i].nodes, w.jobs);
    }
  }

  /**
   * From the sync to the end of the round the slots counted per group are the Leases held for it: w1 is the world after
   * the sync, w the one in which the round begins, f what the creation loop makes of it.
   */
  lemma MapCountsLeases(
    cfg: Config, groups: seq<Group>, w0: World, w1: World, w: World, f: Flow, jobs: seq<PatchJob>, list: seq<string>,
    active: map<string, nat>, after: map<string, nat>, i: nat, nodes: seq<Node>, gated: bool)
    requires Distinct(groups) && i < |groups| && Lists(jobs, w.jobs) && JobsNamed(w.jobs)
    requires ListsLeases(list, w0.leases) && LeasesFit(groups, w0.leases, w.jobs)
    requires SyncLeases(groups, w0, jobs, list) == Next(w1) && w.leases == w1.leases
    requires Controller.CountsSlots(active, groups, w.jobs, list)
    requires nodes <= PendingNodes(groups[i].nodes, w.jobs)
    requires f == CreateJobs(cfg, w, gated, groups[i].name, nodes) && RanThrough(f)
    requires Controller.RoundCounted(active, after, groups[i].name, ServedCount(cfg, w, gated, groups[i].name, nodes))
    ensures CountsLeases(active, w1.leases) && CountsLeases(after, f.w.leases)
  {
    SyncCountsLeases(groups, w0, w1, jobs, list, w.jobs, active);
    PendingUnserved(groups, w, nodes, i);
    forall g: string ensures Controller.Slots(after, g) == |LeasesFor(f.w.leases, g)| {
      LeasesFollowSlots(cfg, w, f, gated, groups[i].name, nodes, g);
    }
  }
}
