/** Leases mirror unfinished jobs. */
module PlanLeases {
  import opened Api
  import opened Scheduling
  import opened PlanWorld
  import opened PlanSteps

  lemma {:induction false} ReleaseLeasesResult(w: World, view: Jobs, list: seq<string>)
    ensures
      var f := ReleaseLeases(w, view, list);
      f.Next? ==> f.w.leases == w.leases - set n | n in list && IsFinished(view, n)
    decreases |list|
  {
    if list != [] {
      assert list == [list[0]] + list[1..];
      if !IsFinished(view, list[0]) {
        ReleaseLeasesResult(w, view, list[1..]);
      } else if w.calls > 0 {
        ReleaseLeasesResult(w.(calls := w.calls - 1, leases := w.leases - {list[0]}), view, list[1..]);
      }
    }
  }

  /** The Leases acquired for jobs that need one; Leases that exist keep their label. */
  ghost predicate Restored(groups: seq<Group>, before: map<string, string>, after: map<string, string>,
                           jobs: seq<PatchJob>, list: seq<string>)
  {
    && after.Keys == before.Keys + Needy(jobs, list)
    && (forall n <- before :: after[n] == before[n])
    && (forall n <- after.Keys - before.Keys :: LabelledFor(groups, jobs, list, n, after[n]))
  }

  /** The nodes of the jobs that need a Lease. */
  ghost function Needy(jobs: seq<PatchJob>, list: seq<string>): set<string> {
    set j | j in jobs && NeedsLease(j, list) :: j.node
  }

  ghost predicate LabelledFor(groups: seq<Group>, jobs: seq<PatchJob>, list: seq<string>, node: string, group: string) {
    exists j <- jobs :: NeedsLease(j, list) && j.node == node && group == GroupOfJob(groups, j)
  }

  lemma NeedyFirst(jobs: seq<PatchJob>, list: seq<string>)
    requires jobs != []
    ensures Needy(jobs, list) == Needy(jobs[1..], list) + if NeedsLease(jobs[0], list) then {jobs[0].node} else {}
  {
    assert jobs == [jobs[0]] + jobs[1..];
  }

  /** Acquiring the Lease of the first job, if it needs one, and those of the rest. */
  lemma RestoredFirst(
    groups: seq<Group>, before: map<string, string>, middle: map<string, string>, after: map<string, string>,
    jobs: seq<PatchJob>, list: seq<string>)
    requires jobs != [] && Restored(groups, middle, after, jobs[1..], list)
    requires
      var n := jobs[0].node;
      middle == if NeedsLease(jobs[0], list) && n !in before then before[n := GroupOfJob(groups, jobs[0])] else before
    requires NeedsLease(jobs[0], list) ==> jobs[0].node in middle
    ensures Restored(groups, before, after, jobs, list)
  {
    NeedyFirst(jobs, list);
    forall n | n in after.Keys - before.Keys ensures LabelledFor(groups, jobs, list, n, after[n]) {
      if n in middle {
        assert jobs[0] in jobs;
      } else {
        assert LabelledFor(groups, jobs[1..], list, n, after[n]);
      }
    }
  }

  lemma {:induction false} RestoreLeasesResult(groups: seq<Group>, w: World, jobs: seq<PatchJob>, list: seq<string>)
    ensures
      var f := RestoreLeases(groups, w, jobs, list);
      f.Next? ==> Restored(groups, w.leases, f.w.leases, jobs, list)
    decreases |jobs|
  {
    if jobs == [] {
      assert Restored(groups, w.leases, w.leases, [], list);
    } else {
      var f := if NeedsLease(jobs[0], list) then AddLease(w, jobs[0].node, GroupOfJob(groups, jobs[0])) else Next(w);
      if f.Next? {
        RestoreLeasesResult(groups, f.w, jobs[1..], list);
        var r := RestoreLeases(groups, f.w, jobs[1..], list);
        if r.Next? {
          RestoredFirst(groups, w.leases, f.w.leases, r.w.leases, jobs, list);
        }
      }
    }
  }

  /** list names exactly the Leases that exist. */
  ghost predicate ListsLeases(list: seq<string>, leases: map<string, string>) { forall n :: n in list <==> n in leases }

  lemma SyncLeasesResult(groups: seq<Group>, w0: World, w1: World, jobs: seq<PatchJob>, list: seq<string>)
    requires ListsLeases(list, w0.leases)
    requires SyncLeases(groups, w0, jobs, list) == Next(w1)
    ensures
      var kept := w0.leases - set n | n in list && IsFinished(ByNode(jobs), n);
      Restored(groups, kept, w1.leases, jobs, list)
  {
    var w := Call(w0).w;
    ReleaseLeasesResult(w, ByNode(jobs), list);
    RestoreLeasesResult(groups, ReleaseLeases(w, ByNode(jobs), list).w, jobs, list);
  }

  /**
   * After a sync that ran to its end a listed job has a Lease exactly while it is unfinished, but none is given back to
   * a job being deleted; Leases of other jobs are untouched, and the slots counted per group are the Leases held for
   * it.
   */
  lemma LeasesMirrorJobs(groups: seq<Group>, w0: World, w1: World, jobs: seq<PatchJob>, list: seq<string>, all: Jobs)
    requires Lists(jobs, all) && (forall n <- all :: all[n].node == n)
    requires ListsLeases(list, w0.leases)
    requires SyncLeases(groups, w0, jobs, list) == Next(w1)
    ensures forall n <- all :: n in w1.leases <==> !all[n].Finished() && (n in w0.leases || !all[n].deleting)
    ensures forall n :: n !in all ==> (n in w1.leases <==> n in w0.leases)
    ensures forall g: string ::
              SlotHolders(groups, all, list, g) == set n | n in w1.leases && n in all && GroupOfJob(groups, all[n]) == g
  {
    ByNodeOfList(jobs, all);
    SyncLeasesResult(groups, w0, w1, jobs, list);
    forall n | n in all ensures n in w1.leases <==> !all[n].Finished() && (n in w0.leases || !all[n].deleting) {
      assert all[n] in jobs;
    }
  }

  /** A second sync finds nothing to release or to restore. */
  lemma SyncLeasesTwice(
    groups: seq<Group>, w0: World, w1: World, w2: World, jobs: seq<PatchJob>, list: seq<string>, again: seq<string>,
    all: Jobs)
    requires Lists(jobs, all) && (forall n <- all :: all[n].node == n)
    requires ListsLeases(list, w0.leases) && ListsLeases(again, w1.leases)
    requires SyncLeases(groups, w0, jobs, list) == Next(w1)
    requires SyncLeases(groups, w1, jobs, again) == Next(w2)
    ensures w2.leases == w1.leases
  {
    ByNodeOfList(jobs, all);
    LeasesMirrorJobs(groups, w0, w1, jobs, list, all);
    SyncLeasesResult(groups, w1, w2, jobs, again);
    assert (set n | n in again && IsFinished(ByNode(jobs), n)) == {};
    assert Needy(jobs, again) == {};
  }
}
