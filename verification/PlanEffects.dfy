/** What a reconcile pass can and cannot change, and under which guards it creates PatchJobs. */
module PlanEffects {
  import opened Api
  import opened Scheduling
  import opened Maintenance
  import opened PlanWorld
  import opened PlanSteps

  /** w1 differs from w0 in Leases and in the number of calls left only. */
  ghost predicate OnlyLeases(w0: World, w1: World) {
    w1 == w0.(leases := w1.leases, calls := w1.calls)
  }

  lemma {:induction false} ReleaseLeasesKeeps(w: World, view: Jobs, leases: seq<string>)
    ensures OnlyLeases(w, ReleaseLeases(w, view, leases).w)
    decreases |leases|
  {
    if leases != [] {
      if IsFinished(view, leases[0]) {
        if w.calls > 0 {
          ReleaseLeasesKeeps(w.(calls := w.calls - 1, leases := w.leases - {leases[0]}), view, leases[1..]);
        }
      } else {
        ReleaseLeasesKeeps(w, view, leases[1..]);
      }
    }
  }

  lemma {:induction false} RestoreLeasesKeeps(groups: seq<Group>, w: World, jobs: seq<PatchJob>, leases: seq<string>)
    ensures OnlyLeases(w, RestoreLeases(groups, w, jobs, leases).w)
    decreases |jobs|
  {
    if jobs != [] {
      if NeedsLease(jobs[0], leases) {
        var f := AddLease(w, jobs[0].node, GroupOfJob(groups, jobs[0]));
        if f.Next? {
          RestoreLeasesKeeps(groups, f.w, jobs[1..], leases);
        }
      } else {
        RestoreLeasesKeeps(groups, w, jobs[1..], leases);
      }
    }
  }

  lemma SyncLeasesKeeps(groups: seq<Group>, w: World, jobs: seq<PatchJob>, leases: seq<string>)
    ensures OnlyLeases(w, SyncLeases(groups, w, jobs, leases).w)
  {
    var f := Call(w);
    if f.Next? {
      ReleaseLeasesKeeps(f.w, ByNode(jobs), leases);
      var r := ReleaseLeases(f.w, ByNode(jobs), leases);
      if r.Next? {
        RestoreLeasesKeeps(groups, r.w, jobs, leases);
      }
    }
  }

  /**
   * What every reconcile that got past retention does to the plan, however it ends: failed is the number of
   * failed nodes it saw, checked whether the preflight checks pass, should they be run.
   */
  ghost predicate StatusKeeps(cfg: Config, checked: bool, failed: nat, w0: World, w1: World) {
    && w1.now == w0.now && w1.cancelled == w0.cancelled
    && w1.status.historyPurged == w0.status.historyPurged
    && (w0.status.kubeProxyUpgraded ==> w1.status.kubeProxyUpgraded)
    && (w0.status.startTime.Some? ==> w1.status.startTime == w0.status.startTime)
    && w0.generation <= w1.generation
    && (|| w1.status.preflight == w0.status.preflight
        || (w1.status.preflight.Some? && w1.status.preflight.value.generation == w0.generation
            && (w1.status.preflight.value.passed ==> checked)))
    && (|| w1.status.failuresAcknowledged == w0.status.failuresAcknowledged
        || w1.status.failuresAcknowledged == Min(w0.status.failuresAcknowledged, failed)
        || (w1.status.failuresAcknowledged == failed && cfg.policy.kind.Pause?))
  }

  /** Before scheduling it creates no job. */
  ghost predicate PrepareKeeps(cfg: Config, checked: bool, failed: nat, w0: World, w1: World) {
    && StatusKeeps(cfg, checked, failed, w0, w1)
    && w1.jobs == w0.jobs && w1.status.lastNodeScheduledAt == w0.status.lastNodeScheduledAt
  }

  /** All preflight checks pass, those on the rollout and the remote ones. */
  ghost predicate ChecksPass(seen: Seen) { seen.checked && seen.remoteChecks == Some(true) }

  /** The guards that hold whenever a reconcile goes on to schedule nodes. */
  ghost predicate GatesOpen(cfg: Config, w0: World, w1: World, seen: Seen) {
    && !w0.cancelled && !w0.paused
    && (seen.started || ChecksPass(seen) || PreflightKnown(w0))
    && (seen.kubeProxyDue ==> w1.status.kubeProxyUpgraded)
    && !cfg.policy.Exceeded(NewFailures(w1.status, seen.counts.failed))
    && IsInMaintenanceWindow(cfg.maintenance, w0.now)
  }

  lemma SwitchesEffect(cfg: Config, checked: bool, w: World, failed: nat)
    ensures PrepareKeeps(cfg, checked, failed, w, EnsureCancelled(w).w)
    ensures EnsureCancelled(w).Next? ==> !w.cancelled && EnsureCancelled(w).w == w
    ensures
      var f := EnsurePauseState(cfg, w, failed);
      && PrepareKeeps(cfg, checked, failed, w, f.w)
      && (f.Next? ==> !w.paused && f.w.generation == w.generation && f.w.status.preflight == w.status.preflight)
  {
  }

  lemma RecordPreflightEffect(cfg: Config, checked: bool, w: World, passed: bool, failed: nat)
    requires passed ==> checked
    ensures
      var f := RecordPreflight(w, passed);
      PrepareKeeps(cfg, checked, failed, w, f.w) && (f.Next? ==> passed)
  {
  }

  lemma PreflightEffect(cfg: Config, w: World, seen: Seen, failed: nat)
    ensures
      var f := EnsurePreflight(w, seen.started, seen.total > 0, seen.checked, seen.remoteChecks);
      && PrepareKeeps(cfg, ChecksPass(seen), failed, w, f.w)
      && (f.Next? ==> seen.started || ChecksPass(seen) || PreflightKnown(w))
  {
    RecordPreflightEffect(
      cfg, ChecksPass(seen), BeginPreflight(w).w, ChecksPass(seen), failed);
  }

  lemma AdmitEffect(cfg: Config, w: World, seen: Seen)
    ensures
      var f := Admit(cfg, w, seen);
      && PrepareKeeps(cfg, ChecksPass(seen), seen.counts.failed, w, f.w)
      && (f.Next? ==>
            && !w.cancelled && !w.paused && f.w.generation == w.generation
            && (seen.started || ChecksPass(seen) || PreflightKnown(w)))
  {
    SwitchesEffect(cfg, ChecksPass(seen), w, seen.counts.failed);
    if !w.cancelled {
      var f := EnsurePauseState(cfg, w, seen.counts.failed);
      if f.Next? {
        PreflightEffect(cfg, f.w, seen, seen.counts.failed);
      }
    }
  }

  lemma KubeProxyEffect(cfg: Config, checked: bool, w: World, due: bool, failed: nat)
    ensures
      var f := EnsureKubeProxy(w, due, cfg.target.kubernetesVersion);
      && PrepareKeeps(cfg, checked, failed, w, f.w)
      && (f.Next? && due ==> f.w.status.kubeProxyUpgraded)
      && f.w.generation == w.generation
  {
    UpgradeTouchesKubeProxy(w, cfg.target.kubernetesVersion);
  }

  lemma UpgradeTouchesKubeProxy(w: World, version: string)
    ensures
      var w1 := UpgradeKubeProxy(w, version).w;
      w1 == w.(kubeProxy := w1.kubeProxy, calls := w1.calls)
  {
  }

  lemma BudgetEffect(cfg: Config, checked: bool, w: World, failed: nat)
    ensures
      var f := EnforceFailureBudget(cfg, w, failed);
      && PrepareKeeps(cfg, checked, failed, w, f.w)
      && (f.Next? ==> f.w == w && !cfg.policy.Exceeded(NewFailures(w.status, failed)))
  {
    PauseKeeps(cfg, checked, w, failed);
  }

  lemma PauseKeeps(cfg: Config, checked: bool, w: World, failed: nat)
    ensures PrepareKeeps(cfg, checked, failed, w, PauseOnFailures(w).w)
  {
  }

  lemma ProceedEffect(cfg: Config, w: World, seen: Seen)
    ensures
      var f := Proceed(cfg, w, seen);
      && PrepareKeeps(cfg, ChecksPass(seen), seen.counts.failed, w, f.w)
      && (f.Next? ==>
            && (seen.kubeProxyDue ==> f.w.status.kubeProxyUpgraded)
            && !cfg.policy.Exceeded(NewFailures(f.w.status, seen.counts.failed))
            && IsInMaintenanceWindow(cfg.maintenance, w.now))
  {
    KubeProxyEffect(cfg, ChecksPass(seen), w, seen.kubeProxyDue, seen.counts.failed);
    var f := EnsureKubeProxy(w, seen.kubeProxyDue, cfg.target.kubernetesVersion);
    if f.Next? {
      BudgetEffect(cfg, ChecksPass(seen), f.w, seen.counts.failed);
    }
  }

  lemma SyncStatusEffect(cfg: Config, checked: bool, w: World, progress: Progress)
    ensures
      var f := SyncStatus(w, progress);
      && PrepareKeeps(cfg, checked, progress.counts.failed, w, f.w)
      && f.w == w.(status := f.w.status, calls := f.w.calls)
      && f.w.status.preflight == w.status.preflight
  {
  }

  /** The stages of a pass between the counters and the scheduling. */
  function Gates(cfg: Config, w: World, seen: Seen): Flow {
    var w :- Admit(cfg, w, seen);
    Proceed(cfg, w, seen)
  }

  lemma GatesEffect(cfg: Config, w: World, seen: Seen)
    ensures
      var f := Gates(cfg, w, seen);
      && PrepareKeeps(cfg, ChecksPass(seen), seen.counts.failed, w, f.w)
      && (f.Next? ==> GatesOpen(cfg, w, f.w, seen))
  {
    AdmitEffect(cfg, w, seen);
    var f := Admit(cfg, w, seen);
    if f.Next? {
      ProceedEffect(cfg, f.w, seen);
    }
  }

  lemma PrepareEffect(cfg: Config, groups: seq<Group>, w: World, o: Observation)
    ensures
      var f, seen := Prepare(cfg, groups, w, o), Look(cfg, groups, ByNode(o.jobs), o.remoteChecks);
      && PrepareKeeps(cfg, ChecksPass(seen), seen.counts.failed, w, f.w)
      && (f.Next? ==> GatesOpen(cfg, w, f.w, seen))
  {
    var view := ByNode(o.jobs);
    var seen := Look(cfg, groups, view, o.remoteChecks);
    var f0 := Call(w);
    if f0.Stop? { return; }
    SyncLeasesKeeps(groups, f0.w, o.jobs, o.leases);
    var f1 := SyncLeases(groups, f0.w, o.jobs, o.leases);
    if f1.Stop? { return; }
    var progress := Summarized(cfg, groups, view, o.leases);
    SyncStatusEffect(cfg, ChecksPass(seen), f1.w, progress);
    var f2 := SyncStatus(f1.w, progress);
    if f2.Stop? { return; }
    GatesEffect(cfg, f2.w, seen);
    assert Prepare(cfg, groups, w, o) == Gates(cfg, f2.w, seen);
  }

  // ---------------------------------------------------------------- what a pass goes by

  /** There is no kube-proxy, or it has been rolled out at the version. */
  predicate KubeProxyDone(kubeProxy: Option<DaemonSet>, version: string) {
    kubeProxy.None?
    || (&& kubeProxy.value.images != [] && kubeProxy.value.images[0] == KubeProxyImage(version)
        && RolledOut(kubeProxy.value))
  }

  /** The policy may have paused the plan, and the user has not cancelled it. */
  predicate AwaitsResume(cfg: Config, w: World) { cfg.policy.kind.Pause? && !w.cancelled && w.status.phase.Paused? }

  /** The failures acknowledged once a paused plan goes on. */
  function Accepted(cfg: Config, s: PlanStatus, failed: nat): int {
    if cfg.policy.Exceeded(NewFailures(s, failed)) then failed else Min(s.failuresAcknowledged, failed)
  }

  /** kube-proxy is called upgraded on evidence, and a resume settles the failures counted. */
  ghost predicate Accounts(cfg: Config, due: bool, failed: nat, w0: World, w1: World) {
    && (!w0.status.kubeProxyUpgraded && w1.status.kubeProxyUpgraded ==>
          due && KubeProxyDone(w0.kubeProxy, cfg.target.kubernetesVersion))
    && (AwaitsResume(cfg, w0) ==>
          w1.status.phase.Paused? || w1.status.failuresAcknowledged == Accepted(cfg, w0.status, failed))
  }

  /** The stages before the switches change nothing of that. */
  lemma CountingAccounts(cfg: Config, w0: World, w: World, w1: World, progress: Progress)
    requires OnlyLeases(w0, w) && w1 == SyncStatus(w, progress).w
    ensures w1.kubeProxy == w0.kubeProxy && w1.cancelled == w0.cancelled && w1.status.phase == w0.status.phase
    ensures w1.status.kubeProxyUpgraded == w0.status.kubeProxyUpgraded
    ensures Accepted(cfg, w1.status, progress.counts.failed) == Accepted(cfg, w0.status, progress.counts.failed)
    ensures SyncStatus(w, progress).Next? ==> w1.status.failuresAcknowledged <= progress.counts.failed
  {
  }

  /** Neither the acknowledged failures nor anything about kube-proxy changes. */
  predicate SameAccounts(w: World, w1: World) {
    && w1.status.failuresAcknowledged == w.status.failuresAcknowledged
    && w1.kubeProxy == w.kubeProxy && w1.status.kubeProxyUpgraded == w.status.kubeProxyUpgraded
  }

  lemma PreflightAccounts(
    w: World, w1: World, started: bool, anyNode: bool, checked: bool, remote: Option<bool>)
    requires w1 == EnsurePreflight(w, started, anyNode, checked, remote).w
    ensures SameAccounts(w, w1)
  {
    assert SameAccounts(w, BeginPreflight(w).w);
  }

  lemma AdmitAccounts(cfg: Config, w: World, w1: World, seen: Seen)
    requires w1 == Admit(cfg, w, seen).w && w.status.failuresAcknowledged <= seen.counts.failed
    ensures w1.kubeProxy == w.kubeProxy && w1.status.kubeProxyUpgraded == w.status.kubeProxyUpgraded
    ensures AwaitsResume(cfg, w) ==>
              || w1.status.failuresAcknowledged == Accepted(cfg, w.status, seen.counts.failed)
              || (w1.status.phase.Paused? && Admit(cfg, w, seen).Stop?)
  {
    if !w.cancelled {
      var f := EnsurePauseState(cfg, w, seen.counts.failed);
      if f.Next? {
        PreflightAccounts(f.w, w1, seen.started, seen.total > 0, seen.checked, seen.remoteChecks);
      }
    }
  }

  lemma BudgetAccounts(cfg: Config, w: World, w1: World, failed: nat)
    requires w1 == EnforceFailureBudget(cfg, w, failed).w
    ensures SameAccounts(w, w1)
  {
    if cfg.policy.kind.Pause? && cfg.policy.Exceeded(NewFailures(w.status, failed)) {
      assert w1 == PauseOnFailures(w).w;
    }
  }

  lemma CompleteAccounts(w: World, w1: World, counts: JobCounts, total: nat)
    requires w1 == CompletePlan(w, counts, total).w
    ensures SameAccounts(w, w1)
  {
  }

  /** The plan calls kube-proxy upgraded only if there is none or it was seen rolled out at the target version. */
  lemma ProceedAccounts(cfg: Config, w: World, w1: World, seen: Seen)
    requires w1 == Proceed(cfg, w, seen).w
    ensures w1.status.failuresAcknowledged == w.status.failuresAcknowledged
    ensures !w.status.kubeProxyUpgraded && w1.status.kubeProxyUpgraded ==>
              seen.kubeProxyDue && KubeProxyDone(w.kubeProxy, cfg.target.kubernetesVersion)
  {
    var f1 := EnsureKubeProxy(w, seen.kubeProxyDue, cfg.target.kubernetesVersion);
    if f1.Next? {
      var f2 := EnforceFailureBudget(cfg, f1.w, seen.counts.failed);
      BudgetAccounts(cfg, f1.w, f2.w, seen.counts.failed);
      if f2.Next? {
        CompleteAccounts(f2.w, CompletePlan(f2.w, seen.counts, seen.total).w, seen.counts, seen.total);
      }
    }
  }

  lemma PrepareAccounts(cfg: Config, groups: seq<Group>, w: World, w1: World, o: Observation, seen: Seen)
    requires seen == Look(cfg, groups, ByNode(o.jobs), o.remoteChecks) && w1 == Prepare(cfg, groups, w, o).w
    ensures Accounts(cfg, seen.kubeProxyDue, seen.counts.failed, w, w1)
  {
    var f0 := Call(w);
    if f0.Stop? { return; }
    SyncLeasesKeeps(groups, f0.w, o.jobs, o.leases);
    var f1 := SyncLeases(groups, f0.w, o.jobs, o.leases);
    if f1.Stop? { return; }
    var progress := Summarized(cfg, groups, ByNode(o.jobs), o.leases);
    var f2 := SyncStatus(f1.w, progress);
    CountingAccounts(cfg, w, f1.w, f2.w, progress);
    if f2.Stop? { return; }
    AdmitAccounts(cfg, f2.w, Admit(cfg, f2.w, seen).w, seen);
    var f3 := Admit(cfg, f2.w, seen);
    if f3.Stop? { return; }
    ProceedAccounts(cfg, f3.w, w1, seen);
  }

  // ---------------------------------------------------------------- creating jobs

  /** jobs with a new job for every one of the nodes that has none. */
  ghost function WithJobs(cfg: Config, jobs: Jobs, group: string, nodes: seq<Node>): Jobs {
    map n | n in jobs.Keys + NamesOf(nodes) :: if n in jobs then jobs[n] else NewJob(cfg, n, group)
  }

  function Created(cfg: Config, jobs: Jobs, node: string, group: string): Jobs {
    if node in jobs then jobs else jobs[node := NewJob(cfg, node, group)]
  }

  lemma WithJobsStep(cfg: Config, jobs: Jobs, group: string, nodes: seq<Node>, k: nat)
    requires 0 < k <= |nodes|
    ensures WithJobs(cfg, Created(cfg, jobs, nodes[0].name, group), group, nodes[1..][..k - 1])
            == WithJobs(cfg, jobs, group, nodes[..k])
  {
    var rest := nodes[1..][..k - 1];
    assert nodes[..k] == [nodes[0]] + rest;
    assert NamesOf(nodes[..k]) == {nodes[0].name} + NamesOf(rest);
  }

  lemma WithNoJobs(cfg: Config, jobs: Jobs, group: string, nodes: seq<Node>)
    ensures WithJobs(cfg, jobs, group, nodes[..0]) == jobs
  {
    assert NamesOf(nodes[..0]) == {};
  }

  /** w1 differs from w0 in jobs, Leases, the last scheduling instant and the calls left only. */
  ghost predicate OnlyCreates(w0: World, w1: World) {
    && w1 == w0.(jobs := w1.jobs, status := w1.status, leases := w1.leases, calls := w1.calls)
    && w1.status == w0.status.(lastNodeScheduledAt := w1.status.lastNodeScheduledAt)
  }

  /** A new job comes with the scheduling instant, unless an API call failed in between. */
  ghost predicate Stamped(w0: World, w1: World) {
    || w1.status.lastNodeScheduledAt == Some(Stored(w0.now))
    || (w1.status.lastNodeScheduledAt == w0.status.lastNodeScheduledAt && (w1.jobs == w0.jobs || w1.calls == 0))
  }

  lemma CreatePatchJobEffect(cfg: Config, w: World, node: string, group: string)
    ensures
      var f := CreatePatchJob(cfg, w, node, group);
      && OnlyCreates(w, f.w) && Stamped(w, f.w) && f.w.jobs.Keys >= w.jobs.Keys
      && (f.Stop? ==> f.w.calls == 0)
      && (w.calls == 0 ==> f.w == w)
      && (f.Next? && f.w.jobs != w.jobs ==> f.w.status.lastNodeScheduledAt == Some(Stored(w.now)))
  {
  }

  lemma CreatesOne(cfg: Config, w: World, node: string, group: string)
    requires w.calls > 0
    ensures CreatePatchJob(cfg, w, node, group).w.jobs == Created(cfg, w.jobs, node, group)
  {
  }

  predicate NoneWaits(gated: bool, nodes: seq<Node>) { gated ==> forall n <- nodes :: IsControlPlane(n) }

  lemma {:induction false} CreateJobsKeeps(cfg: Config, w: World, gated: bool, group: string, nodes: seq<Node>)
    ensures
      var w1 := CreateJobs(cfg, w, gated, group, nodes).w;
      OnlyCreates(w, w1) && Stamped(w, w1) && w1.jobs.Keys >= w.jobs.Keys
    decreases |nodes|
  {
    if nodes != [] && !(gated && !IsControlPlane(nodes[0])) {
      CreatePatchJobEffect(cfg, w, nodes[0].name, group);
      var f := CreatePatchJob(cfg, w, nodes[0].name, group);
      if f.Next? {
        CreateJobsKeeps(cfg, f.w, gated, group, nodes[1..]);
        CreatesOn(w, f.w, CreateJobs(cfg, f.w, gated, group, nodes[1..]).w);
      }
    }
  }

  lemma CreatesOn(w0: World, w1: World, w2: World)
    requires OnlyCreates(w0, w1) && Stamped(w0, w1) && OnlyCreates(w1, w2) && Stamped(w1, w2)
    requires w1.jobs != w0.jobs ==> w1.status.lastNodeScheduledAt == Some(Stored(w0.now))
    requires w2.jobs.Keys >= w1.jobs.Keys >= w0.jobs.Keys
    ensures OnlyCreates(w0, w2) && Stamped(w0, w2) && w2.jobs.Keys >= w0.jobs.Keys
  {
  }

  /** A creation loop ends with jobs for the first k of its nodes, none of them gated. */
  lemma {:induction false} CreateJobsEffect(
    cfg: Config, w: World, w1: World, gated: bool, group: string, nodes: seq<Node>)
    returns (k: nat)
    requires w1 == CreateJobs(cfg, w, gated, group, nodes).w
    ensures k <= |nodes|
    ensures w1.jobs == WithJobs(cfg, w.jobs, group, nodes[..k])
    ensures NoneWaits(gated, nodes[..k])
    decreases |nodes|
  {
    if nodes == [] || (gated && !IsControlPlane(nodes[0])) || w.calls == 0 {
      WithNoJobs(cfg, w.jobs, group, nodes);
      return 0;
    }
    CreatesOne(cfg, w, nodes[0].name, group);
    var f, rest := CreatePatchJob(cfg, w, nodes[0].name, group), 0;
    if f.Next? {
      rest := CreateJobsEffect(cfg, f.w, w1, gated, group, nodes[1..]);
    } else {
      WithNoJobs(cfg, f.w.jobs, group, nodes[1..]);
    }
    k := rest + 1;
    WithJobsStep(cfg, w.jobs, group, nodes, k);
    FirstWaitsNot(gated, nodes, k);
  }

  lemma FirstWaitsNot(gated: bool, nodes: seq<Node>, k: nat)
    requires 0 < k <= |nodes| && NoneWaits(gated, nodes[1..][..k - 1]) && !(gated && !IsControlPlane(nodes[0]))
    ensures NoneWaits(gated, nodes[..k])
  {
    assert nodes[..k] == [nodes[0]] + nodes[1..][..k - 1];
  }

  // ---------------------------------------------------------------- a whole pass

  /** What scheduling, from a state where the gates are open, does to the plan besides creating jobs. */
  ghost predicate OnlyStarts(w0: World, w1: World) {
    && w1 == w0.(status := w1.status, calls := w1.calls)
    && w1.status == w0.status.(
                    phase := w1.status.phase,
                    startTime := w1.status.startTime,
                    completionTime := w1.status.completionTime)
    && (w0.status.startTime.Some? ==> w1.status.startTime == w0.status.startTime)
  }

  lemma StartRoundEffect(cfg: Config, w: World, gated: bool, group: string, nodes: seq<Node>) returns (k: nat)
    ensures
      var w1 := StartRound(cfg, w, gated, group, nodes).w;
      && k <= |nodes|
      && w1.jobs == WithJobs(cfg, w.jobs, group, nodes[..k])
      && NoneWaits(gated, nodes[..k])
      && OnlyStarts(w, MarkInProgress(w).w) && OnlyCreates(MarkInProgress(w).w, w1) && Stamped(w, w1)
  {
    var f := MarkInProgress(w);
    if f.Next? {
      k := CreateJobsEffect(cfg, f.w, StartRound(cfg, w, gated, group, nodes).w, gated, group, nodes);
      CreateJobsKeeps(cfg, f.w, gated, group, nodes);
    } else {
      k := 0;
      WithNoJobs(cfg, w.jobs, group, nodes);
    }
  }

  /** A round: jobs for the first k pending nodes of the active group, within its free slots. */
  ghost predicate Round(
    cfg: Config, groups: seq<Group>, w0: World, w1: World, view: Jobs, leases: seq<string>, k: nat)
  {
    var i := ActiveGroup(groups, view);
    && i < |groups|
    && var pending := PendingNodes(groups[i].nodes, view);
    && k <= |pending| && k <= FreeSlots(groups, view, leases, groups[i])
    && DelayElapsed(cfg, w0.now, w0.status, view)
    && NoneWaits(WorkersGated(cfg, groups, view), pending[..k])
    && w1.jobs == WithJobs(cfg, w0.jobs, groups[i].name, pending[..k])
    && Stamped(w0, w1)
  }

  lemma PrefixOfPrefix(nodes: seq<Node>, m: nat, k: nat)
    requires k <= m <= |nodes|
    ensures nodes[..m][..k] == nodes[..k]
  {
  }

  lemma RoundEffect(
    cfg: Config, groups: seq<Group>, w: World, w1: World, view: Jobs, leases: seq<string>, i: nat, size: nat)
    returns (k: nat)
    requires i == ActiveGroup(groups, view) < |groups| && DelayElapsed(cfg, w.now, w.status, view)
    requires size <= |PendingNodes(groups[i].nodes, view)| && size <= FreeSlots(groups, view, leases, groups[i])
    requires w1 == StartRound(cfg, w, WorkersGated(cfg, groups, view), groups[i].name,
                              PendingNodes(groups[i].nodes, view)[..size]).w
    ensures Round(cfg, groups, w, w1, view, leases, k)
    ensures OnlyStarts(w, MarkInProgress(w).w) && OnlyCreates(MarkInProgress(w).w, w1)
  {
    var pending := PendingNodes(groups[i].nodes, view);
    k := StartRoundEffect(cfg, w, WorkersGated(cfg, groups, view), groups[i].name, pending[..size]);
    PrefixOfPrefix(pending, size, k);
  }

  lemma ScheduleEffect(cfg: Config, groups: seq<Group>, w: World, view: Jobs, leases: seq<string>) returns (k: nat)
    ensures
      var w1 := ScheduleNodes(cfg, groups, w, view, leases).w;
      || OnlyStarts(w, w1)
      || (&& Round(cfg, groups, w, w1, view, leases, k)
          && OnlyStarts(w, MarkInProgress(w).w) && OnlyCreates(MarkInProgress(w).w, w1))
  {
    k := 0;
    var i := ActiveGroup(groups, view);
    if i < |groups| {
      var pending := PendingNodes(groups[i].nodes, view);
      var free := FreeSlots(groups, view, leases, groups[i]);
      if pending != [] && free > 0 && DelayElapsed(cfg, w.now, w.status, view) {
        var w1 := ScheduleNodes(cfg, groups, w, view, leases).w;
        k := RoundEffect(cfg, groups, w, w1, view, leases, i, Min(free, |pending|));
      }
    }
  }

  /** A pass that created jobs for the first k pending nodes of the active group: every guard was open. */
  ghost predicate Scheduled(cfg: Config, groups: seq<Group>, w0: World, w1: World, o: Observation, k: nat) {
    var view := ByNode(o.jobs);
    && GatesOpen(cfg, w0, w1, Look(cfg, groups, view, o.remoteChecks))
    && Round(cfg, groups, w0, w1, view, o.leases, k)
  }

  ghost predicate CreatesNothing(w0: World, w1: World) {
    w1.jobs == w0.jobs && w1.status.lastNodeScheduledAt == w0.status.lastNodeScheduledAt
  }

  ghost predicate PreflightPasses(cfg: Config, groups: seq<Group>, o: Observation) {
    RolloutChecks(cfg, groups) && o.remoteChecks == Some(true)
  }

  /** A pass keeps the plan's status in order and creates jobs under the guards, if any. */
  ghost predicate Passed(cfg: Config, groups: seq<Group>, w0: World, w1: World, o: Observation, k: nat) {
    && StatusKeeps(cfg, PreflightPasses(cfg, groups, o), Failures(groups, ByNode(o.jobs)), w0, w1)
    && Accounts(cfg, KubeProxyDue(cfg, groups, ByNode(o.jobs)), Failures(groups, ByNode(o.jobs)), w0, w1)
    && (CreatesNothing(w0, w1) || Scheduled(cfg, groups, w0, w1, o, k))
  }

  lemma StartsAfterPrepare(cfg: Config, checked: bool, failed: nat, w0: World, w1: World, w2: World)
    requires PrepareKeeps(cfg, checked, failed, w0, w1) && OnlyStarts(w1, w2)
    ensures PrepareKeeps(cfg, checked, failed, w0, w2)
  {
  }

  lemma CreatesAfterPrepare(cfg: Config, checked: bool, failed: nat, w0: World, w1: World, w2: World)
    requires PrepareKeeps(cfg, checked, failed, w0, w1) && OnlyCreates(w1, w2)
    ensures StatusKeeps(cfg, checked, failed, w0, w2)
    ensures w2.status.kubeProxyUpgraded == w1.status.kubeProxyUpgraded
    ensures w2.status.failuresAcknowledged == w1.status.failuresAcknowledged
  {
  }

  /** Scheduling starts the plan, but not a paused one, and creates jobs: nothing that a pass goes by. */
  lemma ScheduleAccounts(
    cfg: Config, groups: seq<Group>, due: bool, failed: nat, w0: World, w: World, w1: World, view: Jobs,
    leases: seq<string>)
    requires Accounts(cfg, due, failed, w0, w) && w1 == ScheduleNodes(cfg, groups, w, view, leases).w
    requires OnlyStarts(w, w1) || (OnlyStarts(w, MarkInProgress(w).w) && OnlyCreates(MarkInProgress(w).w, w1))
    ensures Accounts(cfg, due, failed, w0, w1)
  {
    if w.status.phase.Paused? {
      PausedStays(cfg, groups, w, w1, view, leases);
    }
  }

  lemma PausedStays(cfg: Config, groups: seq<Group>, w: World, w1: World, view: Jobs, leases: seq<string>)
    requires w1 == ScheduleNodes(cfg, groups, w, view, leases).w && w.status.phase.Paused?
    ensures w1.status.phase.Paused?
  {
    var i := ActiveGroup(groups, view);
    if i < |groups| {
      var pending, free := PendingNodes(groups[i].nodes, view), FreeSlots(groups, view, leases, groups[i]);
      if free > 0 {
        CreateJobsKeeps(cfg, w, WorkersGated(cfg, groups, view), groups[i].name, pending[..Min(free, |pending|)]);
      }
    }
  }

  lemma RoundAfterPrepare(
    cfg: Config, groups: seq<Group>, w0: World, w1: World, w2: World, view: Jobs, leases: seq<string>, k: nat)
    requires w1.jobs == w0.jobs && w1.now == w0.now
    requires w1.status.lastNodeScheduledAt == w0.status.lastNodeScheduledAt
    requires Round(cfg, groups, w1, w2, view, leases, k)
    ensures Round(cfg, groups, w0, w2, view, leases, k)
  {
  }

  ghost function Pass(cfg: Config, groups: seq<Group>, w: World, o: Observation): World {
    var f := Prepare(cfg, groups, w, o);
    if f.Stop? then f.w else ScheduleNodes(cfg, groups, f.w, ByNode(o.jobs), o.leases).w
  }

  lemma PassEffect(cfg: Config, groups: seq<Group>, w: World, o: Observation) returns (k: nat)
    ensures Passed(cfg, groups, w, Pass(cfg, groups, w, o), o, k)
  {
    k := 0;
    PrepareEffect(cfg, groups, w, o);
    var f, view := Prepare(cfg, groups, w, o), ByNode(o.jobs);
    PrepareAccounts(cfg, groups, w, f.w, o, Look(cfg, groups, view, o.remoteChecks));
    var checked := PreflightPasses(cfg, groups, o);
    var failed, due := Failures(groups, view), KubeProxyDue(cfg, groups, view);
    if f.Next? {
      k := ScheduleEffect(cfg, groups, f.w, view, o.leases);
      var w1 := ScheduleNodes(cfg, groups, f.w, view, o.leases).w;
      ScheduleAccounts(cfg, groups, due, failed, w, f.w, w1, view, o.leases);
      if OnlyStarts(f.w, w1) {
        StartsAfterPrepare(cfg, checked, failed, w, f.w, w1);
      } else {
        var w2 := MarkInProgress(f.w).w;
        StartsAfterPrepare(cfg, checked, failed, w, f.w, w2);
        CreatesAfterPrepare(cfg, checked, failed, w, w2, w1);
        RoundAfterPrepare(cfg, groups, w, f.w, w1, view, o.leases, k);
      }
    }
  }

  lemma {:induction false} DeleteJobsEffect(w: World, jobs: seq<PatchJob>)
    ensures
      var f := DeleteJobs(w, jobs);
      && f.w == w.(jobs := f.w.jobs, calls := f.w.calls)
      && f.w.jobs.Keys <= w.jobs.Keys
      && (forall n <- f.w.jobs :: f.w.jobs[n] == w.jobs[n])
      && (f.Next? ==> f.w.jobs.Keys == w.jobs.Keys - set j <- jobs :: j.node)
    decreases |jobs|
  {
    if jobs != [] && w.calls > 0 {
      var w1 := w.(jobs := w.jobs - {jobs[0].node}, calls := w.calls - 1);
      DeleteJobsEffect(w1, jobs[1..]);
      assert jobs == [jobs[0]] + jobs[1..];
    }
  }

  /** A purge, possibly cut short: finished history that is due goes, and nothing else changes. */
  ghost predicate Purges(cfg: Config, w0: World, w1: World, listed: seq<PatchJob>) {
    && PurgeDue(cfg, w0.now, w0.status) && AllFinished(listed)
    && w1 == w0.(jobs := w1.jobs, status := w1.status, calls := w1.calls)
    && w1.status == w0.status.(historyPurged := w1.status.historyPurged)
    && w1.jobs.Keys <= w0.jobs.Keys && (forall n <- w1.jobs :: w1.jobs[n] == w0.jobs[n])
    && (w1.status.historyPurged && !w0.status.historyPurged ==>
          w1.jobs.Keys == w0.jobs.Keys - set j <- listed :: j.node)
    && (w0.status.historyPurged ==> w1.status.historyPurged)
  }

  /** A finished plan whose history has been purged and marked so. */
  predicate Marked(w: World) {
    IsFinishedPhase(w.status.phase) && w.status.completionTime.Some? && w.status.historyPurged
  }

  lemma RetentionEffect(cfg: Config, w: World, jobs: seq<PatchJob>)
    ensures
      var f := ApplyRetention(cfg, w, jobs);
      && (f.Next? ==>
            && f.w == w.(calls := f.w.calls) && !Marked(w)
            && !(PurgeDue(cfg, w.now, w.status) && AllFinished(jobs)))
      && (Marked(w) ==> f == Stop(w))
      && (f.Stop? ==> f.w == w.(calls := f.w.calls) || Purges(cfg, w, f.w, jobs))
  {
    if w.calls > 0 {
      DeleteJobsEffect(w.(calls := w.calls - 1), jobs);
    }
  }

  /** The plan as it was, but for the calls left. */
  ghost predicate Untouched(w0: World, w1: World) { w1 == w0.(calls := w1.calls) }

  lemma PassedFrom(cfg: Config, groups: seq<Group>, w0: World, w: World, w1: World, o: Observation, k: nat)
    requires Untouched(w0, w) && Passed(cfg, groups, w, w1, o, k)
    ensures Passed(cfg, groups, w0, w1, o, k)
  {
    if !CreatesNothing(w0, w1) {
      ScheduledFrom(cfg, groups, w0, w, w1, o, k);
    }
  }

  lemma ScheduledFrom(cfg: Config, groups: seq<Group>, w0: World, w: World, w1: World, o: Observation, k: nat)
    requires Untouched(w0, w) && Scheduled(cfg, groups, w, w1, o, k)
    ensures Scheduled(cfg, groups, w0, w1, o, k)
  {
  }

  ghost predicate AllFinished(jobs: seq<PatchJob>) { forall j <- jobs :: j.Finished() }

  /** Every reconcile does nothing, is a purge, or is a pass; it is no pass when a purge is due and not blocked. */
  lemma ReconcileEffect(cfg: Config, groups: seq<Group>, w: World, w1: World, o: Observation) returns (k: nat)
    requires ValidStrategy(cfg.strategy) && groups == Resolved(cfg.nodes, cfg.strategy).value.groups
    requires w1 == Reconcile(cfg, w, o)
    ensures
      || Untouched(w, w1)
      || Purges(cfg, w, w1, o.retentionJobs)
      || (&& !(PurgeDue(cfg, w.now, w.status) && AllFinished(o.retentionJobs)) && !Marked(w)
          && Passed(cfg, groups, w, w1, o, k))
  {
    var r := ApplyRetention(cfg, w.(calls := Max(o.calls - 1, 0)), o.retentionJobs);
    ReconcileStages(cfg, groups, w, w1, o, r);
    k := StagesEffect(cfg, groups, w, w1, o, r);
  }

  /** What a reconcile comes to after its first call, the retention r, and its third call. */
  ghost predicate Comes(cfg: Config, groups: seq<Group>, w: World, w1: World, o: Observation, r: Flow) {
    if o.calls == 0 then w1 == w.(calls := 0)
    else if r.Stop? || r.w.calls == 0 then w1 == r.w
    else w1 == Pass(cfg, groups, r.w.(calls := r.w.calls - 1), o)
  }

  lemma ReconcileStages(cfg: Config, groups: seq<Group>, w: World, w1: World, o: Observation, r: Flow)
    requires ValidStrategy(cfg.strategy) && groups == Resolved(cfg.nodes, cfg.strategy).value.groups
    requires w1 == Reconcile(cfg, w, o)
    requires r == ApplyRetention(cfg, w.(calls := Max(o.calls - 1, 0)), o.retentionJobs)
    ensures Comes(cfg, groups, w, w1, o, r)
  {
    if o.calls > 0 && r.Next? && r.w.calls > 0 {
      RetentionThenPass(cfg, groups, w, w1, o, r.w, r.w.(calls := r.w.calls - 1));
    } else if o.calls > 0 {
      StopsEarly(cfg, w, w1, o, r);
    }
  }

  lemma StopsEarly(cfg: Config, w: World, w1: World, o: Observation, r: Flow)
    requires w1 == Reconcile(cfg, w, o) && o.calls > 0 && (r.Stop? || r.w.calls == 0)
    requires r == ApplyRetention(cfg, w.(calls := o.calls - 1), o.retentionJobs)
    ensures w1 == r.w
  {
  }

  lemma StagesEffect(cfg: Config, groups: seq<Group>, w: World, w1: World, o: Observation, r: Flow) returns (k: nat)
    requires r == ApplyRetention(cfg, w.(calls := Max(o.calls - 1, 0)), o.retentionJobs)
    requires Comes(cfg, groups, w, w1, o, r)
    ensures
      || Untouched(w, w1)
      || Purges(cfg, w, w1, o.retentionJobs)
      || (&& !(PurgeDue(cfg, w.now, w.status) && AllFinished(o.retentionJobs)) && !Marked(w)
          && Passed(cfg, groups, w, w1, o, k))
  {
    k := 0;
    var c := w.(calls := Max(o.calls - 1, 0));
    RetentionEffect(cfg, c, o.retentionJobs);
    if o.calls > 0 && r.Next? && r.w.calls > 0 {
      var listed := r.w.(calls := r.w.calls - 1);
      k := PassEffect(cfg, groups, listed, o);
      PassedFrom(cfg, groups, w, listed, w1, o, k);
    }
  }

  lemma RetentionThenPass(
    cfg: Config, groups: seq<Group>, w: World, w1: World, o: Observation, kept: World, listed: World)
    requires ValidStrategy(cfg.strategy) && groups == Resolved(cfg.nodes, cfg.strategy).value.groups
    requires w1 == Reconcile(cfg, w, o) && o.calls > 0
    requires ApplyRetention(cfg, w.(calls := o.calls - 1), o.retentionJobs) == Next(kept) && Call(kept) == Next(listed)
    ensures w1 == Pass(cfg, groups, listed, o)
  {
  }
}
