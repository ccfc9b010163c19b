/** The order of a Kubernetes upgrade rests on what the plan saw, and the user's switches hold. */
module PlanKubernetes {
  import opened Api
  import opened Scheduling
  import opened Rollouts
  import opened PlanWorld
  import opened PlanSteps
  import opened PlanEffects
  import opened PlanRuns
  import opened PlanSafety
  import opened PlanPurge

  /** Step k found every control plane job it listed Completed, and kube-proxy absent or rolled out at the target. */
  ghost predicate KubeProxySeenAt(cfg: Config, groups: seq<Group>, ws: seq<World>, es: seq<Event>, k: nat)
    requires |ws| == |es| + 1 && k < |es|
  {
    && es[k].PlanReconciles?
    && KubeProxyDue(cfg, groups, ByNode(es[k].o.jobs))
    && KubeProxyDone(ws[k].kubeProxy, cfg.target.kubernetesVersion)
  }

  lemma FlagRaised(cfg: Config, groups: seq<Group>, w0: World, w1: World, e: Event)
    requires Enabled(w0, e) && Steps(cfg, groups, w0, w1, e)
    requires !w0.status.kubeProxyUpgraded && w1.status.kubeProxyUpgraded
    ensures e.PlanReconciles? && KubeProxyDue(cfg, groups, ByNode(e.o.jobs))
    ensures KubeProxyDone(w0.kubeProxy, cfg.target.kubernetesVersion)
  {
    if e.PlanReconciles? {
      var k: nat :| Passed(cfg, groups, w0, w1, e.o, k);
    }
  }

  lemma {:induction false} FlagHasEvidence(cfg: Config, groups: seq<Group>, ws: seq<World>, es: seq<Event>, i: nat)
    returns (k: nat)
    requires IsTrace(cfg, groups, ws, es) && i < |ws| && ws[i].status.kubeProxyUpgraded
    ensures k < i && KubeProxySeenAt(cfg, groups, ws, es, k)
  {
    assert i > 0;
    if ws[i - 1].status.kubeProxyUpgraded {
      k := FlagHasEvidence(cfg, groups, ws, es, i - 1);
    } else {
      assert StepAt(cfg, groups, ws, es, i - 1);
      FlagRaised(cfg, groups, ws[i - 1], ws[i], es[i - 1]);
      k := i - 1;
    }
  }

  /** What an old list shows completed is completed. */
  lemma SeenCompleted(groups: seq<Group>, ws: seq<World>, i: nat, list: seq<PatchJob>)
    requires i < |ws| && ListsSomeEarlier(list, ws, i) && SafeHistory(groups, ws, i)
    requires AllCompleted(ControlPlane(groups), ByNode(list))
    ensures AllCompleted(ControlPlane(groups), ws[i].jobs)
  {
    ListedJobsAreEarlier(groups, ws, i, list);
  }

  lemma {:induction false} FirstDeletion(ws: seq<World>, i: nat) returns (d: nat)
    requires i < |ws| && !KeepsJobs(ws, i)
    ensures d < i && KeepsJobs(ws, d) && !KeepsJobsAt(ws, d)
  {
    var k: nat :| k < i && !KeepsJobsAt(ws, k);
    if KeepsJobs(ws, k) {
      d := k;
    } else {
      d := FirstDeletion(ws, k);
    }
  }

  lemma {:induction false} FrozenShrinks(
    cfg: Config, groups: seq<Group>, ws: seq<World>, es: seq<Event>, d: nat, j: nat)
    requires IsTrace(cfg, groups, ws, es) && SoundRetention(cfg, ws, es) && d < j < |ws| && !KeepsJobsAt(ws, d)
    ensures ws[j].jobs.Keys <= ws[d].jobs.Keys
    decreases j
  {
    PurgedTraceStaysFrozen(cfg, groups, ws, es, d, j);
    if j > d + 1 {
      FrozenShrinks(cfg, groups, ws, es, d, j - 1);
    }
  }

  /**
   * In a Kubernetes upgrade a worker has a job only after an earlier pass at which every control plane job had
   * completed and kube-proxy was absent or rolled out at the target version; after a purge too, if retention lists are
   * fresh.
   */
  lemma WorkersFollowKubeProxy(cfg: Config, ws: seq<World>, es: seq<Event>, i: nat, worker: Node) returns (k: nat)
    requires IsRun(cfg, ws, es) && StaleReads(ws, es) && i < |ws| && (KeepsJobs(ws, i) || SoundRetention(cfg, ws, es))
    requires cfg.target.kubernetesVersion != "" && ControlPlane(Groups(cfg)) != []
    requires worker in AllNodes(Groups(cfg)) && !IsControlPlane(worker) && worker.name in ws[i].jobs
    ensures k < i && es[k].PlanReconciles?
    ensures AllCompleted(ControlPlane(Groups(cfg)), ws[k].jobs)
    ensures KubeProxyDone(ws[k].kubeProxy, cfg.target.kubernetesVersion)
  {
    if KeepsJobs(ws, i) {
      k := WorkersFollowUntilPurge(cfg, ws, es, i, worker);
    } else {
      var d := FirstDeletion(ws, i);
      RunsAreTraces(cfg, ws, es);
      FrozenShrinks(cfg, Groups(cfg), ws, es, d, i);
      k := WorkersFollowUntilPurge(cfg, ws, es, d, worker);
    }
  }

  lemma WorkersFollowUntilPurge(cfg: Config, ws: seq<World>, es: seq<Event>, i: nat, worker: Node) returns (k: nat)
    requires IsRun(cfg, ws, es) && StaleReads(ws, es) && i < |ws| && KeepsJobs(ws, i)
    requires cfg.target.kubernetesVersion != "" && ControlPlane(Groups(cfg)) != []
    requires worker in AllNodes(Groups(cfg)) && !IsControlPlane(worker) && worker.name in ws[i].jobs
    ensures k < i && es[k].PlanReconciles?
    ensures AllCompleted(ControlPlane(Groups(cfg)), ws[k].jobs)
    ensures KubeProxyDone(ws[k].kubeProxy, cfg.target.kubernetesVersion)
  {
    RunsAreTraces(cfg, ws, es);
    TraceIsSafe(cfg, Groups(cfg), ws, es, i);
    k := FlagHasEvidence(cfg, Groups(cfg), ws, es, i);
    TraceIsSafe(cfg, Groups(cfg), ws, es, k);
    SeenCompleted(Groups(cfg), ws, k, es[k].o.jobs);
  }

  // ---------------------------------------------------------------- the user's switches

  lemma SwitchedOffCreatesNothing(cfg: Config, groups: seq<Group>, w0: World, w1: World, e: Event)
    requires Enabled(w0, e) && Steps(cfg, groups, w0, w1, e) && (w0.cancelled || w0.paused)
    ensures w1.jobs.Keys <= w0.jobs.Keys
  {
    if e.PlanReconciles? && !Untouched(w0, w1) && !Purges(cfg, w0, w1, e.o.retentionJobs) {
      var k: nat :| Passed(cfg, groups, w0, w1, e.o, k);
    }
  }

  /** No step creates a job while the plan is cancelled or paused, whatever its status still says. */
  lemma SwitchesHold(cfg: Config, ws: seq<World>, es: seq<Event>, i: nat)
    requires IsRun(cfg, ws, es) && i < |es| && (ws[i].cancelled || ws[i].paused)
    ensures ws[i + 1].jobs.Keys <= ws[i].jobs.Keys
  {
    RunsAreTraces(cfg, ws, es);
    assert StepAt(cfg, Groups(cfg), ws, es, i);
    SwitchedOffCreatesNothing(cfg, Groups(cfg), ws[i], ws[i + 1], es[i]);
  }
}
