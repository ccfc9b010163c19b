/** Cordoning and draining a node (internal/drain/drain.go). */
module Drain {
  import opened Api

  // ---------------------------------------------------------------- cordon

  /** A node's spec.unschedulable, and whether it carries the annotation of a cordon by this operator. */
  datatype Cordon = Cordon(unschedulable: bool, ours: bool)

  function Cordoned(c: Cordon): Cordon { if c.unschedulable then c else Cordon(true, true) }

  function Uncordoned(c: Cordon): Cordon { if c.ours then Cordon(false, false) else c }

  /** What draining leaves of the cordon: an admin's stays, the operator's own goes, and both calls can be repeated. */
  lemma CordonRoundTrip(c: Cordon)
    requires !c.ours
    ensures Uncordoned(Cordoned(c)) == c
    ensures Cordoned(c).unschedulable && Cordoned(Cordoned(c)) == Cordoned(c)
    ensures Uncordoned(Uncordoned(Cordoned(c))) == c
  {
  }

  // ---------------------------------------------------------------- pods

  datatype PodPhase = Active | Succeeded | PodFailed

  /** name includes the namespace; controlled: some owner reference is the controller. */
  datatype Pod = Pod(
    name: string,
    phase: PodPhase,
    ownerKinds: seq<string>,
    controlled: bool,
    mirror: bool,
    terminating: bool)

  predicate IsDaemonSetPod(p: Pod) { "DaemonSet" in p.ownerKinds }

  /** The pods a drained node is free of. */
  predicate BlocksDrain(p: Pod) { p.phase.Active? && !IsDaemonSetPod(p) && !p.mirror }

  /** Terminating pods were evicted before. */
  predicate ShouldEvict(p: Pod) { !p.terminating && BlocksDrain(p) }

  predicate IsBare(p: Pod) { ShouldEvict(p) && !p.controlled }

  datatype DrainOptions = DrainOptions(respectPDBs: bool, evictUnmanaged: bool)

  /** The API server's answer to an eviction; deletable tells whether the delete tried instead would succeed. */
  datatype Answer = Accepted | NotFound | TooManyRequests(deletable: bool) | Refused

  predicate PDBBlocks(a: Answer, opts: DrainOptions) { a.TooManyRequests? && opts.respectPDBs }

  predicate Breaks(a: Answer, opts: DrainOptions) {
    a.Refused? || (a.TooManyRequests? && !opts.respectPDBs && !a.deletable)
  }

  /** The pod was told to go: evicted, or deleted past a PodDisruptionBudget the plan does not respect. */
  predicate ToldToGo(a: Answer, opts: DrainOptions) {
    a.Accepted? || (a.TooManyRequests? && !opts.respectPDBs && a.deletable)
  }

  /** What becomes of a pod, answer by answer. */
  lemma AnswersMean(opts: DrainOptions)
    ensures ToldToGo(Accepted, opts) && !ToldToGo(NotFound, opts) && !ToldToGo(Refused, opts)
    ensures !Breaks(Accepted, opts) && !Breaks(NotFound, opts) && Breaks(Refused, opts)
    ensures forall b: bool :: PDBBlocks(TooManyRequests(b), opts) <==> opts.respectPDBs
    ensures !opts.respectPDBs ==> ToldToGo(TooManyRequests(true), opts) && Breaks(TooManyRequests(false), opts)
    ensures opts.respectPDBs ==> forall b: bool ::
              !ToldToGo(TooManyRequests(b), opts) && !Breaks(TooManyRequests(b), opts)
    ensures !opts.respectPDBs ==> !ToldToGo(TooManyRequests(false), opts) && !Breaks(TooManyRequests(true), opts)
    ensures !PDBBlocks(Accepted, opts) && !PDBBlocks(NotFound, opts) && !PDBBlocks(Refused, opts)
  {
  }

  /** How a drain attempt ends; pods is what the list call returned. */
  datatype DrainResult = ListFailed | UnmanagedPods | EvictionFailed | Attempted(blocked: bool)

  /** The pods to evict, in the order they were listed. */
  function Evictable(pods: seq<Pod>): (r: seq<Pod>)
    ensures forall p :: p in r <==> p in pods && ShouldEvict(p)
  {
    if pods == [] then []
    else
      var init, last := pods[..|pods| - 1], pods[|pods| - 1];
      assert pods == init + [last];
      if ShouldEvict(last) then Evictable(init) + [last] else Evictable(init)
  }

  predicate AnyBreaks(pods: seq<Pod>, opts: DrainOptions, answer: string -> Answer) {
    exists p <- pods :: Breaks(answer(p.name), opts)
  }

  predicate AnyBlocked(pods: seq<Pod>, opts: DrainOptions, answer: string -> Answer) {
    exists p <- pods :: PDBBlocks(answer(p.name), opts)
  }

  function DrainOutcome(pods: Option<seq<Pod>>, opts: DrainOptions, answer: string -> Answer): DrainResult {
    match pods
    case None => ListFailed
    case Some(list) =>
      if !opts.evictUnmanaged && exists p <- list :: IsBare(p) then UnmanagedPods
      else if AnyBreaks(Evictable(list), opts, answer) then EvictionFailed
      else Attempted(AnyBlocked(Evictable(list), opts, answer))
  }

  /** The names of the pods told to go. */
  function AskedOf(pods: seq<Pod>, opts: DrainOptions, answer: string -> Answer): set<string> {
    set p | p in pods && ToldToGo(answer(p.name), opts) :: p.name
  }

  /** Evictions go through the list up to the first k that breaks, or to its end. */
  predicate AskedInOrder(
    list: seq<Pod>, k: nat, opts: DrainOptions, answer: string -> Answer, before: set<string>, after: set<string>)
  {
    && k <= |list| && !AnyBreaks(list[..k], opts, answer)
    && (k < |list| ==> Breaks(answer(list[k].name), opts))
    && after == before + AskedOf(list[..k], opts, answer)
  }

  /** No pod is left that blocks the drain. */
  predicate NodeDrained(pods: seq<Pod>) { forall p <- pods :: !BlocksDrain(p) }

  /** The node and the pods on it as the API server has them; asked are the pods evicted or deleted so far. */
  class Drainer {
    var cordon: Cordon
    var asked: set<string>

    constructor (cordon: Cordon)
      ensures this.cordon == cordon && asked == {}
    {
      this.cordon := cordon;
      asked := {};
    }

    /** read and patched tell whether the two API calls succeed. */
    method CordonNode(read: bool, patched: bool) returns (ok: bool)
      modifies this`cordon
      ensures ok <==> read && (old(cordon).unschedulable || patched)
      ensures cordon == if ok then Cordoned(old(cordon)) else old(cordon)
    {
      if !read {
        return false;
      }
      if cordon.unschedulable {
        return true;
      }
      if patched {
        cordon := Cordon(true, true);
      }
      return patched;
    }

    method UncordonNode(read: bool, patched: bool) returns (ok: bool)
      modifies this`cordon
      ensures ok <==> read && (!old(cordon).ours || patched)
      ensures cordon == if ok then Uncordoned(old(cordon)) else old(cordon)
    {
      if !read {
        return false;
      }
      if !cordon.ours {
        return true;
      }
      if patched {
        cordon := Cordon(false, false);
      }
      return patched;
    }

    method EvictPod(p: Pod, opts: DrainOptions, answer: Answer) returns (blocked: bool, ok: bool)
      modifies this`asked
      ensures ok <==> !Breaks(answer, opts)
      ensures ok ==> (blocked <==> PDBBlocks(answer, opts))
      ensures asked == old(asked) + if ToldToGo(answer, opts) then {p.name} else {}
    {
      match answer {
        case Accepted =>
          asked := asked + {p.name};
          return false, true;
        case NotFound =>
          return false, true;
        case TooManyRequests(deletable) =>
          if opts.respectPDBs {
            return true, true;
          }
          if deletable {
            asked := asked + {p.name};
          }
          return false, deletable;
        case Refused =>
          return false, false;
      }
    }

    /**
     * Without evictUnmanaged nothing is touched when a bare pod would be lost; otherwise the workload pods that are
     * not terminating are asked to go one after the other until an eviction breaks.
     */
    method DrainNode(pods: Option<seq<Pod>>, opts: DrainOptions, answer: string -> Answer) returns (r: DrainResult)
      modifies this`asked
      ensures r == DrainOutcome(pods, opts, answer)
      ensures r.ListFailed? || r.UnmanagedPods? ==> asked == old(asked)
      ensures r.EvictionFailed? || r.Attempted? ==>
                pods.Some? && exists k :: AskedInOrder(Evictable(pods.value), k, opts, answer, old(asked), asked)
    {
      if pods.None? {
        return ListFailed;
      }
      var list := ListPods(pods.value);
      if !opts.evictUnmanaged {
        var bare := HasBarePod(list);
        if bare {
          return UnmanagedPods;
        }
      }
      var blocked, i := false, 0;
      while i < |list|
        invariant i <= |list|
        invariant !AnyBreaks(list[..i], opts, answer)
        invariant blocked <==> AnyBlocked(list[..i], opts, answer)
        invariant asked == old(asked) + AskedOf(list[..i], opts, answer)
      {
        assert list[..i + 1] == list[..i] + [list[i]];
        var podBlocked, ok := EvictPod(list[i], opts, answer(list[i].name));
        if !ok {
          assert AskedInOrder(list, i, opts, answer, old(asked), asked);
          return EvictionFailed;
        }
        blocked := blocked || podBlocked;
        i := i + 1;
      }
      assert list[..i] == list;
      assert AskedInOrder(list, i, opts, answer, old(asked), asked);
      return Attempted(blocked);
    }

    /** A pod on its way out keeps the node from being drained until it is gone. */
    method IsDrained(pods: seq<Pod>) returns (drained: bool)
      ensures drained <==> NodeDrained(pods)
    {
      for i := 0 to |pods|
        invariant NodeDrained(pods[..i])
      {
        assert pods[..i + 1] == pods[..i] + [pods[i]];
        if BlocksDrain(pods[i]) {
          return false;
        }
      }
      assert pods[..|pods|] == pods;
      return true;
    }
  }

  method ListPods(pods: seq<Pod>) returns (r: seq<Pod>)
    ensures r == Evictable(pods)
  {
    r := [];
    for i := 0 to |pods|
      invariant r == Evictable(pods[..i])
    {
      assert pods[..i + 1][..i] == pods[..i];
      if ShouldEvict(pods[i]) {
        r := r + [pods[i]];
      }
    }
    assert pods[..|pods|] == pods;
  }

  method HasBarePod(pods: seq<Pod>) returns (bare: bool)
    ensures bare <==> exists p <- pods :: !p.controlled
  {
    for i := 0 to |pods|
      invariant forall p <- pods[..i] :: p.controlled
    {
      assert pods[..i + 1] == pods[..i] + [pods[i]];
      if !pods[i].controlled {
        return true;
      }
    }
    assert pods[..|pods|] == pods;
    return false;
  }

  /** The pods right after an attempt: whoever was told to go is terminating, whoever was not found is gone. */
  function AfterAttempt(pods: seq<Pod>, opts: DrainOptions, answer: string -> Answer): seq<Pod> {
    if pods == [] then []
    else
      var init, p := AfterAttempt(pods[..|pods| - 1], opts, answer), pods[|pods| - 1];
      if !ShouldEvict(p) then init + [p]
      else if answer(p.name).NotFound? then init
      else if ToldToGo(answer(p.name), opts) then init + [p.(terminating := true)]
      else init + [p]
  }

  /**
   * An attempt nothing blocked leaves no pod to be asked again: whatever still blocks the drain is on its way out.
   * Without evictUnmanaged no bare pod was among those told to go.
   */
  lemma {:induction false} UnblockedAttemptAskedAll(pods: seq<Pod>, opts: DrainOptions, answer: string -> Answer)
    requires DrainOutcome(Some(pods), opts, answer) == Attempted(false)
    ensures forall p <- AfterAttempt(pods, opts, answer) :: BlocksDrain(p) ==> p.terminating
    ensures !opts.evictUnmanaged ==> forall p <- pods :: !IsBare(p)
  {
    if pods != [] {
      var init, last := pods[..|pods| - 1], pods[|pods| - 1];
      assert pods == init + [last];
      assert forall p :: p in Evictable(init) ==> p in Evictable(pods);
      UnblockedAttemptAskedAll(init, opts, answer);
      assert ShouldEvict(last) ==> last in Evictable(pods);
    }
  }

  /** A drained node needs no eviction, whatever the options and the answers. */
  lemma DrainedNeedsNoEviction(pods: seq<Pod>, opts: DrainOptions, answer: string -> Answer)
    requires NodeDrained(pods)
    ensures DrainOutcome(Some(pods), opts, answer) == Attempted(false)
  {
  }
}
