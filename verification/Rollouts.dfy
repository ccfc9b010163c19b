/** Questions a reconcile and the preflight checks ask of a resolved rollout (internal/scheduling). */
module Rollouts {
  import opened Api
  import opened Scheduling

  /** The control plane nodes among ns, in order. */
  ghost function ControlPlaneOf(ns: seq<Node>): (r: seq<Node>)
    ensures forall n :: n in r <==> n in ns && IsControlPlane(n)
  {
    if ns == [] then []
    else
      var init, last := ns[..|ns| - 1], ns[|ns| - 1];
      assert ns == init + [last];
      if IsControlPlane(last) then ControlPlaneOf(init) + [last] else ControlPlaneOf(init)
  }

  /** Every node of the rollout in the order the nodes are scheduled. */
  ghost function AllNodes(groups: seq<Group>): (r: seq<Node>)
  {
    if groups == [] then []
    else AllNodes(groups[..|groups| - 1]) + groups[|groups| - 1].nodes
  }

  ghost function ControlPlane(groups: seq<Group>): seq<Node> { ControlPlaneOf(AllNodes(groups)) }

  /** The first group holding a node of that name, |groups| when none does. */
  ghost function GroupIndex(groups: seq<Group>, name: string): (i: nat)
    ensures i <= |groups|
    ensures i < |groups| ==> name in NamesOf(groups[i].nodes)
  {
    if groups == [] then 0
    else
      var i := GroupIndex(groups[..|groups| - 1], name);
      if i < |groups| - 1 || name in NamesOf(groups[|groups| - 1].nodes) then i else |groups|
  }

  lemma InSomeGroup(groups: seq<Group>, init: seq<Group>, n: Node)
    requires groups != [] && init == groups[..|groups| - 1]
    ensures (exists i :: 0 <= i < |groups| && n in groups[i].nodes) <==>
              (exists i :: 0 <= i < |init| && n in init[i].nodes) || n in groups[|groups| - 1].nodes
  {
    if i :| 0 <= i < |init| && n in init[i].nodes {
      assert n in groups[i].nodes;
    }
    if i :| 0 <= i < |groups| && n in groups[i].nodes {
      assert i < |init| ==> n in init[i].nodes;
    }
  }

  lemma {:induction false} AllNodesMembers(groups: seq<Group>)
    ensures forall n :: n in AllNodes(groups) <==> exists i :: 0 <= i < |groups| && n in groups[i].nodes
  {
    if groups != [] {
      var init := groups[..|groups| - 1];
      AllNodesMembers(init);
      forall n ensures n in AllNodes(groups) <==> exists i :: 0 <= i < |groups| && n in groups[i].nodes {
        InSomeGroup(groups, init, n);
      }
    }
  }

  lemma {:induction false} AllNodesUniquelyNamed(groups: seq<Group>)
    requires Distinct(groups)
    ensures UniquelyNamed(AllNodes(groups))
  {
    if groups != [] {
      var init, last := groups[..|groups| - 1], groups[|groups| - 1].nodes;
      AllNodesUniquelyNamed(init);
      AllNodesMembers(init);
      var before := AllNodes(init);
      forall i, j | 0 <= i < |before| && 0 <= j < |last| ensures before[i].name != last[j].name {
        assert before[i] in before;
        var k :| 0 <= k < |init| && before[i] in init[k].nodes;
        assert before[i].name in NamesOf(groups[k].nodes) && last[j].name in NamesOf(last);
      }
    }
  }

  lemma {:induction false} ControlPlaneUniquelyNamed(ns: seq<Node>)
    requires UniquelyNamed(ns)
    ensures UniquelyNamed(ControlPlaneOf(ns))
  {
    if ns != [] {
      var init := ns[..|ns| - 1];
      ControlPlaneUniquelyNamed(init);
      var r := ControlPlaneOf(init);
      forall k | 0 <= k < |r| ensures r[k].name != ns[|ns| - 1].name {
        assert r[k] in init;
      }
    }
  }

  lemma {:induction false} NamesCount(ns: seq<Node>)
    requires UniquelyNamed(ns)
    ensures |NamesOf(ns)| == |ns|
  {
    if ns != [] {
      var init, last := ns[..|ns| - 1], ns[|ns| - 1];
      NamesCount(init);
      assert ns == init + [last];
      assert NamesOf(ns) == NamesOf(init) + {last.name};
      assert last.name !in NamesOf(init);
    }
  }

  /** In a rollout that keeps its nodes apart a node's group is the one it is listed in. */
  lemma {:induction false} GroupIndexIs(groups: seq<Group>, i: nat, name: string)
    requires Distinct(groups) && i < |groups| && name in NamesOf(groups[i].nodes)
    ensures GroupIndex(groups, name) == i
  {
    var k := |groups| - 1;
    if i < k {
      GroupIndexIs(groups[..k], i, name);
    } else {
      var g := GroupIndex(groups[..k], name);
      assert forall a :: 0 <= a < k ==> name !in NamesOf(groups[a].nodes);
      assert g == k;
    }
  }

  // ---------------------------------------------------------------- the two pure preflight checks

  /** A group patches one control plane node at a time, or fewer than half of them rounded up. */
  ghost predicate QuorumSafe(groups: seq<Group>) {
    forall g <- groups ::
      var atOnce := Min(g.concurrency, |ControlPlaneOf(g.nodes)|);
      atOnce <= 1 || atOnce < (|ControlPlane(groups)| + 1) / 2
  }

  /** Every control plane node's group comes before every worker's. */
  ghost predicate ControlPlaneFirst(groups: seq<Group>) {
    forall i, j, a, b ::
      && 0 <= i < |groups| && 0 <= j < |groups|
      && a in groups[i].nodes && b in groups[j].nodes
      && IsControlPlane(a) && !IsControlPlane(b)
      ==> i < j
  }

  method ControlPlaneNodes(groups: seq<Group>) returns (nodes: seq<Node>)
    ensures nodes == ControlPlane(groups)
  {
    nodes := [];
    for i := 0 to |groups|
      invariant nodes == ControlPlane(groups[..i])
    {
      var ns := groups[i].nodes;
      ghost var before := nodes;
      for j := 0 to |ns|
        invariant nodes == before + ControlPlaneOf(ns[..j])
      {
        OneMoreNode(ns, j);
        if IsControlPlane(ns[j]) {
          nodes := nodes + [ns[j]];
        }
      }
      OneMoreGroup(groups, i);
    }
    assert groups[..|groups|] == groups;
  }

  lemma OneMoreNode(ns: seq<Node>, j: nat)
    requires j < |ns|
    ensures ControlPlaneOf(ns[..j + 1]) == ControlPlaneOf(ns[..j]) + if IsControlPlane(ns[j]) then [ns[j]] else []
    ensures ns[..|ns|] == ns
  {
    assert ns[..j + 1][..j] == ns[..j];
  }

  lemma OneMoreGroup(groups: seq<Group>, i: nat)
    requires i < |groups|
    ensures ControlPlane(groups[..i + 1]) == ControlPlane(groups[..i]) + ControlPlaneOf(groups[i].nodes)
    ensures groups[i].nodes[..|groups[i].nodes|] == groups[i].nodes
  {
    assert groups[..i + 1][..i] == groups[..i];
    ControlPlaneAppend(AllNodes(groups[..i]), groups[i].nodes);
  }

  lemma {:induction false} ControlPlaneAppend(a: seq<Node>, b: seq<Node>)
    ensures ControlPlaneOf(a + b) == ControlPlaneOf(a) + ControlPlaneOf(b)
  {
    if b == [] {
      assert a + b == a;
    } else {
      var init, last := b[..|b| - 1], b[|b| - 1];
      assert a + b == (a + init) + [last];
      ControlPlaneAppend(a, init);
    }
  }

  method Total(groups: seq<Group>) returns (total: nat)
    ensures total == |AllNodes(groups)|
  {
    total := 0;
    for i := 0 to |groups|
      invariant total == |AllNodes(groups[..i])|
    {
      assert groups[..i + 1][..i] == groups[..i];
      total := total + |groups[i].nodes|;
    }
    assert groups[..|groups|] == groups;
  }

  method GroupOf(groups: seq<Group>, nodeName: string) returns (group: string, found: bool)
    ensures found <==> GroupIndex(groups, nodeName) < |groups|
    ensures group == if found then groups[GroupIndex(groups, nodeName)].name else ""
  {
    for i := 0 to |groups|
      invariant GroupIndex(groups[..i], nodeName) == i
    {
      assert groups[..i + 1][..i] == groups[..i];
      for j := 0 to |groups[i].nodes|
        invariant forall k :: 0 <= k < j ==> groups[i].nodes[k].name != nodeName
      {
        if groups[i].nodes[j].name == nodeName {
          assert GroupIndex(groups[..i + 1], nodeName) == i;
          GroupIndexKept(groups, i + 1, nodeName);
          return groups[i].name, true;
        }
      }
    }
    assert groups[..|groups|] == groups;
    return "", false;
  }

  lemma {:induction false} GroupIndexKept(groups: seq<Group>, k: nat, name: string)
    requires k <= |groups| && GroupIndex(groups[..k], name) < k
    ensures GroupIndex(groups, name) == GroupIndex(groups[..k], name)
  {
    if k < |groups| {
      assert groups[..|groups| - 1][..k] == groups[..k];
      GroupIndexKept(groups[..|groups| - 1], k, name);
    } else {
      assert groups[..k] == groups;
    }
  }

  // What a group may take down at once, and what that leaves.

  /** Some of the control plane nodes of a group, as many at most as it patches at once. */
  ghost predicate MayBeDown(g: Group, down: set<string>) {
    down <= NamesOf(ControlPlaneOf(g.nodes)) && |down| <= g.concurrency
  }

  lemma {:induction false} SomeOf(all: set<string>, size: nat) returns (some: set<string>)
    requires size <= |all|
    ensures some <= all && |some| == size
  {
    some := {};
    if size > 0 {
      var x :| x in all;
      var rest := SomeOf(all - {x}, size - 1);
      some := rest + {x};
    }
  }

  /**
   * The quorum check accepts exactly the rollouts in which no group can take down more than one control plane node at
   * once unless more than half of all stay up.
   */
  lemma QuorumSafeIff(groups: seq<Group>)
    requires Distinct(groups) && forall g <- groups :: g.concurrency >= 0
    ensures QuorumSafe(groups) <==>
              forall g, down :: g in groups && MayBeDown(g, down) ==>
                |down| <= 1 || 2 * (|ControlPlane(groups)| - |down|) > |ControlPlane(groups)|
  {
    forall g | g in groups
      ensures |NamesOf(ControlPlaneOf(g.nodes))| == |ControlPlaneOf(g.nodes)|
    {
      ControlPlaneUniquelyNamed(g.nodes);
      NamesCount(ControlPlaneOf(g.nodes));
    }
    if QuorumSafe(groups) {
      forall g, down | g in groups && MayBeDown(g, down)
        ensures |down| <= 1 || 2 * (|ControlPlane(groups)| - |down|) > |ControlPlane(groups)|
      {
        SubsetSize(down, NamesOf(ControlPlaneOf(g.nodes)));
      }
    } else {
      var g :| g in groups
               && (var atOnce := Min(g.concurrency, |ControlPlaneOf(g.nodes)|);
                   !(atOnce <= 1 || atOnce < (|ControlPlane(groups)| + 1) / 2));
      var down := SomeOf(NamesOf(ControlPlaneOf(g.nodes)), Min(g.concurrency, |ControlPlaneOf(g.nodes)|));
      assert MayBeDown(g, down);
    }
  }

  method CheckControlPlaneQuorum(groups: seq<Group>) returns (ok: bool)
    ensures ok <==> QuorumSafe(groups)
  {
    var controlPlane := ControlPlaneNodes(groups);
    var limit := (|controlPlane| + 1) / 2;
    for i := 0 to |groups|
      invariant forall k :: 0 <= k < i ==>
                  var atOnce := Min(groups[k].concurrency, |ControlPlaneOf(groups[k].nodes)|);
                  atOnce <= 1 || atOnce < limit
    {
      var nodes := groups[i].nodes;
      var cp := 0;
      for j := 0 to |nodes|
        invariant cp == |ControlPlaneOf(nodes[..j])|
      {
        OneMoreNode(nodes, j);
        if IsControlPlane(nodes[j]) {
          cp := cp + 1;
        }
      }
      assert nodes[..|nodes|] == nodes;
      var atOnce := Min(groups[i].concurrency, cp);
      if atOnce > 1 && atOnce >= limit {
        assert groups[i] in groups;
        return false;
      }
    }
    return true;
  }

  method CheckControlPlaneFirst(groups: seq<Group>) returns (ok: bool)
    ensures ok <==> ControlPlaneFirst(groups)
  {
    var lastControlPlane, firstWorker := -1, |groups|;
    for i := 0 to |groups|
      invariant -1 <= lastControlPlane < i && 0 <= firstWorker <= |groups|
      invariant firstWorker < |groups| ==> firstWorker < i
      invariant lastControlPlane >= 0 ==> exists n <- groups[lastControlPlane].nodes :: IsControlPlane(n)
      invariant firstWorker < |groups| ==> exists n <- groups[firstWorker].nodes :: !IsControlPlane(n)
      invariant forall k, n :: 0 <= k < i && n in groups[k].nodes ==>
                  if IsControlPlane(n) then k <= lastControlPlane else firstWorker <= k
    {
      for j := 0 to |groups[i].nodes|
        invariant -1 <= lastControlPlane <= i && 0 <= firstWorker <= |groups|
        invariant firstWorker < |groups| ==> firstWorker <= i
        invariant lastControlPlane >= 0 ==> exists n <- groups[lastControlPlane].nodes :: IsControlPlane(n)
        invariant firstWorker < |groups| ==> exists n <- groups[firstWorker].nodes :: !IsControlPlane(n)
        invariant forall k, n :: 0 <= k < i && n in groups[k].nodes ==>
                    if IsControlPlane(n) then k <= lastControlPlane else firstWorker <= k
        invariant forall n <- groups[i].nodes[..j] ::
                    if IsControlPlane(n) then i <= lastControlPlane else firstWorker <= i
      {
        var n := groups[i].nodes[j];
        assert n in groups[i].nodes;
        if IsControlPlane(n) {
          lastControlPlane := i;
        } else if i < firstWorker {
          firstWorker := i;
        }
      }
    }
    if lastControlPlane < 0 || firstWorker == |groups| {
      return true;
    }
    ghost var a :| a in groups[lastControlPlane].nodes && IsControlPlane(a);
    ghost var b :| b in groups[firstWorker].nodes && !IsControlPlane(b);
    return lastControlPlane < firstWorker;
  }
}
