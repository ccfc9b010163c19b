/** Which group of a PatchPlan schedules each node (internal/scheduling). */
module Scheduling {
  import opened Api

  const GROUP_CONTROL_PLANE := "controlPlane"
  const GROUP_WORKERS := "workers"
  const DEFAULT_ORDER := [GROUP_CONTROL_PLANE, GROUP_WORKERS]

  /** A label selector: unset, one that does not compile, or the label sets it selects. */
  datatype Selector = Absent | Malformed | Selects(matches: map<string, string> -> bool)

  datatype GroupSpec = GroupSpec(selector: Selector, concurrency: int)

  /** spec.strategy.order and spec.groups; validLabel says which names may be used as label values. */
  datatype Strategy = Strategy(
    order: seq<string>,
    groups: map<string, GroupSpec>,
    validLabel: string -> bool)

  datatype Matcher = Matcher(name: string, concurrency: int, selector: Selector) {
    predicate Matches(n: Node) {
      if name == GROUP_CONTROL_PLANE then IsControlPlane(n)
      else if name == GROUP_WORKERS then !IsControlPlane(n)
      else selector.Selects? && selector.matches(n.labels)
    }
  }

  datatype Group = Group(name: string, concurrency: int, nodes: seq<Node>)

  datatype Rollout = Rollout(groups: seq<Group>, selected: nat, unassigned: seq<string>)

  function Order(s: Strategy): seq<string> { if s.order == [] then DEFAULT_ORDER else s.order }

  predicate IsBuiltin(name: string) { name == GROUP_CONTROL_PLANE || name == GROUP_WORKERS }

  // ---------------------------------------------------------------- what Resolve computes

  ghost predicate UsableEntry(s: Strategy, name: string) {
    IsBuiltin(name)
    || (name in s.groups && s.validLabel(name) && s.groups[name].selector.Selects?)
  }

  /** The strategies that resolve: no group listed twice, custom groups declared with a valid selector. */
  ghost predicate ValidStrategy(s: Strategy) {
    && (forall name <- s.groups :: IsBuiltin(name) ==> s.groups[name].selector.Absent?)
    && (forall i, j :: 0 <= i < j < |Order(s)| ==> Order(s)[i] != Order(s)[j])
    && (forall name <- Order(s) :: UsableEntry(s, name))
  }

  function MatcherOf(s: Strategy, name: string): Matcher {
    Matcher(
      name,
      Max(if name in s.groups then s.groups[name].concurrency else 0, 1),
      if IsBuiltin(name) || name !in s.groups then Absent else s.groups[name].selector)
  }

  ghost function MatchersOf(s: Strategy, order: seq<string>): (ms: seq<Matcher>)
    ensures |ms| == |order|
  {
    seq(|order|, i requires 0 <= i < |order| => MatcherOf(s, order[i]))
  }

  /** Index of the first matcher claiming n, |ms| when none does. */
  ghost function FirstMatch(ms: seq<Matcher>, n: Node): (i: nat)
    ensures i <= |ms|
  {
    if ms == [] || ms[0].Matches(n) then 0 else 1 + FirstMatch(ms[1..], n)
  }

  lemma {:induction false} FirstMatchIs(ms: seq<Matcher>, n: Node)
    ensures
      var i := FirstMatch(ms, n);
      && (i < |ms| ==> ms[i].Matches(n))
      && (forall k :: 0 <= k < i ==> !ms[k].Matches(n))
  {
    if ms != [] && !ms[0].Matches(n) {
      FirstMatchIs(ms[1..], n);
    }
  }

  /** The nodes of ns whose first match is i, in the order of ns. */
  ghost function Claimed(ns: seq<Node>, ms: seq<Matcher>, i: nat): (r: seq<Node>)
    ensures forall n :: n in r <==> n in ns && FirstMatch(ms, n) == i
  {
    if ns == [] then []
    else
      var init, last := ns[..|ns| - 1], ns[|ns| - 1];
      assert ns == init + [last];
      var rest := Claimed(init, ms, i);
      if FirstMatch(ms, last) == i then rest + [last] else rest
  }

  ghost function Names(ns: seq<Node>): (r: seq<string>)
    ensures |r| == |ns| && forall i :: 0 <= i < |ns| ==> r[i] == ns[i].name
  {
    seq(|ns|, i requires 0 <= i < |ns| => ns[i].name)
  }

  ghost function GroupsOf(sorted: seq<Node>, ms: seq<Matcher>): seq<Group> {
    seq(|ms|, i requires 0 <= i < |ms| => Group(ms[i].name, ms[i].concurrency, Claimed(sorted, ms, i)))
  }

  ghost function RolloutOf(sorted: seq<Node>, ms: seq<Matcher>): Rollout {
    Rollout(GroupsOf(sorted, ms), |sorted|, Names(Claimed(sorted, ms, |ms|)))
  }

  ghost function Resolved(nodes: seq<Node>, s: Strategy): Option<Rollout> {
    if ValidStrategy(s) then Some(RolloutOf(Sorted(Unique(nodes)), MatchersOf(s, Order(s)))) else None
  }

  // ---------------------------------------------------------------- unique nodes, in order

  /** Keeps the first node of every name. */
  ghost function Unique(nodes: seq<Node>): (r: seq<Node>)
    ensures NamesOf(r) == NamesOf(nodes)
    ensures UniquelyNamed(r)
    ensures forall n :: n in r ==> n in nodes
  {
    if nodes == [] then []
    else
      var init, last := nodes[..|nodes| - 1], nodes[|nodes| - 1];
      assert nodes == init + [last];
      assert NamesOf(nodes) == NamesOf(init) + {last.name};
      var r := Unique(init);
      assert NamesOf(r + [last]) == NamesOf(r) + {last.name};
      if last.name in NamesOf(r) then r else r + [last]
  }

  lemma LastIsNew(init: seq<Node>, last: Node, nodes: seq<Node>)
    requires nodes == init + [last] && UniquelyNamed(nodes)
    ensures last.name !in NamesOf(init)
  {
    forall n | n in init ensures n.name != last.name {
      var k :| 0 <= k < |init| && init[k] == n;
      assert nodes[k] == n && nodes[|init|] == last;
    }
  }

  lemma {:induction false} UniqueKeepsAll(nodes: seq<Node>)
    requires UniquelyNamed(nodes)
    ensures Unique(nodes) == nodes
  {
    if nodes != [] {
      var init, last := nodes[..|nodes| - 1], nodes[|nodes| - 1];
      UniqueKeepsAll(init);
      LastIsNew(init, last, nodes);
    }
  }

  /** Lexicographic string comparison, as strings.Compare. */
  predicate StringLess(a: string, b: string) {
    if b == [] then false
    else if a == [] then true
    else if a[0] != b[0] then a[0] < b[0]
    else StringLess(a[1..], b[1..])
  }

  /** Control plane nodes are less than workers, equals by name. */
  predicate NodeLess(a: Node, b: Node) {
    if IsControlPlane(a) != IsControlPlane(b) then IsControlPlane(a)
    else StringLess(a.name, b.name)
  }

  ghost predicate StrictlySorted(ns: seq<Node>) {
    forall i, j :: 0 <= i < j < |ns| ==> NodeLess(ns[i], ns[j])
  }

  /** Puts n behind every node that is not greater. */
  function Insert(ns: seq<Node>, n: Node): (r: seq<Node>)
    ensures multiset(r) == multiset(ns) + multiset{n}
  {
    if ns == [] || !NodeLess(n, ns[|ns| - 1]) then ns + [n]
    else
      assert ns == ns[..|ns| - 1] + [ns[|ns| - 1]];
      Insert(ns[..|ns| - 1], n) + [ns[|ns| - 1]]
  }

  /** The result of slices.SortFunc: NodeLess leaves it no choice for uniquely named nodes (SortedIsUnique). */
  function Sorted(ns: seq<Node>): (r: seq<Node>)
    ensures multiset(r) == multiset(ns)
  {
    if ns == [] then []
    else
      assert ns == ns[..|ns| - 1] + [ns[|ns| - 1]];
      Insert(Sorted(ns[..|ns| - 1]), ns[|ns| - 1])
  }

  lemma {:induction false} StringLessTotal(a: string, b: string)
    ensures StringLess(a, b) || StringLess(b, a) || a == b
    ensures !(StringLess(a, b) && StringLess(b, a))
    ensures !StringLess(a, a)
  {
    if a != [] && b != [] && a[0] == b[0] {
      StringLessTotal(a[1..], b[1..]);
    }
    if a != [] { StringLessTotal(a[1..], a[1..]); }
  }

  lemma {:induction false} StringLessTransitive(a: string, b: string, c: string)
    requires StringLess(a, b) && StringLess(b, c)
    ensures StringLess(a, c)
  {
    if a != [] && a[0] == b[0] && b[0] == c[0] {
      StringLessTransitive(a[1..], b[1..], c[1..]);
    }
  }

  lemma NodeLessOrders(a: Node, b: Node, c: Node)
    ensures a.name != b.name ==> NodeLess(a, b) || NodeLess(b, a)
    ensures !(NodeLess(a, b) && NodeLess(b, a))
    ensures NodeLess(a, b) && NodeLess(b, c) ==> NodeLess(a, c)
  {
    StringLessTotal(a.name, b.name);
    if StringLess(a.name, b.name) && StringLess(b.name, c.name) {
      StringLessTransitive(a.name, b.name, c.name);
    }
  }

  lemma {:induction false} InsertSorts(ns: seq<Node>, n: Node)
    requires StrictlySorted(ns)
    requires forall m <- ns :: m.name != n.name
    ensures StrictlySorted(Insert(ns, n))
  {
    if ns != [] {
      var init, last := ns[..|ns| - 1], ns[|ns| - 1];
      NodeLessOrders(n, last, last);
      if NodeLess(n, last) {
        InsertSorts(init, n);
        var r := Insert(init, n);
        forall i | 0 <= i < |r| ensures NodeLess(r[i], last) {
          assert r[i] in multiset(r);
        }
      } else {
        forall i | 0 <= i < |ns| ensures NodeLess(ns[i], n) {
          NodeLessOrders(ns[i], last, n);
        }
      }
    }
  }

  lemma SameElements(a: seq<Node>, b: seq<Node>)
    requires multiset(a) == multiset(b)
    ensures forall n :: n in a <==> n in b
    ensures NamesOf(a) == NamesOf(b)
  {
    forall n ensures n in a <==> n in b {
      assert n in a <==> n in multiset(a);
      assert n in b <==> n in multiset(b);
    }
  }

  lemma {:induction false} SortedSorts(ns: seq<Node>)
    requires UniquelyNamed(ns)
    ensures StrictlySorted(Sorted(ns))
    ensures UniquelyNamed(Sorted(ns))
    ensures NamesOf(Sorted(ns)) == NamesOf(ns)
  {
    if ns != [] {
      var init := ns[..|ns| - 1];
      SortedSorts(init);
      SameElements(Sorted(init), init);
      InsertSorts(Sorted(init), ns[|ns| - 1]);
    }
    SameElements(Sorted(ns), ns);
    PermutationUniquelyNamed(ns, Sorted(ns));
  }

  lemma DropLast(ns: seq<Node>)
    requires ns != []
    ensures multiset(ns[..|ns| - 1]) == multiset(ns) - multiset{ns[|ns| - 1]}
  {
    assert ns == ns[..|ns| - 1] + [ns[|ns| - 1]];
  }

  lemma SameLast(a: seq<Node>, b: seq<Node>)
    requires StrictlySorted(a) && StrictlySorted(b) && multiset(a) == multiset(b)
    requires a != [] && b != []
    ensures a[|a| - 1] == b[|b| - 1]
  {
    var la, lb := a[|a| - 1], b[|b| - 1];
    SameElements(a, b);
    assert la in b && lb in a;
    NodeLessOrders(la, lb, la);
  }

  /** Two sorted lists of the same nodes are the same list: whatever sort algorithm runs, the order is fixed. */
  lemma {:induction false} SortedIsUnique(a: seq<Node>, b: seq<Node>)
    requires StrictlySorted(a) && StrictlySorted(b) && multiset(a) == multiset(b)
    ensures a == b
  {
    assert |a| == |multiset(a)| == |multiset(b)| == |b|;
    if a != [] {
      SameLast(a, b);
      DropLast(a);
      DropLast(b);
      SortedIsUnique(a[..|a| - 1], b[..|b| - 1]);
      assert a == a[..|a| - 1] + [a[|a| - 1]] && b == b[..|b| - 1] + [a[|a| - 1]];
    }
  }

  // ---------------------------------------------------------------- properties of a resolved rollout

  /** Every node sits in one place of one group. */
  ghost predicate Distinct(groups: seq<Group>) {
    && (forall i :: 0 <= i < |groups| ==> UniquelyNamed(groups[i].nodes))
    && (forall i, j :: 0 <= i < j < |groups| ==> NamesOf(groups[i].nodes) !! NamesOf(groups[j].nodes))
    && (forall i, j :: 0 <= i < j < |groups| ==> groups[i].name != groups[j].name)
  }

  ghost predicate WellFormed(groups: seq<Group>) {
    Distinct(groups) && forall i :: 0 <= i < |groups| ==> groups[i].concurrency >= 1
  }

  /** n is scheduled by the group of its first match, and reported as unassigned if it has none. */
  ghost predicate Placed(groups: seq<Group>, unassigned: seq<string>, ms: seq<Matcher>, n: Node)
    requires |groups| == |ms|
  {
    var first := FirstMatch(ms, n);
    && (forall i :: 0 <= i < |ms| ==> (n in groups[i].nodes <==> i == first))
    && (n.name in unassigned <==> first == |ms|)
  }

  /** Groups keep their nodes apart, sorted control plane first and then by name, and allow one job or more. */
  lemma ResolvedWellFormed(nodes: seq<Node>, s: Strategy)
    requires ValidStrategy(s)
    ensures
      var groups := Resolved(nodes, s).value.groups;
      WellFormed(groups) && forall i :: 0 <= i < |groups| ==> StrictlySorted(groups[i].nodes)
  {
    var ms, sorted := MatchersOf(s, Order(s)), Sorted(Unique(nodes));
    SortedSorts(Unique(nodes));
    GroupsWellFormed(sorted, ms, GroupsOf(sorted, ms));
  }

  lemma GroupsWellFormed(sorted: seq<Node>, ms: seq<Matcher>, groups: seq<Group>)
    requires UniquelyNamed(sorted) && StrictlySorted(sorted)
    requires forall i, j :: 0 <= i < j < |ms| ==> ms[i].name != ms[j].name
    requires forall i :: 0 <= i < |ms| ==> ms[i].concurrency >= 1
    requires groups == GroupsOf(sorted, ms)
    ensures WellFormed(groups)
    ensures forall i :: 0 <= i < |groups| ==> StrictlySorted(groups[i].nodes)
  {
    forall i | 0 <= i < |groups| ensures StrictlySorted(groups[i].nodes) {
      ClaimedSorted(sorted, ms, i);
    }
    forall i | 0 <= i < |groups| ensures UniquelyNamed(groups[i].nodes) {
      ClaimedUniquelyNamed(sorted, ms, i);
    }
    forall i, j | 0 <= i < j < |groups| ensures NamesOf(groups[i].nodes) !! NamesOf(groups[j].nodes) {
      DisjointClaims(sorted, ms, i, j);
    }
  }

  /** Each of the nodes is in the group of its first match, or unassigned; nothing else is scheduled or reported. */
  ghost predicate IsPartition(r: Rollout, nodes: seq<Node>, ms: seq<Matcher>) {
    && |r.groups| == |ms| && r.selected == |nodes|
    && (forall n <- nodes :: Placed(r.groups, r.unassigned, ms, n))
    && (forall i, n :: 0 <= i < |ms| && n in r.groups[i].nodes ==> n in nodes)
    && (forall u <- r.unassigned :: u in NamesOf(nodes))
  }

  /**
   * Resolve partitions the selection: each distinct node is in the group of its first match in the order and
   * in no other, or unassigned when none matches; nothing else is scheduled or reported.
   */
  lemma ResolvePartitions(nodes: seq<Node>, s: Strategy)
    requires ValidStrategy(s)
    ensures IsPartition(Resolved(nodes, s).value, Unique(nodes), MatchersOf(s, Order(s)))
  {
    var ms, unique := MatchersOf(s, Order(s)), Unique(nodes);
    var sorted := Sorted(unique);
    SortedSorts(unique);
    SameElements(sorted, unique);
    assert |sorted| == |multiset(sorted)| == |multiset(unique)| == |unique|;
    ClaimsPartition(sorted, unique, ms, RolloutOf(sorted, ms));
  }

  lemma ClaimsPartition(sorted: seq<Node>, nodes: seq<Node>, ms: seq<Matcher>, r: Rollout)
    requires UniquelyNamed(sorted) && |sorted| == |nodes| && forall n :: n in sorted <==> n in nodes
    requires r == RolloutOf(sorted, ms)
    ensures IsPartition(r, nodes, ms)
  {
    var rest := Claimed(sorted, ms, |ms|);
    NamesAreNames(rest);
    forall n | n in nodes ensures Placed(r.groups, r.unassigned, ms, n) {
      NodePlaced(sorted, ms, n, r.groups, r.unassigned);
    }
  }

  lemma NamesAreNames(ns: seq<Node>)
    ensures forall u :: u in Names(ns) <==> u in NamesOf(ns)
  {
    forall u ensures u in Names(ns) <==> u in NamesOf(ns) {
      if u in NamesOf(ns) {
        var k :| 0 <= k < |ns| && ns[k].name == u;
        assert Names(ns)[k] == u;
      }
    }
  }

  lemma NodePlaced(sorted: seq<Node>, ms: seq<Matcher>, n: Node, groups: seq<Group>, unassigned: seq<string>)
    requires UniquelyNamed(sorted) && n in sorted
    requires groups == GroupsOf(sorted, ms) && unassigned == Names(Claimed(sorted, ms, |ms|))
    ensures |groups| == |ms| && Placed(groups, unassigned, ms, n)
  {
    var first, rest := FirstMatch(ms, n), Claimed(sorted, ms, |ms|);
    NamesAreNames(rest);
    if first < |ms| {
      DisjointClaims(sorted, ms, first, |ms|);
      assert n.name in NamesOf(Claimed(sorted, ms, first));
    } else {
      assert n in rest;
    }
  }

  lemma {:induction false} ClaimedSorted(ns: seq<Node>, ms: seq<Matcher>, i: nat)
    requires StrictlySorted(ns)
    ensures StrictlySorted(Claimed(ns, ms, i))
  {
    if ns != [] {
      var init := ns[..|ns| - 1];
      ClaimedSorted(init, ms, i);
      var r := Claimed(init, ms, i);
      forall k | 0 <= k < |r| ensures NodeLess(r[k], ns[|ns| - 1]) {
        assert r[k] in init;
      }
    }
  }

  lemma {:induction false} ClaimedUniquelyNamed(ns: seq<Node>, ms: seq<Matcher>, i: nat)
    requires UniquelyNamed(ns)
    ensures UniquelyNamed(Claimed(ns, ms, i))
  {
    if ns != [] {
      var init, last := ns[..|ns| - 1], ns[|ns| - 1];
      ClaimedUniquelyNamed(init, ms, i);
      var r := Claimed(init, ms, i);
      forall k | 0 <= k < |r| ensures r[k].name != last.name {
        assert r[k] in init;
      }
    }
  }

  lemma DisjointClaims(ns: seq<Node>, ms: seq<Matcher>, i: nat, j: nat)
    requires UniquelyNamed(ns) && i != j
    ensures NamesOf(Claimed(ns, ms, i)) !! NamesOf(Claimed(ns, ms, j))
  {
  }

  /** The API server may list uniquely named nodes in any order: the rollout does not depend on it. */
  lemma ResolveIgnoresListOrder(nodes: seq<Node>, others: seq<Node>, s: Strategy)
    requires UniquelyNamed(nodes)
    requires multiset(nodes) == multiset(others)
    ensures Resolved(nodes, s) == Resolved(others, s)
  {
    PermutationUniquelyNamed(nodes, others);
    UniqueKeepsAll(nodes);
    UniqueKeepsAll(others);
    SortedSorts(nodes);
    SortedSorts(others);
    SortedIsUnique(Sorted(nodes), Sorted(others));
  }

  lemma PermutationUniquelyNamed(a: seq<Node>, b: seq<Node>)
    requires UniquelyNamed(a) && multiset(a) == multiset(b)
    ensures UniquelyNamed(b)
  {
    SameElements(a, b);
    forall i, j | 0 <= i < j < |b| ensures b[i].name != b[j].name {
      assert b[i] in a && b[j] in a;
      CountedOnce(a, b[i]);
      assert b == b[..j] + b[j..];
      assert b[i] in b[..j] && b[j] in b[j..];
    }
  }

  lemma {:induction false} CountedOnce(a: seq<Node>, n: Node)
    requires UniquelyNamed(a)
    ensures multiset(a)[n] <= 1
  {
    if a != [] {
      var init := a[..|a| - 1];
      assert a == init + [a[|a| - 1]];
      CountedOnce(init, n);
      assert n == a[|a| - 1] ==> n !in init;
    }
  }

  // ---------------------------------------------------------------- the code

  /** The built-in groups may not declare a selector. */
  method BuiltinsDeclared(groups: map<string, GroupSpec>) returns (ok: bool)
    ensures ok <==> forall name <- groups :: IsBuiltin(name) ==> groups[name].selector.Absent?
  {
    ok := true;
    var names := groups.Keys;
    while names != {}
      invariant names <= groups.Keys
      invariant ok <==> forall n <- groups.Keys - names :: IsBuiltin(n) ==> groups[n].selector.Absent?
      decreases |names|
    {
      var name :| name in names;
      if IsBuiltin(name) && !groups[name].selector.Absent? {
        ok := false;
      }
      names := names - {name};
    }
  }

  /** A matcher for an entry of the order; None when the group is not declared or its name or selector is no good. */
  method CompileGroup(s: Strategy, name: string) returns (r: Option<Matcher>)
    ensures r.Some? <==> UsableEntry(s, name)
    ensures r.Some? ==> r.value == MatcherOf(s, name)
    ensures r.Some? ==>
              var configured := if name in s.groups then s.groups[name].concurrency else 0;
              r.value.concurrency == if configured >= 1 then configured else 1
  {
    var concurrency := Max(if name in s.groups then s.groups[name].concurrency else 0, 1);
    if IsBuiltin(name) {
      return Some(Matcher(name, concurrency, Absent));
    }
    if name !in s.groups || !s.validLabel(name) || !s.groups[name].selector.Selects? {
      return None;
    }
    return Some(Matcher(name, concurrency, s.groups[name].selector));
  }

  ghost predicate NoRepeats(names: seq<string>) { forall i, j :: 0 <= i < j < |names| ==> names[i] != names[j] }

  lemma OneMoreName(names: seq<string>, i: nat)
    requires i < |names|
    ensures NoRepeats(names[..i + 1]) <==> NoRepeats(names[..i]) && names[i] !in names[..i]
    ensures forall n :: n in names[..i + 1] <==> n in names[..i] || n == names[i]
  {
    assert names[..i + 1] == names[..i] + [names[i]];
    if names[i] in names[..i] {
      var k :| 0 <= k < i && names[..i][k] == names[i];
      assert names[..i + 1][k] == names[..i + 1][i];
    }
    if NoRepeats(names[..i + 1]) {
      forall k, l | 0 <= k < l < i ensures names[..i][k] != names[..i][l] {
        assert names[..i + 1][k] != names[..i + 1][l];
      }
    }
  }

  /** Every problem is noted before the strategy is refused. */
  method CompileGroups(s: Strategy, order: seq<string>) returns (r: Option<seq<Matcher>>)
    requires order == Order(s)
    ensures r.Some? <==> ValidStrategy(s)
    ensures r.Some? ==> r.value == MatchersOf(s, order)
  {
    var builtins := BuiltinsDeclared(s.groups);
    var failed := !builtins;
    var matchers: seq<Matcher> := [];
    var seen: set<string> := {};
    for i := 0 to |order|
      invariant forall n :: n in seen <==> n in order[..i]
      invariant failed <==>
                !builtins || !NoRepeats(order[..i]) || exists n <- order[..i] :: !UsableEntry(s, n)
      invariant !failed ==> matchers == MatchersOf(s, order[..i])
    {
      OneMoreName(order, i);
      var name := order[i];
      if name in seen {
        failed := true;
        continue;
      }
      seen := seen + {name};
      var compiled := CompileGroup(s, name);
      if compiled.None? {
        failed := true;
        continue;
      }
      matchers := matchers + [compiled.value];
    }
    assert order[..|order|] == order;
    if failed {
      return None;
    }
    return Some(matchers);
  }

  /** Drops repeated names. */
  method Dedup(nodes: seq<Node>) returns (unique: seq<Node>)
    ensures unique == Unique(nodes)
  {
    unique := [];
    var seen: set<string> := {};
    for i := 0 to |nodes|
      invariant unique == Unique(nodes[..i])
      invariant seen == NamesOf(unique)
    {
      assert nodes[..i + 1][..i] == nodes[..i];
      if nodes[i].name in seen {
        continue;
      }
      seen := seen + {nodes[i].name};
      unique := unique + [nodes[i]];
    }
    assert nodes[..|nodes|] == nodes;
  }

  /** claimed holds the names of the nodes of sorted that one of the first g matchers took. */
  ghost predicate ClaimedBefore(sorted: seq<Node>, ms: seq<Matcher>, g: nat, claimed: set<string>) {
    forall k :: 0 <= k < |sorted| ==> (sorted[k].name in claimed <==> FirstMatch(ms, sorted[k]) < g)
  }

  /** The inner loop of Resolve: one group takes what it matches of the nodes still unclaimed. */
  method Claim(sorted: seq<Node>, ms: seq<Matcher>, g: nat, before: set<string>)
    returns (members: seq<Node>, claimed: set<string>)
    requires UniquelyNamed(sorted) && g < |ms|
    requires ClaimedBefore(sorted, ms, g, before)
    ensures members == Claimed(sorted, ms, g)
    ensures ClaimedBefore(sorted, ms, g + 1, claimed)
  {
    members, claimed := [], before;
    for i := 0 to |sorted|
      invariant members == Claimed(sorted[..i], ms, g)
      invariant forall k :: 0 <= k < i ==> (sorted[k].name in claimed <==> FirstMatch(ms, sorted[k]) < g + 1)
      invariant forall k :: i <= k < |sorted| ==> (sorted[k].name in claimed <==> FirstMatch(ms, sorted[k]) < g)
    {
      assert sorted[..i + 1][..i] == sorted[..i];
      var node := sorted[i];
      if node.name in claimed {
        continue;
      }
      FirstMatchIs(ms, node);
      if ms[g].Matches(node) {
        claimed := claimed + {node.name};
        members := members + [node];
      }
    }
    assert sorted[..|sorted|] == sorted;
  }

  method Unclaimed(sorted: seq<Node>, ms: seq<Matcher>, claimed: set<string>) returns (unassigned: seq<string>)
    requires ClaimedBefore(sorted, ms, |ms|, claimed)
    ensures unassigned == Names(Claimed(sorted, ms, |ms|))
  {
    unassigned := [];
    for i := 0 to |sorted|
      invariant unassigned == Names(Claimed(sorted[..i], ms, |ms|))
    {
      assert sorted[..i + 1][..i] == sorted[..i];
      if sorted[i].name !in claimed {
        unassigned := unassigned + [sorted[i].name];
      }
    }
    assert sorted[..|sorted|] == sorted;
  }

  method Resolve(nodes: seq<Node>, s: Strategy) returns (r: Option<Rollout>)
    ensures r == Resolved(nodes, s)
  {
    var compiled := CompileGroups(s, Order(s));
    if compiled.None? {
      return None;
    }
    var matchers := compiled.value;
    var unique := Dedup(nodes);
    SortedSorts(unique);
    var sorted := Sorted(unique);

    var groups: seq<Group> := [];
    var claimed: set<string> := {};
    for g := 0 to |matchers|
      invariant |groups| == g
      invariant forall i :: 0 <= i < g ==>
                  groups[i] == Group(matchers[i].name, matchers[i].concurrency, Claimed(sorted, matchers, i))
      invariant ClaimedBefore(sorted, matchers, g, claimed)
    {
      var members;
      members, claimed := Claim(sorted, matchers, g, claimed);
      groups := groups + [Group(matchers[g].name, matchers[g].concurrency, members)];
    }

    var unassigned := Unclaimed(sorted, matchers, claimed);
    assert groups == GroupsOf(sorted, matchers);
    assert |sorted| == |multiset(sorted)| == |multiset(unique)| == |unique|;
    return Some(Rollout(groups, |unique|, unassigned));
  }
}
