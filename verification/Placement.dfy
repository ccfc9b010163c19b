/** What a strategy means for its rollout, told by what is configured. */
module Placement {
  import opened Api
  import opened Scheduling

  /** The order as configured; where none is, the control plane comes before the workers. */
  function Listed(s: Strategy): seq<string> { if s.order == [] then ["controlPlane", "workers"] else s.order }

  /** The group is for this node, whether or not an earlier one takes it. */
  predicate Wants(s: Strategy, name: string, n: Node) {
    var controlPlane := "node-role.kubernetes.io/control-plane" in n.labels;
    if name == "controlPlane" then controlPlane
    else if name == "workers" then !controlPlane
    else name in s.groups && s.groups[name].selector.Selects? && s.groups[name].selector.matches(n.labels)
  }

  /** How many nodes of the group may be patched at once: as configured, but one at least. */
  function Allowed(s: Strategy, name: string): int {
    if name in s.groups && s.groups[name].concurrency > 1 then s.groups[name].concurrency else 1
  }

  /**
   * No group is listed twice; one that is not built in is declared, with a name usable as a label value and a selector
   * that compiles; and the built-in groups bring no selector of their own.
   */
  ghost predicate Resolvable(s: Strategy) {
    && (forall i, j :: 0 <= i < j < |Listed(s)| ==> Listed(s)[i] != Listed(s)[j])
    && (forall i :: 0 <= i < |Listed(s)| ==>
          var name := Listed(s)[i];
          name == "controlPlane" || name == "workers"
          || (name in s.groups && s.validLabel(name) && s.groups[name].selector.Selects?))
    && ("controlPlane" in s.groups ==> s.groups["controlPlane"].selector.Absent?)
    && ("workers" in s.groups ==> s.groups["workers"].selector.Absent?)
  }

  lemma ListedIsOrder(s: Strategy)
    ensures Order(s) == Listed(s)
  {
  }

  /** A selection resolves exactly under such a strategy. */
  lemma ResolvesExactly(nodes: seq<Node>, s: Strategy)
    ensures Resolved(nodes, s).Some? <==> Resolvable(s)
  {
    ListedIsOrder(s);
    var order := Order(s);
    if Resolvable(s) {
      forall name | name in order ensures UsableEntry(s, name) {
        var i :| 0 <= i < |order| && order[i] == name;
        assert Listed(s)[i] == name;
      }
    }
    if ValidStrategy(s) {
      forall i | 0 <= i < |Listed(s)| ensures UsableEntry(s, Listed(s)[i]) {
        assert order[i] in order;
      }
    }
  }

  /** Its groups are the listed ones, in that order, each with the concurrency configured for it. */
  lemma GroupsAsConfigured(nodes: seq<Node>, s: Strategy, i: nat)
    requires ValidStrategy(s) && i < |Resolved(nodes, s).value.groups|
    ensures
      var groups := Resolved(nodes, s).value.groups;
      && |groups| == |Listed(s)| && groups[i].name == Listed(s)[i]
      && groups[i].concurrency == Allowed(s, Listed(s)[i])
  {
    ListedIsOrder(s);
  }

  lemma MatchesWanted(s: Strategy, i: nat, n: Node)
    requires ValidStrategy(s) && i < |Order(s)|
    ensures MatchersOf(s, Order(s))[i].Matches(n) <==> Wants(s, Listed(s)[i], n)
  {
    ListedIsOrder(s);
    assert UsableEntry(s, Order(s)[i]);
  }

  /** The node is in the first of the groups that wants it, and unassigned exactly when none does. */
  ghost predicate InFirstWanted(s: Strategy, names: seq<string>, r: Rollout, n: Node) {
    && |r.groups| == |names|
    && (forall i :: 0 <= i < |names| ==>
          (n in r.groups[i].nodes <==> Wants(s, names[i], n) && forall k :: 0 <= k < i ==> !Wants(s, names[k], n)))
    && (n.name in r.unassigned <==> forall k :: 0 <= k < |names| ==> !Wants(s, names[k], n))
  }

  /** Every selected node is where the listed groups want it. */
  lemma PlacedWhereWanted(nodes: seq<Node>, s: Strategy, n: Node)
    requires ValidStrategy(s) && n in Unique(nodes)
    ensures InFirstWanted(s, Listed(s), Resolved(nodes, s).value, n)
  {
    var r, ms := Resolved(nodes, s).value, MatchersOf(s, Order(s));
    ResolvePartitions(nodes, s);
    FirstIsFirstWanted(s, ms, n, FirstMatch(ms, n));
    PlacedInFirst(s, r, ms, n);
  }

  lemma PlacedInFirst(s: Strategy, r: Rollout, ms: seq<Matcher>, n: Node)
    requires |r.groups| == |ms| == |Listed(s)| && Placed(r.groups, r.unassigned, ms, n)
    requires var first := FirstMatch(ms, n);
             && (first < |ms| ==> Wants(s, Listed(s)[first], n))
             && forall k :: 0 <= k < first ==> !Wants(s, Listed(s)[k], n)
    ensures InFirstWanted(s, Listed(s), r, n)
  {
  }

  lemma FirstIsFirstWanted(s: Strategy, ms: seq<Matcher>, n: Node, first: nat)
    requires ValidStrategy(s) && ms == MatchersOf(s, Order(s)) && first == FirstMatch(ms, n)
    ensures |ms| == |Listed(s)| && first <= |ms|
    ensures first < |ms| ==> Wants(s, Listed(s)[first], n)
    ensures forall k :: 0 <= k < first ==> !Wants(s, Listed(s)[k], n)
  {
    ListedIsOrder(s);
    FirstMatchIs(ms, n);
    forall i: nat | i < |Listed(s)| ensures ms[i].Matches(n) <==> Wants(s, Listed(s)[i], n) {
      MatchesWanted(s, i, n);
    }
  }

  /** n is the first node of the list with its name. */
  ghost predicate FirstNamed(nodes: seq<Node>, n: Node) {
    exists k :: 0 <= k < |nodes| && nodes[k] == n && forall j :: 0 <= j < k ==> nodes[j].name != n.name
  }

  /** Of the nodes listed under one name exactly the first is kept. */
  lemma {:induction false} UniqueKeepsFirst(nodes: seq<Node>, n: Node)
    ensures n in Unique(nodes) <==> FirstNamed(nodes, n)
  {
    if nodes != [] {
      var init, last := nodes[..|nodes| - 1], nodes[|nodes| - 1];
      UniqueKeepsFirst(init, n);
      FirstOfMore(init, last, nodes, n);
    }
  }

  lemma FirstOfMore(init: seq<Node>, last: Node, nodes: seq<Node>, n: Node)
    requires nodes == init + [last]
    ensures FirstNamed(nodes, n) <==> FirstNamed(init, n) || (n == last && last.name !in NamesOf(init))
  {
    if FirstNamed(nodes, n) {
      var k :| 0 <= k < |nodes| && nodes[k] == n && forall j :: 0 <= j < k ==> nodes[j].name != n.name;
      if k < |init| {
        assert init[k] == n && forall j :: 0 <= j < k ==> init[j] == nodes[j];
      } else {
        forall m | m in init ensures m.name != last.name {
          var j :| 0 <= j < |init| && init[j] == m;
          assert nodes[j] == m;
        }
      }
    }
    if FirstNamed(init, n) {
      var k :| 0 <= k < |init| && init[k] == n && forall j :: 0 <= j < k ==> init[j].name != n.name;
      assert nodes[k] == n && forall j :: 0 <= j < k ==> nodes[j] == init[j];
    }
    if n == last && last.name !in NamesOf(init) {
      assert nodes[|init|] == n && forall j :: 0 <= j < |init| ==> nodes[j] == init[j] && init[j] in init;
    }
  }

  /** a comes before b in a dictionary: where they first differ, or because b goes on where a ends. */
  predicate Alphabetical(a: string, b: string) {
    exists k: nat ::
      && k <= |a| && k < |b| && a[..k] == b[..k] && (k < |a| ==> a[k] < b[k])
  }

  /** Within a group the control plane comes first, and otherwise the alphabet decides. */
  lemma ScheduledInOrder(nodes: seq<Node>, s: Strategy, i: nat, p: nat, q: nat)
    requires ValidStrategy(s) && i < |Resolved(nodes, s).value.groups|
    requires p < q < |Resolved(nodes, s).value.groups[i].nodes|
    ensures
      var a, b := Resolved(nodes, s).value.groups[i].nodes[p], Resolved(nodes, s).value.groups[i].nodes[q];
      var mark := "node-role.kubernetes.io/control-plane";
      (mark in a.labels && mark !in b.labels)
      || ((mark in a.labels <==> mark in b.labels) && Alphabetical(a.name, b.name))
  {
    ResolvedWellFormed(nodes, s);
    var g := Resolved(nodes, s).value.groups[i].nodes;
    assert NodeLess(g[p], g[q]);
    if StringLess(g[p].name, g[q].name) {
      StringLessIsAlphabetical(g[p].name, g[q].name);
    }
  }

  lemma {:induction false} StringLessIsAlphabetical(a: string, b: string)
    requires StringLess(a, b)
    ensures Alphabetical(a, b)
  {
    if a == [] || a[0] != b[0] {
      assert a[..0] == b[..0];
    } else {
      StringLessIsAlphabetical(a[1..], b[1..]);
      var k: nat :|
        && k <= |a[1..]| && k < |b[1..]| && a[1..][..k] == b[1..][..k] && (k < |a[1..]| ==> a[1..][k] < b[1..][k]);
      assert a[..k + 1] == [a[0]] + a[1..][..k] && b[..k + 1] == [b[0]] + b[1..][..k];
    }
  }
}
