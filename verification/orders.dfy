/** Topological orders: what one is, that a graph with a cycle has none, and that a graph in
    which every remaining node waits for a remaining node has a cycle. */
module Orders {
  import opened Types
  import opened Graph

  ghost predicate NoRepeats(s: seq<string>) { forall i, j | 0 <= i < j < |s| :: s[i] != s[j] }

  /** All predecessors of `k` are in the set. */
  ghost predicate ReadyAfter(nodes: seq<NodeDef>, k: string, done: set<string>) {
    forall d | Edge(nodes, d, k) :: d in done
  }

  function Elements(s: seq<string>): set<string> { set x | x in s }

  /** Every node once, each after all the nodes it depends on. */
  ghost predicate IsOrder(nodes: seq<NodeDef>, order: seq<string>) {
    && NoRepeats(order) && Elements(order) == Elements(Ids(nodes))
    && forall i | 0 <= i < |order| :: ReadyAfter(nodes, order[i], Elements(order[..i]))
  }

  // ---------------------------------------------------------------- no order with a cycle

  lemma PlaceOf(order: seq<string>, x: string) returns (i: nat)
    requires x in order
    ensures i < |order| && order[i] == x
  {
    i :| 0 <= i < |order| && order[i] == x;
  }

  lemma EdgePlaces(nodes: seq<NodeDef>, order: seq<string>, d: string, k: string, j: nat) returns (i: nat)
    requires IsOrder(nodes, order) && Edge(nodes, d, k) && j < |order| && order[j] == k
    ensures i < j && order[i] == d
  {
    assert ReadyAfter(nodes, order[j], Elements(order[..j]));
    i := PlaceOf(order[..j], d);
  }

  /** Along a path of edges the places in the order increase. */
  lemma {:induction false} PathPlaces(nodes: seq<NodeDef>, order: seq<string>, p: seq<string>, j: nat) returns (i: nat)
    requires IsOrder(nodes, order) && 2 <= |p| && (forall a | 0 <= a < |p| - 1 :: Edge(nodes, p[a], p[a + 1]))
    requires j < |order| && order[j] == p[|p| - 1]
    ensures i < j && order[i] == p[0]
    decreases |p|
  {
    var m := EdgePlaces(nodes, order, p[|p| - 2], p[|p| - 1], j);
    if |p| == 2 {
      i := m;
    } else {
      i := PathPlaces(nodes, order, p[..|p| - 1], m);
    }
  }

  lemma OrderedIsAcyclic(nodes: seq<NodeDef>, order: seq<string>)
    requires IsOrder(nodes, order)
    ensures !HasCycle(nodes)
  {
    if HasCycle(nodes) {
      var p :| IsCycle(nodes, p);
      assert Edge(nodes, p[|p| - 2], p[|p| - 2 + 1]);
      var k := p[|p| - 1];
      var n :| n in nodes && n.id == k;
      var a :| 0 <= a < |nodes| && nodes[a] == n;
      assert Ids(nodes)[a] == k;
      assert k in Elements(Ids(nodes));
      var j := PlaceOf(order, k);
      var i := PathPlaces(nodes, order, p, j);
    }
  }

  // ---------------------------------------------------------------- a cycle where nothing is ready

  /** Each of these nodes waits for one of them. */
  ghost predicate Stuck(nodes: seq<NodeDef>, rest: set<string>) {
    rest != {} && forall k | k in rest :: WaitsInside(nodes, rest, k)
  }

  ghost predicate WaitsInside(nodes: seq<NodeDef>, rest: set<string>, k: string) {
    exists d :: d in rest && Edge(nodes, d, k)
  }

  /** A walk from each node to one it depends on. */
  ghost predicate WalksBack(nodes: seq<NodeDef>, rest: set<string>, p: seq<string>) {
    (forall i | 0 <= i < |p| :: p[i] in rest) && forall i | 0 <= i < |p| - 1 :: Edge(nodes, p[i + 1], p[i])
  }

  lemma WaitedFor(nodes: seq<NodeDef>, rest: set<string>, k: string) returns (d: string)
    requires WaitsInside(nodes, rest, k)
    ensures d in rest && Edge(nodes, d, k)
  {
    d :| d in rest && Edge(nodes, d, k);
  }

  lemma {:induction false} Walk(nodes: seq<NodeDef>, rest: set<string>, length: nat) returns (p: seq<string>)
    requires Stuck(nodes, rest)
    ensures |p| == length + 1 && WalksBack(nodes, rest, p)
  {
    hide WaitsInside, Edge;
    if length == 0 {
      var k :| k in rest;
      p := [k];
    } else {
      var q := Walk(nodes, rest, length - 1);
      var d := WaitedFor(nodes, rest, q[|q| - 1]);
      p := q + [d];
    }
  }

  /** A sequence longer than the set of its elements repeats one. */
  lemma {:induction false} Pigeonhole(p: seq<string>, s: set<string>) returns (i: nat, j: nat)
    requires Elements(p) <= s && |s| < |p|
    ensures i < j < |p| && p[i] == p[j]
    decreases |p|
  {
    var last := p[|p| - 1];
    if last in p[..|p| - 1] {
      i := PlaceOf(p[..|p| - 1], last);
      j := |p| - 1;
    } else {
      assert last in s;
      forall x | x in Elements(p[..|p| - 1]) ensures x in s - {last} { assert x in p; }
      i, j := Pigeonhole(p[..|p| - 1], s - {last});
    }
  }

  function Reverse(p: seq<string>): (r: seq<string>)
    ensures |r| == |p| && forall i | 0 <= i < |p| :: r[i] == p[|p| - 1 - i]
  {
    if p == [] then [] else Reverse(p[1..]) + [p[0]]
  }

  lemma StuckHasCycle(nodes: seq<NodeDef>, rest: set<string>)
    requires Stuck(nodes, rest)
    ensures HasCycle(nodes)
  {
    hide WaitsInside, Edge;
    var p := Walk(nodes, rest, |rest|);
    assert Elements(p) <= rest;
    var i, j := Pigeonhole(p, rest);
    var loop := p[i..j + 1];
    var q := Reverse(loop);
    forall a | 0 <= a < |q| - 1 ensures Edge(nodes, q[a], q[a + 1]) {
      assert q[a] == p[j - a] && q[a + 1] == p[j - a - 1];
      assert Edge(nodes, p[j - a - 1 + 1], p[j - a - 1]);
    }
    assert IsCycle(nodes, q);
  }

  // ---------------------------------------------------------------- cardinalities

  lemma {:induction false} SizeOfDistinct(s: seq<string>)
    requires NoRepeats(s)
    ensures |Elements(s)| == |s|
  {
    if s != [] {
      var front := s[..|s| - 1];
      SizeOfDistinct(front);
      assert Elements(s) == Elements(front) + {s[|s| - 1]};
      assert s[|s| - 1] !in Elements(front);
    }
  }

  lemma {:induction false} SubsetOfSameSize(a: set<string>, b: set<string>)
    requires a <= b
    ensures |a| <= |b| && (|a| == |b| ==> a == b)
    decreases a
  {
    if a != {} {
      var x :| x in a;
      SubsetOfSameSize(a - {x}, b - {x});
    }
  }
}
