/** What a workflow definition has to be, told without paths: nodes that differ, dependencies that exist and can be
    ranked, and targets that part ways. */
module GraphLaws {
  import opened Types
  import opened Bindings
  import opened Graph
  import opened Orders

  lemma SlotsAre(n: NodeDef)
    ensures |Slots(n)| == |n.inputs| + |n.bindings|
    ensures forall i | 0 <= i < |n.inputs| :: Slots(n)[i] == Slot([Key(n.inputs[i].0)], n.inputs[i].1)
    ensures forall i | |n.inputs| <= i < |Slots(n)| ::
              Slots(n)[i] == Slot(n.bindings[i - |n.inputs|].target, n.bindings[i - |n.inputs|].source)
  {
  }

  /** The node waits for this one: it names it, or reads its result. */
  predicate DependsOn(n: NodeDef, d: string) {
    || d in n.dependsOn
    || (exists i | 0 <= i < |n.inputs| :: n.inputs[i].1.node == d)
    || (exists i | 0 <= i < |n.bindings| :: n.bindings[i].source.node == d)
  }

  lemma DependsExactly(n: NodeDef, d: string)
    ensures d in Dependencies(n) <==> DependsOn(n, d)
  {
    SlotsAre(n);
    hide Slots;
    var sources := SourceNodes(Slots(n));
    assert d in Dependencies(n) <==> d in n.dependsOn || d in sources;
    if d in sources {
      var i :| 0 <= i < |sources| && sources[i] == d;
      if i < |n.inputs| { assert n.inputs[i].1.node == d; } else { assert n.bindings[i - |n.inputs|].source.node == d; }
    }
    forall i | 0 <= i < |n.inputs| ensures n.inputs[i].1.node in sources { assert sources[i] == n.inputs[i].1.node; }
    forall i | 0 <= i < |n.bindings| ensures n.bindings[i].source.node in sources {
      assert sources[|n.inputs| + i] == n.bindings[i].source.node;
    }
  }

  // ---------------------------------------------------------------- targets

  /** The paths part ways before either of them ends. */
  predicate Parts(p: seq<Part>, q: seq<Part>) { exists k :: 0 <= k < |p| && k < |q| && p[k] != q[k] }

  lemma ApartExactly(p: seq<Part>, q: seq<Part>)
    ensures Apart(p, q) <==> Parts(p, q)
  {
    if Parts(p, q) {
      var k :| 0 <= k < |p| && k < |q| && p[k] != q[k];
      assert |p| <= |q| ==> q[..|p|][k] == q[k];
      assert |q| <= |p| ==> p[..|q|][k] == p[k];
    } else {
      assert |p| <= |q| ==> q[..|p|] == p;
      assert |q| <= |p| ==> p[..|q|] == q;
    }
  }

  /** The inputs have different names, and no binding writes into an input or into the target of another one. */
  ghost predicate TargetsSound(n: NodeDef) {
    && (forall i, j | 0 <= i < j < |n.inputs| :: n.inputs[i].0 != n.inputs[j].0)
    && (forall i | 0 <= i < |n.bindings| :: n.bindings[i].target != [])
    && (forall i, j | 0 <= i < |n.inputs| && 0 <= j < |n.bindings| :: n.bindings[j].target[0] != Key(n.inputs[i].0))
    && (forall i, j | 0 <= i < j < |n.bindings| :: Parts(n.bindings[i].target, n.bindings[j].target))
  }

  lemma KeyParts(name: string, q: seq<Part>)
    requires q != []
    ensures Parts([Key(name)], q) <==> q[0] != Key(name)
  {
    if q[0] != Key(name) { assert [Key(name)][0] != q[0]; }
  }

  lemma TargetsExactly(n: NodeDef)
    ensures Disjoint(Slots(n)) <==> TargetsSound(n)
  {
    SlotsAre(n);
    hide Slots, Apart;
    if TargetsSound(n) { SoundIsDisjoint(n); } else if Disjoint(Slots(n)) { DisjointIsSound(n); }
  }

  lemma SoundIsDisjoint(n: NodeDef)
    requires TargetsSound(n)
    ensures Disjoint(Slots(n))
  {
    SlotsAre(n);
    hide Slots, Apart, Parts;
    var slots, m := Slots(n), |n.inputs|;
    forall i, j | 0 <= i < j < |slots| ensures Apart(slots[i].target, slots[j].target) {
      ApartExactly(slots[i].target, slots[j].target);
      if i < m && j < m {
        KeyParts(n.inputs[i].0, slots[j].target);
      } else if i < m {
        KeyParts(n.inputs[i].0, n.bindings[j - m].target);
      } else {
        assert Parts(n.bindings[i - m].target, n.bindings[j - m].target);
      }
    }
  }

  lemma DisjointIsSound(n: NodeDef)
    requires Disjoint(Slots(n))
    ensures TargetsSound(n)
  {
    SlotsAre(n);
    hide Slots, Apart, Parts;
    var slots, m := Slots(n), |n.inputs|;
    forall i | 0 <= i < |n.bindings| ensures n.bindings[i].target != [] { assert slots[m + i].target == n.bindings[i].target; }
    forall i, j | 0 <= i < j < |n.inputs| ensures n.inputs[i].0 != n.inputs[j].0 {
      ApartExactly(slots[i].target, slots[j].target);
      KeyParts(n.inputs[i].0, slots[j].target);
    }
    forall i, j | 0 <= i < |n.inputs| && 0 <= j < |n.bindings| ensures n.bindings[j].target[0] != Key(n.inputs[i].0) {
      ApartExactly(slots[i].target, slots[m + j].target);
      KeyParts(n.inputs[i].0, n.bindings[j].target);
    }
    forall i, j | 0 <= i < j < |n.bindings| ensures Parts(n.bindings[i].target, n.bindings[j].target) {
      ApartExactly(slots[m + i].target, slots[m + j].target);
    }
  }

  // ---------------------------------------------------------------- graphs

  /** Every node has a higher rank than all the nodes it depends on. */
  ghost predicate Ranks(nodes: seq<NodeDef>, rank: map<string, nat>) {
    && (forall n | n in nodes :: n.id in rank)
    && forall n, d | n in nodes && DependsOn(n, d) :: d in rank && rank[d] < rank[n.id]
  }

  ghost predicate Names(nodes: seq<NodeDef>, d: string) { exists n | n in nodes :: n.id == d }

  ghost predicate Sound(nodes: seq<NodeDef>) {
    && nodes != []
    && (forall i, j | 0 <= i < j < |nodes| :: nodes[i].id != nodes[j].id)
    && (forall n, d | n in nodes && DependsOn(n, d) :: Names(nodes, d))
    && (exists rank :: Ranks(nodes, rank))
    && forall n | n in nodes :: TargetsSound(n)
  }

  lemma NamesExactly(nodes: seq<NodeDef>, d: string)
    ensures d in Ids(nodes) <==> Names(nodes, d)
  {
    if d in Ids(nodes) {
      var i :| 0 <= i < |nodes| && Ids(nodes)[i] == d;
      assert nodes[i] in nodes && nodes[i].id == d;
    }
    if Names(nodes, d) {
      var n :| n in nodes && n.id == d;
      var i :| 0 <= i < |nodes| && nodes[i] == n;
      assert Ids(nodes)[i] == d;
    }
  }

  lemma EdgeRises(nodes: seq<NodeDef>, rank: map<string, nat>, d: string, k: string)
    requires Ranks(nodes, rank) && Edge(nodes, d, k)
    ensures d in rank && k in rank && rank[d] < rank[k]
  {
    var n :| n in nodes && n.id == k && d in Dependencies(n);
    hide Dependencies;
    DependsExactly(n, d);
  }

  /** Ranks rise along a path. */
  lemma {:induction false} PathRises(nodes: seq<NodeDef>, rank: map<string, nat>, p: seq<string>, j: nat)
    requires Ranks(nodes, rank) && 1 <= j < |p| && forall i | 0 <= i < |p| - 1 :: Edge(nodes, p[i], p[i + 1])
    ensures p[0] in rank && p[j] in rank && rank[p[0]] < rank[p[j]]
  {
    hide Ranks, Edge;
    assert Edge(nodes, p[j - 1], p[j - 1 + 1]);
    EdgeRises(nodes, rank, p[j - 1], p[j]);
    if j > 1 { PathRises(nodes, rank, p, j - 1); }
  }

  lemma SoundIsWellFormed(nodes: seq<NodeDef>)
    requires Sound(nodes)
    ensures WellFormed(nodes)
  {
    hide TargetsSound, Disjoint, Slots, Dependencies, DependsOn, Names, Ids;
    forall n | n in nodes ensures Disjoint(Slots(n)) { TargetsExactly(n); }
    forall n, d | n in nodes && d in Dependencies(n) ensures d in Ids(nodes) { DependsExactly(n, d); NamesExactly(nodes, d); }
    var rank :| Ranks(nodes, rank);
    if HasCycle(nodes) {
      var p :| IsCycle(nodes, p);
      PathRises(nodes, rank, p, |p| - 1);
    }
  }

  function PlaceIn(order: seq<string>, x: string): (i: nat)
    requires x in order
    ensures i < |order| && order[i] == x
  {
    if order[|order| - 1] == x then |order| - 1 else PlaceIn(order[..|order| - 1], x)
  }

  /** The places in a topological order are ranks. */
  lemma OrderRanks(nodes: seq<NodeDef>, order: seq<string>)
    requires IsOrder(nodes, order)
    ensures exists rank :: Ranks(nodes, rank)
  {
    hide Dependencies, DependsOn;
    var rank := map x | x in order :: PlaceIn(order, x);
    forall n | n in nodes ensures n.id in order { NamesExactly(nodes, n.id); assert n.id in Elements(Ids(nodes)); }
    forall n, d | n in nodes && DependsOn(n, d) ensures d in rank && rank[d] < rank[n.id] {
      DependsExactly(n, d);
      assert Edge(nodes, d, n.id);
      var i := EdgePlaces(nodes, order, d, n.id, rank[n.id]);
      assert order[rank[d]] == order[i];
    }
    assert Ranks(nodes, rank);
  }

  /** A definition that can be ordered is well-formed if and only if it is sound. */
  lemma OrderedIsSound(nodes: seq<NodeDef>, order: seq<string>)
    requires WellFormed(nodes) && IsOrder(nodes, order)
    ensures Sound(nodes)
  {
    hide TargetsSound, Disjoint, Slots, Dependencies, DependsOn, Names, Ids, IsOrder, HasCycle;
    OrderRanks(nodes, order);
    forall n | n in nodes ensures TargetsSound(n) { TargetsExactly(n); }
    forall n, d | n in nodes && DependsOn(n, d) ensures Names(nodes, d) { DependsExactly(n, d); NamesExactly(nodes, d); }
  }
}
