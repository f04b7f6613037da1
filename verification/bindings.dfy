/** JSON input bindings: resolving the outputs of predecessors into the keyword
    arguments of a node (`DAGNode.materialize_kwargs`). */
module Bindings {
  import opened Types

  // ---------------------------------------------------------------- one container

  function Child(v: Json, part: Part): Option<Json> {
    match (part, v)
    case (Index(i), Arr(items)) => if 0 <= i < |items| then Some(items[i]) else None
    case (Key(k), Obj(fields)) => if k in fields then Some(fields[k]) else None
    case _ => None
  }

  /** `parent[leaf] = value`: lists never grow, an object may gain a key. */
  function Put(v: Json, part: Part, x: Json): Option<Json> {
    match (part, v)
    case (Index(i), Arr(items)) => if 0 <= i < |items| then Some(Arr(items[i := x])) else None
    case (Key(k), Obj(fields)) => Some(Obj(fields[k := x]))
    case _ => None
  }

  // ---------------------------------------------------------------- paths

  function PathValue(v: Json, path: seq<Part>): Option<Json> {
    if path == [] then Some(v)
    else match Child(v, path[0])
      case None => None
      case Some(child) => PathValue(child, path[1..])
  }

  function Assign(v: Json, target: seq<Part>, x: Json): Option<Json>
    requires target != []
  {
    if |target| == 1 then Put(v, target[0], x)
    else match Child(v, target[0])
      case None => None
      case Some(child) =>
        match Assign(child, target[1..], x)
        case None => None
        case Some(child') => Put(v, target[0], child')
  }

  predicate Prefix(p: seq<Part>, q: seq<Part>) { |p| <= |q| && q[..|p|] == p }

  predicate Apart(p: seq<Part>, q: seq<Part>) { !Prefix(p, q) && !Prefix(q, p) }

  lemma PrefixTail(p: seq<Part>, q: seq<Part>)
    requires p != [] && q != [] && p[0] == q[0]
    ensures Prefix(p, q) <==> Prefix(p[1..], q[1..])
  {
    if |p| <= |q| {
      assert q[..|p|] == [q[0]] + q[1..][..|p| - 1];
      assert p == [p[0]] + p[1..];
    }
  }

  lemma ApartTail(p: seq<Part>, q: seq<Part>)
    requires Apart(p, q) && p != [] && q != [] && p[0] == q[0]
    ensures Apart(p[1..], q[1..]) && 1 < |p| && 1 < |q|
  {
    PrefixTail(p, q);
    PrefixTail(q, p);
  }

  /** A path is read to its last part: an item of a list by its place, a member of an object by its name. */
  lemma {:induction false} ReadExactly(v: Json, path: seq<Part>, part: Part)
    ensures PathValue(v, path + [part]) == match PathValue(v, path)
                                           case Some(Arr(items)) =>
                                             if part.Index? && 0 <= part.index < |items| then Some(items[part.index]) else None
                                           case Some(Obj(fields)) =>
                                             if part.Key? && part.key in fields then Some(fields[part.key]) else None
                                           case _ => None
  {
    var whole := path + [part];
    if path == [] {
      assert whole == [part] && whole[1..] == [];
    } else {
      assert whole[0] == path[0] && whole[1..] == path[1..] + [part];
      if Child(v, path[0]).Some? { ReadExactly(Child(v, path[0]).value, path[1..], part); }
    }
  }

  /** The place where a value can be put: an existing item of a list, or any member of an object. */
  predicate Fits(v: Json, target: seq<Part>)
    requires target != []
  {
    var leaf := target[|target| - 1];
    match PathValue(v, target[..|target| - 1])
    case Some(Arr(items)) => leaf.Index? && 0 <= leaf.index < |items|
    case Some(Obj(_)) => leaf.Key?
    case _ => false
  }

  lemma {:induction false} AssignFits(v: Json, target: seq<Part>, x: Json)
    requires target != []
    ensures Assign(v, target, x).Some? <==> Fits(v, target)
  {
    if |target| == 1 {
      assert target[..0] == [];
    } else {
      assert target[..|target| - 1][1..] == target[1..][..|target| - 2] && target[..|target| - 1][0] == target[0];
      match Child(v, target[0])
      case None =>
      case Some(child) =>
        AssignFits(child, target[1..], x);
        var below := Assign(child, target[1..], x);
        if below.Some? { PutTwice(v, target[0], below.value, below.value); }
    }
  }

  lemma {:induction false} AssignThenRead(v: Json, target: seq<Part>, x: Json)
    requires target != [] && Assign(v, target, x).Some?
    ensures PathValue(Assign(v, target, x).value, target) == Some(x)
  {
    var w := Assign(v, target, x).value;
    if |target| == 1 {
      assert target[1..] == [];
    } else {
      AssignThenRead(Child(v, target[0]).value, target[1..], x);
    }
  }

  lemma {:induction false} AssignElsewhere(v: Json, target: seq<Part>, x: Json, q: seq<Part>)
    requires target != [] && q != [] && Apart(target, q) && Assign(v, target, x).Some?
    ensures PathValue(Assign(v, target, x).value, q) == PathValue(v, q)
  {
    if target[0] == q[0] {
      ApartTail(target, q);
      AssignElsewhere(Child(v, target[0]).value, target[1..], x, q[1..]);
    }
  }

  function Then(v: Option<Json>, target: seq<Part>, x: Json): Option<Json>
    requires target != []
  {
    if v.None? then None else Assign(v.value, target, x)
  }

  /** Two assignments that do not overlap give the same tree in either order, and whether
      one of them fits does not depend on the other. */
  lemma {:induction false} AssignmentsCommute(v: Json, p: seq<Part>, x: Json, q: seq<Part>, y: Json)
    requires p != [] && q != [] && Apart(p, q)
    ensures Then(Assign(v, p, x), q, y) == Then(Assign(v, q, y), p, x)
    ensures Assign(v, p, x).Some? ==> (Then(Assign(v, p, x), q, y).Some? <==> Assign(v, q, y).Some?)
  {
    if p[0] != q[0] {
      CommuteApart(v, p, x, q, y);
    } else {
      ApartTail(p, q);
      match Child(v, p[0])
      case None =>
      case Some(child) =>
        AssignmentsCommute(child, p[1..], x, q[1..], y);
        ThenBelow(v, p, x, q, y, child);
        ThenBelow(v, q, y, p, x, child);
    }
  }

  /** Two assignments below the same child write that child once. */
  lemma ThenBelow(v: Json, p: seq<Part>, x: Json, q: seq<Part>, y: Json, child: Json)
    requires 1 < |p| && 1 < |q| && p[0] == q[0] && Child(v, p[0]) == Some(child)
    ensures Assign(v, p, x).Some? <==> Assign(child, p[1..], x).Some?
    ensures Then(Assign(v, p, x), q, y) == PutOption(Some(v), p[0], Then(Assign(child, p[1..], x), q[1..], y))
    ensures Then(Assign(v, p, x), q, y).Some? <==> Then(Assign(child, p[1..], x), q[1..], y).Some?
  {
    AssignIsPut(v, p, x);
    var below := Assign(child, p[1..], x);
    if below.Some? {
      PutTwice(v, p[0], below.value, below.value);
      AssignIsPut(Put(v, p[0], below.value).value, q, y);
      var twice := Assign(below.value, q[1..], y);
      if twice.Some? { PutTwice(v, p[0], below.value, twice.value); }
    }
  }

  /** What an assignment writes under the first part of its target. */
  function NewChild(v: Json, p: seq<Part>, x: Json): Option<Json>
    requires p != []
  {
    if |p| == 1 then Some(x)
    else if Child(v, p[0]).None? then None
    else Assign(Child(v, p[0]).value, p[1..], x)
  }

  function PutOption(v: Option<Json>, part: Part, x: Option<Json>): Option<Json> {
    if v.None? || x.None? then None else Put(v.value, part, x.value)
  }

  lemma AssignIsPut(v: Json, p: seq<Part>, x: Json)
    requires p != []
    ensures Assign(v, p, x) == PutOption(Some(v), p[0], NewChild(v, p, x))
  {
  }

  /** A second assignment next to the first one finds its child as it was. */
  lemma AssignedApart(v: Json, p: seq<Part>, x: Json, q: seq<Part>, y: Json)
    requires p != [] && q != [] && p[0] != q[0]
    ensures Then(Assign(v, p, x), q, y) == PutOption(PutOption(Some(v), p[0], NewChild(v, p, x)), q[0], NewChild(v, q, y))
    ensures Assign(v, p, x) == PutOption(Some(v), p[0], NewChild(v, p, x))
  {
    hide Assign, Put, Child;
    AssignIsPut(v, p, x);
    if Assign(v, p, x).Some? {
      PutApart(v, p[0], NewChild(v, p, x), q[0], None);
      AssignIsPut(Assign(v, p, x).value, q, y);
    }
  }

  lemma CommuteApart(v: Json, p: seq<Part>, x: Json, q: seq<Part>, y: Json)
    requires p != [] && q != [] && p[0] != q[0]
    ensures Then(Assign(v, p, x), q, y) == Then(Assign(v, q, y), p, x)
    ensures Assign(v, p, x).Some? ==> (Then(Assign(v, p, x), q, y).Some? <==> Assign(v, q, y).Some?)
  {
    hide Assign, Put, Child;
    AssignedApart(v, p, x, q, y);
    AssignedApart(v, q, y, p, x);
    PutApart(v, p[0], NewChild(v, p, x), q[0], NewChild(v, q, y));
    PutApart(v, q[0], NewChild(v, q, y), p[0], NewChild(v, p, x));
  }

  lemma PutApart(v: Json, part: Part, x: Option<Json>, other: Part, y: Option<Json>)
    requires part != other
    ensures var w := PutOption(Some(v), part, x);
      && (w.Some? ==> Child(w.value, other) == Child(v, other))
      && PutOption(w, other, y) == PutOption(PutOption(Some(v), other, y), part, x)
      && (w.Some? ==> (PutOption(w, other, y).Some? <==> PutOption(Some(v), other, y).Some?))
  {
    if x.Some? && y.Some? {
      match (part, other, v) {
        case (Index(i), Index(j), Arr(items)) =>
          if 0 <= i < |items| && 0 <= j < |items| {
            assert items[i := x.value][j := y.value] == items[j := y.value][i := x.value];
          }
        case (Key(k), Key(l), Obj(fields)) =>
          assert fields[k := x.value][l := y.value] == fields[l := y.value][k := x.value];
        case _ =>
      }
    }
  }

  lemma PutTwice(v: Json, part: Part, x: Json, y: Json)
    requires Child(v, part).Some?
    ensures Put(v, part, x).Some? && Child(Put(v, part, x).value, part) == Some(x)
    ensures Put(Put(v, part, x).value, part, y) == Put(v, part, y)
  {
    match part
    case Index(i) => assert v.items[i := x][i := y] == v.items[i := y];
    case Key(k) => assert v.fields[k := x][k := y] == v.fields[k := y];
  }

  // ---------------------------------------------------------------- bindings in sequence

  /** An input or a binding, as a place in the keyword arguments and where its value comes from. */
  datatype Slot = Slot(target: seq<Part>, source: OutputRef)

  function Slots(n: NodeDef): seq<Slot> {
    seq(|n.inputs|, i requires 0 <= i < |n.inputs| => Slot([Key(n.inputs[i].0)], n.inputs[i].1)) +
    seq(|n.bindings|, i requires 0 <= i < |n.bindings| => Slot(n.bindings[i].target, n.bindings[i].source))
  }

  /** The overlap check of `DAGNode.__post_init__`, with the check that targets start somewhere. */
  ghost predicate Disjoint(slots: seq<Slot>) {
    && (forall i | 0 <= i < |slots| :: slots[i].target != [])
    && (forall i, j | 0 <= i < j < |slots| :: Apart(slots[i].target, slots[j].target))
  }

  function Fetch(outputs: map<string, Json>, source: OutputRef): Option<Json> {
    if source.node in outputs then PathValue(outputs[source.node], source.path) else None
  }

  function FillOne(v: Json, slot: Slot, outputs: map<string, Json>): Option<Json> {
    if slot.target == [] || Fetch(outputs, slot.source).None? then None
    else Assign(v, slot.target, Fetch(outputs, slot.source).value)
  }

  function Fill(v: Json, slots: seq<Slot>, outputs: map<string, Json>): Option<Json>
    decreases |slots|
  {
    if slots == [] then Some(v)
    else match FillOne(v, slots[0], outputs)
      case None => None
      case Some(w) => Fill(w, slots[1..], outputs)
  }

  function Materialize(n: NodeDef, outputs: map<string, Json>): Option<map<string, Json>> {
    match Fill(Obj(n.kwargs), Slots(n), outputs)
    case Some(Obj(fields)) => Some(fields)
    case _ => None
  }

  // ---------------------------------------------------------------- what filling means

  lemma FillOneKeeps(v: Json, a: Slot, b: Slot, outputs: map<string, Json>)
    requires a.target != [] && b.target != [] && Apart(a.target, b.target)
    requires FillOne(v, a, outputs).Some?
    ensures FillOne(FillOne(v, a, outputs).value, b, outputs).Some? <==> FillOne(v, b, outputs).Some?
  {
    if Fetch(outputs, b.source).Some? {
      AssignmentsCommute(v, a.target, Fetch(outputs, a.source).value, b.target, Fetch(outputs, b.source).value);
    }
  }

  /** Filling fails exactly when some slot alone does not fit the static arguments. */
  lemma {:induction false} FillSucceeds(v: Json, slots: seq<Slot>, outputs: map<string, Json>)
    requires Disjoint(slots)
    ensures Fill(v, slots, outputs).Some? <==> forall i | 0 <= i < |slots| :: FillOne(v, slots[i], outputs).Some?
    decreases |slots|
  {
    if slots != [] && FillOne(v, slots[0], outputs).Some? {
      var w := FillOne(v, slots[0], outputs).value;
      FillSucceeds(w, slots[1..], outputs);
      forall i | 1 <= i < |slots|
        ensures FillOne(w, slots[i], outputs).Some? <==> FillOne(v, slots[i], outputs).Some?
      {
        FillOneKeeps(v, slots[0], slots[i], outputs);
      }
      assert forall i | 1 <= i < |slots| :: slots[i] == slots[1..][i - 1];
    }
  }

  /** Paths apart from every target keep their value. */
  lemma {:induction false} FillElsewhere(v: Json, slots: seq<Slot>, outputs: map<string, Json>, q: seq<Part>)
    requires Fill(v, slots, outputs).Some? && q != []
    requires forall i | 0 <= i < |slots| :: Apart(slots[i].target, q)
    ensures PathValue(Fill(v, slots, outputs).value, q) == PathValue(v, q)
    decreases |slots|
  {
    if slots != [] {
      AssignElsewhere(v, slots[0].target, Fetch(outputs, slots[0].source).value, q);
      FillElsewhere(FillOne(v, slots[0], outputs).value, slots[1..], outputs, q);
    }
  }

  /** Every target ends up holding the value of its source. */
  lemma {:induction false} FillWrites(v: Json, slots: seq<Slot>, outputs: map<string, Json>, i: nat)
    requires Disjoint(slots) && Fill(v, slots, outputs).Some? && i < |slots|
    ensures Fetch(outputs, slots[i].source).Some?
    ensures PathValue(Fill(v, slots, outputs).value, slots[i].target) == Fetch(outputs, slots[i].source)
    decreases i
  {
    var w := FillOne(v, slots[0], outputs).value;
    if i == 0 {
      AssignThenRead(v, slots[0].target, Fetch(outputs, slots[0].source).value);
      FillElsewhere(w, slots[1..], outputs, slots[0].target);
    } else {
      FillWrites(w, slots[1..], outputs, i - 1);
    }
  }

  lemma FillSwap(v: Json, a: Slot, b: Slot, rest: seq<Slot>, outputs: map<string, Json>)
    requires a.target != [] && b.target != [] && Apart(a.target, b.target)
    ensures Fill(v, [a, b] + rest, outputs) == Fill(v, [b, a] + rest, outputs)
  {
    assert ([a, b] + rest)[1..] == [b] + rest && ([b] + rest)[1..] == rest;
    assert ([b, a] + rest)[1..] == [a] + rest && ([a] + rest)[1..] == rest;
    if Fetch(outputs, a.source).Some? && Fetch(outputs, b.source).Some? {
      AssignmentsCommute(v, a.target, Fetch(outputs, a.source).value, b.target, Fetch(outputs, b.source).value);
    }
  }

  lemma {:induction false} FillToFront(v: Json, before: seq<Slot>, a: Slot, rest: seq<Slot>, outputs: map<string, Json>)
    requires a.target != []
    requires forall i | 0 <= i < |before| :: before[i].target != [] && Apart(before[i].target, a.target)
    ensures Fill(v, before + [a] + rest, outputs) == Fill(v, [a] + before + rest, outputs)
    decreases |before|
  {
    if before == [] {
      assert before + [a] + rest == [a] + before + rest;
    } else {
      var b := before[0];
      assert (before + [a] + rest)[1..] == before[1..] + [a] + rest;
      assert [a] + before + rest == [a, b] + (before[1..] + rest);
      assert [b, a] + (before[1..] + rest) == [b] + ([a] + before[1..] + rest);
      assert ([b] + ([a] + before[1..] + rest))[1..] == [a] + before[1..] + rest;
      FillSwap(v, a, b, before[1..] + rest, outputs);
      if FillOne(v, b, outputs).Some? {
        FillToFront(FillOne(v, b, outputs).value, before[1..], a, rest, outputs);
      }
    }
  }

  /** In a disjoint sequence no slot occurs twice, so disjointness is a matter of the multiset. */
  lemma DisjointPermutes(slots: seq<Slot>, other: seq<Slot>)
    requires Disjoint(slots) && multiset(slots) == multiset(other)
    ensures Disjoint(other)
  {
    forall i | 0 <= i < |other| ensures other[i].target != [] {
      assert other[i] in multiset(other);
      assert other[i] in slots;
    }
    forall i, j | 0 <= i < j < |other| ensures Apart(other[i].target, other[j].target) {
      assert other == other[..i] + [other[i]] + other[i + 1..j] + [other[j]] + other[j + 1..];
      assert multiset{other[i], other[j]} <= multiset(other);
      var k, l := TwoPlaces(slots, other[i], other[j]);
    }
  }

  lemma TwoPlaces(slots: seq<Slot>, a: Slot, b: Slot) returns (k: nat, l: nat)
    requires multiset{a, b} <= multiset(slots)
    ensures k < |slots| && l < |slots| && k != l && slots[k] == a && slots[l] == b
  {
    assert a in multiset(slots);
    k :| 0 <= k < |slots| && slots[k] == a;
    assert slots == slots[..k] + [a] + slots[k + 1..];
    assert multiset(slots) == multiset(slots[..k]) + multiset{a} + multiset(slots[k + 1..]);
    assert b in multiset(slots[..k]) + multiset(slots[k + 1..]);
    hide Prefix, Apart, Assign;
    var before, after := slots[..k], slots[k + 1..];
    if b in before {
      l :| 0 <= l < k && before[l] == b;
    } else {
      assert b in after;
      var m :| 0 <= m < |after| && after[m] == b;
      l := k + 1 + m;
    }
  }

  lemma TakeOut(slots: seq<Slot>, other: seq<Slot>) returns (before: seq<Slot>, rest: seq<Slot>)
    requires slots != [] && multiset(slots) == multiset(other)
    ensures other == before + [slots[0]] + rest
    ensures multiset(slots[1..]) == multiset(before + rest)
  {
    var a := slots[0];
    assert a in multiset(other);
    var i :| 0 <= i < |other| && other[i] == a;
    before, rest := other[..i], other[i + 1..];
    calc {
      multiset(slots[1..]);
      { assert slots == [a] + slots[1..]; }
      multiset(slots) - multiset{a};
      { assert other == before + [a] + rest; }
      multiset(before) + multiset(rest);
    }
  }

  lemma ApartFromLater(before: seq<Slot>, a: Slot, rest: seq<Slot>)
    requires Disjoint(before + [a] + rest)
    ensures a.target != []
    ensures forall i | 0 <= i < |before| :: before[i].target != [] && Apart(before[i].target, a.target)
  {
    var all := before + [a] + rest;
    assert all[|before|] == a;
    assert forall i | 0 <= i < |before| :: before[i] == all[i];
  }

  /** The result does not depend on the order of the bindings, nor does failure. */
  lemma {:induction false} FillOrderIrrelevant(v: Json, slots: seq<Slot>, other: seq<Slot>, outputs: map<string, Json>)
    requires Disjoint(slots) && multiset(slots) == multiset(other)
    ensures Fill(v, slots, outputs) == Fill(v, other, outputs)
    decreases |slots|
  {
    if slots == [] {
      assert |multiset(other)| == 0;
    } else {
      var a := slots[0];
      DisjointPermutes(slots, other);
      var before, rest := TakeOut(slots, other);
      ApartFromLater(before, a, rest);
      FillToFront(v, before, a, rest, outputs);
      assert [a] + before + rest == [a] + (before + rest);
      assert ([a] + (before + rest))[1..] == before + rest;
      if FillOne(v, a, outputs).Some? {
        FillOrderIrrelevant(FillOne(v, a, outputs).value, slots[1..], before + rest, outputs);
      }
    }
  }
}
