/** Inspection of flow inputs (validation.ts): only plain data without cycles may be copied. */
module FlowInput {
  import opened Graphs
  import opened Outcomes

  type Ref = int

  datatype Shape = ArrayShape | PlainShape | OtherShape

  /** A value is a primitive or a reference to an object of the heap. */
  datatype Value = Primitive(what: nat) | Object(ref: Ref)

  datatype Key = Text(name: string) | Symbol

  /** An own property: its key, whether it has a getter or setter, and its value otherwise. */
  datatype Field = Field(key: Key, accessor: bool, value: Value)

  /** An object as reflection shows it: its prototype and its own properties, in order. */
  datatype Node = Node(shape: Shape, fields: seq<Field>)

  type Heap = map<Ref, Node>

  predicate Closed(heap: Heap) {
    forall r | r in heap :: forall f | f in heap[r].fields :: f.value.Object? ==> f.value.ref in heap
  }

  predicate Allocated(heap: Heap, v: Value) {
    v.Object? ==> v.ref in heap
  }

  /** Plain data: an array or a plain object whose properties are strings with values. */
  predicate IsData(n: Node) {
    !n.shape.OtherShape? && forall f | f in n.fields :: f.key.Text? && !f.accessor
  }

  function Targets(fields: seq<Field>): seq<Ref> {
    if fields == [] then []
    else
      var rest, last := Targets(fields[..|fields| - 1]), fields[|fields| - 1];
      if last.value.Object? then rest + [last.value.ref] else rest
  }

  /** Which objects an object refers to. */
  function References(heap: Heap): Graph<Ref> {
    map r | r in heap :: Targets(heap[r].fields)
  }

  lemma {:induction false} TargetsAreFields(fields: seq<Field>, r: Ref)
    ensures r in Targets(fields) <==> exists f :: f in fields && f.value == Object(r)
  {
    if fields != [] {
      var init, last := fields[..|fields| - 1], fields[|fields| - 1];
      assert fields == init + [last];
      TargetsAreFields(init, r);
      if exists f :: f in fields && f.value == Object(r) {
        var f :| f in fields && f.value == Object(r);
        assert f in init || f == last;
      }
      if r in Targets(fields) {
        if r in Targets(init) {
          var f :| f in init && f.value == Object(r);
          assert f in fields;
        } else {
          assert last in fields;
        }
      }
    }
  }

  /** The inspection below the objects of `path`: none may be met again, and all must be data. */
  predicate Inspected(heap: Heap, v: Value, path: set<Ref>)
    requires Closed(heap) && Allocated(heap, v)
    decreases heap.Keys - path
  {
    v.Object? ==>
      && v.ref !in path && IsData(heap[v.ref])
      && forall f | f in heap[v.ref].fields :: Inspected(heap, f.value, path + {v.ref})
  }

  /** The object of the inspection, with its set of the objects being visited. */
  class Inspector {
    var seen: set<Ref>

    constructor ()
      ensures seen == {}
    {
      seen := {};
    }

    /** `inspectJson`; an exception is `ok == false`. */
    method InspectJson(heap: Heap, v: Value) returns (ok: bool)
      requires Closed(heap) && Allocated(heap, v)
      modifies this
      ensures ok <==> Inspected(heap, v, old(seen))
      ensures ok ==> seen == old(seen)
      decreases heap.Keys - seen
    {
      if v.Primitive? { return true; }
      if v.ref in seen { return false; }
      ghost var path := seen;
      seen := seen + {v.ref};
      var node := heap[v.ref];
      if node.shape.OtherShape? { return false; }
      for i := 0 to |node.fields|
        invariant seen == path + {v.ref}
        invariant forall k | 0 <= k < i ::
          node.fields[k].key.Text? && !node.fields[k].accessor && Inspected(heap, node.fields[k].value, path + {v.ref})
      {
        var field := node.fields[i];
        if field.key.Symbol? || field.accessor { return false; }
        var below := InspectJson(heap, field.value);
        if !below { return false; }
      }
      seen := seen - {v.ref};
      return true;
    }
  }

  // ----- what the inspection accepts

  lemma {:induction false} InspectionSearches(heap: Heap, r: Ref, path: set<Ref>)
    requires Closed(heap) && r in heap && Inspected(heap, Object(r), path)
    ensures Accepts(References(heap), r, path)
    decreases heap.Keys - path
  {
    var g := References(heap);
    forall i | 0 <= i < |g[r]| && g[r][i] in g ensures Accepts(g, g[r][i], path + {r}) {
      var w := g[r][i];
      TargetsAreFields(heap[r].fields, w);
      var f :| f in heap[r].fields && f.value == Object(w);
      assert Inspected(heap, f.value, path + {r});
      InspectionSearches(heap, w, path + {r});
    }
  }

  lemma {:induction false} InspectionSeesEverything(heap: Heap, r: Ref, path: set<Ref>, p: seq<Ref>)
    requires Closed(heap) && r in heap && Inspected(heap, Object(r), path)
    requires Walk(References(heap), p) && p[0] == r
    ensures IsData(heap[p[|p| - 1]])
    decreases |p|
  {
    if |p| > 1 {
      var g := References(heap);
      assert Edge(g, p[0], p[1]);
      TargetsAreFields(heap[r].fields, p[1]);
      var f :| f in heap[r].fields && f.value == Object(p[1]);
      assert Inspected(heap, f.value, path + {r});
      PartOfWalk(g, p, 1, |p|);
      InspectionSeesEverything(heap, p[1], path + {r}, p[1..]);
    }
  }

  lemma {:induction false} DataIsInspected(heap: Heap, r: Ref, path: set<Ref>)
    requires Closed(heap) && r in heap && Accepts(References(heap), r, path)
    requires forall w :: Reaches(References(heap), r, w) ==> IsData(heap[w])
    ensures Inspected(heap, Object(r), path)
    decreases heap.Keys - path
  {
    var g := References(heap);
    assert Walk(g, [r]);
    assert [r][0] == r && [r][|[r]| - 1] == r;
    assert Reaches(g, r, r);
    forall f | f in heap[r].fields ensures Inspected(heap, f.value, path + {r}) {
      if f.value.Object? {
        var w := f.value.ref;
        TargetsAreFields(heap[r].fields, w);
        assert Edge(g, r, w);
        var i :| 0 <= i < |g[r]| && g[r][i] == w;
        forall x | Reaches(g, w, x) ensures IsData(heap[x]) {
          var p :| Walk(g, p) && p[0] == w && p[|p| - 1] == x;
          JoinedWalk(g, [r, w], p);
          var q := [r, w] + p[1..];
          assert q[0] == r && q[|q| - 1] == x;
          assert Reaches(g, r, x);
        }
        DataIsInspected(heap, w, path + {r});
      }
    }
  }

  /** The inspection accepts exactly the graphs of plain data with no cycle that can be reached;
      an object that is shared but not its own ancestor is accepted. */
  lemma AcceptsPlainAcyclicData(heap: Heap, r: Ref)
    requires Closed(heap) && r in heap
    ensures Inspected(heap, Object(r), {}) <==>
      && (forall w :: Reaches(References(heap), r, w) ==> IsData(heap[w]))
      && (forall c :: IsCycle(References(heap), c) ==> !Reaches(References(heap), r, c[0]))
  {
    var g := References(heap);
    AcceptsMeansNoReachableCycle(g, r);
    if Inspected(heap, Object(r), {}) {
      InspectionSearches(heap, r, {});
      forall w | Reaches(g, r, w) ensures IsData(heap[w]) {
        var p :| Walk(g, p) && p[0] == r && p[|p| - 1] == w;
        InspectionSeesEverything(heap, r, {}, p);
      }
    } else if forall w :: Reaches(g, r, w) ==> IsData(heap[w]) {
      if Accepts(g, r, {}) { DataIsInspected(heap, r, {}); }
    }
  }

  /** A diamond: two properties that share one object are no cycle. */
  lemma SharingIsAccepted(heap: Heap, top: Ref, shared: Ref)
    requires Closed(heap) && top in heap && shared in heap && top != shared
    requires heap[top] == Node(PlainShape, [Field(Text("a"), false, Object(shared)), Field(Text("b"), false, Object(shared))])
    requires heap[shared] == Node(ArrayShape, [])
    ensures Inspected(heap, Object(top), {})
  {
  }

  // ----- the copy

  /** What parsing the JSON text of a value yields, before it becomes objects. */
  datatype Tree = Leaf(what: nat) | Branch(shape: Shape, items: seq<Item>)
  datatype Item = Item(name: string, value: Tree)

  /** The value looks exactly like the tree, at every depth. */
  predicate Mirrors(heap: Heap, v: Value, t: Tree)
    decreases t
  {
    match t
    case Leaf(what) => v == Primitive(what)
    case Branch(shape, items) =>
      && v.Object? && v.ref in heap && heap[v.ref].shape == shape && |heap[v.ref].fields| == |items|
      && forall i | 0 <= i < |items| ::
        && heap[v.ref].fields[i].key == Text(items[i].name) && !heap[v.ref].fields[i].accessor
        && Mirrors(heap, heap[v.ref].fields[i].value, items[i].value)
  }

  /** Nothing that was there before is touched. */
  ghost predicate Extends(later: Heap, before: Heap) {
    forall r | r in before :: r in later && later[r] == before[r]
  }

  lemma {:induction false} MirrorsStays(before: Heap, later: Heap, v: Value, t: Tree)
    requires Mirrors(before, v, t) && Extends(later, before)
    ensures Mirrors(later, v, t)
    decreases t
  {
    if t.Branch? {
      forall i | 0 <= i < |t.items| ensures Mirrors(later, later[v.ref].fields[i].value, t.items[i].value) {
        MirrorsStays(before, later, before[v.ref].fields[i].value, t.items[i].value);
      }
    }
  }

  /** The objects from `low` on only refer to one another. */
  ghost predicate SelfContained(heap: Heap, low: Ref) {
    forall r, f | r in heap && r >= low && f in heap[r].fields && f.value.Object? ::
      f.value.ref in heap && f.value.ref >= low
  }

  lemma {:induction false} ReachableStaysInside(heap: Heap, low: Ref, p: seq<Ref>)
    requires SelfContained(heap, low) && Walk(References(heap), p) && p[0] >= low
    ensures p[|p| - 1] >= low
    decreases |p|
  {
    if |p| > 1 {
      assert Edge(References(heap), p[0], p[1]);
      TargetsAreFields(heap[p[0]].fields, p[1]);
      PartOfWalk(References(heap), p, 1, |p|);
      ReachableStaysInside(heap, low, p[1..]);
    }
  }

  predicate FrozenBelow(heap: Heap, frozen: set<Ref>, v: Value, t: Tree)
    requires Mirrors(heap, v, t)
    decreases t
  {
    t.Branch? ==>
      v.ref in frozen
      && forall i | 0 <= i < |t.items| :: FrozenBelow(heap, frozen, heap[v.ref].fields[i].value, t.items[i].value)
  }

  lemma {:induction false} FrozenStays(heap: Heap, frozen: set<Ref>, more: set<Ref>, v: Value, t: Tree)
    requires Mirrors(heap, v, t) && FrozenBelow(heap, frozen, v, t) && frozen <= more
    ensures FrozenBelow(heap, more, v, t)
    decreases t
  {
    if t.Branch? {
      forall i | 0 <= i < |t.items|
        ensures FrozenBelow(heap, more, heap[v.ref].fields[i].value, t.items[i].value)
      {
        FrozenStays(heap, frozen, more, heap[v.ref].fields[i].value, t.items[i].value);
      }
    }
  }

  lemma {:induction false} ReachableIsFrozen(heap: Heap, frozen: set<Ref>, v: Value, t: Tree, p: seq<Ref>)
    requires Mirrors(heap, v, t) && FrozenBelow(heap, frozen, v, t) && v.Object?
    requires Walk(References(heap), p) && p[0] == v.ref
    ensures p[|p| - 1] in frozen
    decreases |p|
  {
    if |p| > 1 {
      assert Edge(References(heap), p[0], p[1]);
      var fields := heap[v.ref].fields;
      TargetsAreFields(fields, p[1]);
      var f :| f in fields && f.value == Object(p[1]);
      var i :| 0 <= i < |fields| && fields[i] == f;
      PartOfWalk(References(heap), p, 1, |p|);
      ReachableIsFrozen(heap, frozen, f.value, t.items[i].value, p[1..]);
    }
  }

  /** Everything that can be reached from the value is new and frozen. */
  ghost predicate FreshAndFrozen(heap: Heap, frozen: set<Ref>, before: Heap, v: Value) {
    v.Object? ==>
      && v.ref in heap
      && forall w :: Reaches(References(heap), v.ref, w) ==> w !in before && w in frozen
  }

  /** The objects of the program: `next` is the first reference never used. */
  class ObjectStore {
    var heap: Heap
    var next: Ref
    var frozen: set<Ref>

    ghost predicate Valid()
      reads this
    {
      Closed(heap) && forall r | r in heap :: r < next
    }

    /** JSON.parse: new objects for every array and object of the text, children first. */
    method Parse(t: Tree) returns (v: Value)
      requires Valid()
      modifies this`heap, this`next
      ensures Valid() && old(next) <= next && Extends(heap, old(heap))
      ensures Mirrors(heap, v, t)
      ensures v.Object? ==> v.ref >= old(next)
      ensures forall r | r in heap && r !in old(heap) :: r >= old(next)
      ensures forall low | low <= old(next) && SelfContained(old(heap), low) :: SelfContained(heap, low)
      decreases t
    {
      if t.Leaf? { return Primitive(t.what); }
      var fields: seq<Field> := [];
      for i := 0 to |t.items|
        invariant Valid() && old(next) <= next && Extends(heap, old(heap))
        invariant |fields| == i
        invariant forall k | 0 <= k < i ::
          && fields[k].key == Text(t.items[k].name) && !fields[k].accessor
          && Mirrors(heap, fields[k].value, t.items[k].value)
          && (fields[k].value.Object? ==> fields[k].value.ref in heap && fields[k].value.ref >= old(next))
        invariant forall r | r in heap && r !in old(heap) :: r >= old(next)
        invariant forall low | low <= old(next) && SelfContained(old(heap), low) :: SelfContained(heap, low)
      {
        ghost var before := heap;
        var item := Parse(t.items[i].value);
        forall k | 0 <= k < i ensures Mirrors(heap, fields[k].value, t.items[k].value) {
          MirrorsStays(before, heap, fields[k].value, t.items[k].value);
        }
        fields := fields + [Field(Text(t.items[i].name), false, item)];
      }
      ghost var before := heap;
      heap := heap[next := Node(t.shape, fields)];
      v := Object(next);
      next := next + 1;
      forall k | 0 <= k < |t.items| ensures Mirrors(heap, fields[k].value, t.items[k].value) {
        MirrorsStays(before, heap, fields[k].value, t.items[k].value);
      }
    }

    /** `freezeJson`: the properties first, then the object. */
    method Freeze(v: Value, ghost t: Tree, ghost low: Ref)
      requires Mirrors(heap, v, t) && SelfContained(heap, low) && (v.Object? ==> v.ref >= low)
      modifies this`frozen
      ensures FrozenBelow(heap, frozen, v, t) && old(frozen) <= frozen
      ensures forall r | r in frozen :: r in old(frozen) || r >= low
      decreases t
    {
      if v.Primitive? { return; }
      var fields := heap[v.ref].fields;
      for i := 0 to |fields|
        invariant old(frozen) <= frozen
        invariant forall r | r in frozen :: r in old(frozen) || r >= low
        invariant forall k | 0 <= k < i :: FrozenBelow(heap, frozen, fields[k].value, t.items[k].value)
      {
        ghost var before := frozen;
        Freeze(fields[i].value, t.items[i].value, low);
        forall k | 0 <= k < i ensures FrozenBelow(heap, frozen, fields[k].value, t.items[k].value) {
          FrozenStays(heap, before, frozen, fields[k].value, t.items[k].value);
        }
      }
      ghost var before := frozen;
      frozen := frozen + {v.ref};
      forall k | 0 <= k < |fields| ensures FrozenBelow(heap, frozen, fields[k].value, t.items[k].value) {
        FrozenStays(heap, before, frozen, fields[k].value, t.items[k].value);
      }
    }

    /** `copyFlowInput`; `parsed` is what stringifying and parsing made of the value, if they did not
        throw, and may differ from it arbitrarily. */
    method CopyFlowInput(v: Value, parsed: Option<Tree>) returns (copy: Option<Value>)
      requires Valid() && Allocated(heap, v)
      modifies this
      ensures Valid() && Extends(heap, old(heap))
      ensures copy.Some? <==> Inspected(old(heap), v, {}) && parsed.Some? && Mirrors(old(heap), v, parsed.value)
      ensures copy.None? ==> frozen == old(frozen)
      ensures copy.Some? ==>
        && Mirrors(heap, copy.value, parsed.value) && Mirrors(heap, v, parsed.value)
        && FreshAndFrozen(heap, frozen, old(heap), copy.value)
        && old(frozen) <= frozen && (forall r | r in frozen :: r in old(frozen) || r !in old(heap))
    {
      var inspector := new Inspector();
      var plain := inspector.InspectJson(heap, v);
      if !plain || parsed.None? { return None; }
      ghost var before, low := heap, next;
      var made := Parse(parsed.value);
      if !Mirrors(heap, v, parsed.value) {
        if Mirrors(before, v, parsed.value) { MirrorsStays(before, heap, v, parsed.value); }
        return None;
      }
      assert Mirrors(before, v, parsed.value) by { MirroredBefore(before, heap, v, parsed.value); }
      assert SelfContained(heap, low);
      Freeze(made, parsed.value, low);
      if made.Object? {
        forall w | Reaches(References(heap), made.ref, w) ensures w !in before && w in frozen {
          var p :| Walk(References(heap), p) && p[0] == made.ref && p[|p| - 1] == w;
          ReachableStaysInside(heap, low, p);
          ReachableIsFrozen(heap, frozen, made, parsed.value, p);
        }
      }
      return Some(made);
    }
  }

  lemma {:induction false} MirroredBefore(before: Heap, later: Heap, v: Value, t: Tree)
    requires Closed(before) && Allocated(before, v) && Extends(later, before) && Mirrors(later, v, t)
    ensures Mirrors(before, v, t)
    decreases t
  {
    if t.Branch? {
      forall i | 0 <= i < |t.items| ensures Mirrors(before, before[v.ref].fields[i].value, t.items[i].value) {
        MirroredBefore(before, later, before[v.ref].fields[i].value, t.items[i].value);
      }
    }
  }
}
