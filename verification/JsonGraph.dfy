// The check a value must pass before it is serialized: a depth-first search
// over the object graph that remembers the objects on the current path.
module JsonGraph {
  import opened Wrappers

  type Ref = nat

  datatype Value =
    | Null | Text(text: string) | Bool(value: bool) | Number(finite: bool)
    | Undefined | Unrepresentable // functions, symbols, big integers
    | Object(ref: Ref)

  // An array may have holes; an object that is neither an array nor plain is exotic.
  datatype Node = Array(items: seq<Option<Value>>) | Plain(members: seq<Member<Value>>) | Exotic

  datatype Member<T> = Member(key: string, value: T)

  type Heap = map<Ref, Node>

  // A finite JSON text, as a tree.
  datatype Tree = Scalar(value: Value) | List(items: seq<Tree>) | Dict(members: seq<Member<Tree>>)

  predicate Leaf(v: Value) {
    v.Null? || v.Text? || v.Bool? || (v.Number? && v.finite)
  }

  // Members whose value is undefined are left out.
  function Shown(members: seq<Member<Value>>): seq<Member<Value>> {
    if members == [] then []
    else (if members[0].value.Undefined? then [] else [members[0]]) + Shown(members[1..])
  }

  // A hole is written as null, an undefined item is not written at all.
  ghost predicate Represents(heap: Heap, v: Value, t: Tree)
    decreases t
  {
    match t
    case Scalar(w) => v == w && Leaf(v)
    case List(items) =>
      && v.Object? && v.ref in heap && heap[v.ref].Array? && |heap[v.ref].items| == |items|
      && forall i :: 0 <= i < |items| ==>
           (match heap[v.ref].items[i] case None => items[i] == Scalar(Null) case Some(w) => Represents(heap, w, items[i]))
    case Dict(members) =>
      && v.Object? && v.ref in heap && heap[v.ref].Plain? && |Shown(heap[v.ref].members)| == |members|
      && forall i :: 0 <= i < |members| ==>
           members[i].key == Shown(heap[v.ref].members)[i].key && Represents(heap, Shown(heap[v.ref].members)[i].value, members[i].value)
  }

  // ---- The search ----

  function Filled(items: seq<Option<Value>>): seq<Value> {
    if items == [] then []
    else (match items[0] case None => [] case Some(v) => [v]) + Filled(items[1..])
  }

  function Values(members: seq<Member<Value>>): seq<Value> {
    seq(|members|, i requires 0 <= i < |members| => members[i].value)
  }

  // The values the search goes on to.
  function Kids(n: Node): seq<Value> {
    match n
    case Array(items) => Filled(items)
    case Plain(members) => Values(Shown(members))
    case Exotic => []
  }

  predicate Check(heap: Heap, v: Value, seen: set<Ref>)
    decreases |heap.Keys - seen|, 0
  {
    if v.Object? then
      && v.ref in heap && v.ref !in seen && !heap[v.ref].Exotic?
      && (Fewer(heap.Keys, seen, v.ref); CheckAll(heap, Kids(heap[v.ref]), seen + {v.ref}))
    else Leaf(v)
  }

  predicate CheckAll(heap: Heap, vs: seq<Value>, seen: set<Ref>)
    decreases |heap.Keys - seen|, 1 + |vs|
  {
    vs != [] ==> Check(heap, vs[0], seen) && CheckAll(heap, vs[1..], seen)
  }

  lemma Fewer(keys: set<Ref>, seen: set<Ref>, r: Ref)
    requires r in keys && r !in seen
    ensures |keys - (seen + {r})| < |keys - seen|
  {
    assert keys - seen == (keys - (seen + {r})) + {r};
  }

  // The shared set of objects on the current path.
  class Path {
    var refs: set<Ref>

    constructor ()
      ensures refs == {}
    {
      refs := {};
    }
  }

  // The check as it runs. It leaves the path as it found it, whether it
  // accepts or refuses, and ends on every graph.
  method AssertJson(heap: Heap, v: Value, path: Path) returns (ok: bool)
    requires forall r :: r in path.refs ==> r in heap
    modifies path
    ensures ok == Check(heap, v, path.refs) && path.refs == old(path.refs)
    decreases |heap.Keys - path.refs|, 0
  {
    if !v.Object? {
      return Leaf(v);
    }
    if v.ref !in heap || v.ref in path.refs {
      return false;
    }
    ghost var before := path.refs;
    Fewer(heap.Keys, before, v.ref);
    path.refs := path.refs + {v.ref};
    if heap[v.ref].Exotic? {
      ok := false;
    } else {
      ok := AssertAll(heap, Kids(heap[v.ref]), path);
    }
    path.refs := path.refs - {v.ref};
  }

  method AssertAll(heap: Heap, vs: seq<Value>, path: Path) returns (ok: bool)
    requires forall r :: r in path.refs ==> r in heap
    modifies path
    ensures ok == CheckAll(heap, vs, path.refs) && path.refs == old(path.refs)
    decreases |heap.Keys - path.refs|, 1 + |vs|
  {
    for i := 0 to |vs|
      invariant path.refs == old(path.refs)
      invariant CheckAll(heap, vs, path.refs) == CheckAll(heap, vs[i..], path.refs)
    {
      assert vs[i..][0] == vs[i] && vs[i..][1..] == vs[i + 1..];
      var fine := AssertJson(heap, vs[i], path);
      if !fine {
        return false;
      }
    }
    ok := true;
  }

  lemma {:induction false} CheckAllMeans(heap: Heap, vs: seq<Value>, seen: set<Ref>)
    ensures CheckAll(heap, vs, seen) <==> forall i :: 0 <= i < |vs| ==> Check(heap, vs[i], seen)
  {
    if vs != [] {
      CheckAllMeans(heap, vs[1..], seen);
      assert forall i :: 1 <= i < |vs| ==> vs[i] == vs[1..][i - 1];
    }
  }

  lemma {:induction false} FilledMeans(items: seq<Option<Value>>)
    ensures forall v :: v in Filled(items) <==> Some(v) in items
  {
    if items != [] {
      FilledMeans(items[1..]);
      assert forall x :: x in items <==> x == items[0] || x in items[1..];
    }
  }

  // ---- Accepted exactly if it has a finite JSON tree ----

  lemma {:induction false} TreeUnique(heap: Heap, v: Value, t: Tree, u: Tree)
    requires Represents(heap, v, t) && Represents(heap, v, u)
    ensures t == u
    decreases t
  {
    match t
    case Scalar(_) =>
    case List(items) =>
      forall i | 0 <= i < |items| ensures items[i] == u.items[i] {
        if heap[v.ref].items[i].Some? {
          TreeUnique(heap, heap[v.ref].items[i].value, items[i], u.items[i]);
        }
      }
      assert items == u.items;
    case Dict(members) =>
      forall i | 0 <= i < |members| ensures members[i] == u.members[i] {
        TreeUnique(heap, Shown(heap[v.ref].members)[i].value, members[i].value, u.members[i].value);
      }
      assert members == u.members;
  }

  function Depth(t: Tree): nat {
    match t
    case Scalar(_) => 0
    case List(items) => 1 + Deepest(items)
    case Dict(members) => 1 + DeepestMember(members)
  }

  function Deepest(ts: seq<Tree>): nat {
    if ts == [] then 0 else if Depth(ts[0]) >= Deepest(ts[1..]) then Depth(ts[0]) else Deepest(ts[1..])
  }

  function DeepestMember(ms: seq<Member<Tree>>): nat {
    if ms == [] then 0 else if Depth(ms[0].value) >= DeepestMember(ms[1..]) then Depth(ms[0].value) else DeepestMember(ms[1..])
  }

  lemma {:induction false} DeepestIs(ts: seq<Tree>)
    ensures forall i :: 0 <= i < |ts| ==> Depth(ts[i]) <= Deepest(ts)
  {
    if ts != [] {
      DeepestIs(ts[1..]);
      assert forall i :: 1 <= i < |ts| ==> ts[i] == ts[1..][i - 1];
    }
  }

  lemma {:induction false} DeepestMemberIs(ms: seq<Member<Tree>>)
    ensures forall i :: 0 <= i < |ms| ==> Depth(ms[i].value) <= DeepestMember(ms)
  {
    if ms != [] {
      DeepestMemberIs(ms[1..]);
      assert forall i :: 1 <= i < |ms| ==> ms[i] == ms[1..][i - 1];
    }
  }

  // Objects on the path have deeper trees than `n`, if they have one.
  ghost predicate Deeper(heap: Heap, seen: set<Ref>, n: nat) {
    forall r, t :: r in seen && Represents(heap, Object(r), t) ==> Depth(t) > n
  }

  lemma {:induction false} TreeIsAccepted(heap: Heap, v: Value, t: Tree, seen: set<Ref>)
    requires Represents(heap, v, t) && Deeper(heap, seen, Depth(t))
    ensures Check(heap, v, seen)
    decreases t
  {
    if v.Object? {
      var r, inner := v.ref, seen + {v.ref};
      assert v == Object(r) && r !in seen;
      forall u | Represents(heap, v, u) ensures u == t {
        TreeUnique(heap, v, t, u);
      }
      match t
      case List(items) =>
        FilledMeans(heap[r].items);
        DeepestIs(items);
        forall w | w in Filled(heap[r].items) ensures Check(heap, w, inner) {
          var i :| 0 <= i < |items| && heap[r].items[i] == Some(w);
          TreeIsAccepted(heap, w, items[i], inner);
        }
        CheckAllMeans(heap, Kids(heap[r]), inner);
      case Dict(members) =>
        DeepestMemberIs(members);
        forall i | 0 <= i < |members| ensures Check(heap, Kids(heap[r])[i], inner) {
          TreeIsAccepted(heap, Shown(heap[r].members)[i].value, members[i].value, inner);
        }
        CheckAllMeans(heap, Kids(heap[r]), inner);
    }
  }

  lemma {:induction false} AcceptedHasTree(heap: Heap, v: Value, seen: set<Ref>) returns (t: Tree)
    requires Check(heap, v, seen)
    ensures Represents(heap, v, t)
    decreases |heap.Keys - seen|, 0
  {
    if !v.Object? {
      return Scalar(v);
    }
    var r, inner := v.ref, seen + {v.ref};
    Fewer(heap.Keys, seen, r);
    CheckAllMeans(heap, Kids(heap[r]), inner);
    if heap[r].Array? {
      var items := heap[r].items;
      FilledMeans(items);
      forall i | 0 <= i < |items| && items[i].Some? ensures Check(heap, items[i].value, inner) {
        assert items[i] in items && items[i].value in Filled(items);
      }
      var ts := TreesOf(heap, items, inner);
      t := List(ts);
    } else {
      var shown := Shown(heap[r].members);
      forall i | 0 <= i < |shown| ensures Check(heap, shown[i].value, inner) {
        assert Kids(heap[r])[i] == shown[i].value;
      }
      var ms := MembersOf(heap, shown, inner);
      t := Dict(ms);
    }
  }

  lemma {:induction false} TreesOf(heap: Heap, items: seq<Option<Value>>, seen: set<Ref>) returns (ts: seq<Tree>)
    requires forall i :: 0 <= i < |items| && items[i].Some? ==> Check(heap, items[i].value, seen)
    ensures |ts| == |items|
    ensures forall i :: 0 <= i < |ts| ==>
              (match items[i] case None => ts[i] == Scalar(Null) case Some(w) => Represents(heap, w, ts[i]))
    decreases |heap.Keys - seen|, 1 + |items|
  {
    if items == [] {
      return [];
    }
    var first := Scalar(Null);
    if items[0].Some? {
      first := AcceptedHasTree(heap, items[0].value, seen);
    }
    var rest := TreesOf(heap, items[1..], seen);
    ts := [first] + rest;
  }

  lemma {:induction false} MembersOf(heap: Heap, members: seq<Member<Value>>, seen: set<Ref>) returns (ms: seq<Member<Tree>>)
    requires forall i :: 0 <= i < |members| ==> Check(heap, members[i].value, seen)
    ensures |ms| == |members|
    ensures forall i :: 0 <= i < |ms| ==> ms[i].key == members[i].key && Represents(heap, members[i].value, ms[i].value)
    decreases |heap.Keys - seen|, 1 + |members|
  {
    if members == [] {
      return [];
    }
    var first := AcceptedHasTree(heap, members[0].value, seen);
    var rest := MembersOf(heap, members[1..], seen);
    ms := [Member(members[0].key, first)] + rest;
  }

  // Sound and complete: the check accepts a value exactly if some finite JSON
  // tree represents it. Objects may be shared; cycles have no finite tree.
  lemma CheckIsExact(heap: Heap, v: Value)
    ensures Check(heap, v, {}) <==> exists t :: Represents(heap, v, t)
  {
    if Check(heap, v, {}) {
      var t := AcceptedHasTree(heap, v, {});
      assert Represents(heap, v, t);
    } else {
      forall t ensures !Represents(heap, v, t) {
        if Represents(heap, v, t) {
          TreeIsAccepted(heap, v, t, {});
        }
      }
    }
  }

  // ---- No cycle is accepted ----

  // Consecutive objects of a walk are related by a value the search goes on to.
  predicate Walk(heap: Heap, path: seq<Ref>) {
    && (forall i :: 0 <= i < |path| ==> path[i] in heap)
    && (forall i :: 0 <= i < |path| - 1 ==> Object(path[i + 1]) in Kids(heap[path[i]]))
  }

  function Before(path: seq<Ref>, i: nat): set<Ref>
    requires i <= |path|
  {
    if i == 0 then {} else Before(path, i - 1) + {path[i - 1]}
  }

  lemma {:induction false} BeforeHas(path: seq<Ref>, i: nat, k: nat)
    requires i < k <= |path|
    ensures path[i] in Before(path, k)
  {
    if i < k - 1 {
      BeforeHas(path, i, k - 1);
    }
  }

  lemma {:induction false} WalkAccepted(heap: Heap, path: seq<Ref>, i: nat)
    requires Walk(heap, path) && i < |path| && Check(heap, Object(path[0]), {})
    ensures Check(heap, Object(path[i]), Before(path, i))
  {
    if i > 0 {
      WalkAccepted(heap, path, i - 1);
      var kids := Kids(heap[path[i - 1]]);
      CheckAllMeans(heap, kids, Before(path, i));
      assert Object(path[i - 1 + 1]) in kids;
      var k :| 0 <= k < |kids| && kids[k] == Object(path[i]);
    }
  }

  lemma {:induction false} BeforeOnly(path: seq<Ref>, r: Ref, k: nat)
    requires k <= |path| && r in Before(path, k)
    ensures r in path
  {
    if r != path[k - 1] {
      BeforeOnly(path, r, k - 1);
    }
  }

  // What the search refuses outright, wherever it meets it.
  predicate Unwritable(heap: Heap, v: Value) {
    if v.Object? then v.ref !in heap || heap[v.ref].Exotic? else !Leaf(v)
  }

  // Walking `path` from `root` leads to `v`.
  predicate LeadsTo(heap: Heap, root: Value, path: seq<Ref>, v: Value) {
    && Walk(heap, path)
    && if path == [] then v == root else Object(path[0]) == root && v in Kids(heap[path[|path| - 1]])
  }

  // A walk that ends in something that cannot be written, or closes a cycle.
  predicate Obstacle(heap: Heap, root: Value, path: seq<Ref>, v: Value) {
    LeadsTo(heap, root, path, v) && (Unwritable(heap, v) || (v.Object? && v.ref in path))
  }

  // The search refuses a writable object off the path because of one of its values.
  lemma RefusedKid(heap: Heap, v: Value, seen: set<Ref>) returns (i: nat)
    requires !Unwritable(heap, v) && !Check(heap, v, seen) && !(v.Object? && v.ref in seen)
    ensures v.Object? && v.ref in heap && i < |Kids(heap[v.ref])| && !Check(heap, Kids(heap[v.ref])[i], seen + {v.ref})
    ensures |heap.Keys - (seen + {v.ref})| < |heap.Keys - seen|
  {
    Fewer(heap.Keys, seen, v.ref);
    CheckAllMeans(heap, Kids(heap[v.ref]), seen + {v.ref});
    i :| 0 <= i < |Kids(heap[v.ref])| && !Check(heap, Kids(heap[v.ref])[i], seen + {v.ref});
  }

  lemma {:induction false} RefusalHasObstacle(heap: Heap, root: Value, path: seq<Ref>, v: Value) returns (walk: seq<Ref>, w: Value)
    requires LeadsTo(heap, root, path, v) && !Check(heap, v, Before(path, |path|))
    ensures Obstacle(heap, root, walk, w)
    decreases |heap.Keys - Before(path, |path|)|
  {
    var seen := Before(path, |path|);
    if Unwritable(heap, v) {
      return path, v;
    }
    if v.Object? && v.ref in seen {
      BeforeOnly(path, v.ref, |path|);
      return path, v;
    }
    var i := RefusedKid(heap, v, seen);
    LongerBefore(path, v.ref, |path|);
    LongerWalk(heap, root, path, v, i);
    walk, w := RefusalHasObstacle(heap, root, path + [v.ref], Kids(heap[v.ref])[i]);
  }

  lemma LongerWalk(heap: Heap, root: Value, path: seq<Ref>, v: Value, i: nat)
    requires LeadsTo(heap, root, path, v) && v.Object? && v.ref in heap && i < |Kids(heap[v.ref])|
    ensures LeadsTo(heap, root, path + [v.ref], Kids(heap[v.ref])[i])
  {
  }

  lemma {:induction false} LongerBefore(path: seq<Ref>, r: Ref, k: nat)
    requires k <= |path|
    ensures Before(path + [r], k) == Before(path, k)
  {
    if k > 0 {
      LongerBefore(path, r, k - 1);
    }
  }

  lemma ObstacleIsRefused(heap: Heap, root: Value, path: seq<Ref>, v: Value)
    requires Obstacle(heap, root, path, v)
    ensures !Check(heap, root, {})
  {
    if Check(heap, root, {}) && path != [] {
      var last := |path| - 1;
      WalkAccepted(heap, path, last);
      CheckAllMeans(heap, Kids(heap[path[last]]), Before(path, |path|));
      var i :| 0 <= i < |Kids(heap[path[last]])| && Kids(heap[path[last]])[i] == v;
      if v.Object? && v.ref in path {
        var k :| 0 <= k < |path| && path[k] == v.ref;
        BeforeHas(path, k, |path|);
      }
    }
  }

  // In terms of the graph: the check accepts a value exactly if no walk from
  // it closes a cycle or meets something that cannot be written.
  lemma CheckIsAcyclic(heap: Heap, v: Value)
    ensures Check(heap, v, {}) <==> forall path, w :: !Obstacle(heap, v, path, w)
  {
    if Check(heap, v, {}) {
      forall path, w ensures !Obstacle(heap, v, path, w) {
        if Obstacle(heap, v, path, w) {
          ObstacleIsRefused(heap, v, path, w);
        }
      }
    } else {
      var path, w := RefusalHasObstacle(heap, v, [], v);
    }
  }
}
