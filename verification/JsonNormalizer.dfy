// Normalising structured values before they are written as canonical JSON (corvus/security.py). Values form a finite
// object graph, named by identity: objects may be shared, and containers may contain themselves.
module JsonNormalizer {
  import opened Common

  type Id = nat

  // A leaf holds the text it is written as, if it has an acceptable one: a non-finite number, a datetime without a zone
  // and a value of any other type have none. A key that is not a string is None.
  datatype Object =
    | Leaf(image: Option<string>)
    | EnumMember(value: Id)
    | Mapping(keys: seq<Option<string>>, items: seq<Id>)
    | Sequence(items: seq<Id>)

  datatype Json = Scalar(text: string) | Dict(keys: seq<string>, items: seq<Json>) | List(items: seq<Json>)

  type Graph = map<Id, Object>

  function Parts(o: Object): seq<Id> {
    match o
    case Leaf(_) => []
    case EnumMember(v) => [v]
    case Mapping(_, items) => items
    case Sequence(items) => items
  }

  predicate IsContainer(o: Object) {
    o.Mapping? || o.Sequence?
  }

  // The value of an enum member was made before the member: identities are numbered in the order of creation.
  predicate IsGraph(g: Graph) {
    forall id :: id in g ==>
      && (forall k :: 0 <= k < |Parts(g[id])| ==> Parts(g[id])[k] in g)
      && (g[id].EnumMember? ==> g[id].value < id)
      && (g[id].Mapping? ==> |g[id].keys| == |g[id].items| && DistinctKeys(g[id].keys))
  }

  predicate DistinctKeys(keys: seq<Option<string>>) {
    forall i, k :: 0 <= i < k < |keys| && keys[i].Some? ==> keys[i] != keys[k]
  }

  // ---- When a value is acceptable --------------------------------------------------------------------------------

  predicate Step(g: Graph, path: seq<Id>, k: nat)
    requires k + 1 < |path|
  {
    path[k] in g && path[k + 1] in Parts(g[path[k]])
  }

  ghost predicate IsPath(g: Graph, path: seq<Id>) {
    path != [] && path[0] in g && forall k :: 0 <= k < |path| - 1 ==> Step(g, path, k)
  }

  predicate Simple(path: seq<Id>) {
    forall i, k :: 0 <= i < k < |path| ==> path[i] != path[k]
  }

  predicate GoodLeaf(o: Object) {
    o.Leaf? ==> o.image.Some?
  }

  predicate GoodKeys(o: Object) {
    o.Mapping? ==> forall k :: 0 <= k < |o.keys| ==> o.keys[k].Some?
  }

  ghost predicate Leads(g: Graph, path: seq<Id>, from: Id) {
    IsPath(g, path) && path[0] == from && path[|path| - 1] in g
  }

  // Everything reachable is acceptable, and no path meets an object twice: no cycle is reachable.
  ghost predicate Acceptable(g: Graph, root: Id) {
    forall path :: Leads(g, path, root) ==>
      Simple(path) && GoodLeaf(g[path[|path| - 1]]) && GoodKeys(g[path[|path| - 1]])
  }

  // ---- What it is normalised to ----------------------------------------------------------------------------------

  // json is the graph below id, written out as a tree; a shared object appears once for every way to reach it.
  ghost predicate Unfolds(g: Graph, id: Id, json: Json)
    decreases json, id
  {
    && id in g
    && match g[id]
       case Leaf(image) => image.Some? && json == Scalar(image.value)
       case EnumMember(v) => v < id && Unfolds(g, v, json)
       case Mapping(keys, items) =>
         && json.Dict? && |json.keys| == |keys| && |json.items| == |items|
         && (forall k :: 0 <= k < |keys| ==> keys[k] == Some(json.keys[k]))
         && (forall k :: 0 <= k < |items| ==> Unfolds(g, items[k], json.items[k]))
       case Sequence(items) =>
         && json.List? && |json.items| == |items|
         && (forall k :: 0 <= k < |items| ==> Unfolds(g, items[k], json.items[k]))
  }

  lemma {:induction false} OneUnfolding(g: Graph, id: Id, a: Json, b: Json)
    requires Unfolds(g, id, a) && Unfolds(g, id, b)
    ensures a == b
    decreases a, id
  {
    match g[id]
    case Leaf(_) =>
    case EnumMember(v) => OneUnfolding(g, v, a, b);
    case Mapping(keys, items) =>
      forall k | 0 <= k < |items| ensures a.items[k] == b.items[k] {
        OneUnfolding(g, items[k], a.items[k], b.items[k]);
      }
      assert forall k :: 0 <= k < |keys| ==> Some(a.keys[k]) == keys[k] == Some(b.keys[k]);
      assert a.keys == b.keys && a.items == b.items;
    case Sequence(items) =>
      forall k | 0 <= k < |items| ensures a.items[k] == b.items[k] {
        OneUnfolding(g, items[k], a.items[k], b.items[k]);
      }
      assert a.items == b.items;
  }

  function Size(json: Json): (n: nat)
    ensures n > 0
  {
    match json
    case Scalar(_) => 1
    case Dict(_, items) => 1 + Sizes(items)
    case List(items) => 1 + Sizes(items)
  }

  function Sizes(items: seq<Json>): nat {
    if items == [] then 0 else Size(items[0]) + Sizes(items[1..])
  }

  lemma {:induction false} PartIsSmaller(items: seq<Json>, k: nat)
    requires k < |items|
    ensures Size(items[k]) <= Sizes(items)
  {
    if k > 0 {
      PartIsSmaller(items[1..], k - 1);
    }
  }

  // One step down the graph is one step down the unfolding: a smaller tree, or the same one and an older object.
  lemma StepDown(g: Graph, id: Id, json: Json, next: Id) returns (part: Json)
    requires Unfolds(g, id, json) && next in Parts(g[id])
    ensures Unfolds(g, next, part) && (Size(part) < Size(json) || (part == json && next < id))
  {
    match g[id]
    case EnumMember(v) => part := json;
    case Mapping(_, items) =>
      var k :| 0 <= k < |items| && items[k] == next;
      PartIsSmaller(json.items, k);
      part := json.items[k];
    case Sequence(items) =>
      var k :| 0 <= k < |items| && items[k] == next;
      PartIsSmaller(json.items, k);
      part := json.items[k];
  }

  // Along a path from an object that unfolds, everything unfolds, to ever smaller trees: so the path is simple.
  lemma {:induction false} WalkDown(g: Graph, path: seq<Id>, json: Json) returns (part: Json)
    requires IsPath(g, path) && Unfolds(g, path[0], json)
    ensures path[|path| - 1] in g && Unfolds(g, path[|path| - 1], part)
    ensures Size(part) < Size(json) || (part == json && (|path| == 1 || path[|path| - 1] < path[0]))
    decreases |path|
  {
    part := json;
    if |path| > 1 {
      assert Step(g, path, 0);
      var next := StepDown(g, path[0], json, path[1]);
      SubPath(g, path, 1, |path|);
      assert path[1..|path|] == path[1..];
      part := WalkDown(g, path[1..], next);
    }
  }

  lemma SubPath(g: Graph, path: seq<Id>, lo: nat, hi: nat)
    requires IsPath(g, path) && lo < hi <= |path| && path[lo] in g
    ensures IsPath(g, path[lo..hi])
  {
    forall k | 0 <= k < hi - lo - 1 ensures Step(g, path[lo..hi], k) {
      assert Step(g, path, lo + k);
    }
  }

  lemma PathStaysInGraph(g: Graph, path: seq<Id>, json: Json, k: nat)
    requires IsPath(g, path) && Unfolds(g, path[0], json) && k < |path|
    ensures path[k] in g
  {
    SubPath(g, path, 0, k + 1);
    var _ := WalkDown(g, path[0..k + 1], json);
  }

  lemma UnfoldingMeansAcceptable(g: Graph, root: Id, json: Json)
    requires Unfolds(g, root, json)
    ensures Acceptable(g, root)
  {
    forall path | Leads(g, path, root) ensures Simple(path) && GoodLeaf(g[path[|path| - 1]]) && GoodKeys(g[path[|path| - 1]]) {
      var _ := WalkDown(g, path, json);
      forall i, k | 0 <= i < k < |path| ensures path[i] != path[k] {
        NeverTwice(g, path, json, i, k);
      }
    }
  }

  // An object that meets itself again would be strictly smaller than itself.
  lemma NeverTwice(g: Graph, path: seq<Id>, json: Json, i: nat, k: nat)
    requires IsPath(g, path) && Unfolds(g, path[0], json) && i < k < |path|
    ensures path[i] != path[k]
  {
    PathStaysInGraph(g, path, json, i);
    SubPath(g, path, 0, i + 1);
    SubPath(g, path, i, k + 1);
    hide IsPath, Step;
    var upper := WalkDown(g, path[0..i + 1], json);
    var lower := WalkDown(g, path[i..k + 1], upper);
    if path[i] == path[k] {
      OneUnfolding(g, path[i], upper, lower);
    }
  }

  // ---- The recursion ---------------------------------------------------------------------------------------------

  datatype Problem = Cyclic | KeyNotString | NotJsonSafe
  datatype Outcome = Normal(json: Json) | Rejected(problem: Problem)

  // The path shows what is wrong.
  ghost predicate Shows(g: Graph, path: seq<Id>, problem: Problem)
    requires path != [] && path[|path| - 1] in g
  {
    match problem
    case Cyclic => !Simple(path)
    case KeyNotString => !GoodKeys(g[path[|path| - 1]])
    case NotJsonSafe => !GoodLeaf(g[path[|path| - 1]])
  }

  ghost predicate Guilty(g: Graph, root: Id, problem: Problem) {
    exists path :: Leads(g, path, root) && Shows(g, path, problem)
  }

  // The containers the recursion is inside of.
  ghost function Containers(g: Graph, trail: seq<Id>): set<Id> {
    set id | id in trail && id in g && IsContainer(g[id])
  }

  lemma Descend(g: Graph, trail: seq<Id>, next: Id)
    requires IsGraph(g) && IsPath(g, trail) && trail[|trail| - 1] in g && next in Parts(g[trail[|trail| - 1]])
    ensures IsPath(g, trail + [next]) && next in g
    ensures Containers(g, trail + [next]) == Containers(g, trail) + if IsContainer(g[next]) then {next} else {}
  {
    var longer := trail + [next];
    forall k | 0 <= k < |longer| - 1 ensures Step(g, longer, k) {
      if k < |trail| - 1 {
        assert Step(g, trail, k);
      }
    }
  }

  class Normalizer {
    var active: set<Id>

    constructor ()
      ensures active == {}
    {
      active := {};
    }

    // _normalize_json_value: trail is how the recursion came to this object, which is its last element. On every way
    // out the containers it is inside of are as they were.
    method Normalize(g: Graph, id: Id, ghost trail: seq<Id>) returns (r: Outcome)
      requires IsGraph(g) && IsPath(g, trail) && trail[|trail| - 1] == id && id in g
      requires active == Containers(g, trail[..|trail| - 1])
      modifies this
      ensures active == old(active)
      ensures r.Normal? ==> Unfolds(g, id, r.json)
      ensures r.Rejected? ==> Guilty(g, trail[0], r.problem)
      decreases |g.Keys - active|, 0, id, 1
    {
      assert Leads(g, trail, trail[0]);
      assert g[id].Leaf? && g[id].image.None? ==> Shows(g, trail, NotJsonSafe) && Guilty(g, trail[0], NotJsonSafe);
      hide Containers, Simple, Step, IsPath, Leads, DistinctKeys, Guilty;
      match g[id]
      case Leaf(image) =>
        if image.None? {
          return Rejected(NotJsonSafe);
        }
        r := Normal(Scalar(image.value));
      case EnumMember(v) =>
        Descend(g, trail, v);
        EnumIsTransparent(g, trail);
        assert (trail + [v])[..|trail|] == trail;
        r := Normalize(g, v, trail + [v]);
      case _ =>
        r := NormalizeContainer(g, id, trail);
    }

    method NormalizeContainer(g: Graph, id: Id, ghost trail: seq<Id>) returns (r: Outcome)
      requires IsGraph(g) && IsPath(g, trail) && trail[|trail| - 1] == id && id in g && IsContainer(g[id])
      requires active == Containers(g, trail[..|trail| - 1])
      modifies this
      ensures active == old(active)
      ensures r.Normal? ==> Unfolds(g, id, r.json)
      ensures r.Rejected? ==> Guilty(g, trail[0], r.problem)
      decreases |g.Keys - active|, 0, id, 0
    {
      hide Containers, Simple, Step, IsPath, Leads, DistinctKeys, Guilty, Unfolds, IsGraph;
      if id in active {
        Again(g, trail);
        return Rejected(Cyclic);
      }
      Enter(g, trail, active);
      active := active + {id};
      if g[id].Mapping? {
        r := NormalizeEntries(g, id, trail);
      } else {
        r := NormalizeElements(g, id, trail);
      }
      active := active - {id};
    }

    method NormalizeEntries(g: Graph, id: Id, ghost trail: seq<Id>) returns (r: Outcome)
      requires IsGraph(g) && IsPath(g, trail) && trail[|trail| - 1] == id && id in g && g[id].Mapping?
      requires active == Containers(g, trail)
      modifies this
      ensures active == old(active)
      ensures r.Normal? ==> Unfolds(g, id, r.json)
      ensures r.Rejected? ==> Guilty(g, trail[0], r.problem)
      decreases |g.Keys - active|, 1, 0, 0
    {
      hide Containers, Simple, Step;
      var keys, items := g[id].keys, g[id].items;
      var names: seq<string>, values: seq<Json> := [], [];
      for k := 0 to |keys|
        invariant active == old(active) && |names| == |values| == k
        invariant forall i :: 0 <= i < k ==> keys[i] == Some(names[i]) && Unfolds(g, items[i], values[i])
      {
        if keys[k].None? {
          assert Leads(g, trail, trail[0]) && Shows(g, trail, KeyNotString);
          return Rejected(KeyNotString);
        }
        Descend(g, trail, items[k]);
        assert (trail + [items[k]])[..|trail|] == trail;
        r := Normalize(g, items[k], trail + [items[k]]);
        if r.Rejected? {
          return;
        }
        names, values := names + [keys[k].value], values + [r.json];
      }
      r := Normal(Dict(names, values));
    }

    method NormalizeElements(g: Graph, id: Id, ghost trail: seq<Id>) returns (r: Outcome)
      requires IsGraph(g) && IsPath(g, trail) && trail[|trail| - 1] == id && id in g && g[id].Sequence?
      requires active == Containers(g, trail)
      modifies this
      ensures active == old(active)
      ensures r.Normal? ==> Unfolds(g, id, r.json)
      ensures r.Rejected? ==> Guilty(g, trail[0], r.problem)
      decreases |g.Keys - active|, 1, 0, 0
    {
      hide Containers, Simple, Step;
      var items := g[id].items;
      var values: seq<Json> := [];
      for k := 0 to |items|
        invariant active == old(active) && |values| == k
        invariant forall i :: 0 <= i < k ==> Unfolds(g, items[i], values[i])
      {
        Descend(g, trail, items[k]);
        assert (trail + [items[k]])[..|trail|] == trail;
        r := Normalize(g, items[k], trail + [items[k]]);
        if r.Rejected? {
          return;
        }
        values := values + [r.json];
      }
      r := Normal(List(values));
    }
  }

  // A container met inside itself.
  lemma Again(g: Graph, trail: seq<Id>)
    requires IsPath(g, trail) && trail[|trail| - 1] in g && trail[|trail| - 1] in Containers(g, trail[..|trail| - 1])
    ensures Guilty(g, trail[0], Cyclic)
  {
    var k :| 0 <= k < |trail| - 1 && trail[..|trail| - 1][k] == trail[|trail| - 1];
    assert trail[k] == trail[|trail| - 1];
    assert Leads(g, trail, trail[0]) && Shows(g, trail, Cyclic);
  }

  lemma Enter(g: Graph, trail: seq<Id>, active: set<Id>)
    requires IsPath(g, trail) && trail[|trail| - 1] in g && IsContainer(g[trail[|trail| - 1]])
    requires active == Containers(g, trail[..|trail| - 1]) && trail[|trail| - 1] !in active
    ensures active + {trail[|trail| - 1]} == Containers(g, trail)
    ensures |g.Keys - (active + {trail[|trail| - 1]})| < |g.Keys - active|
  {
    var id := trail[|trail| - 1];
    assert trail == trail[..|trail| - 1] + [id];
    assert g.Keys - active == g.Keys - (active + {id}) + {id};
  }

  // An enum member is not one of the tracked containers.
  lemma EnumIsTransparent(g: Graph, trail: seq<Id>)
    requires IsPath(g, trail) && trail[|trail| - 1] in g && g[trail[|trail| - 1]].EnumMember?
    ensures Containers(g, trail) == Containers(g, trail[..|trail| - 1])
  {
    assert trail == trail[..|trail| - 1] + [trail[|trail| - 1]];
  }

  // A value is accepted exactly when everything reachable from it is acceptable and no cycle is; shared objects are fine.
  method NormalizeValue(g: Graph, root: Id) returns (r: Outcome)
    requires IsGraph(g) && root in g
    ensures r.Normal? <==> Acceptable(g, root)
    ensures r.Normal? ==> Unfolds(g, root, r.json)
    ensures r.Rejected? ==> Guilty(g, root, r.problem)
  {
    var normalizer := new Normalizer();
    assert Containers(g, [root][..0]) == {};
    r := normalizer.Normalize(g, root, [root]);
    if r.Normal? {
      UnfoldingMeansAcceptable(g, root, r.json);
    } else {
      assert !Acceptable(g, root);
    }
  }
}
