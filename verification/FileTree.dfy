// A static directory tree as a map from relative paths to entries, and the listing of one directory.
module FileTree {
  import opened PathOrder

  datatype Node = File(content: string) | Dir | Link | Special
  type Tree = map<Path, Node>

  const Root: Path := []

  function Parent(p: Path): Path
    requires p != []
  {
    p[..|p| - 1]
  }

  // The root is a directory, names are valid, and every other entry lies in a directory of the tree.
  ghost predicate IsTree(t: Tree) {
    && Root in t && t[Root] == Dir
    && (forall p :: p in t ==> ValidPath(p))
    && (forall p {:trigger Parent(p)} :: p in t && p != Root ==> Parent(p) in t && t[Parent(p)] == Dir)
  }

  ghost function Entries(t: Tree): set<Path> {
    t.Keys - {Root}
  }

  function Children(t: Tree, d: Path): (r: set<Path>)
    ensures forall p :: p in r <==> p in t && p != Root && Parent(p) == d
  {
    set p | p in t && p != Root && Parent(p) == d
  }

  function FilesOf(t: Tree): set<Path> {
    set p | p in t && t[p].File?
  }

  function DirectoriesOf(t: Tree): set<Path> {
    set p | p in t && t[p] == Dir
  }

  // ---- Sizes -----------------------------------------------------------------------------------------------------

  ghost function SizeOf(t: Tree, p: Path): nat {
    if p in t && t[p].File? then |t[p].content| else 0
  }

  ghost function Sizes(t: Tree): Path -> nat {
    p => SizeOf(t, p)
  }

  ghost function Total(size: Path -> nat, paths: set<Path>): nat {
    if paths == {} then 0
    else
      var p :| p in paths;
      size(p) + Total(size, paths - {p})
  }

  // The total does not depend on the order in which it is taken.
  lemma {:induction false} TotalAdds(size: Path -> nat, paths: set<Path>, p: Path)
    requires p in paths
    ensures Total(size, paths) == size(p) + Total(size, paths - {p})
    decreases |paths|
  {
    var q :| q in paths && Total(size, paths) == size(q) + Total(size, paths - {q});
    if q != p {
      TotalAdds(size, paths - {q}, p);
      TotalAdds(size, paths - {p}, q);
      assert paths - {q} - {p} == paths - {p} - {q};
    }
  }

  lemma TotalGrows(size: Path -> nat, paths: set<Path>, p: Path)
    requires p !in paths
    ensures Total(size, paths + {p}) == Total(size, paths) + size(p)
  {
    TotalAdds(size, paths + {p}, p);
    assert paths + {p} - {p} == paths;
  }

  lemma {:induction false} TotalMonotone(size: Path -> nat, some: set<Path>, all: set<Path>)
    requires some <= all
    ensures Total(size, some) <= Total(size, all)
    decreases |some|
  {
    if some != {} {
      var p :| p in some;
      TotalAdds(size, some, p);
      TotalAdds(size, all, p);
      TotalMonotone(size, some - {p}, all - {p});
    }
  }

  lemma SubsetSize<T>(some: set<T>, all: set<T>)
    requires some <= all
    ensures |some| <= |all|
  {
    assert all == some + (all - some);
  }

  // ---- Worklist walks --------------------------------------------------------------------------------------------

  // The entries a walk comes across when it enters only some directories: all the directories above them are entered.
  ghost predicate Reached(t: Tree, enter: Path -> bool, p: Path) {
    p in t && p != Root && forall k :: 0 < k < |p| ==> enter(p[..k])
  }

  // For walks that enter every directory.
  const Everywhere: Path -> bool := p => true

  // The state of a walk: directories already opened, directories waiting on the stack, entries seen, and entries of the
  // directory being listed that are still to come.
  ghost predicate Walk(t: Tree, enter: Path -> bool, opens: set<Path>, stack: seq<Path>, seen: set<Path>, coming: set<Path>) {
    && (forall p :: p in seen || p in coming ==> p in t && p != Root)
    && seen !! coming
    && (forall p {:trigger Parent(p)} :: p in t && p != Root ==> (Parent(p) in opens <==> p in seen || p in coming))
    && (forall p :: p in opens || p in stack <==> p in t && t[p] == Dir && (p == Root || (p in seen && enter(p))))
    && Unique(stack) && (forall p :: p in stack ==> p !in opens)
  }

  ghost predicate Unique(s: seq<Path>) {
    forall i, j :: 0 <= i < j < |s| ==> s[i] != s[j]
  }

  lemma WalkStart(t: Tree, enter: Path -> bool)
    requires IsTree(t)
    ensures Walk(t, enter, {}, [Root], {}, {})
  {
  }

  lemma WalkOpen(t: Tree, enter: Path -> bool, opens: set<Path>, stack: seq<Path>, seen: set<Path>)
    requires IsTree(t) && Walk(t, enter, opens, stack, seen, {}) && stack != []
    ensures
      var d := stack[|stack| - 1];
      d in t && t[d] == Dir && d !in opens && Walk(t, enter, opens + {d}, stack[..|stack| - 1], seen, Children(t, d))
  {
    PopMembers(stack);
    var d, rest := stack[|stack| - 1], stack[..|stack| - 1];
    var opens' := opens + {d};
    assert forall p :: p in opens' || p in rest <==> p in opens || p in stack;
    assert d in stack;
  }

  lemma PopMembers(s: seq<Path>)
    requires s != [] && Unique(s)
    ensures forall p :: p in s <==> p in s[..|s| - 1] || p == s[|s| - 1]
    ensures Unique(s[..|s| - 1]) && s[|s| - 1] !in s[..|s| - 1]
  {
    assert s == s[..|s| - 1] + [s[|s| - 1]];
  }

  lemma WalkNext(t: Tree, enter: Path -> bool, opens: set<Path>, stack: seq<Path>, seen: set<Path>, coming: set<Path>, p: Path)
    requires Walk(t, enter, opens, stack, seen, coming) && p in coming
    ensures p !in seen && seen + {p} <= Entries(t)
  {
  }

  // An entry about to be seen lies below entered directories only.
  lemma {:induction false} ComingIsReached(
      t: Tree, enter: Path -> bool, opens: set<Path>, stack: seq<Path>, seen: set<Path>, coming: set<Path>, p: Path)
    requires IsTree(t) && Walk(t, enter, opens, stack, seen, coming) && (p in coming || p in seen)
    ensures p in t && Reached(t, enter, p)
    decreases |p|
  {
    assert p in t && p != Root;
    var d := Parent(p);
    if d != Root {
      assert d in opens;
      assert d in seen && enter(d);
      ComingIsReached(t, enter, opens, stack, seen, coming, d);
      assert forall k :: 0 < k < |d| ==> d[..k] == p[..k];
      assert p[..|d|] == d;
    }
  }

  lemma WalkSee(t: Tree, enter: Path -> bool, opens: set<Path>, stack: seq<Path>, seen: set<Path>, coming: set<Path>, p: Path)
    requires Walk(t, enter, opens, stack, seen, coming) && p in coming
    ensures
      var stack' := if t[p] == Dir && enter(p) then stack + [p] else stack;
      Walk(t, enter, opens, stack', seen + {p}, coming - {p})
  {
    assert p !in opens && p !in stack;
  }

  // When the stack is empty the walk has seen exactly what can be reached.
  lemma WalkEnd(t: Tree, enter: Path -> bool, opens: set<Path>, seen: set<Path>)
    requires IsTree(t) && Walk(t, enter, opens, [], seen, {})
    ensures forall p :: p in seen <==> Reached(t, enter, p)
  {
    forall p | p in t && p != Root ensures p in seen <==> Reached(t, enter, p) {
      SeenIsReached(t, enter, opens, seen, p);
    }
  }

  // At the end an entry was seen exactly when its directory was opened, and a directory below the root was opened
  // exactly when it was seen and entered.
  lemma AtTheEnd(t: Tree, enter: Path -> bool, opens: set<Path>, seen: set<Path>, p: Path)
    requires IsTree(t) && Walk(t, enter, opens, [], seen, {}) && p in t && p != Root
    ensures p in seen <==> Parent(p) in opens
    ensures t[p] == Dir ==> (p in opens <==> p in seen && enter(p))
    ensures Root in opens
  {
  }

  lemma {:induction false} SeenIsReached(t: Tree, enter: Path -> bool, opens: set<Path>, seen: set<Path>, p: Path)
    requires IsTree(t) && Walk(t, enter, opens, [], seen, {}) && p in t && p != Root
    ensures p in seen <==> Reached(t, enter, p)
    decreases |p|
  {
    hide Walk;
    var d := Parent(p);
    AtTheEnd(t, enter, opens, seen, p);
    if d != Root {
      AtTheEnd(t, enter, opens, seen, d);
      SeenIsReached(t, enter, opens, seen, d);
      assert Reached(t, enter, p) <==> Reached(t, enter, d) && enter(d) by {
        assert forall k :: 0 < k < |d| ==> d[..k] == p[..k];
        assert p[..|d|] == d;
      }
    }
  }
}
