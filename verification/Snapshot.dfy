// The pruned, bounded copy of a project tree (corvus/snapshot.py). Pattern matching, case folding and the length of a
// name in UTF-8 are left abstract; they depend on the relative path only. The tree is static.
module Snapshot {
  import opened FileTree
  import opened PathOrder

  datatype Policy = Policy(
    excludedName: Name -> bool, excludedFile: Name -> bool, hasInclude: bool, includes: Path -> bool, ignores: Path -> bool,
    nameBytes: Name -> nat, maxFiles: nat, maxFileBytes: nat, maxTotalBytes: nat, maxDepth: nat, maxNameBytes: nat,
    systemNameBytes: nat)  // the last one is the file system's own limit on a name

  // _is_permanently_excluded
  predicate Excluded(policy: Policy, p: Path, isDirectory: bool) {
    (exists i :: 0 <= i < |p| && policy.excludedName(p[i])) || (!isDirectory && p != [] && policy.excludedFile(p[|p| - 1]))
  }

  // Which directories the walk keeps, and which files pass the filters.
  function Keeps(policy: Policy): Path -> bool {
    p => !Excluded(policy, p, true) && !policy.ignores(p)
  }

  predicate Passes(policy: Policy, p: Path) {
    !Excluded(policy, p, false) && (policy.hasInclude ==> policy.includes(p)) && !policy.ignores(p)
  }

  predicate InBounds(policy: Policy, p: Path) {
    |p| <= policy.maxDepth && forall i :: 0 <= i < |p| ==> policy.nameBytes(p[i]) <= policy.maxNameBytes
  }

  // A file is copied under a temporary name, longer by this many bytes, and then renamed.
  const TemporaryBytes: nat := 45

  predicate Copyable(policy: Policy, p: Path) {
    p != [] && policy.nameBytes(p[|p| - 1]) + TemporaryBytes <= policy.systemNameBytes
  }

  // The files the policy selects: below kept directories only, and passing the filters themselves.
  ghost function Selected(t: Tree, policy: Policy): set<Path> {
    set p | p in t && Reached(t, Keeps(policy), p) && t[p] != Dir && Passes(policy, p)
  }

  // What the walk comes across is in bounds and no link; what it selects are regular files within the limits, with
  // names that leave room for the temporary ones.
  ghost predicate Admissible(t: Tree, policy: Policy) {
    && (forall p :: p in t && Reached(t, Keeps(policy), p) ==> InBounds(policy, p) && !t[p].Link?)
    && (forall p :: p in Selected(t, policy) ==> t[p].File? && |t[p].content| <= policy.maxFileBytes && Copyable(policy, p))
    && |Selected(t, policy)| <= policy.maxFiles
    && Total(Sizes(t), Selected(t, policy)) <= policy.maxTotalBytes
  }

  // The same in plain words. The walk meets what lies below directories that are neither excluded nor ignored.
  ghost predicate Met(t: Tree, policy: Policy, p: Path) {
    && p in t && p != Root
    && (forall i :: 0 <= i < |p| - 1 ==> !policy.excludedName(p[i]))
    && (forall k :: 0 < k < |p| ==> !policy.ignores(p[..k]))
  }

  // It takes a file whose path holds no excluded name, whose name is no excluded file's, that is included if anything
  // is, and that is not ignored, itself or by a directory above it.
  ghost predicate Takes(t: Tree, policy: Policy, p: Path) {
    && p in t && p != Root && t[p] != Dir
    && (forall i :: 0 <= i < |p| ==> !policy.excludedName(p[i])) && !policy.excludedFile(p[|p| - 1])
    && (policy.hasInclude ==> policy.includes(p))
    && (forall k :: 0 < k <= |p| ==> !policy.ignores(p[..k]))
  }

  lemma MetExactly(t: Tree, policy: Policy, p: Path)
    ensures Met(t, policy, p) <==> Reached(t, Keeps(policy), p)
  {
    if Reached(t, Keeps(policy), p) {
      forall i | 0 <= i < |p| - 1 ensures !policy.excludedName(p[i]) {
        assert Keeps(policy)(p[..i + 1]) && !Excluded(policy, p[..i + 1], true);
        assert p[..i + 1][i] == p[i];
      }
      forall k | 0 < k < |p| ensures !policy.ignores(p[..k]) {
        assert Keeps(policy)(p[..k]);
      }
    }
  }

  lemma TakesExactly(t: Tree, policy: Policy, p: Path)
    requires IsTree(t)
    ensures Takes(t, policy, p) <==> p in Selected(t, policy)
  {
    MetExactly(t, policy, p);
    assert p[..|p|] == p;
    hide Reached;
  }

  ghost predicate Acceptable(t: Tree, policy: Policy) {
    && (forall p :: Met(t, policy, p) ==>
          |p| <= policy.maxDepth && (forall i :: 0 <= i < |p| ==> policy.nameBytes(p[i]) <= policy.maxNameBytes) && !t[p].Link?)
    && (forall p :: Takes(t, policy, p) ==>
          t[p].File? && |t[p].content| <= policy.maxFileBytes && policy.nameBytes(p[|p| - 1]) + 45 <= policy.systemNameBytes)
    && var all := set p | p in t && Takes(t, policy, p);
       |all| <= policy.maxFiles && Total(Sizes(t), all) <= policy.maxTotalBytes
  }

  lemma AcceptableExactly(t: Tree, policy: Policy)
    requires IsTree(t)
    ensures Acceptable(t, policy) <==> Admissible(t, policy)
  {
    forall p ensures Met(t, policy, p) <==> Reached(t, Keeps(policy), p) {
      MetExactly(t, policy, p);
    }
    forall p ensures Takes(t, policy, p) <==> p in Selected(t, policy) {
      TakesExactly(t, policy, p);
    }
    assert (set p | p in t && Takes(t, policy, p)) == Selected(t, policy);
    RootIsNot(t, policy);
    hide Met, Reached, Takes, Selected, Total;
  }

  lemma RootIsNot(t: Tree, policy: Policy)
    requires IsTree(t)
    ensures forall p :: p in Selected(t, policy) ==> p != Root && p in t
    ensures forall p :: Met(t, policy, p) ==> p in t
  {
  }

  // ---- The result ------------------------------------------------------------------------------------------------

  datatype Hash = Sha256(content: string)
  datatype Entry = Entry(path: string, size: nat, hash: Hash)
  datatype Digest = DigestOf(files: seq<Entry>)  // SHA-256 of the canonical listing, as an injective function
  datatype Result = Snapshotted(files: seq<Entry>, totalBytes: nat, digest: Digest, copied: map<Path, string>) | Refused

  function Listing(content: map<Path, string>, order: seq<Path>): seq<Entry>
    requires forall p :: p in order ==> p in content
  {
    seq(|order|, i requires 0 <= i < |order| => Entry(Posix(order[i]), |content[order[i]]|, Sha256(content[order[i]])))
  }

  // The sorted listing of exactly these files.
  ghost predicate Lists(content: map<Path, string>, files: seq<Entry>) {
    exists order :: Ordered(order) && AllValid(order) && (forall p :: p in order <==> p in content) && files == Listing(content, order)
  }

  // The listing, and so the digest, depends only on the map from paths to content.
  lemma OneListing(content: map<Path, string>, a: seq<Entry>, b: seq<Entry>)
    requires Lists(content, a) && Lists(content, b)
    ensures a == b && DigestOf(a) == DigestOf(b)
  {
    var o :| Ordered(o) && AllValid(o) && (forall p :: p in o <==> p in content) && a == Listing(content, o);
    var q :| Ordered(q) && AllValid(q) && (forall p :: p in q <==> p in content) && b == Listing(content, q);
    OrderedUnique(o, q);
  }

  // And different content never has the same digest.
  lemma DigestSeparates(a: map<Path, string>, b: map<Path, string>, x: seq<Entry>, y: seq<Entry>)
    requires Lists(a, x) && Lists(b, y) && DigestOf(x) == DigestOf(y)
    ensures a == b
  {
    var o :| Ordered(o) && AllValid(o) && (forall p :: p in o <==> p in a) && x == Listing(a, o);
    var q :| Ordered(q) && AllValid(q) && (forall p :: p in q <==> p in b) && y == Listing(b, q);
    assert |o| == |x| == |q|;
    forall i | 0 <= i < |o| ensures o[i] == q[i] && a[o[i]] == b[q[i]] {
      assert x[i] == y[i];
      assert x[i] == Entry(Posix(o[i]), |a[o[i]]|, Sha256(a[o[i]])) && y[i] == Entry(Posix(q[i]), |b[q[i]]|, Sha256(b[q[i]]));
      PosixInjective(o[i], q[i]);
    }
    assert o == q;
    forall p | p in a ensures p in b && a[p] == b[p] {
      var i :| 0 <= i < |o| && o[i] == p;
    }
  }

  // ---- The walk --------------------------------------------------------------------------------------------------

  ghost function Chosen(t: Tree, policy: Policy, seen: set<Path>): set<Path> {
    set p | p in seen && p in t && t[p] != Dir && Passes(policy, p)
  }

  ghost predicate EntryOk(t: Tree, policy: Policy, p: Path) {
    p in t && InBounds(policy, p) && !t[p].Link?
  }

  ghost predicate FileOk(t: Tree, policy: Policy, p: Path, content: string) {
    p in t && t[p] == File(content) && |content| <= policy.maxFileBytes && Copyable(policy, p)
  }

  // Over the entries seen so far: nothing out of bounds, and exactly the chosen files copied, within the limits.
  ghost predicate Tallies(t: Tree, policy: Policy, seen: set<Path>, copied: map<Path, string>, total: nat) {
    && (forall p :: p in seen ==> EntryOk(t, policy, p))
    && copied.Keys == Chosen(t, policy, seen)
    && (forall p :: p in copied ==> FileOk(t, policy, p, copied[p]))
    && |copied| <= policy.maxFiles
    && total == Total(Sizes(t), copied.Keys) <= policy.maxTotalBytes
  }

  lemma ChosenGrows(t: Tree, policy: Policy, seen: set<Path>, p: Path)
    requires p in t && p !in seen
    ensures Chosen(t, policy, seen + {p}) == Chosen(t, policy, seen) + if t[p] != Dir && Passes(policy, p) then {p} else {}
    ensures p !in Chosen(t, policy, seen)
  {
  }

  // One entry. The source takes directories and files in sorted order; any order serves the proof.
  method SeeEntry(t: Tree, policy: Policy, ghost seen: set<Path>, copied: map<Path, string>, total: nat, p: Path)
    returns (ok: bool, copied': map<Path, string>, total': nat)
    requires IsTree(t) && Tallies(t, policy, seen, copied, total) && p in t && p !in seen && Reached(t, Keeps(policy), p)
    requires Chosen(t, policy, seen) <= Selected(t, policy)
    ensures ok ==> Tallies(t, policy, seen + {p}, copied', total') && Chosen(t, policy, seen + {p}) <= Selected(t, policy)
    ensures !ok ==> !Admissible(t, policy)
  {
    hide Tallies, IsTree, Reached, Chosen, Total, Passes, InBounds, Admissible, Selected;
    copied', total' := copied, total;
    if !InBounds(policy, p) || t[p].Link? {
      BadEntry(t, policy, p);
      return false, copied', total';
    }
    ChosenGrows(t, policy, seen, p);
    if t[p] == Dir || !Passes(policy, p) {
      TallySkipped(t, policy, seen, copied, total, p);
      return true, copied', total';
    }
    FileIsSelected(t, policy, p);
    ok, copied', total' := SeeFile(t, policy, seen, copied, total, p);
  }

  // A file that passes the filters.
  method SeeFile(t: Tree, policy: Policy, ghost seen: set<Path>, copied: map<Path, string>, total: nat, p: Path)
    returns (ok: bool, copied': map<Path, string>, total': nat)
    requires Tallies(t, policy, seen, copied, total) && p in t && p !in seen && p in Selected(t, policy)
    requires InBounds(policy, p) && t[p] != Dir && Passes(policy, p) && Chosen(t, policy, seen) <= Selected(t, policy)
    ensures ok ==> Tallies(t, policy, seen + {p}, copied', total')
    ensures !ok ==> !Admissible(t, policy)
  {
    hide Tallies, Chosen, Total, Passes, InBounds, Admissible, Selected;
    copied', total' := copied, total;
    if !t[p].File? || |t[p].content| > policy.maxFileBytes || !Copyable(policy, p) {
      BadFile(t, policy, p);
      return false, copied', total';
    }
    if |copied| >= policy.maxFiles || total + |t[p].content| > policy.maxTotalBytes {
      TooMany(t, policy, seen, copied, total, p);
      return false, copied', total';
    }
    TallyCopied(t, policy, seen, copied, total, p);
    copied', total' := copied[p := t[p].content], total + |t[p].content|;
    ok := true;
  }

  lemma BadEntry(t: Tree, policy: Policy, p: Path)
    requires p in t && Reached(t, Keeps(policy), p) && (!InBounds(policy, p) || t[p].Link?)
    ensures !Admissible(t, policy)
  {
    hide Reached, InBounds, Selected, Total;
  }

  lemma BadFile(t: Tree, policy: Policy, p: Path)
    requires p in t && p in Selected(t, policy) && (!t[p].File? || |t[p].content| > policy.maxFileBytes || !Copyable(policy, p))
    ensures !Admissible(t, policy)
  {
    hide Selected, Total;
  }

  lemma FileIsSelected(t: Tree, policy: Policy, p: Path)
    requires p in t && Reached(t, Keeps(policy), p) && t[p] != Dir && Passes(policy, p)
    ensures p in Selected(t, policy)
  {
    hide Reached, Passes;
  }

  // The next file does not fit beside those copied so far.
  lemma TooMany(t: Tree, policy: Policy, seen: set<Path>, copied: map<Path, string>, total: nat, p: Path)
    requires Tallies(t, policy, seen, copied, total) && p in t && p !in seen && t[p].File? && p in Selected(t, policy)
    requires Chosen(t, policy, seen) <= Selected(t, policy)
    requires |copied| >= policy.maxFiles || total + |t[p].content| > policy.maxTotalBytes
    ensures !Admissible(t, policy)
  {
    hide Tallies, Chosen, Total, Selected;
    TalliesTell(t, policy, seen, copied, total);
    ChosenGrows(t, policy, seen, p);
    Counts(t, policy, copied, p);
  }

  lemma TalliesTell(t: Tree, policy: Policy, seen: set<Path>, copied: map<Path, string>, total: nat)
    requires Tallies(t, policy, seen, copied, total)
    ensures copied.Keys == Chosen(t, policy, seen) && total == Total(Sizes(t), copied.Keys)
  {
  }

  lemma TallySkipped(t: Tree, policy: Policy, seen: set<Path>, copied: map<Path, string>, total: nat, p: Path)
    requires Tallies(t, policy, seen, copied, total) && p in t && p !in seen
    requires InBounds(policy, p) && !t[p].Link? && (t[p] == Dir || !Passes(policy, p))
    ensures Tallies(t, policy, seen + {p}, copied, total)
  {
    hide Passes, Chosen, Total, FileOk;
    ChosenGrows(t, policy, seen, p);
    assert EntryOk(t, policy, p);
  }

  lemma TallyCopied(t: Tree, policy: Policy, seen: set<Path>, copied: map<Path, string>, total: nat, p: Path)
    requires Tallies(t, policy, seen, copied, total) && p in t && p !in seen
    requires InBounds(policy, p) && t[p].File? && Passes(policy, p) && |t[p].content| <= policy.maxFileBytes && Copyable(policy, p)
    requires |copied| < policy.maxFiles && total + |t[p].content| <= policy.maxTotalBytes
    ensures Tallies(t, policy, seen + {p}, copied[p := t[p].content], total + |t[p].content|)
  {
    hide InBounds, Passes, Chosen, Total;
    ChosenGrows(t, policy, seen, p);
    TotalGrows(Sizes(t), copied.Keys, p);
    AddKey(copied, p, t[p].content);
    assert EntryOk(t, policy, p) && SizeOf(t, p) == |t[p].content|;
    FilesGrow(t, policy, copied, p);
    hide EntryOk, FileOk, SizeOf, Sizes;
  }

  lemma FilesGrow(t: Tree, policy: Policy, copied: map<Path, string>, p: Path)
    requires forall q :: q in copied ==> FileOk(t, policy, q, copied[q])
    requires p in t && t[p].File? && |t[p].content| <= policy.maxFileBytes && Copyable(policy, p)
    ensures var more := copied[p := t[p].content]; forall q :: q in more ==> FileOk(t, policy, q, more[q])
  {
    assert FileOk(t, policy, p, t[p].content);
    hide FileOk;
  }

  lemma AddKey(copied: map<Path, string>, p: Path, content: string)
    requires p !in copied
    ensures copied[p := content].Keys == copied.Keys + {p} && |copied[p := content]| == |copied| + 1
  {
    assert |copied| == |copied.Keys| && |copied[p := content]| == |copied[p := content].Keys|;
  }

  // One more file counts and weighs no more than all the selected ones.
  lemma Counts(t: Tree, policy: Policy, copied: map<Path, string>, p: Path)
    requires p in t && t[p].File? && p !in copied && copied.Keys + {p} <= Selected(t, policy)
    ensures |copied| + 1 <= |Selected(t, policy)| && |copied[p := t[p].content]| == |copied| + 1
    ensures Total(Sizes(t), copied.Keys + {p}) == Total(Sizes(t), copied.Keys) + |t[p].content| <= Total(Sizes(t), Selected(t, policy))
  {
    hide Selected, Total;
    var all := copied.Keys + {p};
    AddKey(copied, p, t[p].content);
    assert |all| == |copied.Keys| + 1 && |copied.Keys| == |copied|;
    SubsetSize(all, Selected(t, policy));
    TotalGrows(Sizes(t), copied.Keys, p);
    TotalMonotone(Sizes(t), all, Selected(t, policy));
  }

  method WalkSource(t: Tree, policy: Policy) returns (ok: bool, copied: map<Path, string>, total: nat)
    requires IsTree(t)
    ensures ok <==> Admissible(t, policy)
    ensures ok ==>
              && copied.Keys == Selected(t, policy) && total == Total(Sizes(t), copied.Keys)
              && (forall p :: p in copied ==> p in t && t[p] == File(copied[p]))
  {
    hide Tallies, Walk, Admissible, IsTree;
    var keeps := Keeps(policy);
    copied, total := map[], 0;
    var stack := [Root];
    ghost var opens, seen := {}, {};
    WalkStart(t, keeps);
    Nothing(t, policy);
    while stack != []
      invariant Walk(t, keeps, opens, stack, seen, {}) && Tallies(t, policy, seen, copied, total)
      invariant Chosen(t, policy, seen) <= Selected(t, policy) && opens <= DirectoriesOf(t)
      decreases DirectoriesOf(t) - opens
    {
      WalkOpen(t, keeps, opens, stack, seen);
      var d := stack[|stack| - 1];
      stack := stack[..|stack| - 1];
      opens := opens + {d};
      var coming := Children(t, d);
      while coming != {}
        invariant Walk(t, keeps, opens, stack, seen, coming) && Tallies(t, policy, seen, copied, total)
        invariant Chosen(t, policy, seen) <= Selected(t, policy)
        decreases coming
      {
        var p :| p in coming;
        WalkNext(t, keeps, opens, stack, seen, coming, p);
        ComingIsReached(t, keeps, opens, stack, seen, coming, p);
        ok, copied, total := SeeEntry(t, policy, seen, copied, total, p);
        if !ok {
          return;
        }
        WalkSee(t, keeps, opens, stack, seen, coming, p);
        if t[p] == Dir && keeps(p) {
          stack := stack + [p];
        }
        seen, coming := seen + {p}, coming - {p};
      }
    }
    WalkEnd(t, keeps, opens, seen);
    AllSeen(t, policy, seen, copied, total);
    ok := true;
  }

  lemma Nothing(t: Tree, policy: Policy)
    ensures Tallies(t, policy, {}, map[], 0)
  {
  }

  lemma AllSeen(t: Tree, policy: Policy, seen: set<Path>, copied: map<Path, string>, total: nat)
    requires Tallies(t, policy, seen, copied, total)
    requires forall p :: p in seen <==> Reached(t, Keeps(policy), p)
    ensures Admissible(t, policy) && copied.Keys == Selected(t, policy) && total == Total(Sizes(t), copied.Keys)
    ensures forall p :: p in copied ==> p in t && t[p] == File(copied[p])
  {
    assert copied.Keys == Selected(t, policy);
    assert |copied| == |copied.Keys|;
  }

  // create_snapshot: it succeeds exactly on admissible trees, and then copies and lists exactly the selected files.
  method CreateSnapshot(t: Tree, policy: Policy) returns (r: Result)
    requires IsTree(t)
    ensures r.Snapshotted? <==> Admissible(t, policy)
    ensures r.Snapshotted? <==> Acceptable(t, policy)
    ensures r.Snapshotted? ==>
              && (forall p :: p in r.copied <==> Takes(t, policy, p))
              && |r.files| == |r.copied| && (forall i, k :: 0 <= i < k < |r.files| ==> Leq(r.files[i].path, r.files[k].path))
              && (forall p :: p in r.copied ==> Entry(Posix(p), |r.copied[p]|, Sha256(r.copied[p])) in r.files)
    ensures r.Snapshotted? ==>
              && r.copied.Keys == Selected(t, policy)
              && (forall p :: p in r.copied ==> p in t && t[p] == File(r.copied[p]))
              && Lists(r.copied, r.files) && r.digest == DigestOf(r.files)
              && r.totalBytes == Total(Sizes(t), r.copied.Keys)
  {
    hide Admissible, Acceptable, Takes, Selected;
    AcceptableExactly(t, policy);
    forall p ensures Takes(t, policy, p) <==> p in Selected(t, policy) {
      TakesExactly(t, policy, p);
    }
    var ok, copied, total := WalkSource(t, policy);
    if !ok {
      return Refused;
    }
    var unsorted := ListKeys(t, copied);
    var order := Sort(unsorted);
    var files := Listing(copied, order);
    assert Lists(copied, files);
    ListedAll(copied, order, files);
    r := Snapshotted(files, total, DigestOf(files), copied);
  }

  lemma ListedAll(copied: map<Path, string>, order: seq<Path>, files: seq<Entry>)
    requires Ordered(order) && (forall p :: p in order <==> p in copied) && files == Listing(copied, order)
    ensures |files| == |copied| && forall i, k :: 0 <= i < k < |files| ==> Leq(files[i].path, files[k].path)
    ensures forall p :: p in copied ==> Entry(Posix(p), |copied[p]|, Sha256(copied[p])) in files
  {
    OrderSize(order);
    assert copied.Keys == set p | p in order;
    assert |copied| == |copied.Keys|;
    forall p | p in copied ensures Entry(Posix(p), |copied[p]|, Sha256(copied[p])) in files {
      var i :| 0 <= i < |order| && order[i] == p;
      assert files[i] == Entry(Posix(p), |copied[p]|, Sha256(copied[p]));
    }
  }

  lemma {:induction false} OrderSize(order: seq<Path>)
    requires forall i, k :: 0 <= i < k < |order| ==> order[i] != order[k]
    ensures |set p | p in order| == |order|
  {
    if order != [] {
      var n := |order| - 1;
      OrderSize(order[..n]);
      assert (set p | p in order) == (set p | p in order[..n]) + {order[n]};
      assert order[n] !in order[..n];
    }
  }

  // The copied paths as a list, in the order in which they happened to be copied.
  method ListKeys(t: Tree, copied: map<Path, string>) returns (paths: seq<Path>)
    requires IsTree(t) && forall p :: p in copied ==> p in t
    ensures AllValid(paths) && Unique(paths) && forall p :: p in paths <==> p in copied
  {
    paths := [];
    var rest := copied.Keys;
    while rest != {}
      invariant rest <= copied.Keys && AllValid(paths) && Unique(paths)
      invariant forall p :: p in paths <==> p in copied && p !in rest
      decreases rest
    {
      var p :| p in rest;
      paths, rest := paths + [p], rest - {p};
    }
  }

  // ---- A snapshot of a snapshot ------------------------------------------------------------------------------------

  // The tree a snapshot leaves behind: the copied files and the directories above them.
  function CopyTree(content: map<Path, string>): Tree {
    map p | p in CopyPaths(content) :: if p in content then File(content[p]) else Dir
  }

  function CopyPaths(content: map<Path, string>): set<Path> {
    {Root} + content.Keys + set q, k | q in content && 0 < k < |q| :: q[..k]
  }

  lemma {:induction false} PrefixIsDirectory(t: Tree, p: Path, k: nat)
    requires IsTree(t) && p in t && k < |p|
    ensures p[..k] in t && t[p[..k]] == Dir && (0 < k ==> p[..k] != Root)
    decreases |p|
  {
    var d := Parent(p);
    assert d in t && t[d] == Dir;
    if k < |d| {
      PrefixIsDirectory(t, d, k);
      assert d[..k] == p[..k];
    } else {
      assert d == p[..k];
    }
  }

  ghost predicate CopiedFrom(t: Tree, policy: Policy, content: map<Path, string>) {
    content.Keys == Selected(t, policy) && forall p :: p in content ==> p in t && t[p] == File(content[p])
  }

  // Every entry of the copy is an entry of the source of the same kind that the walk came across there.
  lemma CopyComesFromSource(t: Tree, policy: Policy, content: map<Path, string>, p: Path)
    requires IsTree(t) && CopiedFrom(t, policy, content) && p in CopyPaths(content) && p != Root
    ensures p in t && Reached(t, Keeps(policy), p) && CopyTree(content)[p] == t[p] && (t[p] == Dir || p in content)
  {
    if p !in content {
      var q, k :| q in content && 0 < k < |q| && q[..k] == p;
      PrefixIsDirectory(t, q, k);
      assert forall j :: 0 < j < k ==> q[..j] == p[..j];
    }
  }

  lemma CopyIsTree(t: Tree, policy: Policy, content: map<Path, string>)
    requires IsTree(t) && CopiedFrom(t, policy, content)
    ensures IsTree(CopyTree(content))
  {
    var s := CopyTree(content);
    assert Root !in content;
    forall p | p in s ensures ValidPath(p) && (p != Root ==> Parent(p) in s && s[Parent(p)] == Dir) {
      if p != Root {
        CopyComesFromSource(t, policy, content, p);
        assert p in t;
        ParentIsCopied(content, p);
        if Parent(p) != Root {
          CopyComesFromSource(t, policy, content, Parent(p));
          assert t[Parent(p)] == Dir;
        }
      }
    }
  }

  lemma ParentIsCopied(content: map<Path, string>, p: Path)
    requires p in CopyPaths(content) && p != Root
    ensures Parent(p) in CopyPaths(content)
  {
    var d := Parent(p);
    if d != Root {
      if p in content {
        assert p[..|d|] == d;
      } else {
        var q, k :| q in content && 0 < k < |q| && q[..k] == p;
        assert q[..|d|] == d;
      }
    }
  }

  // In the copy the walk comes across everything, and selects what was copied.
  lemma CopyIsReached(t: Tree, policy: Policy, content: map<Path, string>, p: Path)
    requires IsTree(t) && CopiedFrom(t, policy, content) && p in CopyPaths(content) && p != Root
    ensures Reached(CopyTree(content), Keeps(policy), p)
  {
    CopyComesFromSource(t, policy, content, p);
  }

  lemma CopySelectsAll(t: Tree, policy: Policy, content: map<Path, string>)
    requires IsTree(t) && CopiedFrom(t, policy, content)
    ensures Selected(CopyTree(content), policy) == content.Keys
  {
    var s := CopyTree(content);
    forall p | p in s && p != Root ensures p in Selected(s, policy) <==> p in content {
      CopyComesFromSource(t, policy, content, p);
      CopyIsReached(t, policy, content, p);
      assert p in content <==> p in Selected(t, policy);
    }
    assert Root !in Selected(s, policy) && Root !in Selected(t, policy);
    assert content.Keys <= s.Keys;
  }

  lemma {:induction false} SameTotal(a: Path -> nat, b: Path -> nat, paths: set<Path>)
    requires forall p :: p in paths ==> a(p) == b(p)
    ensures Total(a, paths) == Total(b, paths)
    decreases |paths|
  {
    if paths != {} {
      var p :| p in paths;
      TotalAdds(a, paths, p);
      TotalAdds(b, paths, p);
      SameTotal(a, b, paths - {p});
    }
  }

  // Snapshotting a successful snapshot under the same policy succeeds, with the same files and the same digest. The
  // repair loop relies on it when it copies its source snapshot anew for every attempt.
  lemma SnapshotOfSnapshot(t: Tree, policy: Policy, content: map<Path, string>)
    requires IsTree(t) && Admissible(t, policy) && CopiedFrom(t, policy, content)
    ensures IsTree(CopyTree(content)) && Admissible(CopyTree(content), policy)
    ensures CopiedFrom(CopyTree(content), policy, content)
  {
    var s := CopyTree(content);
    CopyIsTree(t, policy, content);
    CopySelectsAll(t, policy, content);
    forall p | p in s && Reached(s, Keeps(policy), p) ensures InBounds(policy, p) && !s[p].Link? {
      CopyComesFromSource(t, policy, content, p);
    }
    forall p | p in content ensures p in s && s[p] == File(content[p]) && |content[p]| <= policy.maxFileBytes && Copyable(policy, p) && SizeOf(s, p) == SizeOf(t, p) {
      assert p in Selected(t, policy);
    }
    SameTotal(Sizes(s), Sizes(t), content.Keys);
  }

  method Resnapshot(t: Tree, policy: Policy) returns (first: Result, second: Result)
    requires IsTree(t)
    ensures first.Snapshotted? ==> second.Snapshotted? && second.files == first.files && second.digest == first.digest
    ensures first.Snapshotted? ==> second.copied == first.copied
  {
    hide Admissible, Lists, IsTree;
    first := CreateSnapshot(t, policy);
    second := Refused;
    if first.Snapshotted? {
      SnapshotOfSnapshot(t, policy, first.copied);
      var content := first.copied;
      second := SnapshotAgain(content, policy);
      OneListing(content, first.files, second.files);
    }
  }

  method SnapshotAgain(content: map<Path, string>, policy: Policy) returns (second: Result)
    requires IsTree(CopyTree(content)) && Admissible(CopyTree(content), policy) && CopiedFrom(CopyTree(content), policy, content)
    ensures second.Snapshotted? && second.copied == content && Lists(content, second.files) && second.digest == DigestOf(second.files)
  {
    hide Admissible, Lists, IsTree, Selected, Total;
    second := CreateSnapshot(CopyTree(content), policy);
  }
}
