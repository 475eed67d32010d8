// The bounded worklist scan that archives a sandbox source tree (corvus/sandbox.py). The tree is static: the checks
// for entries replaced during the scan always pass on it.
module ArchiveScan {
  import opened FileTree
  import opened PathOrder

  datatype Limits = Limits(
    maxEntries: nat, maxDirectoryDepth: nat, maxFileBytes: nat, maxFiles: nat, maxTotalBytes: nat, maxArchiveBytes: nat)

  // How much a tar member and the trailer after so many bytes take; the format itself is left abstract.
  datatype Format = Format(member: Path -> nat, trailer: nat -> nat)

  // Every way in which a tree can be inside the limits.
  ghost predicate Acceptable(t: Tree, limits: Limits, format: Format) {
    && (forall p :: p in t ==> !t[p].Link? && !t[p].Special?)
    && |Entries(t)| <= limits.maxEntries
    && (forall p :: p in t && t[p] == Dir ==> |p| <= limits.maxDirectoryDepth)
    && (forall p :: p in t && t[p].File? ==> |t[p].content| <= limits.maxFileBytes)
    && |FilesOf(t)| <= limits.maxFiles
    && Total(Sizes(t), FilesOf(t)) <= limits.maxTotalBytes
    && Total(format.member, FilesOf(t)) + format.trailer(Total(format.member, FilesOf(t))) <= limits.maxArchiveBytes
  }

  // The in-memory file that refuses to grow past its limit.
  class BoundedBytes {
    const limit: nat
    var position: nat
    var highWatermark: nat

    constructor (limit: nat)
      ensures this.limit == limit && position == 0 && highWatermark == 0
    {
      this.limit, position, highWatermark := limit, 0, 0;
    }

    method Write(length: nat) returns (ok: bool)
      modifies this
      ensures highWatermark == (if old(position) + length > old(highWatermark) then old(position) + length else old(highWatermark))
      ensures ok <==> highWatermark <= limit
      ensures position == if ok then old(position) + length else old(position)
    {
      var end := position + length;
      if end > highWatermark {
        highWatermark := end;
      }
      ok := highWatermark <= limit;
      if ok {
        position := end;
      }
    }
  }

  // ---- The scan --------------------------------------------------------------------------------------------------

  ghost function Members(s: seq<Path>): set<Path> {
    set p | p in s
  }

  lemma {:induction false} MembersSize(s: seq<Path>)
    requires Unique(s)
    ensures |Members(s)| == |s|
  {
    if s != [] {
      var n := |s| - 1;
      MembersSize(s[..n]);
      assert Members(s) == Members(s[..n]) + {s[n]};
    }
  }

  lemma MembersGrow(s: seq<Path>, p: Path)
    ensures Members(s + [p]) == Members(s) + {p}
    ensures Unique(s) && p !in s ==> Unique(s + [p])
  {
  }

  predicate EntryFits(t: Tree, limits: Limits, p: Path)
    requires p in t
  {
    match t[p]
    case Link => false
    case Special => false
    case Dir => |p| <= limits.maxDirectoryDepth
    case File(content) => |content| <= limits.maxFileBytes
  }

  // The counters over the entries seen so far, all within the limits.
  ghost predicate Tallies(t: Tree, limits: Limits, seen: set<Path>, files: seq<Path>, total: nat) {
    && (forall p :: p in seen ==> p in t && EntryFits(t, limits, p))
    && Members(files) == (set p | p in seen && p in t && t[p].File?) && Unique(files)
    && |seen| <= limits.maxEntries && |files| <= limits.maxFiles
    && total == Total(Sizes(t), Members(files)) <= limits.maxTotalBytes
  }

  // The body of the inner loop: an entry is counted and judged; a refusal means the tree is not acceptable.
  method SeeEntry(t: Tree, limits: Limits, format: Format, ghost seen: set<Path>, files: seq<Path>, total: nat, count: nat, p: Path)
    returns (ok: bool, files': seq<Path>, total': nat)
    requires IsTree(t) && Tallies(t, limits, seen, files, total) && count == |seen|
    requires seen + {p} <= Entries(t) && p !in seen
    ensures ok ==> Tallies(t, limits, seen + {p}, files', total')
    ensures !ok ==> !Acceptable(t, limits, format)
  {
    files', total' := files, total;
    assert |seen + {p}| == count + 1;
    SubsetSize(seen + {p}, Entries(t));
    if count + 1 > limits.maxEntries || !EntryFits(t, limits, p) {
      return false, files', total';
    }
    if t[p].File? {
      files', total' := files + [p], total + |t[p].content|;
      FileSeen(t, limits, seen, files, total, p);
    }
    ok := |files'| <= limits.maxFiles && total' <= limits.maxTotalBytes;
  }

  lemma FileSeen(t: Tree, limits: Limits, seen: set<Path>, files: seq<Path>, total: nat, p: Path)
    requires Tallies(t, limits, seen, files, total) && p !in seen && seen + {p} <= Entries(t) && t[p].File?
    ensures
      var all := files + [p];
      && Unique(all) && Members(all) == (set q | q in seen + {p} && q in t && t[q].File?)
      && Total(Sizes(t), Members(all)) == total + |t[p].content| <= Total(Sizes(t), FilesOf(t))
      && |all| <= |FilesOf(t)|
  {
    var all := files + [p];
    assert p !in Members(files);
    assert p in files ==> p in Members(files);
    MembersGrow(files, p);
    MembersSize(all);
    TotalGrows(Sizes(t), Members(files), p);
    SubsetSize(Members(all), FilesOf(t));
    TotalMonotone(Sizes(t), Members(all), FilesOf(t));
  }

  // The worklist. `coming` is the listing of the directory just popped, taken in whatever order the system gives it.
  method ScanTree(t: Tree, limits: Limits, format: Format) returns (ok: bool, files: seq<Path>)
    requires IsTree(t)
    ensures ok ==> Tallies(t, limits, Entries(t), files, Total(Sizes(t), Members(files)))
    ensures !ok ==> !Acceptable(t, limits, format)
  {
    hide Tallies, Walk, Acceptable;
    files := [];
    var total, count, stack := 0, 0, [Root];
    ghost var opens, seen := {}, {};
    WalkStart(t, Everywhere);
    assert Tallies(t, limits, seen, files, total) by { NothingSeen(t, limits); }
    while stack != []
      invariant Walk(t, Everywhere, opens, stack, seen, {}) && Tallies(t, limits, seen, files, total)
      invariant count == |seen| && opens <= DirectoriesOf(t)
      decreases DirectoriesOf(t) - opens
    {
      WalkOpen(t, Everywhere, opens, stack, seen);
      var d := stack[|stack| - 1];
      stack := stack[..|stack| - 1];
      opens := opens + {d};
      var coming := Children(t, d);
      while coming != {}
        invariant Walk(t, Everywhere, opens, stack, seen, coming) && Tallies(t, limits, seen, files, total)
        invariant count == |seen|
        decreases coming
      {
        var p :| p in coming;
        WalkNext(t, Everywhere, opens, stack, seen, coming, p);
        ok, files, total := SeeEntry(t, limits, format, seen, files, total, count, p);
        if !ok {
          return;
        }
        WalkSee(t, Everywhere, opens, stack, seen, coming, p);
        if t[p] == Dir {
          stack := stack + [p];
        }
        count, seen, coming := count + 1, seen + {p}, coming - {p};
      }
    }
    WalkEnd(t, Everywhere, opens, seen);
    assert seen == Entries(t);
    TalliesTotal(t, limits, seen, files, total);
    ok := true;
  }

  lemma NothingSeen(t: Tree, limits: Limits)
    ensures Tallies(t, limits, {}, [], 0)
  {
  }

  lemma TalliesTotal(t: Tree, limits: Limits, seen: set<Path>, files: seq<Path>, total: nat)
    requires Tallies(t, limits, seen, files, total)
    ensures total == Total(Sizes(t), Members(files))
  {
  }

  lemma ScannedMeans(t: Tree, limits: Limits, format: Format, files: seq<Path>)
    requires IsTree(t) && Tallies(t, limits, Entries(t), files, Total(Sizes(t), Members(files)))
    ensures Members(files) == FilesOf(t) && AllValid(files) && Unique(files)
    ensures Acceptable(t, limits, format) <==>
            Total(format.member, FilesOf(t)) + format.trailer(Total(format.member, FilesOf(t))) <= limits.maxArchiveBytes
  {
    assert Members(files) == FilesOf(t);
    MembersSize(files);
    assert forall i :: 0 <= i < |files| ==> files[i] in Members(files);
    forall p | p in t ensures p == Root || EntryFits(t, limits, p) {
      assert p != Root ==> p in Entries(t);
    }
  }

  lemma OrderedIsUnique(s: seq<Path>)
    requires Ordered(s)
    ensures Unique(s)
  {
  }

  datatype Capture = Archived(members: seq<Path>) | Rejected

  // For every order in which directories are listed the scan ends, archives exactly the acceptable trees, and archives
  // each regular file once, in sorted order.
  method ArchiveSource(t: Tree, limits: Limits, format: Format) returns (capture: Capture)
    requires IsTree(t)
    ensures capture.Archived? <==> Acceptable(t, limits, format)
    ensures capture.Archived? ==> Ordered(capture.members) && AllValid(capture.members) && Members(capture.members) == FilesOf(t)
  {
    hide Tallies, Acceptable, Ordered, IsTree;
    var ok, files := ScanTree(t, limits, format);
    if !ok {
      return Rejected;
    }
    ScannedMeans(t, limits, format, files);
    var sorted := Sort(files);
    OrderedIsUnique(sorted);
    assert Members(sorted) == Members(files);
    var archive := new BoundedBytes(limits.maxArchiveBytes);
    ok := WriteMembers(archive, format, sorted);
    if ok {
      ok := archive.Write(format.trailer(archive.position));
    }
    capture := if ok then Archived(sorted) else Rejected;
  }

  method WriteMembers(archive: BoundedBytes, format: Format, members: seq<Path>) returns (ok: bool)
    requires archive.position == archive.highWatermark == 0 && Unique(members)
    modifies archive
    ensures ok ==> archive.position == archive.highWatermark == Total(format.member, Members(members))
    ensures !ok ==> Total(format.member, Members(members)) > archive.limit
  {
    for i := 0 to |members|
      invariant archive.position == archive.highWatermark == Total(format.member, Members(members[..i]))
    {
      assert members[..i + 1] == members[..i] + [members[i]];
      MembersGrow(members[..i], members[i]);
      TotalGrows(format.member, Members(members[..i]), members[i]);
      ok := archive.Write(format.member(members[i]));
      if !ok {
        TotalMonotone(format.member, Members(members[..i + 1]), Members(members));
        return;
      }
    }
    assert members[..|members|] == members;
    ok := true;
  }

  // So two scans of one tree, in whatever orders, capture the same members in the same order.
  lemma OneCapture(t: Tree, a: seq<Path>, b: seq<Path>)
    requires Ordered(a) && Ordered(b) && AllValid(a) && AllValid(b)
    requires Members(a) == FilesOf(t) && Members(b) == FilesOf(t)
    ensures a == b
  {
    forall p ensures p in a <==> p in b {
      assert p in a <==> p in Members(a);
      assert p in b <==> p in Members(b);
    }
    OrderedUnique(a, b);
  }
}
