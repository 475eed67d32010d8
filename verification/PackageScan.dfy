// Verification of an installed package against its pinned manifest, on a case-sensitive platform
// (corvus/codex_install.py).
module PackageScan {
  import opened FileTree
  import opened PathOrder

  // SHA-256 as an injective function.
  datatype Digest = Sha256(content: string)
  datatype Member = Member(path: Path, digest: Digest, size: nat)
  datatype Expected = Expected(digest: Digest, size: nat)

  // A dictionary built from the manifest: a later line for the same path wins.
  ghost function ExpectedFiles(manifest: seq<Member>): map<Path, Expected> {
    if manifest == [] then map[]
    else
      var last := manifest[|manifest| - 1];
      ExpectedFiles(manifest[..|manifest| - 1])[last.path := Expected(last.digest, last.size)]
  }

  ghost predicate IsAncestor(manifest: seq<Member>, d: Path) {
    exists i :: 0 <= i < |manifest| && 0 < |d| < |manifest[i].path| && manifest[i].path[..|d|] == d
  }

  // The tree is the release: the same files with the same content, and the directories they need and no other.
  ghost predicate IsRelease(t: Tree, manifest: seq<Member>) {
    && (forall p :: p in t ==> !t[p].Link? && !t[p].Special?)
    && FilesOf(t) == ExpectedFiles(manifest).Keys
    && (forall p :: p in t && t[p].File? ==>
          |t[p].content| == ExpectedFiles(manifest)[p].size && Sha256(t[p].content) == ExpectedFiles(manifest)[p].digest)
    && (forall d :: d in t && t[d] == Dir && d != Root <==> IsAncestor(manifest, d))
  }

  method ReadManifest(manifest: seq<Member>) returns (files: map<Path, Expected>, directories: set<Path>)
    ensures files == ExpectedFiles(manifest)
    ensures forall d :: d in directories <==> IsAncestor(manifest, d)
  {
    files, directories := map[], {};
    for i := 0 to |manifest|
      invariant files == ExpectedFiles(manifest[..i])
      invariant forall d :: d in directories <==> IsAncestor(manifest[..i], d)
    {
      var m := manifest[i];
      assert manifest[..i + 1] == manifest[..i] + [m];
      files := files[m.path := Expected(m.digest, m.size)];
      directories := AddAncestors(m.path, directories);
      forall d ensures d in directories <==> IsAncestor(manifest[..i + 1], d) {
        AncestorGrows(manifest[..i], m, d);
      }
    }
    assert manifest[..|manifest|] == manifest;
  }

  method AddAncestors(path: Path, directories: set<Path>) returns (more: set<Path>)
    ensures forall d :: d in more <==> d in directories || (0 < |d| < |path| && path[..|d|] == d)
  {
    more := directories;
    var k := if |path| == 0 then 0 else |path| - 1;
    while k > 0
      invariant 0 <= k && (k < |path| || k == 0)
      invariant forall d :: d in more <==> d in directories || (k < |d| < |path| && path[..|d|] == d)
    {
      more := more + {path[..k]};
      k := k - 1;
    }
  }

  lemma AncestorGrows(manifest: seq<Member>, m: Member, d: Path)
    ensures IsAncestor(manifest + [m], d) <==> IsAncestor(manifest, d) || (0 < |d| < |m.path| && m.path[..|d|] == d)
  {
    var more := manifest + [m];
    if IsAncestor(manifest, d) {
      var i :| 0 <= i < |manifest| && 0 < |d| < |manifest[i].path| && manifest[i].path[..|d|] == d;
      assert more[i] == manifest[i];
    }
    if 0 < |d| < |m.path| && m.path[..|d|] == d {
      assert more[|manifest|] == m;
    }
  }

  // What the scan has collected of the entries seen so far.
  ghost predicate Collected(t: Tree, seen: set<Path>, files: set<Path>, directories: set<Path>) {
    && (forall p :: p in seen ==> p in t && !t[p].Link? && !t[p].Special?)
    && files == (set p | p in seen && p in t && t[p].File?)
    && directories == (set p | p in seen && p in t && t[p] == Dir)
  }

  lemma NothingCollected(t: Tree)
    ensures Collected(t, {}, {}, {})
  {
  }

  lemma CollectedGrows(t: Tree, seen: set<Path>, files: set<Path>, directories: set<Path>, p: Path)
    requires Collected(t, seen, files, directories) && p in t && !t[p].Link? && !t[p].Special?
    ensures Collected(t, seen + {p}, if t[p] == Dir then files else files + {p}, if t[p] == Dir then directories + {p} else directories)
  {
  }

  // Once every entry is seen, what was collected is everything there is.
  lemma AllCollected(t: Tree, seen: set<Path>, files: set<Path>, directories: set<Path>)
    requires IsTree(t) && Collected(t, seen, files, directories) && seen == Entries(t)
    ensures forall p :: p in t ==> !t[p].Link? && !t[p].Special?
    ensures files == FilesOf(t) && directories == DirectoriesOf(t) - {Root}
  {
  }

  // The worklist over directories, each listed in whatever order the system gives it.
  method ScanPackage(t: Tree) returns (ok: bool, files: set<Path>, directories: set<Path>)
    requires IsTree(t)
    ensures ok <==> forall p :: p in t ==> !t[p].Link? && !t[p].Special?
    ensures ok ==> files == FilesOf(t) && directories == DirectoriesOf(t) - {Root}
  {
    hide Walk, Collected, IsTree;
    NothingCollected(t);
    files, directories := {}, {};
    var stack := [Root];
    ghost var opens, seen := {}, {};
    WalkStart(t, Everywhere);
    while stack != []
      invariant Walk(t, Everywhere, opens, stack, seen, {}) && Collected(t, seen, files, directories)
      invariant opens <= DirectoriesOf(t)
      decreases DirectoriesOf(t) - opens
    {
      WalkOpen(t, Everywhere, opens, stack, seen);
      var d := stack[|stack| - 1];
      stack := stack[..|stack| - 1];
      opens := opens + {d};
      var coming := Children(t, d);
      while coming != {}
        invariant Walk(t, Everywhere, opens, stack, seen, coming) && Collected(t, seen, files, directories)
        decreases coming
      {
        var p :| p in coming;
        WalkNext(t, Everywhere, opens, stack, seen, coming, p);
        assert p in t;
        if t[p].Link? || t[p].Special? {
          return false, files, directories;
        }
        CollectedGrows(t, seen, files, directories, p);
        WalkSee(t, Everywhere, opens, stack, seen, coming, p);
        if t[p] == Dir {
          directories, stack := directories + {p}, stack + [p];
        } else {
          files := files + {p};
        }
        seen, coming := seen + {p}, coming - {p};
      }
    }
    WalkEnd(t, Everywhere, opens, seen);
    assert seen == Entries(t);
    AllCollected(t, seen, files, directories);
    ok := true;
  }

  // The check accepts a tree exactly when it is the release, whatever the order of the listings.
  method VerifyInstalledPackage(t: Tree, manifest: seq<Member>) returns (ok: bool)
    requires IsTree(t)
    ensures ok <==> IsRelease(t, manifest)
  {
    var expected, ancestors := ReadManifest(manifest);
    var files, directories;
    ok, files, directories := ScanPackage(t);
    if !ok {
      return;
    }
    if files != expected.Keys || directories != ancestors {
      assert directories != ancestors ==> exists d :: d in directories <==> d !in ancestors by {
        if forall d :: d in directories <==> d in ancestors {
          assert directories == ancestors;
        }
      }
      return false;
    }
    var pending := expected.Keys;
    while pending != {}
      invariant pending <= expected.Keys
      invariant forall p :: p in expected && p !in pending ==>
                  |t[p].content| == expected[p].size && Sha256(t[p].content) == expected[p].digest
      decreases pending
    {
      var p :| p in pending;
      assert p in files;
      if |t[p].content| != expected[p].size || Sha256(t[p].content) != expected[p].digest {
        return false;
      }
      pending := pending - {p};
    }
  }
}
