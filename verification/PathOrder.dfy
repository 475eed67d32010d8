// Relative paths, their rendering with slashes, and the order in which Python sorts the rendered names.
module PathOrder {

  type Name = string
  type Path = seq<Name>

  // A directory entry's name: never empty, never holding a slash.
  predicate ValidName(n: Name) {
    n != "" && '/' !in n
  }

  predicate ValidPath(p: Path) {
    forall i :: 0 <= i < |p| ==> ValidName(p[i])
  }

  // as_posix()
  function Posix(p: Path): string {
    if p == [] then "" else if |p| == 1 then p[0] else p[0] + "/" + Posix(p[1..])
  }

  // Distinct paths render differently.
  lemma {:induction false} PosixInjective(p: Path, q: Path)
    requires ValidPath(p) && ValidPath(q) && Posix(p) == Posix(q)
    ensures p == q
  {
    if p == [] || q == [] {
      NotEmpty(p);
      NotEmpty(q);
    } else {
      var a, b := p[0], q[0];
      var s := Posix(p);
      FirstName(p);
      FirstName(q);
      SameFirst(s, a, b, |p| > 1);
      SameFirst(s, b, a, |q| > 1);
      assert a == s[..|a|] == b;
      if |p| > 1 && |q| > 1 {
        assert Posix(p[1..]) == s[|a| + 1..] == Posix(q[1..]);
        PosixInjective(p[1..], q[1..]);
        assert p == [a] + p[1..] && q == [b] + q[1..];
      }
    }
  }

  // A name that starts the text cannot reach past another one that ends there or is followed by a slash.
  lemma SameFirst(s: string, a: Name, b: Name, more: bool)
    requires |a| <= |s| && |b| <= |s| && s[..|b|] == b && '/' !in b
    requires if more then |a| < |s| && s[|a|] == '/' else |s| == |a|
    ensures |b| <= |a|
  {
    assert forall k :: 0 <= k < |b| ==> s[k] == b[k] && b[k] in b;
  }

  lemma NotEmpty(p: Path)
    requires ValidPath(p)
    ensures Posix(p) == "" <==> p == []
  {
  }

  lemma FirstName(p: Path)
    requires ValidPath(p) && p != []
    ensures |p[0]| <= |Posix(p)| && Posix(p)[..|p[0]|] == p[0]
    ensures |p| == 1 ==> Posix(p) == p[0]
    ensures |p| > 1 ==> |p[0]| < |Posix(p)| && Posix(p)[|p[0]|] == '/' && Posix(p)[|p[0]| + 1..] == Posix(p[1..])
  {
  }

  // ---- Order -----------------------------------------------------------------------------------------------------

  predicate Leq(a: string, b: string) {
    a == "" || (b != "" && (a[0] < b[0] || (a[0] == b[0] && Leq(a[1..], b[1..]))))
  }

  // The order of strings by their first difference, a prefix coming first.
  lemma {:induction false} LeqMeans(a: string, b: string)
    ensures Leq(a, b) <==> a <= b || exists k :: 0 <= k < |a| && k < |b| && a[..k] == b[..k] && a[k] < b[k]
  {
    if a != "" && b != "" && a[0] == b[0] {
      var c, d := a[1..], b[1..];
      LeqMeans(c, d);
      if k :| 0 <= k < |c| && k < |d| && c[..k] == d[..k] && c[k] < d[k] {
        assert a[..k + 1] == [a[0]] + c[..k] && b[..k + 1] == [b[0]] + d[..k];
      }
      if k :| 0 <= k < |a| && k < |b| && a[..k] == b[..k] && a[k] < b[k] {
        assert k > 0;
        assert c[..k - 1] == a[..k][1..] && d[..k - 1] == b[..k][1..];
        assert c[k - 1] < d[k - 1];
      }
      assert a == [a[0]] + c && b == [b[0]] + d;
    } else if a != "" && b != "" && a[0] < b[0] {
      assert a[..0] == b[..0];
    } else if a != "" && b != "" {
      assert forall k :: 0 < k < |a| && k < |b| && a[..k] == b[..k] ==> a[..k][0] == b[..k][0];
    }
  }

  lemma LeqTotal(a: string, b: string)
    ensures Leq(a, b) || Leq(b, a)
  {
  }

  lemma {:induction false} LeqAntisymmetric(a: string, b: string)
    requires Leq(a, b) && Leq(b, a)
    ensures a == b
  {
    if a != "" {
      LeqAntisymmetric(a[1..], b[1..]);
      assert a == [a[0]] + a[1..] && b == [b[0]] + b[1..];
    }
  }

  lemma {:induction false} LeqTransitive(a: string, b: string, c: string)
    requires Leq(a, b) && Leq(b, c)
    ensures Leq(a, c)
  {
    if a != "" && a[0] == b[0] && b[0] == c[0] {
      LeqTransitive(a[1..], b[1..], c[1..]);
    }
  }

  ghost predicate Ordered(s: seq<Path>) {
    forall i, j :: 0 <= i < j < |s| ==> Leq(Posix(s[i]), Posix(s[j])) && s[i] != s[j]
  }

  ghost predicate AllValid(s: seq<Path>) {
    forall i :: 0 <= i < |s| ==> ValidPath(s[i])
  }

  // A set of paths has one sorted listing only.
  lemma {:induction false} OrderedUnique(s: seq<Path>, t: seq<Path>)
    requires Ordered(s) && Ordered(t) && AllValid(s) && AllValid(t)
    requires forall p :: p in s <==> p in t
    ensures s == t
  {
    if s == [] {
      HeadIsMember(t);
    } else {
      assert s[0] in t;
      var i :| 0 <= i < |t| && t[i] == s[0];
      assert t[0] in s;
      var j :| 0 <= j < |s| && s[j] == t[0];
      if s[0] != t[0] {
        assert Leq(Posix(s[0]), Posix(t[0])) && Leq(Posix(t[0]), Posix(s[0]));
        LeqAntisymmetric(Posix(s[0]), Posix(t[0]));
        PosixInjective(s[0], t[0]);
      }
      forall p ensures p in s[1..] <==> p in t[1..] {
        TailMembers(s, p);
        TailMembers(t, p);
      }
      OrderedUnique(s[1..], t[1..]);
      assert s == [s[0]] + s[1..] && t == [t[0]] + t[1..];
    }
  }

  lemma HeadIsMember(s: seq<Path>)
    ensures s == [] || s[0] in s
  {
  }

  lemma TailMembers(s: seq<Path>, p: Path)
    requires Ordered(s) && s != []
    ensures p in s[1..] <==> p in s && p != s[0]
  {
    if p in s && p != s[0] {
      var i :| 0 <= i < |s| && s[i] == p;
      assert s[1..][i - 1] == p;
    }
  }

  // sorted(..., key=relative_path), as insertion.
  method Sort(paths: seq<Path>) returns (sorted: seq<Path>)
    requires AllValid(paths) && forall i, j :: 0 <= i < j < |paths| ==> paths[i] != paths[j]
    ensures Ordered(sorted) && AllValid(sorted) && forall p :: p in sorted <==> p in paths
  {
    sorted := [];
    for n := 0 to |paths|
      invariant Ordered(sorted) && AllValid(sorted)
      invariant forall p :: p in sorted <==> p in paths[..n]
    {
      assert paths[..n + 1] == paths[..n] + [paths[n]];
      assert paths[n] !in paths[..n];
      sorted := Insert(sorted, paths[n]);
    }
    assert paths[..|paths|] == paths;
  }

  method Insert(sorted: seq<Path>, x: Path) returns (r: seq<Path>)
    requires Ordered(sorted) && AllValid(sorted) && ValidPath(x) && x !in sorted
    ensures Ordered(r) && AllValid(r) && forall p :: p in r <==> p in sorted || p == x
  {
    var i := 0;
    while i < |sorted| && Leq(Posix(sorted[i]), Posix(x))
      invariant 0 <= i <= |sorted|
      invariant forall k :: 0 <= k < i ==> Leq(Posix(sorted[k]), Posix(x))
    {
      i := i + 1;
    }
    forall k | i <= k < |sorted| ensures Leq(Posix(x), Posix(sorted[k])) {
      LeqTotal(Posix(sorted[i]), Posix(x));
      if k > i {
        LeqTransitive(Posix(x), Posix(sorted[i]), Posix(sorted[k]));
      }
    }
    r := sorted[..i] + [x] + sorted[i..];
  }
}
