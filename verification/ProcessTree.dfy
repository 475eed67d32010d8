// The closure of a process tree over a snapshot of parent identifiers (corvus/safe_process.py).
module ProcessTree {

  type Pid = int

  ghost predicate IsStep(parents: map<Pid, Pid>, parent: Pid, pid: Pid) {
    pid in parents && parents[pid] == parent
  }

  // A chain of child steps; identifiers may have been reused, so chains may run in circles.
  ghost predicate IsChain(parents: map<Pid, Pid>, chain: seq<Pid>) {
    forall i :: 0 < i < |chain| ==> IsStep(parents, chain[i - 1], chain[i])
  }

  // pid is reachable from root in one or more child steps.
  ghost predicate Descends(parents: map<Pid, Pid>, root: Pid, pid: Pid) {
    exists chain :: |chain| >= 2 && chain[0] == root && chain[|chain| - 1] == pid && IsChain(parents, chain)
  }

  lemma ChildDescends(parents: map<Pid, Pid>, root: Pid, parent: Pid, pid: Pid)
    requires pid in parents && parents[pid] == parent && (parent == root || Descends(parents, root, parent))
    ensures Descends(parents, root, pid)
  {
    var chain := [root];
    if parent != root {
      chain :| |chain| >= 2 && chain[0] == root && chain[|chain| - 1] == parent && IsChain(parents, chain);
    }
    assert IsChain(parents, chain + [pid]);
  }

  // A set closed under child steps that leaves out only the root holds everything a chain leads to, but the root.
  lemma {:induction false} ClosedHoldsChain(parents: map<Pid, Pid>, root: Pid, closed: set<Pid>, chain: seq<Pid>)
    requires forall p :: p in parents && (parents[p] == root || parents[p] in closed) ==> p == root || p in closed
    requires |chain| >= 1 && chain[0] == root && IsChain(parents, chain)
    ensures chain[|chain| - 1] == root || chain[|chain| - 1] in closed
  {
    var n := |chain| - 1;
    if n > 0 {
      assert IsChain(parents, chain[..n]);
      ClosedHoldsChain(parents, root, closed, chain[..n]);
      assert IsStep(parents, chain[n - 1], chain[n]);
    }
  }

  method DescendantPids(root: Pid, parents: map<Pid, Pid>) returns (descendants: set<Pid>)
    ensures forall pid :: pid in descendants <==> pid != root && Descends(parents, root, pid)
  {
    descendants := {};
    var frontier := {root};
    while frontier != {}
      invariant root !in descendants && frontier <= descendants + {root} && descendants <= parents.Keys
      invariant forall p :: p in descendants ==> Descends(parents, root, p)
      invariant forall p :: p in parents && parents[p] in descendants + {root} - frontier ==> p == root || p in descendants
      decreases parents.Keys - descendants, frontier
    {
      var next := set p | p in parents && parents[p] in frontier && p !in descendants && p != root;
      forall p | p in next ensures Descends(parents, root, p) {
        ChildDescends(parents, root, parents[p], p);
      }
      if next == {} {
        assert parents.Keys - (descendants + next) == parents.Keys - descendants;
      } else {
        var p :| p in next;
        assert p in parents.Keys - descendants;
      }
      descendants := descendants + next;
      frontier := next;
    }
    forall pid | Descends(parents, root, pid) ensures pid == root || pid in descendants {
      var chain :| |chain| >= 2 && chain[0] == root && chain[|chain| - 1] == pid && IsChain(parents, chain);
      ClosedHoldsChain(parents, root, descendants, chain);
    }
  }
}
