// The coding workflow: generate, verify, repair, package (corvus/workflow.py). The provider, the sandbox, the file
// system and the event store are adversaries: every call may raise. Attempt directories are the workflow's own.
module RepairWorkflow {
  import opened Common
  import opened VerificationPolicy

  type Path = seq<string>

  // A relative path as the model wrote it, split into its parts.
  datatype RawPath = RawPath(text: string, absolute: bool, parts: Path)
  datatype Candidate = Candidate(files: seq<(RawPath, string)>, tests: seq<Command>, smoke: Option<Command>)

  // DeliveryError, SandboxError, SecurityError, OSError, ProviderError, ValidationError and ValueError are handled;
  // anything else escapes.
  datatype Flow = Go | Handled | Unhandled {
    predicate IsFailure() { !Go? }
    function PropagateFailure(): Flow { this }
  }

  datatype Bundle = Bundle(files: map<RawPath, string>, results: seq<Verdict>)

  // Payloads are left out except those the properties speak of; tree is what is staged (the event holds a file count).
  datatype TraceEvent =
    | RunCreated | CriteriaCreated | PlanCreated
    | SandboxStaging(repair: nat, tree: map<Path, string>)
    | VerificationCompleted(repair: nat, passed: bool, requiredPassed: bool, results: seq<Verdict>)
    | RepairCreated(attempt: nat)
    | RunFailed(attempts: nat) | RunBlocked | BundleCreated

  // An exception escapes when it is raised before the handlers are in place, when they do not handle it, when the
  // blocked run cannot be recorded, or from the final removal of the run directory.
  datatype Escape = TooEarly | Uncaught | NotRecorded | CleanupFailed
  datatype Result = Returned(bundle: Option<Bundle>) | Escaped(how: Escape)

  // What a run is given, and how things will go: the candidates as the provider will produce them, the exit code of
  // every command, and the way in which each call ends, with the local work around it. The preparation of the prompt,
  // the calls to provider, sandbox, delivery and file system, the appends to the store and the removal of the run
  // directory are told apart.
  datatype World = World(
    policy: Policy, maxRepairs: int, source: map<Path, string>, excluded: Path -> bool, secret: string -> bool,
    candidate: nat -> Candidate, exitCode: (nat, nat) -> int,
    prompt: Flow, call: nat -> Flow, append: nat -> Flow, cleanup: Flow)

  // ---- Candidates ------------------------------------------------------------------------------------------------

  predicate SafePath(w: World, p: RawPath) {
    p.parts != [] && !p.absolute && ".." !in p.parts && !w.excluded(p.parts)
  }

  predicate Clash(p: Path, q: Path) {
    (|p| < |q| && q[..|p|] == p) || (|q| < |p| && p[..|q|] == q)
  }

  // No file lies where another one needs a directory.
  predicate NoClash(paths: set<Path>) {
    forall p, q :: p in paths && q in paths ==> !Clash(p, q)
  }

  predicate WorldFits(w: World) {
    Accepts(w.policy) && NoClash(w.source.Keys)
  }

  function PartsOf(files: seq<(RawPath, string)>): set<Path> {
    set i | 0 <= i < |files| :: files[i].0.parts
  }

  // A candidate can be written over the source: safe paths, and none in the way of another.
  predicate Applicable(w: World, files: seq<(RawPath, string)>) {
    && (forall i :: 0 <= i < |files| ==> SafePath(w, files[i].0))
    && NoClash(w.source.Keys + PartsOf(files))
  }

  predicate LastWrite(files: seq<(RawPath, string)>, i: nat)
    requires i < |files|
  {
    forall k :: i < k < |files| ==> files[k].0.parts != files[i].0.parts
  }

  // The source with the candidate on top, and nothing left of earlier attempts.
  ghost predicate IsAttempt(w: World, files: seq<(RawPath, string)>, tree: map<Path, string>) {
    && tree.Keys == w.source.Keys + PartsOf(files)
    && (forall i :: 0 <= i < |files| && LastWrite(files, i) ==> tree[files[i].0.parts] == files[i].1)
    && (forall p :: p in w.source && p !in PartsOf(files) ==> tree[p] == w.source[p])
  }

  // _apply_candidate, as far as it is decided by the candidate
  method ApplyCandidate(w: World, files: seq<(RawPath, string)>) returns (flow: Flow, tree: map<Path, string>)
    requires WorldFits(w)
    ensures flow == if Applicable(w, files) then Go else Handled
    ensures flow.Go? ==> IsAttempt(w, files, tree)
    ensures flow.Go? <==>
              && (forall f :: f in files ==>
                    f.0.parts != [] && !f.0.absolute && (forall part :: part in f.0.parts ==> part != "..") && !w.excluded(f.0.parts))
              && (forall p, q :: p in w.source.Keys + PartsOf(files) && q in w.source.Keys + PartsOf(files) && |p| < |q| ==> q[..|p|] != p)
    ensures flow.Go? ==> forall p :: p in tree && p !in w.source ==> ".." !in p && p != [] && !w.excluded(p)
  {
    ApplicableExactly(w, files);
    tree := w.source;
    assert PartsOf(files[..0]) == {};
    for i := 0 to |files|
      invariant Applicable(w, files[..i]) && IsAttempt(w, files[..i], tree)
    {
      var p := files[i].0;
      WriteOver(w, files[..i], tree, files[i]);
      assert files[..i + 1] == files[..i] + [files[i]];
      if Applicable(w, files) {
        NotYet(w, files, i + 1);
      }
      hide Applicable, IsAttempt;
      if !SafePath(w, p) || exists q :: q in tree && Clash(p.parts, q) {
        return Handled, tree;
      }
      tree := tree[p.parts := files[i].1];
    }
    assert files[..|files|] == files;
    flow := Go;
  }

  lemma ApplicableExactly(w: World, files: seq<(RawPath, string)>)
    ensures Applicable(w, files) <==>
            && (forall f :: f in files ==>
                  f.0.parts != [] && !f.0.absolute && (forall part :: part in f.0.parts ==> part != "..") && !w.excluded(f.0.parts))
            && (forall p, q :: p in w.source.Keys + PartsOf(files) && q in w.source.Keys + PartsOf(files) && |p| < |q| ==> q[..|p|] != p)
  {
    hide PartsOf;
    assert (forall i :: 0 <= i < |files| ==> SafePath(w, files[i].0)) <==> forall f :: f in files ==> SafePath(w, f.0);
  }

  lemma WriteOver(w: World, files: seq<(RawPath, string)>, tree: map<Path, string>, last: (RawPath, string))
    requires Applicable(w, files) && IsAttempt(w, files, tree)
    ensures Applicable(w, files + [last]) <==> SafePath(w, last.0) && !exists q :: q in tree && Clash(last.0.parts, q)
    ensures IsAttempt(w, files + [last], tree[last.0.parts := last.1])
  {
    PartsGrow(files, last);
    LastWriteWins(w, files, tree, last);
    SafeGrows(w, files, last);
    ClashGrows(tree.Keys, last.0.parts);
    assert w.source.Keys + PartsOf(files + [last]) == tree.Keys + {last.0.parts};
    hide SafePath, PartsOf, LastWrite, Clash, NoClash;
  }

  lemma SafeGrows(w: World, files: seq<(RawPath, string)>, last: (RawPath, string))
    requires forall i :: 0 <= i < |files| ==> SafePath(w, files[i].0)
    ensures (forall i :: 0 <= i < |files + [last]| ==> SafePath(w, (files + [last])[i].0)) <==> SafePath(w, last.0)
  {
    assert (files + [last])[|files|] == last;
    hide SafePath;
  }

  lemma ClashGrows(paths: set<Path>, p: Path)
    requires NoClash(paths)
    ensures NoClash(paths + {p}) <==> !exists q :: q in paths && Clash(p, q)
  {
    assert forall q :: Clash(p, q) <==> Clash(q, p);
    assert !Clash(p, p);
    hide Clash;
  }

  lemma LastWriteWins(w: World, files: seq<(RawPath, string)>, tree: map<Path, string>, last: (RawPath, string))
    requires IsAttempt(w, files, tree)
    ensures forall i :: 0 <= i < |files + [last]| && LastWrite(files + [last], i) ==>
              (files + [last])[i].0.parts in tree.Keys + {last.0.parts}
              && tree[last.0.parts := last.1][(files + [last])[i].0.parts] == (files + [last])[i].1
  {
    var more, p := files + [last], last.0.parts;
    forall i | 0 <= i < |files| && LastWrite(more, i) ensures files[i].0.parts != p && LastWrite(files, i) && files[i].0.parts in tree {
      assert more[|files|].0.parts != more[i].0.parts;
      assert forall k :: 0 <= k < |files| ==> more[k] == files[k];
      assert files[i].0.parts in PartsOf(files);
    }
  }

  lemma PartsGrow(files: seq<(RawPath, string)>, last: (RawPath, string))
    ensures PartsOf(files + [last]) == PartsOf(files) + {last.0.parts}
  {
    var more := files + [last];
    forall q | q in PartsOf(files) + {last.0.parts} ensures q in PartsOf(more) {
      if q == last.0.parts {
        assert more[|files|].0.parts == q;
      } else {
        var i :| 0 <= i < |files| && files[i].0.parts == q;
        assert more[i].0.parts == q;
      }
    }
  }

  lemma NotYet(w: World, files: seq<(RawPath, string)>, n: nat)
    requires n <= |files| && Applicable(w, files)
    ensures Applicable(w, files[..n])
  {
    forall p | p in PartsOf(files[..n]) ensures p in PartsOf(files) {
      var i :| 0 <= i < n && files[..n][i].0.parts == p;
      assert files[i].0.parts == p;
    }
  }

  // What the bundle holds: for every path of the candidate, the content in the verified tree.
  ghost predicate Packages(files: seq<(RawPath, string)>, tree: map<Path, string>, packed: map<RawPath, string>) {
    packed.Keys == RawsOf(files) && Copies(tree, packed)
  }

  function RawsOf(files: seq<(RawPath, string)>): set<RawPath> {
    set f | f in files :: f.0
  }

  predicate Copies(tree: map<Path, string>, packed: map<RawPath, string>) {
    forall raw :: raw in packed ==> raw.parts in tree && packed[raw] == tree[raw.parts]
  }

  // _read_verified_candidate; the order of the files does not matter
  method ReadVerified(w: World, files: seq<(RawPath, string)>, tree: map<Path, string>) returns (packed: map<RawPath, string>)
    requires IsAttempt(w, files, tree)
    ensures Packages(files, tree, packed)
  {
    hide IsAttempt;
    packed := map[];
    for i := 0 to |files|
      invariant packed.Keys == RawsOf(files[..i]) && Copies(tree, packed)
    {
      IsThere(w, files, tree, i);
      packed := packed[files[i].0 := tree[files[i].0.parts]];
      assert files[..i + 1] == files[..i] + [files[i]];
    }
    assert files[..|files|] == files;
  }

  lemma IsThere(w: World, files: seq<(RawPath, string)>, tree: map<Path, string>, i: nat)
    requires IsAttempt(w, files, tree) && i < |files|
    ensures files[i].0.parts in tree
  {
    assert files[i].0.parts in PartsOf(files);
  }

  // ---- What a run may look like ------------------------------------------------------------------------------------

  const Header: seq<TraceEvent> := [RunCreated, CriteriaCreated, PlanCreated]

  ghost predicate IsPlan(w: World, k: nat, items: seq<Planned>) {
    PlanFits(w.policy, AllOffers(w.policy, w.candidate(k).tests, w.candidate(k).smoke), Plan(items))
  }

  predicate Exits0(results: seq<Verdict>) {
    forall i :: 0 <= i < |results| ==> results[i].exitCode == 0
  }

  predicate RequiredExit0(results: seq<Verdict>) {
    forall i :: 0 <= i < |results| && results[i].item.required ==> results[i].exitCode == 0
  }

  // One result for every planned command, in order.
  ghost predicate Judges(w: World, k: nat, results: seq<Verdict>) {
    IsPlan(w, k, seq(|results|, i requires 0 <= i < |results| => results[i].item))
  }

  ghost predicate IsStaging(w: World, e: TraceEvent, k: nat) {
    e.SandboxStaging? && e.repair == k && IsAttempt(w, w.candidate(k).files, e.tree)
  }

  ghost predicate IsVerdict(w: World, e: TraceEvent, k: nat, passed: bool) {
    && e.VerificationCompleted? && e.repair == k && Judges(w, k, e.results)
    && e.passed == passed == Exits0(e.results) && e.requiredPassed == RequiredExit0(e.results)
  }

  // k rounds that failed and were repaired.
  ghost predicate Repaired(w: World, es: seq<TraceEvent>, k: nat) {
    if k == 0 then es == []
    else
      && |es| >= 3 && Repaired(w, es[..|es| - 3], k - 1)
      && IsStaging(w, es[|es| - 3], k - 1) && IsVerdict(w, es[|es| - 2], k - 1, false) && es[|es| - 1] == RepairCreated(k)
  }

  // The start of a round.
  ghost predicate Opens(w: World, es: seq<TraceEvent>, k: nat) {
    && |es| <= 2
    && (|es| >= 1 ==> IsStaging(w, es[0], k))
    && (|es| == 2 ==> es[1].VerificationCompleted? && IsVerdict(w, es[1], k, es[1].passed))
  }

  function Limit(w: World): nat {
    if w.maxRepairs < 0 then 0 else w.maxRepairs
  }

  // Where a run stands after n events of completed rounds: k repairs, and a round just begun.
  ghost predicate Unfinished(w: World, es: seq<TraceEvent>, n: nat, k: nat) {
    n <= |es| && k <= Limit(w) && Repaired(w, es[..n], k) && Opens(w, es[n..], k)
  }

  ghost predicate Blocked(w: World, es: seq<TraceEvent>) {
    && es != [] && es[|es| - 1] == RunBlocked
    && Interrupted(w, es[..|es| - 1])
  }

  ghost predicate Concluded(w: World, es: seq<TraceEvent>, k: nat, passed: bool) {
    && |es| >= 3 && k <= Limit(w) && Repaired(w, es[..|es| - 3], k)
    && IsStaging(w, es[|es| - 3], k) && IsVerdict(w, es[|es| - 2], k, passed)
  }

  ghost predicate FailedRun(w: World, es: seq<TraceEvent>) {
    Concluded(w, es, Limit(w), false) && es[|es| - 1] == RunFailed(Limit(w))
  }

  ghost predicate Delivered(w: World, es: seq<TraceEvent>, k: nat, bundle: Bundle) {
    && Concluded(w, es, k, true) && es[|es| - 1] == BundleCreated
    && bundle.results == es[|es| - 2].results
    && Packages(w.candidate(k).files, es[|es| - 3].tree, bundle.files)
  }

  ghost predicate Ends(w: World, es: seq<TraceEvent>, bundle: Option<Bundle>) {
    if bundle.Some? then exists k: nat :: Delivered(w, es, k, bundle.value) else FailedRun(w, es) || Blocked(w, es)
  }

  ghost predicate Interrupted(w: World, es: seq<TraceEvent>) {
    exists n: nat, k: nat :: Unfinished(w, es, n, k)
  }

  // ---- What that says ----------------------------------------------------------------------------------------------

  predicate IsEnding(e: TraceEvent) {
    e.BundleCreated? || e.RunFailed? || e.RunBlocked?
  }

  function Endings(es: seq<TraceEvent>): nat {
    if es == [] then 0 else Endings(es[..|es| - 1]) + if IsEnding(es[|es| - 1]) then 1 else 0
  }

  function Verifications(es: seq<TraceEvent>): nat {
    if es == [] then 0 else Verifications(es[..|es| - 1]) + if es[|es| - 1].VerificationCompleted? then 1 else 0
  }

  lemma CountOne(es: seq<TraceEvent>, e: TraceEvent)
    ensures Endings(es + [e]) == Endings(es) + if IsEnding(e) then 1 else 0
    ensures Verifications(es + [e]) == Verifications(es) + if e.VerificationCompleted? then 1 else 0
  {
    assert (es + [e])[..|es|] == es;
  }

  lemma {:induction false} RepairedCounts(w: World, es: seq<TraceEvent>, k: nat)
    requires Repaired(w, es, k)
    ensures Endings(es) == 0 && Verifications(es) == k
  {
    hide IsAttempt, Judges, Exits0, RequiredExit0;
    if k > 0 {
      var n := |es| - 3;
      RepairedCounts(w, es[..n], k - 1);
      CountOne(es[..n], es[n]);
      CountOne(es[..n] + [es[n]], es[n + 1]);
      CountOne(es[..n] + [es[n]] + [es[n + 1]], es[n + 2]);
      assert es == es[..n] + [es[n]] + [es[n + 1]] + [es[n + 2]];
      hide Endings, Verifications;
    }
  }

  lemma UnfinishedCounts(w: World, es: seq<TraceEvent>, n: nat, k: nat)
    requires Unfinished(w, es, n, k)
    ensures Endings(es) == 0 && k <= Limit(w) && Verifications(es) == k + if |es| == n + 2 then 1 else 0
  {
    hide IsAttempt, Judges, Exits0, RequiredExit0;
    RepairedCounts(w, es[..n], k);
    if |es| > n {
      CountOne(es[..n], es[n]);
      assert es[n..][0] == es[n];
      if |es| > n + 1 {
        CountOne(es[..n] + [es[n]], es[n + 1]);
        assert es[n..][1] == es[n + 1];
        assert es == es[..n] + [es[n]] + [es[n + 1]];
      } else {
        assert es == es[..n] + [es[n]];
      }
    } else {
      assert es == es[..n];
    }
    hide Endings, Verifications;
  }

  lemma ConcludedCounts(w: World, es: seq<TraceEvent>, k: nat, passed: bool)
    requires Concluded(w, es, k, passed)
    ensures Unfinished(w, es[..|es| - 1], |es| - 3, k)
    ensures Endings(es[..|es| - 1]) == 0 && k <= Limit(w) && Verifications(es[..|es| - 1]) == k + 1
  {
    hide IsAttempt, Judges, Exits0, RequiredExit0;
    var n := |es| - 3;
    var front := es[..|es| - 1];
    assert front[..n] == es[..n] && front[n..] == [es[n], es[n + 1]];
    UnfinishedCounts(w, front, n, k);
    hide Endings, Verifications;
  }

  // A run that returns has exactly one ending, its last event; it verified at most Limit + 1 times, and exactly that
  // often when it ran out of repairs.
  lemma OneEnding(w: World, es: seq<TraceEvent>, bundle: Option<Bundle>)
    requires Ends(w, es, bundle)
    ensures es != [] && IsEnding(es[|es| - 1]) && Endings(es) == 1 && Verifications(es) <= Limit(w) + 1
    ensures bundle.Some? <==> es[|es| - 1] == BundleCreated
    ensures es[|es| - 1].RunFailed? ==> Verifications(es) == Limit(w) + 1
  {
    hide IsAttempt, Judges, Exits0, RequiredExit0, Packages, Unfinished, Repaired, IsStaging, IsVerdict;
    var front := es[..|es| - 1];
    assert es == front + [es[|es| - 1]];
    CountOne(front, es[|es| - 1]);
    hide Endings, Verifications;
    if bundle.Some? {
      var k: nat :| Delivered(w, es, k, bundle.value);
      ConcludedCounts(w, es, k, true);
    } else if FailedRun(w, es) {
      ConcludedCounts(w, es, Limit(w), false);
    } else {
      var n: nat, k: nat :| Unfinished(w, front, n, k);
      UnfinishedCounts(w, front, n, k);
    }
  }

  // A bundle holds, for each path of the last candidate, what was staged for the last round, and every trusted command
  // ran in that round and exited with zero, as did every suggested one.
  lemma BundleWasVerified(w: World, es: seq<TraceEvent>, bundle: Bundle, command: Command)
    requires Ends(w, es, Some(bundle)) && command in w.policy.required + w.policy.smoke
    ensures forall i :: 0 <= i < |bundle.results| ==> bundle.results[i].exitCode == 0
    ensures forall i :: 0 <= i < |bundle.results| ==> Fits(w.policy, bundle.results[i].item.command)
    ensures exists i :: 0 <= i < |bundle.results| && bundle.results[i].item.command == command && bundle.results[i].item.required
    ensures es[|es| - 3].SandboxStaging?
    ensures forall raw :: raw in bundle.files ==>
              raw.parts in es[|es| - 3].tree && bundle.files[raw] == es[|es| - 3].tree[raw.parts]
  {
    var k: nat :| Delivered(w, es, k, bundle);
    var results := bundle.results;
    var items := seq(|results|, i requires 0 <= i < |results| => results[i].item);
    var candidate := w.candidate(k);
    FitsInPlan(w.policy, AllOffers(w.policy, candidate.tests, candidate.smoke));
    forall i | 0 <= i < |results| ensures Fits(w.policy, results[i].item.command) {
      assert results[i].item == items[i];
    }
    var i := TrustedStaysRequired(w.policy, candidate.tests, candidate.smoke, Plan(items), command);
    assert results[i].item == items[i];
  }

  // ---- The run ---------------------------------------------------------------------------------------------------

  // One of these calls or appends ended like this.
  predicate Threw(w: World, calls: nat, calls': nat, appends: nat, appends': nat, flow: Flow) {
    || (exists i: nat :: calls <= i < calls' && w.call(i) == flow)
    || (exists i: nat :: appends <= i < appends' && w.append(i) == flow)
  }

  // Nothing is swallowed and nothing made up: work that goes on had no failing call or append, and an exception comes
  // from one of them, or is a refusal of the workflow's own.
  ghost predicate Caused(w: World, calls: nat, calls': nat, appends: nat, appends': nat, flow: Flow) {
    && calls <= calls' && appends <= appends'
    && match flow
       case Go =>
         && (forall i: nat :: calls <= i < calls' ==> w.call(i).Go?)
         && (forall i: nat :: appends <= i < appends' ==> w.append(i).Go?)
       case Unhandled => Threw(w, calls, calls', appends, appends', Unhandled)
       case Handled => Threw(w, calls, calls', appends, appends', Handled) || exists k: nat :: k <= Limit(w) && Refuses(w, k)
  }

  predicate HasSecret(w: World, items: seq<Planned>) {
    exists i, n :: 0 <= i < |items| && 0 <= n < |items[i].command| && w.secret(items[i].command[n])
  }

  // The workflow itself refuses the candidate: its paths, its commands, or a secret among their arguments.
  ghost predicate Refuses(w: World, k: nat) {
    || !Applicable(w, w.candidate(k).files)
    || !Plans(w.policy, AllOffers(w.policy, w.candidate(k).tests, w.candidate(k).smoke))
    || exists items :: IsPlan(w, k, items) && HasSecret(w, items)
  }

  class CodingWorkflow {
    const w: World
    var calls: nat
    var appends: nat
    var trace: seq<TraceEvent>

    constructor (w: World)
      ensures this.w == w && trace == [] && calls == 0 && appends == 0
    {
      this.w, calls, appends, trace := w, 0, 0, [];
    }

    twostate predicate Escapes(flow: Flow)
      reads this
    {
      Caused(w, old(calls), calls, old(appends), appends, flow)
    }

    // A call into the provider, the sandbox, the delivery or the file system.
    method Call() returns (flow: Flow)
      modifies this`calls
      ensures flow == w.call(old(calls)) && calls == old(calls) + 1 && Escapes(flow)
    {
      flow := w.call(calls);
      calls := calls + 1;
    }

    method Append(e: TraceEvent) returns (flow: Flow)
      modifies this`appends, this`trace
      ensures flow == w.append(old(appends)) && appends == old(appends) + 1 && Escapes(flow)
      ensures trace == if flow.Go? then old(trace) + [e] else old(trace)
    {
      flow := w.append(appends);
      appends := appends + 1;
      if flow.Go? {
        trace := trace + [e];
      }
    }

    // The commands of a plan, one after the other, in the staged sandbox.
    method RunCommands(k: nat, items: seq<Planned>) returns (flow: Flow, results: seq<Verdict>)
      requires IsPlan(w, k, items) && k <= Limit(w)
      modifies this`calls
      ensures Escapes(flow)
      ensures flow.Go? ==> |results| == |items| && forall i :: 0 <= i < |items| ==> results[i].item == items[i]
    {
      hide IsPlan;
      flow, results := Go, [];
      for i := 0 to |items|
        invariant Escapes(Go) && |results| == i && forall n :: 0 <= n < i ==> results[n].item == items[n]
      {
        if exists n :: 0 <= n < |items[i].command| && w.secret(items[i].command[n]) {
          assert HasSecret(w, items) && Refuses(w, k);
          return Handled, results;
        }
        flow := Call();
        if !flow.Go? {
          return;
        }
        results := results + [Verdict(items[i], w.exitCode(k, i))];
      }
      flow := Go;
    }

    // _verify_attempt: the sandbox is closed on every way out.
    method VerifyAttempt(k: nat, tree: map<Path, string>, items: seq<Planned>) returns (flow: Flow, results: seq<Verdict>)
      requires IsPlan(w, k, items) && k <= Limit(w)
      modifies this
      ensures Escapes(flow)
      ensures trace == old(trace) || trace == old(trace) + [SandboxStaging(k, tree)]
      ensures flow.Go? ==> trace == old(trace) + [SandboxStaging(k, tree)]
      ensures flow.Go? ==> |results| == |items| && forall i :: 0 <= i < |items| ==> results[i].item == items[i]
    {
      results := [];
      flow := Call();
      hide IsPlan, Refuses;
      if !flow.Go? {
        return;
      }
      flow, results := UseSandbox(k, tree, items);
      var closed := Call();
      if !closed.Go? {
        flow := closed;
      }
    }

    method UseSandbox(k: nat, tree: map<Path, string>, items: seq<Planned>) returns (flow: Flow, results: seq<Verdict>)
      requires IsPlan(w, k, items) && k <= Limit(w)
      modifies this
      ensures Escapes(flow)
      ensures trace == old(trace) || trace == old(trace) + [SandboxStaging(k, tree)]
      ensures flow.Go? ==> trace == old(trace) + [SandboxStaging(k, tree)]
      ensures flow.Go? ==> |results| == |items| && forall i :: 0 <= i < |items| ==> results[i].item == items[i]
    {
      hide IsPlan, Refuses;
      results := [];
      flow := Call();
      if flow.Go? {
        flow := Append(SandboxStaging(k, tree));
      }
      if flow.Go? {
        flow := Call();
      }
      if flow.Go? {
        flow, results := RunCommands(k, items);
      }
    }

    // One round on a fresh copy of the source: write the candidate, plan, verify, record.
    method Round(k: nat) returns (flow: Flow, passed: bool, results: seq<Verdict>, tree: map<Path, string>, ghost es: seq<TraceEvent>)
      requires WorldFits(w) && k <= Limit(w)
      modifies this
      ensures Escapes(flow)
      ensures trace == old(trace) + es && Opens(w, es, k)
      ensures flow.Go? ==> |es| == 2 && IsStaging(w, es[0], k) && es[0].tree == tree
      ensures flow.Go? ==> IsVerdict(w, es[1], k, passed) && es[1].results == results
    {
      hide IsAttempt, IsPlan, Refuses;
      passed, results, tree, es := false, [], map[], [];
      flow, tree := WriteAttempt(k);
      if !flow.Go? {
        return;
      }
      flow := Call();
      if !flow.Go? {
        return;
      }
      var items;
      flow, items := PlanAttempt(k);
      if !flow.Go? {
        return;
      }
      flow, results := VerifyAttempt(k, tree, items);
      es := if |trace| == |old(trace)| then [] else [SandboxStaging(k, tree)];
      if !flow.Go? {
        return;
      }
      assert items == seq(|results|, i requires 0 <= i < |results| => results[i].item);
      ghost var verdict;
      flow, passed, verdict := Judge(k, results);
      if flow.Go? {
        es := es + [verdict];
      }
    }

    // A fresh copy of the source with the candidate written over it.
    method WriteAttempt(k: nat) returns (flow: Flow, tree: map<Path, string>)
      requires WorldFits(w) && k <= Limit(w)
      modifies this`calls
      ensures Escapes(flow) && (flow.Go? ==> IsAttempt(w, w.candidate(k).files, tree))
    {
      hide IsAttempt, Applicable, NoClash;
      tree := map[];
      flow := Call();
      if flow.Go? {
        flow, tree := ApplyCandidate(w, w.candidate(k).files);
        assert !flow.Go? ==> Refuses(w, k);
      }
    }

    method PlanAttempt(k: nat) returns (flow: Flow, items: seq<Planned>)
      requires WorldFits(w) && k <= Limit(w)
      ensures Escapes(flow) && (flow.Go? ==> IsPlan(w, k, items))
    {
      hide PlanFits;
      var plan := MakePlan(w.policy, w.candidate(k).tests, w.candidate(k).smoke);
      if plan.Refused? {
        PlanRefused(w, k, plan);
        return Handled, [];
      }
      flow, items := Go, plan.items;
    }

    // A round passes if every command exited with zero, required or not.
    method Judge(k: nat, results: seq<Verdict>) returns (flow: Flow, passed: bool, ghost verdict: TraceEvent)
      requires Judges(w, k, results)
      modifies this`appends, this`trace
      ensures Escapes(flow) && trace == old(trace) + if flow.Go? then [verdict] else []
      ensures IsVerdict(w, verdict, k, passed) && verdict.results == results
    {
      hide Judges;
      var requiredPassed := forall i :: 0 <= i < |results| && results[i].item.required ==> results[i].exitCode == 0;
      passed := requiredPassed && forall i :: 0 <= i < |results| ==> results[i].exitCode == 0;
      verdict := VerificationCompleted(k, passed, requiredPassed, results);
      flow := Append(VerificationCompleted(k, passed, requiredPassed, results));
    }

    // The repair loop. It ends with a round that passed, or with the last one the budget allows, which is recorded.
    method Repair() returns (flow: Flow, passed: bool, attempts: nat, results: seq<Verdict>, tree: map<Path, string>, ghost es: seq<TraceEvent>)
      requires WorldFits(w)
      modifies this
      ensures Escapes(flow)
      ensures trace == old(trace) + es
      ensures !flow.Go? ==> Interrupted(w, es)
      ensures flow.Go? && passed ==> Concluded(w, es + [BundleCreated], attempts, true)
      ensures flow.Go? && passed ==> es[|es| - 1].results == results && es[|es| - 2].tree == tree
      ensures flow.Go? && !passed ==> FailedRun(w, es)
    {
      hide IsStaging, IsVerdict, Opens, Concluded, FailedRun, Interrupted, Repaired;
      attempts, es := 0, [];
      NothingRepaired(w);
      while true
        invariant Escapes(Go) && trace == old(trace) + es && attempts <= Limit(w) && Repaired(w, es, attempts)
        decreases Limit(w) - attempts
      {
        ghost var done, begun := es, [];
        flow, passed, results, tree, begun := Round(attempts);
        es := done + begun;
        BeginsRound(w, done, begun, attempts);
        if !flow.Go? {
          return;
        }
        if passed {
          EndsRound(w, done, begun, attempts, true, BundleCreated);
          return;
        }
        if attempts >= w.maxRepairs {
          EndsRound(w, done, begun, attempts, false, RunFailed(attempts));
          flow := Append(RunFailed(attempts));
          if flow.Go? {
            es := es + [RunFailed(attempts)];
          }
          return;
        }
        flow := Call();
        if !flow.Go? {
          return;
        }
        flow := Append(RepairCreated(attempts + 1));
        if !flow.Go? {
          return;
        }
        EndsRound(w, done, begun, attempts, false, RepairCreated(attempts + 1));
        attempts := attempts + 1;
        es := es + [RepairCreated(attempts)];
      }
    }

    method Deliver(attempts: nat, results: seq<Verdict>, tree: map<Path, string>) returns (flow: Flow, bundle: Bundle)
      requires IsAttempt(w, w.candidate(attempts).files, tree)
      modifies this
      ensures Escapes(flow)
      ensures trace == old(trace) + if flow.Go? then [BundleCreated] else []
      ensures bundle.results == results && Packages(w.candidate(attempts).files, tree, bundle.files)
    {
      hide IsAttempt, Packages;
      var files := w.candidate(attempts).files;
      var packed := ReadVerified(w, files, tree);
      bundle := Bundle(packed, results);
      flow := Call();
      if flow.Go? {
        flow := Call();
      }
      if flow.Go? {
        flow := Append(BundleCreated);
      }
    }

    // What the handlers guard. made: the run directory was created.
    method Guarded() returns (flow: Flow, bundle: Option<Bundle>, made: bool, ghost es: seq<TraceEvent>)
      requires WorldFits(w)
      modifies this
      ensures Escapes(flow)
      ensures trace == old(trace) + es
      ensures if !flow.Go? then Interrupted(w, es) else if bundle.Some? then exists k: nat :: Delivered(w, es, k, bundle.value) else FailedRun(w, es)
      ensures made <==> w.call(old(calls)).Go? && w.call(old(calls) + 1).Go?
      ensures !made ==> flow == if w.call(old(calls)).Go? then w.call(old(calls) + 1) else w.call(old(calls))
      ensures made && !w.call(old(calls) + 2).Go? ==> flow == w.call(old(calls) + 2)
      ensures !made || !w.call(old(calls) + 2).Go? ==> es == [] && appends == old(appends)
    {
      hide IsStaging, IsVerdict, Concluded, FailedRun, Interrupted, Packages, Refuses;
      bundle, made, es := None, false, [];
      NothingRepaired(w);
      flow := Call();
      if !flow.Go? {
        return;
      }
      flow := Call();
      if !flow.Go? {
        return;
      }
      made := true;
      flow := Call();
      if !flow.Go? {
        return;
      }
      flow := Call();
      if !flow.Go? {
        return;
      }
      flow, bundle, es := RepairAndDeliver();
    }

    method RepairAndDeliver() returns (flow: Flow, bundle: Option<Bundle>, ghost es: seq<TraceEvent>)
      requires WorldFits(w)
      modifies this
      ensures Escapes(flow)
      ensures trace == old(trace) + es
      ensures if !flow.Go? then Interrupted(w, es) else if bundle.Some? then exists k: nat :: Delivered(w, es, k, bundle.value) else FailedRun(w, es)
    {
      hide IsStaging, IsVerdict, Concluded, FailedRun, Interrupted, Packages, Refuses;
      bundle := None;
      var passed, attempts, results, tree;
      flow, passed, attempts, results, tree, es := Repair();
      if !flow.Go? || !passed {
        return;
      }
      PassedRound(w, es, attempts);
      var packed;
      flow, packed := Deliver(attempts, results, tree);
      if flow.Go? {
        bundle := Some(packed);
        es := es + [BundleCreated];
        assert Delivered(w, es, attempts, packed);
      }
    }

    // The handlers: what was raised behind them becomes a recorded block exactly when it is handled and the record
    // succeeds; it escapes when it is not handled, or when the record raises.
    method Handle() returns (r: Result, made: bool, ghost raised: Flow, ghost es: seq<TraceEvent>)
      requires WorldFits(w)
      modifies this
      ensures trace == old(trace) + es && appends >= (if raised.Handled? then 1 else 0)
      ensures Caused(w, old(calls), calls, old(appends), appends - (if raised.Handled? then 1 else 0), raised)
      ensures made <==> w.call(old(calls)).Go? && w.call(old(calls) + 1).Go?
      ensures !made ==> raised == if w.call(old(calls)).Go? then w.call(old(calls) + 1) else w.call(old(calls))
      ensures made && !w.call(old(calls) + 2).Go? ==> raised == w.call(old(calls) + 2)
      ensures raised.Handled? && (!made || !w.call(old(calls) + 2).Go?) ==> appends == old(appends) + 1
      ensures r.Returned? ==> Ends(w, es, r.bundle)
      ensures raised.Go? ==> r.Returned? && es != [] && !es[|es| - 1].RunBlocked?
      ensures raised.Unhandled? ==> r == Escaped(Uncaught) && Interrupted(w, es)
      ensures raised.Handled? && w.append(appends - 1).Go? ==> r == Returned(None) && Blocked(w, es)
      ensures raised.Handled? && !w.append(appends - 1).Go? ==> r == Escaped(NotRecorded) && Interrupted(w, es)
    {
      hide Interrupted, Delivered, FailedRun, Refuses;
      var flow, bundle;
      flow, bundle, made, es := Guarded();
      raised := flow;
      if flow.Go? {
        r := Returned(bundle);
        LastIsNoBlock(w, es, bundle);
      } else if flow.Unhandled? {
        r := Escaped(Uncaught);
      } else {
        var recorded := Append(RunBlocked);
        if recorded.Go? {
          assert (es + [RunBlocked])[..|es|] == es;
          es := es + [RunBlocked];
          r := Returned(None);
        } else {
          r := Escaped(NotRecorded);
        }
      }
    }

    // execute. inner is how the run ends but for the removal of its directory, raised what the handlers were given.
    // A run has one ending, its last event, exactly when inner returns; otherwise it has none. It escapes too early
    // exactly when the prompt or one of the first three appends raises, uncaught exactly on an unhandled exception,
    // not recorded exactly when the append of the block raises, and from the cleanup exactly when that raises.
    method Execute() returns (r: Result, ghost run: seq<TraceEvent>, ghost raised: Flow, ghost inner: Result)
      requires WorldFits(w)
      modifies this
      ensures trace == old(trace) + run
      ensures inner == Escaped(TooEarly) <==>
                !w.prompt.Go? || !w.append(old(appends)).Go? || !w.append(old(appends) + 1).Go? || !w.append(old(appends) + 2).Go?
      ensures inner == Escaped(TooEarly) ==> r == inner && |run| < 3 && run == Header[..|run|]
      ensures inner != Escaped(TooEarly) ==>
                && |run| >= 3 && run[..3] == Header && appends >= old(appends) + 3
                && Caused(w, old(calls), calls, old(appends), appends - (if raised.Handled? then 1 else 0), raised)
      ensures inner != Escaped(TooEarly) ==>
                && (raised.Go? ==> inner.Returned? && Ends(w, run[3..], inner.bundle) && !run[|run| - 1].RunBlocked?)
                && (raised.Unhandled? ==> inner == Escaped(Uncaught) && Interrupted(w, run[3..]))
                && (raised.Handled? && w.append(appends - 1).Go? ==> inner == Returned(None) && Blocked(w, run[3..]))
                && (raised.Handled? && !w.append(appends - 1).Go? ==> inner == Escaped(NotRecorded) && Interrupted(w, run[3..]))
      ensures inner != Escaped(TooEarly) ==>
                var made := w.call(old(calls)).Go? && w.call(old(calls) + 1).Go?;
                && r == (if made && !w.cleanup.Go? then Escaped(CleanupFailed) else inner)
                && (!made ==> raised == if w.call(old(calls)).Go? then w.call(old(calls) + 1) else w.call(old(calls)))
                && (made && !w.call(old(calls) + 2).Go? ==> raised == w.call(old(calls) + 2))
                && (raised.Handled? && (!made || !w.call(old(calls) + 2).Go?) ==> appends == old(appends) + 4)
      ensures Endings(run) == if inner.Returned? then 1 else 0
      ensures inner.Returned? ==> IsEnding(run[|run| - 1])
    {
      hide Interrupted, Ends, Delivered, FailedRun, Blocked, Refuses, Endings;
      raised, run, inner := Go, [], Escaped(TooEarly);
      NoEndingSoFar();
      if !w.prompt.Go? {
        return Escaped(TooEarly), run, raised, inner;
      }
      var flow := Append(RunCreated);
      if !flow.Go? {
        return Escaped(TooEarly), run, raised, inner;
      }
      run := [RunCreated];
      flow := Append(CriteriaCreated);
      if !flow.Go? {
        return Escaped(TooEarly), run, raised, inner;
      }
      run := [RunCreated, CriteriaCreated];
      flow := Append(PlanCreated);
      if !flow.Go? {
        return Escaped(TooEarly), run, raised, inner;
      }
      ghost var es;
      var made;
      r, made, raised, es := Handle();
      run, inner := Header + es, r;
      assert run[3..] == es;
      EndingsAfterHeader(w, es, inner);
      if made && !w.cleanup.Go? {
        r := Escaped(CleanupFailed);
      }
    }

    // So for the handled exception families there is exactly one ending, its last event: if neither the prompt nor an
    // append nor the cleanup raises, and no call raises anything else, the run returns.
    method ExecuteHandled() returns (r: Result, ghost run: seq<TraceEvent>)
      requires WorldFits(w) && w.prompt.Go? && w.cleanup.Go?
      requires forall n: nat :: w.append(n).Go? && !w.call(n).Unhandled?
      modifies this
      ensures trace == old(trace) + run && r.Returned?
      ensures |run| >= 3 && run[..3] == Header && Ends(w, run[3..], r.bundle)
      ensures Endings(run) == 1 && IsEnding(run[|run| - 1])
    {
      hide Interrupted, Delivered, FailedRun, Refuses, Endings, IsEnding;
      ghost var raised, inner;
      r, run, raised, inner := Execute();
    }
  }

  // ---- The four ways out, each with a run that takes it ------------------------------------------------------------

  // An exception of a handled family, raised by the very first append: no ending, no event at all.
  method EscapesTooEarly(w: World) returns (r: Result, ghost run: seq<TraceEvent>)
    requires WorldFits(w) && w.append(0) == Handled
    ensures r == Escaped(TooEarly) && Endings(run) == 0
  {
    var workflow := new CodingWorkflow(w);
    ghost var raised, inner;
    r, run, raised, inner := workflow.Execute();
  }

  // The directory of the run cannot be made, for a reason the handlers do not know.
  method EscapesUncaught(w: World) returns (r: Result, ghost run: seq<TraceEvent>)
    requires WorldFits(w) && w.prompt.Go? && (forall n: nat :: w.append(n).Go?) && w.call(0) == Unhandled
    ensures r == Escaped(Uncaught) && Endings(run) == 0
  {
    var workflow := new CodingWorkflow(w);
    ghost var raised, inner;
    r, run, raised, inner := workflow.Execute();
  }

  // The handlers know the reason, but recording the block raises.
  method EscapesNotRecorded(w: World) returns (r: Result, ghost run: seq<TraceEvent>)
    requires WorldFits(w) && w.prompt.Go? && w.call(0) == Handled
    requires w.append(0).Go? && w.append(1).Go? && w.append(2).Go? && w.append(3) == Handled
    ensures r == Escaped(NotRecorded) && Endings(run) == 0
  {
    var workflow := new CodingWorkflow(w);
    ghost var raised, inner;
    r, run, raised, inner := workflow.Execute();
  }

  // The snapshot of the project is refused and the block recorded; then the directory cannot be removed.
  method EscapesFromCleanup(w: World) returns (r: Result, ghost run: seq<TraceEvent>)
    requires WorldFits(w) && w.prompt.Go? && (forall n: nat :: w.append(n).Go?)
    requires w.call(0).Go? && w.call(1).Go? && w.call(2) == Handled && w.cleanup == Handled
    ensures r == Escaped(CleanupFailed) && Endings(run) == 1 && run[|run| - 1] == RunBlocked
  {
    var workflow := new CodingWorkflow(w);
    ghost var raised, inner;
    r, run, raised, inner := workflow.Execute();
  }

  lemma NoEndingSoFar()
    ensures Endings([]) == 0 && Endings([RunCreated]) == 0 && Endings([RunCreated, CriteriaCreated]) == 0
  {
    CountOne([], RunCreated);
    CountOne([RunCreated], CriteriaCreated);
    assert [] + [RunCreated] == [RunCreated] && [RunCreated] + [CriteriaCreated] == [RunCreated, CriteriaCreated];
  }

  lemma {:induction false} EndingsAdd(a: seq<TraceEvent>, b: seq<TraceEvent>)
    ensures Endings(a + b) == Endings(a) + Endings(b)
    decreases |b|
  {
    if b == [] {
      assert a + b == a;
    } else {
      EndingsAdd(a, b[..|b| - 1]);
      assert (a + b)[..|a + b| - 1] == a + b[..|b| - 1];
    }
  }

  lemma EndingsAfterHeader(w: World, es: seq<TraceEvent>, inner: Result)
    requires inner.Returned? ==> Ends(w, es, inner.bundle)
    requires inner.Escaped? ==> Interrupted(w, es)
    ensures Endings(Header + es) == if inner.Returned? then 1 else 0
    ensures inner.Returned? ==> es != [] && IsEnding(es[|es| - 1])
  {
    hide Ends, Interrupted, Unfinished;
    EndingsAdd(Header, es);
    NoEndingSoFar();
    CountOne([RunCreated, CriteriaCreated], PlanCreated);
    assert Header == [RunCreated, CriteriaCreated] + [PlanCreated];
    hide Endings;
    if inner.Returned? {
      OneEnding(w, es, inner.bundle);
    } else {
      InterruptedHasNone(w, es);
    }
  }

  lemma InterruptedHasNone(w: World, es: seq<TraceEvent>)
    requires Interrupted(w, es)
    ensures Endings(es) == 0
  {
    var n: nat, k: nat :| Unfinished(w, es, n, k);
    UnfinishedCounts(w, es, n, k);
  }

  lemma LastIsNoBlock(w: World, es: seq<TraceEvent>, bundle: Option<Bundle>)
    requires if bundle.Some? then exists k: nat :: Delivered(w, es, k, bundle.value) else FailedRun(w, es)
    ensures Ends(w, es, bundle) && es != [] && !es[|es| - 1].RunBlocked?
  {
    hide IsStaging, IsVerdict, Repaired, Packages;
  }

  lemma PlanRefused(w: World, k: nat, plan: PlanResult)
    requires plan.Refused? && PlanFits(w.policy, AllOffers(w.policy, w.candidate(k).tests, w.candidate(k).smoke), plan)
    ensures Refuses(w, k)
  {
  }

  lemma PassedRound(w: World, es: seq<TraceEvent>, k: nat)
    requires Concluded(w, es + [BundleCreated], k, true)
    ensures |es| >= 2 && Interrupted(w, es) && es[|es| - 2].SandboxStaging?
    ensures IsAttempt(w, w.candidate(k).files, es[|es| - 2].tree)
  {
    hide IsVerdict, IsAttempt;
    assert (es + [BundleCreated])[..|es|] == es;
    ConcludedCounts(w, es + [BundleCreated], k, true);
  }

  lemma NothingRepaired(w: World)
    ensures Repaired(w, [], 0) && Interrupted(w, [])
  {
    assert Unfinished(w, [], 0, 0);
  }

  lemma BeginsRound(w: World, done: seq<TraceEvent>, begun: seq<TraceEvent>, k: nat)
    requires Repaired(w, done, k) && k <= Limit(w) && Opens(w, begun, k)
    ensures Interrupted(w, done + begun)
  {
    assert (done + begun)[..|done|] == done && (done + begun)[|done|..] == begun;
    assert Unfinished(w, done + begun, |done|, k);
  }

  lemma EndsRound(w: World, done: seq<TraceEvent>, begun: seq<TraceEvent>, k: nat, passed: bool, next: TraceEvent)
    requires Repaired(w, done, k) && k <= Limit(w)
    requires |begun| == 2 && IsStaging(w, begun[0], k) && IsVerdict(w, begun[1], k, passed)
    ensures Concluded(w, done + begun + [next], k, passed)
    ensures !passed && next == RepairCreated(k + 1) ==> Repaired(w, done + begun + [next], k + 1)
    ensures !passed && next == RunFailed(k) && k >= w.maxRepairs ==> FailedRun(w, done + begun + [next])
  {
    hide IsStaging, IsVerdict;
    assert (done + begun + [next])[..|done|] == done;
    var es := done + begun + [next];
    assert es[|es| - 3] == begun[0] && es[|es| - 2] == begun[1] && es[|es| - 1] == next;
  }
}
