// Delegated subagents: reserved budget, concurrency and revocation (corvus/conversations.py).
//
// The runtime is single-threaded; each method below is the code between two await points. Runners spawn only while
// their run is executing and honour cancellation, and a parent waiting for its cancelled child is not cancelled again.
module Delegation {

  type ChatId = nat
  type RunId = nat
  type ChildId = nat  // children are numbered in the order in which they were admitted

  datatype ChildState = Waiting | Executing | Stopped
  datatype Child = Child(run: RunId, cost: real, state: ChildState, cancelled: bool)
  datatype Scope = Scope(reservedCost: real, subagentCount: nat, tasks: set<ChildId>)

  datatype Phase = Running | Ending
  datatype Turn = Turn(run: RunId, phase: Phase)

  // A revocation between its flip and its return: the children admitted before the flip, the scopes it still has to
  // visit, and the tasks it is waiting for. The epoch counts the grants before the flip.
  datatype Revocation = Revocation(mark: nat, epoch: nat, pending: set<RunId>, awaited: set<ChildId>)

  datatype Caller = MainRun(chat: ChatId) | Subagent(child: ChildId)
  datatype SpawnError =
    | RecursiveSpawn | PromptEmpty | PromptTooLong | CostNotPositive | SubagentsDisabled | CountLimit | BudgetLimit
  datatype SpawnResult = Admitted(child: ChildId) | Refused(error: SpawnError)

  datatype Policy = Policy(maxConcurrency: nat, maxPerRun: nat, maxCost: real, maxMessageChars: nat)

  // turns maps a chat to the run its scope belongs to; grants counts how often authority was granted.
  datatype State = State(
    enabled: bool, permits: int, children: seq<Child>, scopes: map<RunId, Scope>, turns: map<ChatId, Turn>,
    revocations: map<nat, Revocation>, grants: nat)

  // ---- Totals over the children ever admitted --------------------------------------------------------------------

  function CostOf(children: seq<Child>, run: RunId): real {
    if children == [] then 0.0
    else
      var last := children[|children| - 1];
      CostOf(children[..|children| - 1], run) + if last.run == run then last.cost else 0.0
  }

  function CountOf(children: seq<Child>, run: RunId): nat {
    if children == [] then 0
    else CountOf(children[..|children| - 1], run) + if children[|children| - 1].run == run then 1 else 0
  }

  function ExecutingOf(children: seq<Child>): nat {
    if children == [] then 0
    else ExecutingOf(children[..|children| - 1]) + if children[|children| - 1].state == Executing then 1 else 0
  }

  // Moving one child to another state leaves cost and count alone and shifts the number executing by that child.
  lemma {:induction false} StateChange(children: seq<Child>, c: ChildId, child: Child, run: RunId)
    requires c < |children| && child.run == children[c].run && child.cost == children[c].cost
    ensures
      var after := children[c := child];
      && CostOf(after, run) == CostOf(children, run)
      && CountOf(after, run) == CountOf(children, run)
      && ExecutingOf(after) + (if children[c].state == Executing then 1 else 0)
      == ExecutingOf(children) + (if child.state == Executing then 1 else 0)
  {
    var n := |children| - 1;
    var after := children[c := child];
    if c < n {
      StateChange(children[..n], c, child, run);
      assert after[..n] == children[..n][c := child];
    } else {
      assert after[..n] == children[..n];
    }
  }

  // Marking children as cancelled changes no total.
  lemma {:induction false} MarkingKeepsTotals(children: seq<Child>, after: seq<Child>, run: RunId)
    requires |after| == |children|
    requires forall c :: 0 <= c < |children| ==> after[c] == children[c].(cancelled := after[c].cancelled)
    ensures CostOf(after, run) == CostOf(children, run) && CountOf(after, run) == CountOf(children, run)
    ensures ExecutingOf(after) == ExecutingOf(children)
  {
    if children != [] {
      var n := |children| - 1;
      MarkingKeepsTotals(children[..n], after[..n], run);
    }
  }

  lemma {:induction false} NoneOf(children: seq<Child>, run: RunId)
    requires forall c :: 0 <= c < |children| ==> children[c].run != run
    ensures CostOf(children, run) == 0.0 && CountOf(children, run) == 0
  {
    if children != [] {
      NoneOf(children[..|children| - 1], run);
    }
  }

  // ---- Invariant -------------------------------------------------------------------------------------------------

  predicate Live(s: State, c: int) {
    0 <= c < |s.children| && s.children[c].state != Stopped
  }

  // Every run's books: exact totals within the limits, and only its own children on the task list.
  ghost predicate BooksFit(policy: Policy, s: State, run: RunId) {
    && run in s.scopes
    && s.scopes[run].reservedCost == CostOf(s.children, run) <= policy.maxCost
    && s.scopes[run].subagentCount == CountOf(s.children, run) <= policy.maxPerRun
    && (forall c :: c in s.scopes[run].tasks ==> c < |s.children| && s.children[c].run == run)
  }

  ghost predicate Reachable(s: State, run: RunId) {
    exists chat :: chat in s.turns && s.turns[chat].run == run
  }

  // A child reserved something. A live one is on the task list of its scope, and its scope is still some chat's.
  ghost predicate ChildFits(s: State, c: ChildId) {
    && c < |s.children|
    && s.children[c].cost > 0.0
    && s.children[c].run in s.scopes
    && (Live(s, c) ==> c in s.scopes[s.children[c].run].tasks && Reachable(s, s.children[c].run))
  }

  // A child admitted before the flip that still lives is awaited or in a scope yet to be visited.
  ghost predicate RevocationFits(s: State, r: Revocation) {
    && r.mark <= |s.children|
    && (forall c :: c < r.mark && Live(s, c) ==> c in r.awaited || s.children[c].run in r.pending)
    && (forall run :: run in r.pending ==> run in s.scopes)
    && (forall c :: c in r.awaited ==> c < |s.children| && (Live(s, c) ==> s.children[c].cancelled))
    && r.epoch <= s.grants
    && (r.epoch == s.grants ==> !s.enabled && |s.children| == r.mark)
  }

  ghost predicate Valid(policy: Policy, s: State) {
    && 0 <= s.permits && s.permits + ExecutingOf(s.children) == policy.maxConcurrency
    && (forall run :: run in s.scopes ==> BooksFit(policy, s, run))
    && (forall c :: 0 <= c < |s.children| ==> ChildFits(s, c))
    && (forall chat :: chat in s.turns ==> s.turns[chat].run in s.scopes)
    && (forall id :: id in s.revocations ==> RevocationFits(s, s.revocations[id]))
  }

  // The permits and books see a child only through its run, cost and state; everything else sees whether it lives.
  lemma SetChildKeeps(policy: Policy, s: State, c: ChildId, child: Child, permits: int)
    requires Valid(policy, s) && c < |s.children| && child == s.children[c].(state := child.state)
    requires s.children[c].state == Stopped ==> child.state == Stopped
    requires permits == s.permits + (if s.children[c].state == Executing then 1 else 0) - (if child.state == Executing then 1 else 0)
    requires 0 <= permits
    ensures Valid(policy, s.(children := s.children[c := child], permits := permits))
  {
    var s' := s.(children := s.children[c := child], permits := permits);
    StateChange(s.children, c, child, 0);
    forall run | run in s'.scopes ensures BooksFit(policy, s', run) {
      StateChange(s.children, c, child, run);
      assert BooksFit(policy, s, run);
    }
    forall d | 0 <= d < |s'.children| ensures ChildFits(s', d) {
      assert ChildFits(s, d);
      KeepReachable(s, s', s.children[d].run);
    }
    forall id | id in s'.revocations ensures RevocationFits(s', s'.revocations[id]) {
      assert RevocationFits(s, s.revocations[id]);
      assert forall d :: Live(s', d) ==> Live(s, d);
    }
  }

  lemma KeepReachable(s: State, s': State, run: RunId)
    requires s'.turns == s.turns
    ensures Reachable(s, run) <==> Reachable(s', run)
  {
  }

  // Cancelling a set of tasks, as _cancel_scope_tasks does.
  function Cancelled(children: seq<Child>, tasks: set<ChildId>): (r: seq<Child>)
    ensures |r| == |children|
    ensures forall c :: 0 <= c < |children| ==> r[c] == children[c].(cancelled := children[c].cancelled || c in tasks)
  {
    seq(|children|, c requires 0 <= c < |children| => children[c].(cancelled := children[c].cancelled || c in tasks))
  }

  lemma CancelKeeps(policy: Policy, s: State, tasks: set<ChildId>)
    requires Valid(policy, s)
    ensures Valid(policy, s.(children := Cancelled(s.children, tasks)))
  {
    var s' := s.(children := Cancelled(s.children, tasks));
    MarkingKeepsTotals(s.children, s'.children, 0);
    forall run | run in s'.scopes ensures BooksFit(policy, s', run) {
      MarkingKeepsTotals(s.children, s'.children, run);
      assert BooksFit(policy, s, run);
    }
    forall d | 0 <= d < |s'.children| ensures ChildFits(s', d) {
      assert ChildFits(s, d);
      KeepReachable(s, s', s.children[d].run);
    }
    forall id | id in s'.revocations ensures RevocationFits(s', s'.revocations[id]) {
      assert RevocationFits(s, s.revocations[id]);
      assert forall d :: Live(s', d) ==> Live(s, d);
    }
  }

  // ---- Admission -------------------------------------------------------------------------------------------------

  // _spawn_subagent up to the creation of the task, all of it under the two locks: why it refuses.
  function SpawnProblem(policy: Policy, s: State, caller: Caller, promptChars: nat, cost: real): (r: SpawnResult)
    requires caller.MainRun? ==> caller.chat in s.turns && s.turns[caller.chat].run in s.scopes
  {
    if caller.Subagent? then Refused(RecursiveSpawn)
    else if promptChars == 0 then Refused(PromptEmpty)
    else if promptChars > policy.maxMessageChars then Refused(PromptTooLong)
    else if cost <= 0.0 then Refused(CostNotPositive)
    else if !s.enabled then Refused(SubagentsDisabled)
    else
      var scope := s.scopes[s.turns[caller.chat].run];
      if scope.subagentCount >= policy.maxPerRun then Refused(CountLimit)
      else if scope.reservedCost + cost > policy.maxCost then Refused(BudgetLimit)
      else Admitted(|s.children|)
  }

  function Admit(s: State, run: RunId, cost: real): State
    requires run in s.scopes
  {
    var scope := s.scopes[run];
    s.(children := s.children + [Child(run, cost, Waiting, false)],
       scopes := s.scopes[run := Scope(scope.reservedCost + cost, scope.subagentCount + 1, scope.tasks + {|s.children|})])
  }

  lemma AdmitKeeps(policy: Policy, s: State, run: RunId, cost: real)
    requires Valid(policy, s) && s.enabled && run in s.scopes && Reachable(s, run)
    requires s.scopes[run].subagentCount < policy.maxPerRun && s.scopes[run].reservedCost + cost <= policy.maxCost && cost > 0.0
    ensures Valid(policy, Admit(s, run, cost))
  {
    var s' := Admit(s, run, cost);
    var n := |s.children|;
    assert s'.children[..n] == s.children;
    assert BooksFit(policy, s, run);
    forall r | r in s'.scopes ensures BooksFit(policy, s', r) {
      assert BooksFit(policy, s, r);
    }
    forall d | 0 <= d < |s'.children| ensures ChildFits(s', d) {
      assert d < n ==> ChildFits(s, d);
      KeepReachable(s, s', s'.children[d].run);
    }
    forall id | id in s'.revocations ensures RevocationFits(s', s'.revocations[id]) {
      assert RevocationFits(s, s.revocations[id]);
      assert forall d :: d < n && Live(s', d) ==> Live(s, d);
    }
  }

  // ---- Revocation ------------------------------------------------------------------------------------------------

  function ActiveRuns(s: State): set<RunId> {
    set chat | chat in s.turns :: s.turns[chat].run
  }

  // The flip: the scopes of all chats are listed while the state lock is held.
  function Flip(s: State, id: nat): State {
    s.(enabled := false,
       revocations := s.revocations[id := Revocation(|s.children|, s.grants, ActiveRuns(s), {})])
  }

  lemma FlipKeeps(policy: Policy, s: State, id: nat)
    requires Valid(policy, s)
    ensures Valid(policy, Flip(s, id))
  {
    var s' := Flip(s, id);
    forall run | run in s'.scopes ensures BooksFit(policy, s', run) {
      assert BooksFit(policy, s, run);
    }
    forall d | 0 <= d < |s'.children| ensures ChildFits(s', d) {
      assert ChildFits(s, d);
      KeepReachable(s, s', s.children[d].run);
    }
    forall k | k in s'.revocations ensures RevocationFits(s', s'.revocations[k]) {
      if k == id {
        forall c | c < |s.children| && Live(s', c) ensures s.children[c].run in ActiveRuns(s) {
          assert ChildFits(s, c);
        }
      } else {
        assert RevocationFits(s, s.revocations[k]);
        assert forall d :: Live(s', d) <==> Live(s, d);
      }
    }
  }

  // The next scope of the list: its registered tasks are cancelled and awaited together.
  function Visit(s: State, id: nat, run: RunId): State
    requires id in s.revocations && run in s.scopes
  {
    var r := s.revocations[id];
    var tasks := s.scopes[run].tasks;
    s.(children := Cancelled(s.children, tasks),
       revocations := s.revocations[id := r.(pending := r.pending - {run}, awaited := tasks)])
  }

  lemma VisitKeeps(policy: Policy, s: State, id: nat, run: RunId)
    requires Valid(policy, s) && id in s.revocations && run in s.revocations[id].pending && run in s.scopes
    requires forall c :: c in s.revocations[id].awaited ==> !Live(s, c)
    ensures Valid(policy, Visit(s, id, run))
  {
    var s' := Visit(s, id, run);
    var tasks := s.scopes[run].tasks;
    CancelKeeps(policy, s, tasks);
    var t := s.(children := Cancelled(s.children, tasks));
    forall r | r in s'.scopes ensures BooksFit(policy, s', r) {
      assert BooksFit(policy, t, r);
    }
    forall d | 0 <= d < |s'.children| ensures ChildFits(s', d) {
      assert ChildFits(t, d);
      KeepReachable(t, s', s'.children[d].run);
    }
    forall k | k in s'.revocations ensures RevocationFits(s', s'.revocations[k]) {
      assert RevocationFits(t, t.revocations[k]);
      forall d | Live(s', d) ensures Live(t, d) && Live(s, d) && ChildFits(s, d) {}
    }
  }

  // When the last awaited task is done the revocation returns: no child admitted before its flip lives, and unless
  // authority has been granted again since, no child was admitted since and none lives at all.
  lemma RevocationComplete(policy: Policy, s: State, id: nat)
    requires Valid(policy, s) && id in s.revocations
    requires s.revocations[id].pending == {} && forall c :: c in s.revocations[id].awaited ==> !Live(s, c)
    ensures forall c :: 0 <= c < s.revocations[id].mark ==> c < |s.children| && s.children[c].state == Stopped
    ensures s.revocations[id].epoch == s.grants ==> !s.enabled && forall c :: 0 <= c < |s.children| ==> s.children[c].state == Stopped
  {
    var r := s.revocations[id];
    assert RevocationFits(s, r);
    forall c | 0 <= c < r.mark ensures !Live(s, c) {
    }
  }

  // ---- What the books are good for -----------------------------------------------------------------------------

  // The cost of some of a run's children.
  function CostAmong(children: seq<Child>, run: RunId, some: set<ChildId>): real {
    if children == [] then 0.0
    else
      var n := |children| - 1;
      CostAmong(children[..n], run, some) + if children[n].run == run && n in some then children[n].cost else 0.0
  }

  lemma {:induction false} SomeCostNoMore(children: seq<Child>, run: RunId, some: set<ChildId>)
    requires forall c :: 0 <= c < |children| ==> children[c].cost > 0.0
    ensures 0.0 <= CostAmong(children, run, some) <= CostOf(children, run)
  {
    if children != [] {
      SomeCostNoMore(children[..|children| - 1], run, some);
    }
  }

  // No choice of a run's children, finished or not, costs more than the budget.
  lemma WithinBudget(policy: Policy, s: State, run: RunId, some: set<ChildId>)
    requires Valid(policy, s) && run in s.scopes
    ensures CostAmong(s.children, run, some) <= policy.maxCost
  {
    assert BooksFit(policy, s, run);
    forall c | 0 <= c < |s.children| ensures s.children[c].cost > 0.0 {
      assert ChildFits(s, c);
    }
    SomeCostNoMore(s.children, run, some);
  }

  // Admitted children stay on record with their cost, and what a run has reserved is never given back.
  ghost predicate Accumulates(s: State, s': State) {
    && |s.children| <= |s'.children|
    && (forall c :: 0 <= c < |s.children| ==> s'.children[c].run == s.children[c].run && s'.children[c].cost == s.children[c].cost)
    && (forall run :: run in s.scopes ==> run in s'.scopes && s.scopes[run].reservedCost <= s'.scopes[run].reservedCost)
  }

  lemma AccumulatesTransitive(a: State, b: State, c: State)
    requires Accumulates(a, b) && Accumulates(b, c)
    ensures Accumulates(a, c)
  {
  }

  // ---- Steps that move no child ------------------------------------------------------------------------------------

  lemma SameChildrenKeep(policy: Policy, s: State, s': State)
    requires Valid(policy, s) && policy.maxCost > 0.0 && s'.children == s.children && s'.permits == s.permits
    requires forall run :: run in s.scopes ==>
               && run in s'.scopes && s'.scopes[run].tasks <= s.scopes[run].tasks
               && s.scopes[run] == s'.scopes[run].(tasks := s.scopes[run].tasks)
               && forall c :: c in s.scopes[run].tasks && Live(s, c) ==> c in s'.scopes[run].tasks
    requires forall run :: run in s'.scopes && run !in s.scopes ==> s'.scopes[run] == Scope(0.0, 0, {})
    requires forall c :: Live(s, c) ==> Reachable(s', s.children[c].run)
    requires forall chat :: chat in s'.turns ==> s'.turns[chat].run in s'.scopes
    requires forall id :: id in s'.revocations ==> id in s.revocations && s'.revocations[id] == s.revocations[id]
    requires s.grants < s'.grants || (s.grants == s'.grants && s.enabled == s'.enabled)
    ensures Valid(policy, s')
  {
    forall d | 0 <= d < |s'.children| ensures ChildFits(s', d) {
      assert ChildFits(s, d);
    }
    forall run | run in s'.scopes ensures BooksFit(policy, s', run) {
      if run in s.scopes {
        assert BooksFit(policy, s, run);
      } else {
        forall c | 0 <= c < |s.children| ensures s.children[c].run != run {
          assert ChildFits(s, c);
        }
        NoneOf(s.children, run);
      }
    }
    forall id | id in s'.revocations ensures RevocationFits(s', s'.revocations[id]) {
      assert RevocationFits(s, s.revocations[id]);
      assert forall d :: Live(s', d) <==> Live(s, d);
    }
  }

  // A live child's scope stays reachable as long as the chat holding it keeps a turn for the same run.
  lemma StillReachable(policy: Policy, s: State, s': State, c: int)
    requires Valid(policy, s) && Live(s, c)
    requires forall chat :: chat in s.turns && s.turns[chat].run == s.children[c].run ==>
               chat in s'.turns && s'.turns[chat].run == s.turns[chat].run
    ensures Reachable(s', s.children[c].run)
  {
    assert ChildFits(s, c);
    var chat :| chat in s.turns && s.turns[chat].run == s.children[c].run;
    assert chat in s'.turns && s'.turns[chat].run == s.children[c].run;
  }

  // Unless a scope whose tasks are all done is let go of, every turn stays.
  lemma TurnsStay(policy: Policy, s: State, s': State)
    requires Valid(policy, s)
    requires forall chat :: chat in s.turns ==> chat in s'.turns && s'.turns[chat].run == s.turns[chat].run
    ensures forall c :: Live(s, c) ==> Reachable(s', s.children[c].run)
  {
    forall c | Live(s, c) ensures Reachable(s', s.children[c].run) {
      StillReachable(policy, s, s', c);
    }
  }

  // Letting go of a scope whose tasks are all done strands no live child.
  lemma CloseStrandsNobody(policy: Policy, s: State, chat: ChatId)
    requires Valid(policy, s) && chat in s.turns && s.turns[chat].run in s.scopes
    requires forall c :: c in s.scopes[s.turns[chat].run].tasks ==> !Live(s, c)
    ensures forall c :: Live(s, c) ==> Reachable(s.(turns := s.turns - {chat}), s.children[c].run)
    ensures forall c :: 0 <= c < |s.children| && s.children[c].run == s.turns[chat].run ==> !Live(s, c)
  {
    forall c | Live(s, c)
      ensures s.children[c].run != s.turns[chat].run && Reachable(s.(turns := s.turns - {chat}), s.children[c].run)
    {
      assert ChildFits(s, c);
      StillReachable(policy, s, s.(turns := s.turns - {chat}), c);
    }
  }

  // ---- The runtime -----------------------------------------------------------------------------------------------

  class ConversationRuntime {
    const policy: Policy
    var s: State

    constructor (policy: Policy, enabled: bool)
      requires policy.maxCost > 0.0
      ensures Good() && this.policy == policy
      ensures s == State(enabled, policy.maxConcurrency, [], map[], map[], map[], 0)
    {
      this.policy := policy;
      s := State(enabled, policy.maxConcurrency, [], map[], map[], map[], 0);
    }

    ghost predicate Good()
      reads this
    {
      policy.maxCost > 0.0 && Valid(policy, s)
    }

    // _execute_message gives a fresh run a fresh scope.
    method BeginRun(chat: ChatId, run: RunId)
      requires Good() && chat !in s.turns && run !in s.scopes
      modifies this
      ensures Good()
      ensures s == old(s).(turns := old(s).turns[chat := Turn(run, Running)], scopes := old(s).scopes[run := Scope(0.0, 0, {})])
    {
      ghost var before := s;
      s := s.(turns := s.turns[chat := Turn(run, Running)], scopes := s.scopes[run := Scope(0.0, 0, {})]);
      TurnsStay(policy, before, s);
      SameChildrenKeep(policy, before, s);
    }

    method Spawn(caller: Caller, promptChars: nat, cost: real) returns (result: SpawnResult)
      requires Good() && (caller.MainRun? ==> caller.chat in s.turns && s.turns[caller.chat].phase == Running)
      modifies this
      ensures Good()
      ensures result == SpawnProblem(policy, old(s), caller, promptChars, cost)
      ensures result.Admitted? <==>
                && caller.MainRun? && 0 < promptChars <= policy.maxMessageChars && cost > 0.0 && old(s).enabled
                && var run := old(s).turns[caller.chat].run;
                   CountOf(old(s).children, run) < policy.maxPerRun && CostOf(old(s).children, run) + cost <= policy.maxCost
      ensures caller.Subagent? ==> result == Refused(RecursiveSpawn)
      ensures result == Refused(SubagentsDisabled) ==> !old(s).enabled
      ensures result.Refused? ==> s == old(s)
      ensures result.Admitted? ==>
                var run := old(s).turns[caller.chat].run;
                && s == Admit(old(s), run, cost)
                && s.children == old(s).children + [Child(run, cost, Waiting, false)]
                && s.scopes[run].reservedCost == CostOf(s.children, run) <= policy.maxCost
                && s.scopes[run].subagentCount == CountOf(s.children, run) <= policy.maxPerRun
    {
      if caller.MainRun? {
        assert BooksFit(policy, s, s.turns[caller.chat].run);
      }
      result := SpawnProblem(policy, s, caller, promptChars, cost);
      if result.Admitted? {
        var run := s.turns[caller.chat].run;
        assert Reachable(s, run);
        AdmitKeeps(policy, s, run, cost);
        s := Admit(s, run, cost);
        assert BooksFit(policy, s, run);
      }
    }

    // A child takes a permit; a cancelled one is stopped instead.
    method Start(c: ChildId)
      requires Good() && c < |s.children| && s.children[c].state == Waiting && !s.children[c].cancelled && s.permits > 0
      modifies this
      ensures Good() && ExecutingOf(s.children) <= policy.maxConcurrency
      ensures s == old(s).(children := old(s).children[c := old(s).children[c].(state := Executing)], permits := old(s).permits - 1)
    {
      var child := s.children[c].(state := Executing);
      SetChildKeeps(policy, s, c, child, s.permits - 1);
      s := s.(children := s.children[c := child], permits := s.permits - 1);
    }

    // A child ends; one that was executing gives its permit back.
    method Stop(c: ChildId)
      requires Good() && Live(s, c) && (s.children[c].state == Waiting ==> s.children[c].cancelled)
      modifies this
      ensures Good()
      ensures s == old(s).(
                     children := old(s).children[c := old(s).children[c].(state := Stopped)],
                     permits := old(s).permits + if old(s).children[c].state == Executing then 1 else 0)
    {
      var child := s.children[c].(state := Stopped);
      var permits := s.permits + if s.children[c].state == Executing then 1 else 0;
      SetChildKeeps(policy, s, c, child, permits);
      s := s.(children := s.children[c := child], permits := permits);
    }

    // The parent, awake again, strikes the finished child off the task list.
    method Discard(c: ChildId)
      requires Good() && c < |s.children| && s.children[c].state == Stopped
      modifies this
      ensures Good()
      ensures
        var run := old(s).children[c].run;
        run in old(s).scopes
        && s == old(s).(scopes := old(s).scopes[run := old(s).scopes[run].(tasks := old(s).scopes[run].tasks - {c})])
    {
      assert ChildFits(s, c);
      ghost var before := s;
      var run := s.children[c].run;
      s := s.(scopes := s.scopes[run := s.scopes[run].(tasks := s.scopes[run].tasks - {c})]);
      TurnsStay(policy, before, s);
      SameChildrenKeep(policy, before, s);
    }

    // The runner is done, or the chat is cancelled: the run's remaining tasks are cancelled.
    method EndRun(chat: ChatId)
      requires Good() && chat in s.turns && s.turns[chat].phase == Running
      modifies this
      ensures Good()
      ensures
        var turn := old(s).turns[chat];
        turn.run in old(s).scopes
        && s == old(s).(children := Cancelled(old(s).children, old(s).scopes[turn.run].tasks),
                        turns := old(s).turns[chat := turn.(phase := Ending)])
    {
      var turn := s.turns[chat];
      CancelKeeps(policy, s, s.scopes[turn.run].tasks);
      s := s.(children := Cancelled(s.children, s.scopes[turn.run].tasks));
      ghost var before := s;
      s := s.(turns := s.turns[chat := turn.(phase := Ending)]);
      TurnsStay(policy, before, s);
      SameChildrenKeep(policy, before, s);
    }

    // Once they are all done the chat lets go of the scope.
    method CloseRun(chat: ChatId)
      requires Good() && chat in s.turns && s.turns[chat].phase == Ending && s.turns[chat].run in s.scopes
      requires forall c :: c in s.scopes[s.turns[chat].run].tasks ==> !Live(s, c)
      modifies this
      ensures Good() && s == old(s).(turns := old(s).turns - {chat})
      ensures forall c :: 0 <= c < |s.children| && s.children[c].run == old(s).turns[chat].run ==> s.children[c].state == Stopped
    {
      CloseStrandsNobody(policy, s, chat);
      ghost var before := s;
      s := s.(turns := s.turns - {chat});
      SameChildrenKeep(policy, before, s);
    }

    // set_subagents_enabled(True).
    method Grant()
      requires Good()
      modifies this
      ensures Good()
      ensures s == if old(s).enabled then old(s) else old(s).(enabled := true, grants := old(s).grants + 1)
    {
      if !s.enabled {
        ghost var before := s;
        s := s.(enabled := true, grants := s.grants + 1);
        TurnsStay(policy, before, s);
        SameChildrenKeep(policy, before, s);
      }
    }

    // set_subagents_enabled(False), from the flip to the first wait; without a flip it returns at once.
    method Revoke(id: nat) returns (flipped: bool)
      requires Good() && id !in s.revocations
      modifies this
      ensures Good() && flipped == old(s).enabled
      ensures s == if flipped then Flip(old(s), id) else old(s)
    {
      flipped := s.enabled;
      if flipped {
        FlipKeeps(policy, s, id);
        s := Flip(s, id);
      }
    }

    // The awaited tasks are done: on to the next scope of the list.
    method VisitNext(id: nat, run: RunId)
      requires Good() && id in s.revocations && run in s.revocations[id].pending
      requires forall c :: c in s.revocations[id].awaited ==> !Live(s, c)
      modifies this
      ensures Good() && run in old(s).scopes && s == Visit(old(s), id, run)
    {
      assert RevocationFits(s, s.revocations[id]);
      VisitKeeps(policy, s, id, run);
      s := Visit(s, id, run);
    }

    // The list is exhausted and the last awaited task is done.
    method ReturnFromRevoke(id: nat)
      requires Good() && id in s.revocations && s.revocations[id].pending == {}
      requires forall c :: c in s.revocations[id].awaited ==> !Live(s, c)
      modifies this
      ensures Good() && s == old(s).(revocations := old(s).revocations - {id})
      ensures forall c :: 0 <= c < old(s).revocations[id].mark ==> c < |s.children| && s.children[c].state == Stopped
      ensures old(s).revocations[id].epoch == s.grants ==>
                !s.enabled && forall c :: 0 <= c < |s.children| ==> s.children[c].state == Stopped
    {
      RevocationComplete(policy, s, id);
      ghost var before := s;
      s := s.(revocations := s.revocations - {id});
      TurnsStay(policy, before, s);
      SameChildrenKeep(policy, before, s);
    }
  }

  // ---- Whole runs ------------------------------------------------------------------------------------------------

  datatype Step =
    | DoBegin(chat: ChatId, run: RunId) | DoSpawn(caller: Caller, promptChars: nat, cost: real)
    | DoStart(child: ChildId) | DoStop(child: ChildId) | DoDiscard(child: ChildId)
    | DoEnd(chat: ChatId) | DoClose(chat: ChatId)
    | DoGrant | DoRevoke(id: nat) | DoVisit(id: nat, run: RunId) | DoReturn(id: nat)

  // In every state reachable by any interleaving of these steps, each run's reserved cost and count are the totals of
  // the children it ever admitted and within their limits, and no more children execute than the semaphore admits.
  // A step that is not enabled does not happen. Nothing reserved is ever given back.
  method Run(runtime: ConversationRuntime, steps: seq<Step>)
    requires runtime.Good()
    modifies runtime
    ensures runtime.Good()
    ensures ExecutingOf(runtime.s.children) <= runtime.policy.maxConcurrency
    ensures forall run :: run in runtime.s.scopes ==> BooksFit(runtime.policy, runtime.s, run)
    ensures Accumulates(old(runtime.s), runtime.s)
  {
    hide Valid;
    for i := 0 to |steps|
      invariant runtime.Good() && Accumulates(old(runtime.s), runtime.s)
    {
      ghost var before := runtime.s;
      TakeStep(runtime, steps[i]);
      AccumulatesTransitive(old(runtime.s), before, runtime.s);
    }
    Totals(runtime.policy, runtime.s);
  }

  lemma Totals(policy: Policy, s: State)
    requires Valid(policy, s)
    ensures ExecutingOf(s.children) <= policy.maxConcurrency && forall run :: run in s.scopes ==> BooksFit(policy, s, run)
  {
  }

  method TakeStep(runtime: ConversationRuntime, step: Step)
    requires runtime.Good()
    modifies runtime
    ensures runtime.Good() && Accumulates(old(runtime.s), runtime.s)
  {
    hide Valid, RevocationFits, BooksFit, ChildFits;
    var s := runtime.s;
    match step
    case DoBegin(chat, run) =>
      if chat !in s.turns && run !in s.scopes { runtime.BeginRun(chat, run); }
    case DoSpawn(caller, promptChars, cost) =>
      if caller.MainRun? ==> caller.chat in s.turns && s.turns[caller.chat].phase == Running {
        var _ := runtime.Spawn(caller, promptChars, cost);
      }
    case DoStart(c) =>
      if c < |s.children| && s.children[c].state == Waiting && !s.children[c].cancelled && s.permits > 0 {
        runtime.Start(c);
      }
    case DoStop(c) =>
      if Live(s, c) && (s.children[c].state == Waiting ==> s.children[c].cancelled) { runtime.Stop(c); }
    case DoDiscard(c) =>
      if c < |s.children| && s.children[c].state == Stopped { runtime.Discard(c); }
    case DoEnd(chat) =>
      if chat in s.turns && s.turns[chat].phase == Running { runtime.EndRun(chat); }
    case DoClose(chat) =>
      if chat in s.turns && s.turns[chat].phase == Ending && s.turns[chat].run in s.scopes
         && forall c :: c in s.scopes[s.turns[chat].run].tasks ==> !Live(s, c) { runtime.CloseRun(chat); }
    case DoGrant => runtime.Grant();
    case DoRevoke(id) =>
      if id !in s.revocations { var _ := runtime.Revoke(id); }
    case DoVisit(id, run) =>
      if id in s.revocations && run in s.revocations[id].pending
         && forall c :: c in s.revocations[id].awaited ==> !Live(s, c) { runtime.VisitNext(id, run); }
    case DoReturn(id) =>
      if id in s.revocations && s.revocations[id].pending == {}
         && forall c :: c in s.revocations[id].awaited ==> !Live(s, c) { runtime.ReturnFromRevoke(id); }
  }
}
