// Planning the verification commands of one attempt (corvus/verification.py). Trusted commands come from the policy;
// the model may suggest more.
module VerificationPolicy {
  import opened Common

  type Command = seq<string>

  datatype Source = TrustedRequired | TrustedSmoke | ModelSuggested
  datatype Offer = Offer(command: Command, source: Source)
  datatype CriterionId = CriterionId(source: Source, number: nat)
  datatype Planned = Planned(criterion: CriterionId, command: Command, source: Source, required: bool)

  datatype Problem = EmptyCommand | TooManyArguments | EmptyArgument | TooManyCommands
  datatype PlanResult = Plan(items: seq<Planned>) | Refused(problem: Problem)

  datatype Policy = Policy(required: seq<Command>, smoke: seq<Command>, maxCommands: int, maxArguments: int)

  // _validate_command
  function CommandProblem(policy: Policy, command: Command): Option<Problem> {
    if command == [] then Some(EmptyCommand)
    else if |command| > policy.maxArguments then Some(TooManyArguments)
    else if exists i :: 0 <= i < |command| && command[i] == "" then Some(EmptyArgument)
    else None
  }

  // __post_init__
  predicate Accepts(policy: Policy) {
    && policy.required != [] && policy.maxCommands > 0 && policy.maxArguments > 0
    && (forall c :: c in policy.required + policy.smoke ==> CommandProblem(policy, c).None?)
    && |policy.required| + |policy.smoke| <= policy.maxCommands
  }

  // ---- What is offered, and what a plan keeps of it ----------------------------------------------------------------

  function Offered(commands: seq<Command>, source: Source): seq<Offer> {
    seq(|commands|, i requires 0 <= i < |commands| => Offer(commands[i], source))
  }

  function TrustedOffers(policy: Policy): seq<Offer> {
    Offered(policy.required, TrustedRequired) + Offered(policy.smoke, TrustedSmoke)
  }

  function Suggested(tests: seq<Command>, smoke: Option<Command>): seq<Offer> {
    Offered(tests + if smoke.Some? then [smoke.value] else [], ModelSuggested)
  }

  function AllOffers(policy: Policy, tests: seq<Command>, smoke: Option<Command>): seq<Offer> {
    TrustedOffers(policy) + Suggested(tests, smoke)
  }

  ghost function CommandsOf(offers: seq<Offer>): set<Command> {
    set o | o in offers :: o.command
  }

  // The first offer of every command, in order.
  ghost function Distinct(offers: seq<Offer>): seq<Offer> {
    if offers == [] then []
    else
      var kept, last := Distinct(offers[..|offers| - 1]), offers[|offers| - 1];
      if last.command in CommandsOf(kept) then kept else kept + [last]
  }

  ghost function Numbered(offers: seq<Offer>): seq<Planned> {
    seq(|offers|, i requires 0 <= i < |offers| =>
      Planned(CriterionId(offers[i].source, i + 1), offers[i].command, offers[i].source, offers[i].source != ModelSuggested))
  }

  predicate NoRepeats(offers: seq<Offer>) {
    forall i, k :: 0 <= i < k < |offers| ==> offers[i].command != offers[k].command
  }

  ghost predicate FirstOffer(offers: seq<Offer>, i: nat)
    requires i < |offers|
  {
    forall k :: 0 <= k < i ==> offers[k].command != offers[i].command
  }

  // Nothing twice, nothing lost, and every command under the source that offered it first.
  lemma {:induction false} DistinctMeans(offers: seq<Offer>)
    ensures NoRepeats(Distinct(offers)) && CommandsOf(Distinct(offers)) == CommandsOf(offers)
    ensures forall i :: 0 <= i < |offers| && FirstOffer(offers, i) ==> offers[i] in Distinct(offers)
    ensures |Distinct(offers)| <= |offers|
  {
    if offers != [] {
      var front, last := offers[..|offers| - 1], offers[|offers| - 1];
      DistinctMeans(front);
      assert offers == front + [last];
      assert CommandsOf(offers) == CommandsOf(front) + {last.command};
      assert CommandsOf(Distinct(front) + [last]) == CommandsOf(Distinct(front)) + {last.command};
      forall i | 0 <= i < |offers| && FirstOffer(offers, i) ensures offers[i] in Distinct(offers) {
        if i < |front| {
          assert FirstOffer(front, i);
        } else {
          FirstIsNew(front, last);
        }
      }
    }
  }

  lemma FirstIsNew(front: seq<Offer>, last: Offer)
    requires FirstOffer(front + [last], |front|)
    ensures last.command !in CommandsOf(front)
  {
    var offers := front + [last];
    assert forall k :: 0 <= k < |front| ==> offers[k] == front[k];
  }

  // Further offers change nothing about what was kept, and add only themselves.
  lemma {:induction false} DistinctOfMore(first: seq<Offer>, more: seq<Offer>)
    ensures |Distinct(first)| <= |Distinct(first + more)|
    ensures forall k :: 0 <= k < |Distinct(first)| ==> Distinct(first + more)[k] == Distinct(first)[k]
    ensures forall k :: |Distinct(first)| <= k < |Distinct(first + more)| ==> Distinct(first + more)[k] in more
    decreases |more|
  {
    if more == [] {
      assert first + more == first;
    } else {
      var front, last := more[..|more| - 1], more[|more| - 1];
      DistinctOfMore(first, front);
      assert (first + more)[..|first + more| - 1] == first + front && (first + more)[|first + more| - 1] == last;
      assert last in more && forall o :: o in front ==> o in more;
    }
  }

  // ---- Planning --------------------------------------------------------------------------------------------------

  predicate AllFit(policy: Policy, offers: seq<Offer>) {
    forall i :: 0 <= i < |offers| ==> CommandProblem(policy, offers[i].command).None?
  }

  // A plan is made exactly when every offered command is well formed and the distinct ones are within the limit.
  ghost predicate Plans(policy: Policy, offers: seq<Offer>) {
    AllFit(policy, offers) && |Distinct(offers)| <= policy.maxCommands
  }

  ghost predicate PlanFits(policy: Policy, offers: seq<Offer>, r: PlanResult) {
    && (r.Plan? <==> Plans(policy, offers))
    && (r.Plan? ==> r.items == Numbered(Distinct(offers)))
  }

  ghost predicate Drafted(policy: Policy, offers: seq<Offer>, planned: seq<Planned>, seen: set<Command>) {
    planned == Numbered(Distinct(offers)) && seen == CommandsOf(offers) && Plans(policy, offers)
  }

  lemma AddKeeps(policy: Policy, offers: seq<Offer>, planned: seq<Planned>, seen: set<Command>, command: Command, source: Source)
    requires Drafted(policy, offers, planned, seen)
    ensures CommandProblem(policy, command).Some? ==> !Plans(policy, offers + [Offer(command, source)])
    ensures CommandProblem(policy, command).None? && command in seen ==>
              Drafted(policy, offers + [Offer(command, source)], planned, seen)
    ensures CommandProblem(policy, command).None? && command !in seen ==>
              var next := Planned(CriterionId(source, |planned| + 1), command, source, source != ModelSuggested);
              if |planned| >= policy.maxCommands then !Plans(policy, offers + [Offer(command, source)])
              else Drafted(policy, offers + [Offer(command, source)], planned + [next], seen + {command})
  {
    hide CommandProblem;
    var last := Offer(command, source);
    DistinctStep(offers, last);
    FitsStep(policy, offers, last);
    assert CommandProblem(policy, command).None? && command !in seen ==>
        Numbered(Distinct(offers) + [last])
        == planned + [Planned(CriterionId(source, |planned| + 1), command, source, source != ModelSuggested)];
    hide AllFit, CommandsOf, Distinct, Numbered;
  }

  lemma DistinctStep(offers: seq<Offer>, last: Offer)
    ensures Distinct(offers + [last]) == Distinct(offers) + if last.command in CommandsOf(offers) then [] else [last]
    ensures CommandsOf(offers + [last]) == CommandsOf(offers) + {last.command}
  {
    var more := offers + [last];
    assert more[..|offers|] == offers && more[|offers|] == last;
    DistinctMeans(offers);
  }

  lemma FitsStep(policy: Policy, offers: seq<Offer>, last: Offer)
    ensures AllFit(policy, offers + [last]) <==> AllFit(policy, offers) && CommandProblem(policy, last.command).None?
  {
    hide CommandProblem;
    var more := offers + [last];
    assert more[|offers|] == last;
    assert forall i :: 0 <= i < |offers| ==> more[i] == offers[i];
  }

  class Planner {
    const policy: Policy
    var planned: seq<Planned>
    var seen: set<Command>

    constructor (policy: Policy)
      requires policy.maxCommands >= 0
      ensures this.policy == policy && Holds([])
    {
      this.policy := policy;
      planned, seen := [], {};
    }

    ghost predicate Holds(offers: seq<Offer>)
      reads this
    {
      Drafted(policy, offers, planned, seen)
    }

    method Add(command: Command, source: Source, ghost offers: seq<Offer>) returns (problem: Option<Problem>)
      requires Holds(offers)
      modifies this
      ensures problem.None? ==> Holds(offers + [Offer(command, source)])
      ensures problem.Some? ==> !Plans(policy, offers + [Offer(command, source)])
    {
      hide Drafted, Plans;
      AddKeeps(policy, offers, planned, seen, command, source);
      problem := CommandProblem(policy, command);
      if problem.Some? || command in seen {
        return;
      }
      if |planned| >= policy.maxCommands {
        return Some(TooManyCommands);
      }
      seen := seen + {command};
      planned := planned + [Planned(CriterionId(source, |planned| + 1), command, source, source != ModelSuggested)];
    }

    method AddAll(commands: seq<Command>, source: Source, ghost offers: seq<Offer>) returns (problem: Option<Problem>)
      requires Holds(offers)
      modifies this
      ensures problem.None? ==> Holds(offers + Offered(commands, source))
      ensures problem.Some? ==> !Plans(policy, offers + Offered(commands, source))
    {
      hide Drafted, Plans;
      ghost var all := Offered(commands, source);
      assert offers + all[..0] == offers;
      for i := 0 to |commands|
        invariant Holds(offers + all[..i])
      {
        problem := Add(commands[i], source, offers + all[..i]);
        assert offers + all[..i] + [all[i]] == offers + all[..i + 1];
        if problem.Some? {
          PlansOfPart(policy, offers + all[..i + 1], all[i + 1..]);
          assert offers + all[..i + 1] + all[i + 1..] == offers + all;
          return;
        }
      }
      assert all[..|commands|] == all;
      problem := None;
    }
  }

  lemma PlansOfPart(policy: Policy, first: seq<Offer>, more: seq<Offer>)
    requires !Plans(policy, first)
    ensures !Plans(policy, first + more)
  {
    DistinctOfMore(first, more);
    if !AllFit(policy, first) {
      var i :| 0 <= i < |first| && CommandProblem(policy, first[i].command).Some?;
      assert (first + more)[i] == first[i];
    }
  }

  // A command can be run: an executable and its arguments, none empty, and not too many.
  predicate Fits(policy: Policy, command: Command) {
    0 < |command| <= policy.maxArguments && "" !in command
  }

  lemma FitsExactly(policy: Policy, command: Command)
    ensures CommandProblem(policy, command).None? <==> Fits(policy, command)
  {
  }

  lemma AllFitExactly(policy: Policy, tests: seq<Command>, smoke: Option<Command>)
    ensures AllFit(policy, AllOffers(policy, tests, smoke)) <==>
            forall c :: c in policy.required || c in policy.smoke || c in tests || smoke == Some(c) ==> Fits(policy, c)
  {
    var offers := AllOffers(policy, tests, smoke);
    var commands := policy.required + policy.smoke + (tests + if smoke.Some? then [smoke.value] else []);
    assert |offers| == |commands| && forall i :: 0 <= i < |offers| ==> offers[i].command == commands[i];
    hide AllOffers;
    forall c ensures CommandProblem(policy, c).None? <==> Fits(policy, c) {
      FitsExactly(policy, c);
    }
    hide CommandProblem, Fits;
    assert forall c :: c in commands <==> c in policy.required || c in policy.smoke || c in tests || smoke == Some(c);
    if AllFit(policy, offers) {
      forall c | c in commands ensures Fits(policy, c) {
        var i :| 0 <= i < |commands| && commands[i] == c;
        assert CommandProblem(policy, offers[i].command).None?;
      }
    }
  }

  lemma FitsInPlan(policy: Policy, offers: seq<Offer>)
    requires forall i :: 0 <= i < |offers| ==> CommandProblem(policy, offers[i].command).None? || !AllFit(policy, offers)
    ensures AllFit(policy, offers) ==> forall k :: 0 <= k < |Numbered(Distinct(offers))| ==> Fits(policy, Numbered(Distinct(offers))[k].command)
  {
    if AllFit(policy, offers) {
      var kept := Distinct(offers);
      DistinctMeans(offers);
      forall k | 0 <= k < |kept| ensures Fits(policy, kept[k].command) {
        assert kept[k].command in CommandsOf(kept);
        var o :| o in offers && o.command == kept[k].command;
        var i :| 0 <= i < |offers| && offers[i] == o;
        FitsExactly(policy, offers[i].command);
      }
    }
  }

  // plan
  method MakePlan(policy: Policy, tests: seq<Command>, smoke: Option<Command>) returns (r: PlanResult)
    requires policy.maxCommands >= 0
    ensures PlanFits(policy, AllOffers(policy, tests, smoke), r)
    ensures r.Plan? <==>
              && (forall c :: c in policy.required || c in policy.smoke || c in tests || smoke == Some(c) ==> Fits(policy, c))
              && |Distinct(AllOffers(policy, tests, smoke))| <= policy.maxCommands
    ensures r.Plan? ==> forall k :: 0 <= k < |r.items| ==> Fits(policy, r.items[k].command)
  {
    AllFitExactly(policy, tests, smoke);
    FitsInPlan(policy, AllOffers(policy, tests, smoke));
    var planner := new Planner(policy);
    var required, smokes := Offered(policy.required, TrustedRequired), Offered(policy.smoke, TrustedSmoke);
    var suggestions := tests + if smoke.Some? then [smoke.value] else [];
    ghost var all := AllOffers(policy, tests, smoke);
    assert [] + required == required && all == required + smokes + Offered(suggestions, ModelSuggested);
    assert required + (smokes + Offered(suggestions, ModelSuggested)) == all;
    var problem := planner.AddAll(policy.required, TrustedRequired, []);
    if problem.Some? {
      PlansOfPart(policy, required, smokes + Offered(suggestions, ModelSuggested));
      return Refused(problem.value);
    }
    problem := planner.AddAll(policy.smoke, TrustedSmoke, required);
    if problem.Some? {
      PlansOfPart(policy, required + smokes, Offered(suggestions, ModelSuggested));
      return Refused(problem.value);
    }
    problem := planner.AddAll(suggestions, ModelSuggested, required + smokes);
    if problem.Some? {
      return Refused(problem.value);
    }
    r := Plan(planner.planned);
  }

  // ---- What suggestions cannot do --------------------------------------------------------------------------------

  // The policy alone always has a plan, and not an empty one.
  lemma TrustedAlwaysPlans(policy: Policy)
    requires Accepts(policy)
    ensures Plans(policy, TrustedOffers(policy)) && Distinct(TrustedOffers(policy)) != []
  {
    var offers := TrustedOffers(policy);
    DistinctMeans(offers);
    forall i | 0 <= i < |offers| ensures CommandProblem(policy, offers[i].command).None? {
      assert offers[i].command in policy.required + policy.smoke;
    }
    assert offers[0].command in CommandsOf(Distinct(offers));
  }

  // Whatever the model suggests, a plan starts with the policy's own plan, and goes on with optional checks only.
  lemma TrustedPlanIsPrefix(policy: Policy, tests: seq<Command>, smoke: Option<Command>, r: PlanResult)
    requires PlanFits(policy, AllOffers(policy, tests, smoke), r) && r.Plan?
    ensures var trusted := Numbered(Distinct(TrustedOffers(policy)));
            && |trusted| <= |r.items| <= policy.maxCommands && r.items[..|trusted|] == trusted
            && forall k :: |trusted| <= k < |r.items| ==> r.items[k].source == ModelSuggested && !r.items[k].required
  {
    var first, more := TrustedOffers(policy), Suggested(tests, smoke);
    DistinctOfMore(first, more);
    var kept := Distinct(first + more);
    assert forall o :: o in more ==> o.source == ModelSuggested;
    assert Numbered(kept)[..|Distinct(first)|] == Numbered(Distinct(first));
  }

  // No command is planned twice, and no two results can be filed under one criterion.
  lemma PlanHasNoRepeats(policy: Policy, offers: seq<Offer>, r: PlanResult, i: nat, k: nat)
    requires PlanFits(policy, offers, r) && r.Plan? && i < |r.items| && k < |r.items| && i != k
    ensures r.items[i].command != r.items[k].command && r.items[i].criterion != r.items[k].criterion
  {
    DistinctMeans(offers);
  }

  // A trusted command is in every plan, as a required check, even when the model suggests it too.
  lemma TrustedStaysRequired(policy: Policy, tests: seq<Command>, smoke: Option<Command>, r: PlanResult, command: Command)
    returns (k: nat)
    requires PlanFits(policy, AllOffers(policy, tests, smoke), r) && r.Plan?
    requires command in policy.required + policy.smoke
    ensures k < |r.items| && r.items[k].command == command && r.items[k].required && r.items[k].source != ModelSuggested
  {
    var offers := TrustedOffers(policy);
    TrustedPlanIsPrefix(policy, tests, smoke, r);
    DistinctMeans(offers);
    var trusted := policy.required + policy.smoke;
    var n :| 0 <= n < |trusted| && trusted[n] == command;
    assert offers[n].command == command;
    assert command in CommandsOf(Distinct(offers));
    k :| 0 <= k < |Distinct(offers)| && Distinct(offers)[k].command == command;
    OnlyTrusted(policy, k);
    assert r.items[k] == Numbered(Distinct(offers))[k];
  }

  lemma OnlyTrusted(policy: Policy, k: nat)
    requires k < |Distinct(TrustedOffers(policy))|
    ensures Distinct(TrustedOffers(policy))[k].source != ModelSuggested
  {
    DistinctOfMore([], TrustedOffers(policy));
    assert [] + TrustedOffers(policy) == TrustedOffers(policy);
    assert Distinct([]) == [];
    assert forall o :: o in TrustedOffers(policy) ==> o.source != ModelSuggested;
  }

  // ---- Completion ------------------------------------------------------------------------------------------------

  datatype Verdict = Verdict(item: Planned, exitCode: int)

  function Criteria(items: seq<Planned>): set<CriterionId> {
    set i | 0 <= i < |items| :: items[i].criterion
  }

  // completion_allowed
  function CompletionAllowed(results: seq<Verdict>, required: set<CriterionId>): bool {
    required <= set i | 0 <= i < |results| && results[i].exitCode == 0 :: results[i].item.criterion
  }

  // With one result per planned command, completion is allowed for the required criteria exactly when each of their
  // commands exited with zero: no result can stand in for another.
  lemma CompletionMeansPassed(policy: Policy, offers: seq<Offer>, r: PlanResult, results: seq<Verdict>, required: set<CriterionId>)
    requires PlanFits(policy, offers, r) && r.Plan? && |results| == |r.items|
    requires forall i :: 0 <= i < |results| ==> results[i].item == r.items[i]
    requires required <= Criteria(r.items)
    ensures CompletionAllowed(results, required) <==>
            forall i :: 0 <= i < |results| && results[i].item.criterion in required ==> results[i].exitCode == 0
  {
    if CompletionAllowed(results, required) {
      forall i | 0 <= i < |results| && results[i].item.criterion in required ensures results[i].exitCode == 0 {
        var k :| 0 <= k < |results| && results[k].exitCode == 0 && results[k].item.criterion == results[i].item.criterion;
        assert i == k;
      }
    } else {
      var c :| c in required && c !in (set i | 0 <= i < |results| && results[i].exitCode == 0 :: results[i].item.criterion);
      var i :| 0 <= i < |r.items| && r.items[i].criterion == c;
      assert results[i].exitCode != 0;
    }
  }
}
