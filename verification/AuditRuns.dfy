// Any number of coordinated operations whose audit port is one chained log. An operation records its authorization in
// one step and its outcome in a later one; between the two it awaits its preflight and its runtime call.
module AuditRuns {
  import opened Common
  import opened AuditCoordinator

  // place, or slot, is where the log holds the acknowledged authorization, end where it holds the outcome.
  datatype Progress =
    | Under(calls: seq<Call>, receipt: Receipt, place: nat)
    | Ended(completion: Completion, slot: Option<nat>, end: Option<nat>)

  function SlotsOf(p: Progress): set<nat> {
    if p.Under? then {p.place}
    else (if p.slot.Some? then {p.slot.value} else {}) + if p.end.Some? then {p.end.value} else {}
  }

  ghost predicate HoldsAuthorization(events: seq<Event>, r: AuthRequest, slot: nat) {
    slot < |events| && events[slot].phase == Authorization && events[slot].verdict == Allow && events[slot].request == r
  }

  ghost predicate HoldsOutcome(events: seq<Event>, r: AuthRequest, end: nat) {
    end < |events| && events[end].phase == Outcome && events[end].request == r
  }

  // The outcome stands right behind its authorization.
  predicate Adjacent(p: Progress) {
    p.Ended? && p.slot.Some? && p.end.Some? && p.end.value == p.slot.value + 1
  }

  predicate IsOk(p: Progress) {
    p.Ended? && p.completion.Completed? && p.completion.result.ok
  }

  predicate IsPending(p: Progress) {
    p.Ended? && p.completion.Completed? && p.completion.result.auditPending
  }

  ghost predicate UnderFits(events: seq<Event>, receipts: seq<Receipt>, r: AuthRequest, p: Progress)
    requires p.Under?
  {
    && HoldsAuthorization(events, r, p.place) && |receipts| == |events| && receipts[p.place] == p.receipt
    && RequestProblem(r).None? && Disciplined(r, p.calls, Some(p.receipt)) && Below(p.calls, 2)
  }

  // An ended operation is ok exactly when its effect succeeded and its outcome directly follows its authorization; it
  // is pending exactly when there was an outcome to record and it does not.
  ghost predicate EndFits(events: seq<Event>, r: AuthRequest, ports: Ports, p: Progress)
    requires p.Ended?
  {
    && (p.slot.Some? ==> HoldsAuthorization(events, r, p.slot.value))
    && (p.end.Some? ==> p.slot.Some? && HoldsOutcome(events, r, p.end.value))
    && (IsOk(p) <==> p.slot.Some? && EndsWell(r, ports) && EndingOf(r, ports).success && Adjacent(p))
    && (IsPending(p) <==> p.slot.Some? && EndsWell(r, ports) && !ports.outcome.clock.Aborts? && !Adjacent(p))
  }

  ghost predicate Fits(events: seq<Event>, receipts: seq<Receipt>, r: AuthRequest, ports: Ports, p: Progress) {
    if p.Under? then UnderFits(events, receipts, r, p) else EndFits(events, r, ports, p)
  }

  // Appending to the log leaves what it held in place.
  lemma FitsLater(events: seq<Event>, receipts: seq<Receipt>, e: Event, receipt: Receipt, r: AuthRequest, ports: Ports, p: Progress)
    requires |events| == |receipts| && Fits(events, receipts, r, ports, p)
    ensures Fits(events + [e], receipts + [receipt], r, ports, p)
  {
    hide EndsWell, EndingOf, Disciplined, Below;
  }

  lemma FitsUnder(events: seq<Event>, receipts: seq<Receipt>, r: AuthRequest, ports: Ports, p: Progress)
    requires Fits(events, receipts, r, ports, p) && p.Under?
    ensures UnderFits(events, receipts, r, p) && RequestProblem(r).None? && Disciplined(r, p.calls, Some(p.receipt)) && Below(p.calls, 2)
  {
  }

  lemma SlotsWithin(events: seq<Event>, receipts: seq<Receipt>, r: AuthRequest, ports: Ports, p: Progress)
    requires Fits(events, receipts, r, ports, p)
    ensures forall k :: k in SlotsOf(p) ==> k < |events|
  {
  }

  lemma OkIsAdjacent(events: seq<Event>, receipts: seq<Receipt>, r: AuthRequest, ports: Ports, p: Progress)
    requires Fits(events, receipts, r, ports, p) && IsOk(p)
    ensures p.slot.Some? && SlotsOf(p) == {p.slot.value, p.slot.value + 1}
    ensures HoldsAuthorization(events, r, p.slot.value) && HoldsOutcome(events, r, p.slot.value + 1)
  {
    hide EndsWell, EndingOf;
  }

  class Operations {
    const log: ChainedLog
    const requests: seq<AuthRequest>
    const ports: seq<Ports>
    var progress: map<nat, Progress>

    constructor (requests: seq<AuthRequest>, ports: seq<Ports>)
      requires |requests| == |ports|
      ensures Valid() && fresh(log) && this.requests == requests && this.ports == ports && progress == map[]
    {
      log := new ChainedLog();
      this.requests, this.ports, progress := requests, ports, map[];
    }

    // Every operation fits the log, and no two share a slot of it.
    ghost predicate Valid()
      reads this, log
    {
      && |requests| == |ports| && Chained(log.events, log.receipts)
      && (forall i :: i in progress ==> i < |requests| && Fits(log.events, log.receipts, requests[i], ports[i], progress[i]))
      && (forall i, k :: i in progress && k in progress && i != k ==> SlotsOf(progress[i]) !! SlotsOf(progress[k]))
    }

    // The audit port at work: its receipt is that of the next slot.
    method Append(e: Event) returns (receipt: Receipt)
      requires Valid()
      modifies log
      ensures Valid() && log.events == old(log.events) + [e] && log.receipts == old(log.receipts) + [receipt]
      ensures forall k, i :: i in progress && k in SlotsOf(progress[i]) ==> k < |old(log.events)|
      ensures Acknowledges(receipt, e, None)
    {
      hide Fits, Chained, Acknowledges;
      ghost var events, receipts := log.events, log.receipts;
      ChainedSizes(events, receipts);
      forall i | i in progress ensures forall k :: k in SlotsOf(progress[i]) ==> k < |events| {
        SlotsWithin(events, receipts, requests[i], ports[i], progress[i]);
      }
      receipt := log.Append(e);
      forall i | i in progress ensures Fits(log.events, log.receipts, requests[i], ports[i], progress[i]) {
        FitsLater(events, receipts, e, receipt, requests[i], ports[i], progress[i]);
      }
    }

    method Settle(i: nat, p: Progress)
      requires Valid() && i < |requests| && Fits(log.events, log.receipts, requests[i], ports[i], p)
      requires forall k :: k in progress && k != i ==> SlotsOf(progress[k]) !! SlotsOf(p)
      modifies this`progress
      ensures Valid() && progress == old(progress)[i := p]
    {
      hide Fits, Chained, SlotsOf;
      progress := progress[i := p];
    }

    // The gate of operation i, all of it before the first await.
    method Begin(i: nat)
      requires Valid() && i < |requests| && i !in progress
      modifies this`progress, log
      ensures Valid() && progress.Keys == old(progress).Keys + {i} && old(log.events) <= log.events
    {
      hide Fits, Chained, Acknowledges, AuthorizationEvent, Bound, Disciplined, RequestProblem, Below;
      var r, p := requests[i], ports[i];
      var place := |log.events|;
      ChainedSizes(log.events, log.receipts);
      if ReachesAudit(r, p) && p.authorization.clock.Returns? {
        var receipt := Append(AuthorizationEvent(r, p.authorize.value, p.clock.value, p.authorization.clock.value));
        p := p.(authorization := p.authorization.(record := Returns(Readable(receipt))));
      }
      var gate, calls := AuthorizationGate(r, p);
      if gate.Authorized? {
        assert Authorizes(r, p, gate.receipt);
        AuthorizedUnder(r, p, ports[i], gate.receipt, log.events, log.receipts, calls, place);
        Settle(i, Under(calls, gate.receipt, place));
      } else {
        var completion := match gate {
          case Refused(result) => Completed(result)
          case GateRaised => Raised
          case _ => Aborted
        };
        NotAuthorized(log.events, log.receipts, r, ports[i], completion);
        Settle(i, Ended(completion, None, None));
      }
    }

    // Everything behind the awaits of operation i: its effect and its outcome.
    method Complete(i: nat)
      requires Valid() && i < |requests| && i in progress && progress[i].Under?
      modifies this`progress, log
      ensures Valid() && progress.Keys == old(progress).Keys && old(log.events) <= log.events
      ensures progress[i].Ended? && progress[i].slot == Some(old(progress)[i].place)
    {
      hide Chained, Acknowledges, Disciplined, RequestProblem, EndingOf, OutcomeEvent, Follows, EndsWell, Fits, EndFits, EndEvent;
      var r, p := requests[i], ports[i];
      var state := progress[i];
      FitsUnder(log.events, log.receipts, r, p, state);
      ChainedSizes(log.events, log.receipts);
      var end: Option<nat> := None;
      if EndsWell(r, p) && p.outcome.clock.Returns? {
        end := Some(|log.events|);
        var receipt := Append(EndEvent(r, p));
        ChainedSizes(log.events, log.receipts);
        FitsUnder(log.events, log.receipts, r, ports[i], state);
        p := p.(outcome := p.outcome.(record := Returns(Readable(receipt))));
      }
      var completion, trace := Finish(r, p, state.receipt, state.calls);
      CompletedFits(r, ports[i], p, state, log.events, log.receipts, completion, trace, end);
      Settle(i, Ended(completion, Some(state.place), end));
    }

    // Any interleaving of the operations.
    method Run(script: seq<nat>)
      requires Valid()
      modifies this`progress, log
      ensures Valid() && old(progress).Keys <= progress.Keys
    {
      hide Fits, Chained;
      for n := 0 to |script|
        invariant Valid() && old(progress).Keys <= progress.Keys
      {
        var i := script[n];
        if i < |requests| && i !in progress {
          Begin(i);
        } else if i in progress && progress[i].Under? {
          Complete(i);
        }
      }
    }

    // Whatever the interleaving: operations that end ok hold disjoint pairs of adjacent slots, each with its own
    // authorization and its own outcome.
    lemma OkSlotsDisjoint(i: nat, k: nat)
      requires Valid() && i in progress && k in progress && i != k && IsOk(progress[i]) && IsOk(progress[k])
      ensures progress[i].slot.Some? && progress[k].slot.Some?
      ensures
        var a, b := progress[i].slot.value, progress[k].slot.value;
        && {a, a + 1} !! {b, b + 1}
        && HoldsAuthorization(log.events, requests[i], a) && HoldsOutcome(log.events, requests[i], a + 1)
        && HoldsAuthorization(log.events, requests[k], b) && HoldsOutcome(log.events, requests[k], b + 1)
    {
      hide Fits, Chained;
      OkIsAdjacent(log.events, log.receipts, requests[i], ports[i], progress[i]);
      OkIsAdjacent(log.events, log.receipts, requests[k], ports[k], progress[k]);
      hide HoldsAuthorization, HoldsOutcome, IsOk;
    }
  }

  // The outcome an operation records.
  function EndEvent(r: AuthRequest, p: Ports): Event
    requires EndsWell(r, p) && p.outcome.clock.Returns?
  {
    var e := EndingOf(r, p);
    OutcomeEvent(r, e.success, e.reason, e.handle, p.outcome.clock.value)
  }

  lemma AuthorizedUnder(
      r: AuthRequest, p: Ports, q: Ports, receipt: Receipt, events: seq<Event>, receipts: seq<Receipt>, calls: seq<Call>, place: nat)
    requires Authorizes(r, p, receipt) && Disciplined(r, calls, Some(receipt)) && Below(calls, 2)
    requires place < |events| == |receipts| && receipts[place] == receipt
    requires events[place] == AuthorizationEvent(r, p.authorize.value, p.clock.value, p.authorization.clock.value)
    ensures Fits(events, receipts, r, q, Under(calls, receipt, place))
  {
    hide Disciplined, Below;
    NoMismatchIsBound(r, p.authorize.value, p.clock.value);
  }

  lemma LastCall(r: AuthRequest, p: Ports, receipt: Receipt, trace: seq<Call>, completion: Completion)
    requires Follows(r, p, receipt, trace, completion) && EndsWell(r, p) && !Retried(r, p)
    ensures |trace| > 0
    ensures !p.outcome.clock.Returns? ==> trace[|trace| - 1].event.None?
    ensures p.outcome.clock.Returns? ==> trace[|trace| - 1] == Record(Outcome, Some(EndEvent(r, p)), p.outcome.record)
  {
    hide EndingOf, EffectCalls, Attempts, RequestProblem, Concluded;
  }

  // With an honest log the outcome of an operation is acknowledged exactly when it directly follows its authorization.
  lemma CompletedFits(
      r: AuthRequest, p: Ports, q: Ports, state: Progress, events: seq<Event>, receipts: seq<Receipt>, completion: Completion,
      trace: seq<Call>, end: Option<nat>)
    requires Chained(events, receipts) && state.Under? && UnderFits(events, receipts, r, state)
    requires Follows(r, q, state.receipt, trace, completion)
    requires end.None? ==> q == p && !(EndsWell(r, p) && p.outcome.clock.Returns?)
    requires end.Some? ==>
               && EndsWell(r, p) && p.outcome.clock.Returns? && end.value < |events| == |receipts|
               && events[end.value] == EndEvent(r, p)
               && q == p.(outcome := p.outcome.(record := Returns(Readable(receipts[end.value]))))
    ensures Fits(events, receipts, r, p, Ended(completion, Some(state.place), end))
  {
    SameEnding(r, p, q);
    OutcomeExactly(r, q, state.receipt, trace, completion);
    if EndsWell(r, q) {
      LastCall(r, q, state.receipt, trace, completion);
      if end.Some? {
        AcknowledgedIsAdjacent(events, receipts, state.place, end.value);
        OutcomeIsJudged(r, q, trace[|trace| - 1], state.receipt);
      }
    }
    hide EndsWell, EndingOf, Follows, UnderFits, IsOutcome, Acknowledged, Acknowledges, Chained, EndEvent, OutcomeEvent, Disciplined;
  }

  lemma SameEnding(r: AuthRequest, p: Ports, q: Ports)
    requires q == p.(outcome := q.outcome)
    ensures EndsWell(r, q) == EndsWell(r, p)
    ensures !CheckRaises(q.outcome) ==> !Retried(r, q) && LastAttempt(r, q) == q.outcome
    ensures EndsWell(r, p) ==> EndingOf(r, q) == EndingOf(r, p)
  {
  }

  lemma OutcomeIsJudged(r: AuthRequest, p: Ports, call: Call, receipt: Receipt)
    requires EndsWell(r, p) && p.outcome.clock.Returns? && p.outcome.record.Returns? && p.outcome.record.value.Readable?
    requires call == Record(Outcome, Some(EndEvent(r, p)), p.outcome.record)
    ensures HoldsOutcome([EndEvent(r, p)], r, 0)
    ensures
      var acknowledged := Acknowledges(p.outcome.record.value.receipt, EndEvent(r, p), Some(receipt));
      && (Acknowledged(r, call, receipt) <==> acknowledged)
      && (IsOutcome(r, call, receipt, true) <==> acknowledged && EndingOf(r, p).success)
  {
    hide Acknowledges, EndingOf, EndsWell;
  }

  lemma NotAuthorized(events: seq<Event>, receipts: seq<Receipt>, r: AuthRequest, p: Ports, completion: Completion)
    requires completion.Completed? ==> !completion.result.ok && !completion.result.auditPending
    ensures Fits(events, receipts, r, p, Ended(completion, None, None))
  {
  }

  lemma ChainedSizes(events: seq<Event>, receipts: seq<Receipt>)
    requires Chained(events, receipts)
    ensures |events| == |receipts|
  {
  }
}
