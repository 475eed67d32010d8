// The audit-before-effect coordinator of agent runs (corvus/application/agent_runtime.py).
//
// The ports are adversarial: every call may return anything, raise an Exception, or abort the whole operation with a
// BaseException such as asyncio.CancelledError, which the coordinator does not catch. Each method returns the calls it
// made, in order, next to its result.
//
// The check of a receipt is not guarded: a receipt with fields of a wrong type can make the check itself raise. An
// exception raised there in a try block of start or resume is handled by recording an outcome once more.
module AuditCoordinator {
  import opened Common

  type Id = nat
  type Time = int
  type Reason = string
  type Hash = string

  datatype Operation = Start | Resume | Cancel
  datatype ScopeKind = WorkspaceScope | ProjectScope | OtherScope

  datatype Context = Context(
    id: Id, workspaceId: Id, scopeKind: ScopeKind, scopeId: Id, idempotencyKey: string, snapshotId: Id, snapshotDigest: Hash)

  datatype RunRequest = RunRequest(
    runId: Id, workspaceId: Id, projectId: Option<Id>, idempotencyKey: string,
    authorizationProofId: Id, authorizationProofDigest: Hash,
    bindingId: Id, bindingVersion: nat, bindingDigest: Hash, immutableDigest: Hash, canonicalDigest: Hash,
    autonomyDigest: Hash, credentialDigest: Option<Hash>, budgetDigest: Option<Hash>,
    killSwitchId: Id, killSwitchDigest: Hash, resumeHandleId: Option<Id>, deadline: Time)

  datatype Handle = Handle(id: Id, runId: Id, bindingId: Id)
  datatype KillSwitchProof = KillSwitchProof(id: Id, digest: Hash)

  // A validated authorization request.
  datatype AuthRequest = AuthRequest(
    context: Context, operation: Operation, request: RunRequest, handle: Option<Handle>, current: Option<KillSwitchProof>)

  datatype Decision = Decision(
    allowed: bool, reason: Reason, snapshotId: Id, canonicalDigest: Hash, immutableDigest: Hash, bindingVersion: nat,
    bindingDigest: Hash, autonomyDigest: Hash, credentialDigest: Option<Hash>, budgetDigest: Option<Hash>,
    killSwitchId: Id, killSwitchDigest: Hash, evaluatedAt: Time)

  datatype Phase = Authorization | Outcome
  datatype Verdict = Allow | Deny | Success | Failure
  datatype Event = Event(
    request: AuthRequest, handleId: Option<Id>, phase: Phase, verdict: Verdict, reason: Reason, timestamp: Time)

  // SHA-256 over canonical JSON, as an injective function of what is hashed.
  datatype Digest =
    | Genesis
    | OfEvent(e: Event)
    | OfReceipt(sequence: int, previous: Digest, event: Digest, acknowledged: bool)

  datatype Receipt = Receipt(sequence: int, previous: Digest, event: Digest, digest: Digest, acknowledged: bool)

  datatype Reply<T> = Returns(value: T) | Raises(reason: Option<Reason>) | Aborts

  // A value of the wrong type or one that fails revalidation raises, so it is a Raises.
  datatype StartResult = StartResult(handle: Handle, replayed: bool)
  datatype CancelResult = CancelResult(
    handleId: Id, handle: Option<Handle>, accepted: bool, terminal: bool, reason: Reason, reasonWellFormed: bool)

  // What the audit port answers: something that is no receipt, one that can be read, or one whose check raises, with
  // the reason code of that exception if it has one.
  datatype Answer = NoReceipt | Readable(receipt: Receipt) | Unreadable(reason: Option<Reason>)

  // Building an event takes the time; recording it may do anything.
  datatype Attempt = Attempt(clock: Reply<Time>, record: Reply<Answer>)

  // What the ports will do. The second attempt at an outcome is made only if the check of the first one raises.
  datatype Ports = Ports(
    authorize: Reply<Decision>, clock: Reply<Time>, authorization: Attempt, outcome: Attempt, secondOutcome: Attempt,
    preflight: Reply<Option<Reason>>,
    start: Reply<StartResult>, resume: Reply<Handle>, cancel: Reply<CancelResult>)

  datatype Call =
    | AskAuthorization
    | Record(phase: Phase, event: Option<Event>, reply: Reply<Answer>)  // None: the event could not be built
    | Preflight
    | Effect(operation: Operation)

  datatype Result = Result(
    ok: bool, reason: Reason, handle: Option<Handle>, cancellation: Option<CancelResult>, replayed: bool,
    auditPending: bool, primaryReason: Option<Reason>, primarySuccess: Option<bool>)

  // Raised: an Exception left the operation.
  datatype Completion = Completed(result: Result) | Raised | Aborted

  function Refusal(reason: Reason): Result {
    Result(false, reason, None, None, false, false, None, None)
  }

  // ---- Pure checks -----------------------------------------------------------------------------------------------

  // The validators of the authorization request.
  function RequestProblem(r: AuthRequest): Option<Reason> {
    if r.context.workspaceId != r.request.workspaceId then Some("agent_run_workspace_mismatch")
    else if r.context.scopeKind == ProjectScope && r.request.projectId != Some(r.context.scopeId) then
      Some("agent_run_project_scope_mismatch")
    else if r.context.scopeKind == WorkspaceScope && (r.context.scopeId != r.context.workspaceId || r.request.projectId.Some?) then
      Some("agent_run_workspace_scope_mismatch")
    else if r.context.scopeKind == OtherScope then Some("agent_run_scope_kind_unsupported")
    else if r.context.idempotencyKey != r.request.idempotencyKey then Some("agent_run_idempotency_key_mismatch")
    else if r.context.snapshotId != r.request.authorizationProofId || r.context.snapshotDigest != r.request.authorizationProofDigest then
      Some("agent_run_authorization_snapshot_mismatch")
    else if r.handle.Some? && r.handle.value.runId != r.request.runId then Some("agent_run_handle_run_mismatch")
    else if r.handle.Some? && r.handle.value.bindingId != r.request.bindingId then Some("agent_run_handle_provider_mismatch")
    else
      match r.operation
      case Start =>
        if r.handle.Some? then Some("agent_run_handle_unsolicited")
        else if r.request.resumeHandleId.Some? then Some("agent_run_resume_handle_unsolicited")
        else if r.current.Some? then Some("agent_run_current_kill_switch_proof_unsolicited")
        else None
      case Resume =>
        if r.handle.None? || r.request.resumeHandleId != Some(r.handle.value.id) then Some("agent_run_resume_handle_mismatch")
        else if r.current.Some? then Some("agent_run_current_kill_switch_proof_unsolicited")
        else None
      case Cancel =>
        if r.request.resumeHandleId.Some? then Some("agent_run_resume_handle_unsolicited")
        else if r.handle.None? then Some("agent_run_handle_run_mismatch")
        else if r.current.None? then Some("agent_run_current_kill_switch_proof_required")
        else None
  }

  function ExpectedKillSwitch(r: AuthRequest): KillSwitchProof {
    if r.current.Some? then r.current.value else KillSwitchProof(r.request.killSwitchId, r.request.killSwitchDigest)
  }

  function BindingMismatch(r: AuthRequest, d: Decision, now: Time): Option<Reason> {
    if d.snapshotId != r.context.snapshotId then Some("agent_run_authorization_snapshot_mismatch")
    else if d.canonicalDigest != r.request.canonicalDigest then Some("agent_run_request_digest_mismatch")
    else if d.immutableDigest != r.request.immutableDigest then Some("resume_request_substitution")
    else if d.bindingVersion != r.request.bindingVersion then Some("provider_binding_digest_mismatch")
    else if d.bindingDigest != r.request.bindingDigest then Some("provider_binding_digest_mismatch")
    else if d.autonomyDigest != r.request.autonomyDigest then Some("agent_run_autonomy_grant_digest_mismatch")
    else if d.credentialDigest != r.request.credentialDigest then Some("agent_run_credential_proof_digest_mismatch")
    else if d.budgetDigest != r.request.budgetDigest then Some("agent_run_budget_proof_digest_mismatch")
    else if d.killSwitchId != ExpectedKillSwitch(r).id then Some("agent_run_kill_switch_proof_id_mismatch")
    else if d.killSwitchDigest != ExpectedKillSwitch(r).digest then Some("agent_run_kill_switch_proof_digest_mismatch")
    else if !(d.evaluatedAt <= now && (r.operation == Cancel || now < r.request.deadline)) then
      Some("agent_run_authorization_time_invalid")
    else None
  }

  // The decision this request, and no other, must have been given.
  ghost predicate Bound(r: AuthRequest, d: Decision, now: Time) {
    && d == Decision(
      d.allowed, d.reason, r.context.snapshotId, r.request.canonicalDigest, r.request.immutableDigest,
      r.request.bindingVersion, r.request.bindingDigest, r.request.autonomyDigest, r.request.credentialDigest,
      r.request.budgetDigest, ExpectedKillSwitch(r).id, ExpectedKillSwitch(r).digest, d.evaluatedAt)
    && d.evaluatedAt <= now
    && (now < r.request.deadline || r.operation == Cancel)
  }

  lemma NoMismatchIsBound(r: AuthRequest, d: Decision, now: Time)
    ensures BindingMismatch(r, d, now).None? <==> Bound(r, d, now)
  {
  }

  predicate Acknowledges(receipt: Receipt, event: Event, previous: Option<Receipt>) {
    && receipt.acknowledged
    && (previous.Some? ==> receipt.sequence == previous.value.sequence + 1 && receipt.previous == previous.value.digest)
    && receipt.event == OfEvent(event)
    && receipt.digest == OfReceipt(receipt.sequence, receipt.previous, receipt.event, receipt.acknowledged)
  }

  // ---- The discipline of a trace ---------------------------------------------------------------------------------

  // The receipt of an acknowledged "allow" authorization event.
  ghost predicate IsAuthorization(r: AuthRequest, c: Call, receipt: Receipt) {
    && c.Record? && c.phase == Authorization && c.event.Some? && c.reply == Returns(Readable(receipt))
    && c.event.value.request == r && c.event.value.phase == Authorization && c.event.value.verdict == Allow
    && Acknowledges(receipt, c.event.value, None)
  }

  ghost predicate IsOutcome(r: AuthRequest, c: Call, authorization: Receipt, success: bool) {
    && c.Record? && c.phase == Outcome && c.event.Some? && c.reply.Returns? && c.reply.value.Readable?
    && c.event.value.request == r && c.event.value.phase == Outcome
    && c.event.value.verdict == (if success then Success else Failure)
    && Acknowledges(c.reply.value.receipt, c.event.value, Some(authorization))
  }

  predicate Attempted(c: Call) {
    c.Record? && c.phase == Outcome
  }

  // How often an outcome was attempted.
  function Attempts(trace: seq<Call>): nat {
    if trace == [] then 0 else Attempts(trace[..|trace| - 1]) + if Attempted(trace[|trace| - 1]) then 1 else 0
  }

  // The check of the first attempt raised, and the handler recorded a failure again.
  predicate Retries(first: Call, second: Call) {
    && Attempted(first) && first.event.Some? && first.reply.Returns? && first.reply.value.Unreadable?
    && first.event.value.verdict == Failure
    && Attempted(second) && (second.event.Some? ==> second.event.value.verdict == Failure)
  }

  predicate NoEffect(trace: seq<Call>) {
    forall i :: 0 <= i < |trace| ==> !trace[i].Effect?
  }

  // Calls come in the order authorization, preflight, effect, outcome, each at most once except for a retried failure
  // at the end of a trace without an effect, and nothing follows an authorization that was not acknowledged.
  ghost predicate Disciplined(r: AuthRequest, trace: seq<Call>, authorized: Option<Receipt>) {
    && (forall i, j :: 0 <= i < j < |trace| ==>
          Rank(trace[i]) < Rank(trace[j])
          || (i + 1 == j == |trace| - 1 && Retries(trace[i], trace[j]) && NoEffect(trace)))
    && (forall i :: 0 <= i < |trace| && trace[i].Effect? ==> trace[i].operation == r.operation)
    && (authorized.None? ==> forall i :: 0 <= i < |trace| ==> Rank(trace[i]) < 2)
    && (authorized.Some? ==> |trace| >= 2 && IsAuthorization(r, trace[1], authorized.value))
  }

  function Rank(c: Call): nat {
    match c
    case AskAuthorization => 0
    case Record(phase, _, _) => if phase == Authorization then 1 else 4
    case Preflight => 2
    case Effect(_) => 3
  }

  // What a disciplined trace means: the runtime is called at most once and only after an acknowledged "allow"
  // authorization event. Outcomes are attempted only after it; a second attempt comes only right after a failure whose
  // check raised, in an operation that never called the runtime, and there is no third.
  lemma DisciplineMeans(r: AuthRequest, trace: seq<Call>, authorized: Option<Receipt>, i: nat, j: nat)
    requires Disciplined(r, trace, authorized) && i <= j < |trace|
    ensures trace[i].Effect? && trace[j].Effect? ==> i == j
    ensures Attempted(trace[i]) && Attempted(trace[j]) && i != j ==>
              i + 1 == j == |trace| - 1 && Retries(trace[i], trace[j]) && NoEffect(trace)
    ensures trace[i].Effect? ==> authorized.Some? && 1 < i && IsAuthorization(r, trace[1], authorized.value)
    ensures Attempted(trace[i]) ==> authorized.Some? && 1 < i
  {
    if i < j {
      assert Rank(trace[i]) < Rank(trace[j]) || Retries(trace[i], trace[j]);
    }
    if authorized.None? {
      assert Rank(trace[i]) < 2;
    } else if i == 0 {
      assert Rank(trace[0]) < Rank(trace[1]) || Retries(trace[0], trace[1]);
    }
  }

  ghost predicate Acknowledged(r: AuthRequest, c: Call, authorization: Receipt) {
    IsOutcome(r, c, authorization, true) || IsOutcome(r, c, authorization, false)
  }

  // How an authorized operation that is not aborted ends: its last call is the attempt to record its outcome; the
  // result is pending exactly when that was not acknowledged, and ok exactly when the effect succeeded and its success
  // was recorded right after the authorization.
  ghost predicate Concluded(r: AuthRequest, trace: seq<Call>, authorization: Receipt, succeeded: bool, result: Result) {
    && |trace| > 2 && Attempted(trace[|trace| - 1])
    && (result.auditPending <==> !Acknowledged(r, trace[|trace| - 1], authorization))
    && (result.ok <==> succeeded && IsOutcome(r, trace[|trace| - 1], authorization, true))
    && (result.auditPending ==> result.primarySuccess == Some(succeeded))
    && (succeeded ==> Effect(r.operation) in trace)
  }

  // ---- The gate --------------------------------------------------------------------------------------------------

  datatype Gate = Authorized(receipt: Receipt) | Refused(result: Result) | GateRaised | GateAborted {
    function Receipt(): Option<Receipt> {
      if Authorized? then Some(receipt) else None
    }
  }

  predicate CheckRaises(a: Attempt) {
    a.clock.Returns? && a.record.Returns? && a.record.value.Unreadable?
  }

  predicate AttemptAborts(a: Attempt) {
    a.clock.Aborts? || (a.clock.Returns? && a.record.Aborts?)
  }

  function AuthorizationEvent(r: AuthRequest, d: Decision, now: Time, at: Time): Event {
    var mismatch := BindingMismatch(r, d, now);
    Event(r, if r.handle.Some? then Some(r.handle.value.id) else None, Authorization,
          if d.allowed && mismatch.None? then Allow else Deny,
          if mismatch.Some? then mismatch.value else d.reason, at)
  }

  // Exactly when an operation is authorized: the request validates, the port allows this very request in time, and the
  // audit port acknowledges the event saying so.
  ghost predicate Authorizes(r: AuthRequest, ports: Ports, receipt: Receipt) {
    && ReachesAudit(r, ports) && ports.authorization.clock.Returns?
    && ports.authorize.value.allowed && Bound(r, ports.authorize.value, ports.clock.value)
    && ports.authorization.record == Returns(Readable(receipt))
    && Acknowledges(
         receipt, AuthorizationEvent(r, ports.authorize.value, ports.clock.value, ports.authorization.clock.value), None)
  }

  // ---- The same, in the fields of the records -------------------------------------------------------------------

  // The request fits its context, and carries exactly the handle and proofs its operation needs.
  ghost predicate Coherent(r: AuthRequest) {
    && r.context.workspaceId == r.request.workspaceId && r.context.idempotencyKey == r.request.idempotencyKey
    && r.context.snapshotId == r.request.authorizationProofId && r.context.snapshotDigest == r.request.authorizationProofDigest
    && (r.context.scopeKind == ProjectScope || r.context.scopeKind == WorkspaceScope)
    && r.request.projectId == (if r.context.scopeKind == ProjectScope then Some(r.context.scopeId) else None)
    && (r.context.scopeKind == WorkspaceScope ==> r.context.scopeId == r.context.workspaceId)
    && (r.handle.Some? ==> r.handle.value.runId == r.request.runId && r.handle.value.bindingId == r.request.bindingId)
    && (r.handle.Some? <==> r.operation != Start)
    && r.request.resumeHandleId == (if r.operation == Resume && r.handle.Some? then Some(r.handle.value.id) else None)
    && (r.current.Some? <==> r.operation == Cancel)
  }

  lemma CoherentExactly(r: AuthRequest)
    ensures Coherent(r) <==> RequestProblem(r).None?
  {
  }

  // A decision that allows this very request, in time.
  ghost predicate Allows(r: AuthRequest, d: Decision, now: Time) {
    && d.allowed && d.snapshotId == r.context.snapshotId
    && d.canonicalDigest == r.request.canonicalDigest && d.immutableDigest == r.request.immutableDigest
    && d.bindingVersion == r.request.bindingVersion && d.bindingDigest == r.request.bindingDigest
    && d.autonomyDigest == r.request.autonomyDigest && d.credentialDigest == r.request.credentialDigest
    && d.budgetDigest == r.request.budgetDigest
    && d.killSwitchId == (if r.current.Some? then r.current.value.id else r.request.killSwitchId)
    && d.killSwitchDigest == (if r.current.Some? then r.current.value.digest else r.request.killSwitchDigest)
    && d.evaluatedAt <= now && (r.operation == Cancel || now < r.request.deadline)
  }

  function HandleId(h: Option<Handle>): Option<Id> {
    if h.Some? then Some(h.value.id) else None
  }

  // The receipt says that this event was recorded, and its digest covers all it says.
  ghost predicate Receives(receipt: Receipt, e: Event) {
    && receipt.acknowledged && receipt.event == OfEvent(e)
    && receipt.digest == OfReceipt(receipt.sequence, receipt.previous, OfEvent(e), true)
  }

  ghost predicate AuthorizedBy(r: AuthRequest, ports: Ports, receipt: Receipt) {
    && Coherent(r) && ports.authorize.Returns? && ports.clock.Returns? && ports.authorization.clock.Returns?
    && Allows(r, ports.authorize.value, ports.clock.value)
    && ports.authorization.record == Returns(Readable(receipt))
    && Receives(receipt,
                Event(r, HandleId(r.handle), Authorization, Allow, ports.authorize.value.reason, ports.authorization.clock.value))
  }

  lemma AuthorizedExactly(r: AuthRequest, ports: Ports, receipt: Receipt)
    ensures Authorizes(r, ports, receipt) <==> AuthorizedBy(r, ports, receipt)
  {
    CoherentExactly(r);
    hide RequestProblem, Coherent;
    if ports.authorize.Returns? && ports.clock.Returns? {
      NoMismatchIsBound(r, ports.authorize.value, ports.clock.value);
    }
  }

  // The runtime answered for the run, binding and handle it was asked about, and what there is to record of it.
  ghost predicate Succeeds(r: AuthRequest, ports: Ports, handle: Handle, reason: Reason) {
    match r.operation
    case Start =>
      && ports.preflight == Returns(None) && ports.start.Returns? && handle == ports.start.value.handle
      && handle.runId == r.request.runId && handle.bindingId == r.request.bindingId && reason == "agent_run_started"
    case Resume =>
      && ports.preflight == Returns(None) && ports.resume == Returns(handle) && r.handle.Some?
      && handle == Handle(r.handle.value.id, r.handle.value.runId, r.handle.value.bindingId) && reason == "agent_run_resumed"
    case Cancel =>
      && ports.cancel.Returns? && r.handle == Some(handle)
      && ports.cancel.value.handleId == handle.id && ports.cancel.value.reasonWellFormed
      && (ports.cancel.value.accepted || ports.cancel.value.terminal)
      && ports.cancel.value.handle in (if ports.cancel.value.terminal then {Some(handle)} else {Some(handle), None})
      && reason == ports.cancel.value.reason
  }

  // Its success was recorded, right behind the authorization.
  ghost predicate SuccessReceived(r: AuthRequest, ports: Ports, authorization: Receipt, handle: Handle, reason: Reason) {
    && ports.outcome.clock.Returns? && ports.outcome.record.Returns? && ports.outcome.record.value.Readable?
    && var receipt := ports.outcome.record.value.receipt;
       && receipt.sequence == authorization.sequence + 1 && receipt.previous == authorization.digest
       && Receives(receipt, Event(r, Some(handle.id), Outcome, Success, reason, ports.outcome.clock.value))
  }

  // There is a decision to be recorded, whichever way it went.
  predicate ReachesAudit(r: AuthRequest, ports: Ports) {
    RequestProblem(r).None? && ports.authorize.Returns? && ports.clock.Returns?
  }

  predicate GateAborts(r: AuthRequest, ports: Ports) {
    && RequestProblem(r).None?
    && (ports.authorize.Aborts? || (ports.authorize.Returns? && ports.clock.Aborts?)
        || (ReachesAudit(r, ports) && AttemptAborts(ports.authorization)))
  }

  method AuthorizationGate(r: AuthRequest, ports: Ports) returns (gate: Gate, trace: seq<Call>)
    ensures Disciplined(r, trace, gate.Receipt())
    ensures forall receipt :: Authorizes(r, ports, receipt) <==> gate == Authorized(receipt)
    ensures Below(trace, 2)
    ensures gate.Refused? ==> !gate.result.ok && !gate.result.auditPending
    ensures gate.GateRaised? <==> ReachesAudit(r, ports) && CheckRaises(ports.authorization)
    ensures gate.GateAborted? <==> GateAborts(r, ports)
    ensures RequestProblem(r).Some? ==> gate == Refused(Refusal(RequestProblem(r).value)) && trace == []
  {
    hide Bound, Acknowledges, RequestProblem, BindingMismatch;
    trace := [];
    var problem := RequestProblem(r);
    if problem.Some? {
      return Refused(Refusal(problem.value)), trace;
    }
    trace := [AskAuthorization];
    if ports.authorize.Aborts? || (ports.authorize.Returns? && ports.clock.Aborts?) {
      return GateAborted, trace;
    }
    if ports.authorize.Raises? || ports.clock.Raises? {
      return Refused(Refusal("agent_run_authorization_unavailable")), trace;
    }
    var decision, now := ports.authorize.value, ports.clock.value;
    NoMismatchIsBound(r, decision, now);
    if ports.authorization.clock.Aborts? {
      return GateAborted, trace;
    }
    if ports.authorization.clock.Raises? {
      return Refused(Refusal("agent_run_audit_unavailable")), trace;
    }
    var event := AuthorizationEvent(r, decision, now, ports.authorization.clock.value);
    trace := [AskAuthorization, Record(Authorization, Some(event), ports.authorization.record)];
    match ports.authorization.record
    case Aborts => return GateAborted, trace;
    case Raises(_) => return Refused(Refusal("agent_run_audit_unavailable")), trace;
    case Returns(answer) =>
      if answer.Unreadable? {
        return GateRaised, trace;
      }
      if answer.NoReceipt? || !Acknowledges(answer.receipt, event, None) {
        return Refused(Refusal("agent_run_audit_unavailable")), trace;
      }
      if event.verdict == Deny {
        return Refused(Refusal(event.reason)), trace;
      }
      gate := Authorized(answer.receipt);
  }

  // ---- The outcome -----------------------------------------------------------------------------------------------

  datatype Recording = Recorded | NotRecorded | RecordingRaised | RecordingAborted

  function OutcomeEvent(r: AuthRequest, success: bool, reason: Reason, handle: Option<Handle>, at: Time): Event {
    var handleId := if handle.Some? then Some(handle.value.id) else if r.handle.Some? then Some(r.handle.value.id) else None;
    Event(r, handleId, Outcome, if success then Success else Failure, reason, at)
  }

  // _record_outcome: an exception while the event is built or recorded counts as not recorded, one from the check of
  // the receipt leaves.
  method RecordOutcome(r: AuthRequest, authorization: Receipt, attempt: Attempt, success: bool, reason: Reason, handle: Option<Handle>)
    returns (recording: Recording, call: Call)
    ensures Attempted(call) && Rank(call) == 4
    ensures recording == Recorded <==> IsOutcome(r, call, authorization, success)
    ensures !IsOutcome(r, call, authorization, !success)
    ensures recording == RecordingRaised <==> CheckRaises(attempt)
    ensures recording == RecordingAborted <==> AttemptAborts(attempt)
    ensures call.event.Some? ==> call.event.value.verdict == if success then Success else Failure
    ensures !attempt.clock.Returns? ==> call.event.None?
    ensures attempt.clock.Returns? ==>
              call == Record(Outcome, Some(OutcomeEvent(r, success, reason, handle, attempt.clock.value)), attempt.record)
  {
    if !attempt.clock.Returns? {
      var reply := if attempt.clock.Aborts? then Aborts else Raises(None);
      return if attempt.clock.Aborts? then RecordingAborted else NotRecorded, Record(Outcome, None, reply);
    }
    var event := OutcomeEvent(r, success, reason, handle, attempt.clock.value);
    call := Record(Outcome, Some(event), attempt.record);
    match attempt.record
    case Aborts => recording := RecordingAborted;
    case Raises(_) => recording := NotRecorded;
    case Returns(answer) =>
      recording :=
        if answer.Unreadable? then RecordingRaised
        else if answer.Readable? && Acknowledges(answer.receipt, event, Some(authorization)) then Recorded
        else NotRecorded;
  }

  // Either nothing was attempted yet, or one failure whose check raised, without any effect.
  ghost predicate MayAttempt(trace: seq<Call>, success: bool) {
    || Below(trace, 4)
    || (|trace| > 0 && !success && NoEffect(trace) && Below(trace[..|trace| - 1], 4)
        && Attempted(trace[|trace| - 1]) && trace[|trace| - 1].event.Some? && trace[|trace| - 1].reply.Returns?
        && trace[|trace| - 1].reply.value.Unreadable? && trace[|trace| - 1].event.value.verdict == Failure)
  }

  lemma AttemptKeeps(r: AuthRequest, trace: seq<Call>, receipt: Receipt, success: bool, call: Call)
    requires Disciplined(r, trace, Some(receipt)) && MayAttempt(trace, success)
    requires Attempted(call) && (call.event.Some? ==> call.event.value.verdict == if success then Success else Failure)
    ensures Disciplined(r, trace + [call], Some(receipt)) && Attempts(trace + [call]) == Attempts(trace) + 1
  {
    hide IsAuthorization;
    var longer := trace + [call];
    assert longer[..|trace|] == trace;
    assert forall i :: 0 <= i < |trace| ==> longer[i] == trace[i];
    forall i, j | 0 <= i < j < |longer|
      ensures Rank(longer[i]) < Rank(longer[j]) || (i + 1 == j == |longer| - 1 && Retries(longer[i], longer[j]) && NoEffect(longer))
    {
      if j < |trace| {
        if !Below(trace, 4) {
          assert trace[..|trace| - 1][i] == trace[i];
        } else {
          assert Rank(trace[j]) < 4;
        }
      } else if !Below(trace, 4) && i < |trace| - 1 {
        assert trace[..|trace| - 1][i] == trace[i];
      }
    }
  }

  // The tail every authorized operation runs through, whether its effect succeeded or not.
  method Conclude(
      r: AuthRequest, authorization: Receipt, attempt: Attempt, trace: seq<Call>, success: bool, reason: Reason,
      handle: Option<Handle>, cancellation: Option<CancelResult>, replayed: bool)
    returns (completion: Completion, trace': seq<Call>)
    requires Disciplined(r, trace, Some(authorization)) && MayAttempt(trace, success)
    requires success ==> Effect(r.operation) in trace
    requires replayed ==> success
    ensures Disciplined(r, trace', Some(authorization)) && Attempts(trace') == Attempts(trace) + 1
    ensures |trace'| > 2 && trace' == trace + [trace'[|trace'| - 1]] && Attempted(trace'[|trace'| - 1])
    ensures !attempt.clock.Returns? ==> trace'[|trace'| - 1].event.None?
    ensures attempt.clock.Returns? ==>
              trace'[|trace'| - 1] == Record(Outcome, Some(OutcomeEvent(r, success, reason, handle, attempt.clock.value)), attempt.record)
    ensures completion.Completed? ==> Concluded(r, trace', authorization, success, completion.result)
    ensures completion.Completed? && !completion.result.auditPending ==> completion.result.reason == reason
    ensures completion.Completed? ==>
              && completion.result.handle == handle && completion.result.replayed == replayed
              && completion.result.cancellation == cancellation
              && (!completion.result.ok ==> completion.result.primaryReason == Some(reason))
    ensures completion.Raised? <==> CheckRaises(attempt)
    ensures completion.Aborted? <==> AttemptAborts(attempt)
  {
    hide Attempts, Disciplined, IsOutcome, MayAttempt, OutcomeEvent, Retries;
    var recording, call := RecordOutcome(r, authorization, attempt, success, reason, handle);
    LongEnough(r, trace, authorization);
    AttemptKeeps(r, trace, authorization, success, call);
    trace' := trace + [call];
    if success {
      assert Effect(r.operation) in trace';
    }
    match recording
    case RecordingAborted => completion := Aborted;
    case RecordingRaised => completion := Raised;
    case NotRecorded =>
      completion := Completed(
        Result(false, "agent_run_audit_pending", handle, cancellation, replayed, true, Some(reason), Some(success)));
    case Recorded =>
      completion := Completed(
        if success then Result(true, reason, handle, cancellation, replayed, false, None, None)
        else Result(false, reason, handle, cancellation, false, false, Some(reason), Some(false)));
  }

  lemma LongEnough(r: AuthRequest, trace: seq<Call>, receipt: Receipt)
    requires Disciplined(r, trace, Some(receipt))
    ensures |trace| >= 2
  {
  }

  // ---- The operations --------------------------------------------------------------------------------------------

  // How the part between the gate and the outcome ends: cut short by an abort, or with something to record.
  datatype Ending =
    | CutShort
    | Ends(success: bool, reason: Reason, handle: Option<Handle>, cancellation: Option<CancelResult>, replayed: bool)

  function Fails(reason: Reason, handle: Option<Handle>, cancellation: Option<CancelResult>): Ending {
    Ends(false, reason, handle, cancellation, false)
  }

  predicate SameHandle(a: Handle, b: Handle) {
    a.id == b.id && a.runId == b.runId && a.bindingId == b.bindingId
  }

  // The effect is called after a clean preflight; cancelling has no preflight.
  function EffectCalls(r: AuthRequest, ports: Ports): seq<Call> {
    if r.operation == Cancel then [Effect(Cancel)]
    else if ports.preflight == Returns(None) then [Preflight, Effect(r.operation)]
    else [Preflight]
  }

  function PreflightReason(ports: Ports): Reason
    requires !ports.preflight.Aborts? && ports.preflight != Returns(None)
  {
    if ports.preflight.Raises? then "agent_run_provider_unavailable" else ports.preflight.value.value
  }

  function StartEnding(r: AuthRequest, ports: Ports): Ending {
    if ports.preflight.Aborts? then CutShort
    else if ports.preflight != Returns(None) then Fails(PreflightReason(ports), None, None)
    else
      match ports.start
      case Aborts => CutShort
      case Raises(reason) =>
        Fails(if reason == Some("agent_run_idempotency_mismatch") then reason.value else "agent_run_start_failed", None, None)
      case Returns(started) =>
        if started.handle.runId != r.request.runId || started.handle.bindingId != r.request.bindingId then
          Fails("agent_run_start_handle_mismatch", Some(started.handle), None)
        else Ends(true, "agent_run_started", Some(started.handle), None, started.replayed)
  }

  function ResumeEnding(r: AuthRequest, handle: Handle, ports: Ports): Ending {
    if ports.preflight.Aborts? then CutShort
    else if ports.preflight != Returns(None) then Fails(PreflightReason(ports), Some(handle), None)
    else
      match ports.resume
      case Aborts => CutShort
      case Raises(_) => Fails("agent_run_resume_failed", Some(handle), None)
      case Returns(resumed) =>
        if !SameHandle(resumed, handle) then Fails("agent_run_resume_handle_mismatch", Some(resumed), None)
        else Ends(true, "agent_run_resumed", Some(resumed), None, false)
  }

  function CancelEnding(r: AuthRequest, handle: Handle, ports: Ports): Ending {
    match ports.cancel
    case Aborts => CutShort
    case Raises(reason) =>
      Fails(if reason == Some("cancellation_handle_id_mismatch") then "agent_run_cancellation_handle_mismatch"
            else "agent_run_cancel_failed", Some(handle), None)
    case Returns(c) =>
      if c.handleId != handle.id then Fails("agent_run_cancellation_handle_mismatch", Some(handle), None)
      else if !c.reasonWellFormed then Fails("agent_run_cancellation_reason_invalid", Some(handle), Some(c))
      else if !c.accepted && !c.terminal then Fails(c.reason, Some(handle), Some(c))
      else if c.terminal && c.handle.None? then Fails("agent_run_cancellation_handle_missing", Some(handle), Some(c))
      else
        var result := if c.handle.Some? then c.handle.value else handle;
        if !SameHandle(result, handle) then Fails("agent_run_cancellation_handle_mismatch", Some(handle), None)
        else Ends(true, c.reason, Some(result), Some(c), false)
  }

  function EndingOf(r: AuthRequest, ports: Ports): Ending
    requires r.operation == Start || r.handle.Some?
  {
    match r.operation
    case Start => StartEnding(r, ports)
    case Resume => ResumeEnding(r, r.handle.value, ports)
    case Cancel => CancelEnding(r, r.handle.value, ports)
  }

  // An effect counts as a success exactly when the runtime answered for the run, binding and handle it was asked about.
  lemma SuccessMeans(r: AuthRequest, ports: Ports)
    requires RequestProblem(r).None?
    ensures
      var ending := EndingOf(r, ports);
      ending.Ends? && ending.success <==>
      match r.operation
      case Start =>
        && ports.preflight == Returns(None) && ports.start.Returns?
        && SameHandle(ports.start.value.handle, Handle(ports.start.value.handle.id, r.request.runId, r.request.bindingId))
      case Resume => ports.preflight == Returns(None) && ports.resume.Returns? && SameHandle(ports.resume.value, r.handle.value)
      case Cancel =>
        && ports.cancel.Returns? && ports.cancel.value.handleId == r.handle.value.id && ports.cancel.value.reasonWellFormed
        && (ports.cancel.value.accepted || ports.cancel.value.terminal)
        && (ports.cancel.value.handle.None? ==> !ports.cancel.value.terminal)
        && (ports.cancel.value.handle.Some? ==> SameHandle(ports.cancel.value.handle.value, r.handle.value))
    ensures EndingOf(r, ports).Ends? && EndingOf(r, ports).success ==> Effect(r.operation) in EffectCalls(r, ports)
  {
  }

  ghost predicate Below(trace: seq<Call>, rank: nat) {
    forall i :: 0 <= i < |trace| ==> Rank(trace[i]) < rank
  }

  lemma {:induction false} NoAttempts(trace: seq<Call>)
    requires Below(trace, 4)
    ensures Attempts(trace) == 0
  {
    if trace != [] {
      NoAttempts(trace[..|trace| - 1]);
      assert Rank(trace[|trace| - 1]) < 4;
    }
  }

  // Up to the outcome nothing is attempted, and the trace stays disciplined.
  lemma ExtendTrace(r: AuthRequest, trace: seq<Call>, receipt: Receipt, ports: Ports)
    requires Disciplined(r, trace, Some(receipt)) && Below(trace, 2)
    ensures Disciplined(r, trace + EffectCalls(r, ports), Some(receipt)) && Below(trace + EffectCalls(r, ports), 4)
    ensures forall success :: MayAttempt(trace + EffectCalls(r, ports), success)
    ensures Attempts(trace + EffectCalls(r, ports)) == 0
    ensures Effect(r.operation) in trace + EffectCalls(r, ports) <==> Effect(r.operation) in EffectCalls(r, ports)
    ensures RefusedInTry(r, ports) ==> NoEffect(trace + EffectCalls(r, ports))
  {
    var longer := trace + EffectCalls(r, ports);
    Ranks(r, trace, ports);
    NoAttempts(longer);
    assert forall i :: 0 <= i < |trace| ==> longer[i] == trace[i] && !trace[i].Effect?;
    hide Attempts, Retries, IsAuthorization;
  }

  lemma Ranks(r: AuthRequest, trace: seq<Call>, ports: Ports)
    requires Below(trace, 2) && forall i, j :: 0 <= i < j < |trace| ==> Rank(trace[i]) < Rank(trace[j]) || Retries(trace[i], trace[j])
    ensures var longer := trace + EffectCalls(r, ports);
            Below(longer, 4) && forall i, j :: 0 <= i < j < |longer| ==> Rank(longer[i]) < Rank(longer[j])
  {
    var calls := EffectCalls(r, ports);
    var longer := trace + calls;
    assert forall i :: 0 <= i < |trace| ==> longer[i] == trace[i] && Rank(trace[i]) < 2;
    assert forall i :: |trace| <= i < |longer| ==> longer[i] == calls[i - |trace|] && 2 <= Rank(longer[i]) < 4;
    hide EffectCalls;
  }

  // start and resume act on a refusal of the preflight inside their try block; everything else that is recorded is
  // recorded outside of it.
  predicate RefusedInTry(r: AuthRequest, ports: Ports) {
    r.operation != Cancel && !ports.preflight.Aborts? && ports.preflight != Returns(None)
  }

  predicate Retried(r: AuthRequest, ports: Ports) {
    RefusedInTry(r, ports) && CheckRaises(ports.outcome)
  }

  // What the handlers of start and resume make of an exception.
  function HandlerReason(r: AuthRequest, reason: Option<Reason>): Reason {
    if r.operation == Resume then "agent_run_resume_failed"
    else if reason == Some("agent_run_idempotency_mismatch") then reason.value
    else "agent_run_start_failed"
  }

  function LastAttempt(r: AuthRequest, ports: Ports): Attempt {
    if Retried(r, ports) then ports.secondOutcome else ports.outcome
  }

  function FinalReason(r: AuthRequest, ports: Ports): Reason
    requires EndsWell(r, ports)
  {
    if Retried(r, ports) then HandlerReason(r, ports.outcome.record.value.reason) else EndingOf(r, ports).reason
  }

  // Neither the preflight nor the runtime call aborts the operation.
  predicate EndsWell(r: AuthRequest, ports: Ports) {
    (r.operation == Start || r.handle.Some?) && EndingOf(r, ports).Ends?
  }

  // What follows an authorization, exactly: no outcome is attempted if an abort cut the operation short, two are if the
  // preflight refused a start or resume and the check of the recorded refusal raised, and one otherwise. An Exception
  // leaves the operation exactly when the check of the last attempt raises; then the result is neither ok nor pending.
  ghost predicate Follows(r: AuthRequest, ports: Ports, receipt: Receipt, trace: seq<Call>, completion: Completion) {
    && RequestProblem(r).None? && (r.operation == Start || r.handle.Some?)
    && (Effect(r.operation) in trace <==> Effect(r.operation) in EffectCalls(r, ports))
    && Attempts(trace) == (if EndingOf(r, ports).CutShort? then 0 else if Retried(r, ports) then 2 else 1)
    && (completion.Aborted? <==> EndingOf(r, ports).CutShort? || AttemptAborts(LastAttempt(r, ports)))
    && (completion.Raised? <==> EndsWell(r, ports) && CheckRaises(LastAttempt(r, ports)))
    && (completion.Completed? ==>
          && Concluded(r, trace, receipt, EndingOf(r, ports).success, completion.result)
          && (!completion.result.auditPending ==> completion.result.reason == FinalReason(r, ports))
          && (!completion.result.ok ==> completion.result.primaryReason == Some(FinalReason(r, ports)))
          && completion.result.handle == EndingOf(r, ports).handle
          && (!Retried(r, ports) ==>
                completion.result.cancellation == EndingOf(r, ports).cancellation && completion.result.replayed == EndingOf(r, ports).replayed))
    && (EndsWell(r, ports) ==> |trace| > 0 && Attempted(trace[|trace| - 1]))
    && (EndsWell(r, ports) && !LastAttempt(r, ports).clock.Returns? ==> trace[|trace| - 1].event.None?)
    && (EndsWell(r, ports) && LastAttempt(r, ports).clock.Returns? ==>
          var e, last := EndingOf(r, ports), LastAttempt(r, ports);
          trace[|trace| - 1]
          == Record(Outcome, Some(OutcomeEvent(r, e.success, FinalReason(r, ports), e.handle, last.clock.value)), last.record))
  }

  // An operation is ok exactly when its effect succeeded and its success was received right behind the authorization.
  lemma OkExactly(r: AuthRequest, ports: Ports, receipt: Receipt, trace: seq<Call>, completion: Completion)
    requires Follows(r, ports, receipt, trace, completion)
    ensures completion.Completed? && completion.result.ok <==>
            exists handle, reason :: Succeeds(r, ports, handle, reason) && SuccessReceived(r, ports, receipt, handle, reason)
    ensures forall handle, reason :: Succeeds(r, ports, handle, reason) && completion.Completed? ==>
              && completion.result.handle == Some(handle) && (completion.result.ok ==> completion.result.reason == reason)
              && (r.operation == Start ==> completion.result.replayed == ports.start.value.replayed)
              && (r.operation == Cancel ==> completion.result.cancellation == Some(ports.cancel.value))
  {
    OutcomeExactly(r, ports, receipt, trace, completion);
    SucceedsExactly(r, ports);
    if EndsWell(r, ports) && EndingOf(r, ports).success {
      var e := EndingOf(r, ports);
      if ports.outcome.clock.Returns? {
        ReceivedExactly(r, ports, receipt, e.handle.value, e.reason);
      }
    }
    hide EffectCalls, Attempts, RequestProblem, Succeeds, SuccessReceived, EndingOf, IsOutcome, Acknowledged, OutcomeEvent;
  }

  lemma SucceedsExactly(r: AuthRequest, ports: Ports)
    requires r.operation == Start || r.handle.Some?
    ensures EndingOf(r, ports).Ends? && EndingOf(r, ports).success ==>
              !RefusedInTry(r, ports) && EndingOf(r, ports).handle.Some?
              && Succeeds(r, ports, EndingOf(r, ports).handle.value, EndingOf(r, ports).reason)
    ensures forall handle, reason :: Succeeds(r, ports, handle, reason) ==>
              var e := EndingOf(r, ports);
              && e.Ends? && e.success && e.handle == Some(handle) && e.reason == reason
              && (r.operation == Start ==> e.replayed == ports.start.value.replayed)
              && (r.operation == Cancel ==> e.cancellation == Some(ports.cancel.value))
  {
  }

  // What a failure is recorded as: a refusal keeps its reason, an exception and an answer for something else have theirs,
  // and whatever handle there is to report is reported.
  lemma FailureReasons(r: AuthRequest, ports: Ports)
    requires r.operation != Start ==> r.handle.Some?
    ensures r.operation != Cancel && ports.preflight.Returns? && ports.preflight.value.Some? ==>
              EndingOf(r, ports) == Fails(ports.preflight.value.value, if r.operation == Start then None else r.handle, None)
    ensures r.operation != Cancel && ports.preflight.Raises? ==>
              EndingOf(r, ports) == Fails("agent_run_provider_unavailable", if r.operation == Start then None else r.handle, None)
    ensures r.operation == Start && ports.preflight == Returns(None) && ports.start.Raises? ==>
              EndingOf(r, ports) == Fails(HandlerReason(r, ports.start.reason), None, None)
    ensures r.operation == Start && ports.preflight == Returns(None) && ports.start.Returns? ==>
              var h := ports.start.value.handle;
              (h.runId, h.bindingId) != (r.request.runId, r.request.bindingId) ==>
                EndingOf(r, ports) == Fails("agent_run_start_handle_mismatch", Some(h), None)
    ensures r.operation == Resume && ports.preflight == Returns(None) && ports.resume.Raises? ==>
              EndingOf(r, ports) == Fails(HandlerReason(r, ports.resume.reason), r.handle, None)
    ensures r.operation == Resume && ports.preflight == Returns(None) && ports.resume.Returns? && Some(ports.resume.value) != r.handle ==>
              EndingOf(r, ports) == Fails("agent_run_resume_handle_mismatch", Some(ports.resume.value), None)
    ensures r.operation == Cancel && ports.cancel.Returns? && ports.cancel.value.handleId == r.handle.value.id
            && ports.cancel.value.reasonWellFormed && !ports.cancel.value.accepted && !ports.cancel.value.terminal ==>
              EndingOf(r, ports) == Fails(ports.cancel.value.reason, r.handle, Some(ports.cancel.value))
    ensures r.operation == Cancel && EndingOf(r, ports).Ends? && !EndingOf(r, ports).success ==> EndingOf(r, ports).handle == r.handle
    ensures HandlerReason(r, Some("agent_run_idempotency_mismatch"))
         == if r.operation == Resume then "agent_run_resume_failed" else "agent_run_idempotency_mismatch"
    ensures forall reason :: reason != Some("agent_run_idempotency_mismatch") && r.operation == Start ==>
              HandlerReason(r, reason) == "agent_run_start_failed"
  {
  }

  lemma ReceivedExactly(r: AuthRequest, ports: Ports, authorization: Receipt, handle: Handle, reason: Reason)
    requires ports.outcome.clock.Returns?
    ensures
      var call := Record(Outcome, Some(OutcomeEvent(r, true, reason, Some(handle), ports.outcome.clock.value)), ports.outcome.record);
      IsOutcome(r, call, authorization, true) <==> SuccessReceived(r, ports, authorization, handle, reason)
  {
  }

  // So one outcome is attempted, and the result is pending, exactly under these conditions.
  lemma OutcomeExactly(r: AuthRequest, ports: Ports, receipt: Receipt, trace: seq<Call>, completion: Completion)
    requires Follows(r, ports, receipt, trace, completion)
    ensures Attempts(trace) == 1 <==> EndsWell(r, ports) && !Retried(r, ports)
    ensures completion.Completed? && completion.result.auditPending <==>
            && EndsWell(r, ports) && !CheckRaises(LastAttempt(r, ports)) && !AttemptAborts(LastAttempt(r, ports))
            && |trace| > 0 && !Acknowledged(r, trace[|trace| - 1], receipt)
    ensures completion.Completed? && completion.result.ok <==>
            && EndsWell(r, ports) && EndingOf(r, ports).success && !CheckRaises(ports.outcome) && !AttemptAborts(ports.outcome)
            && |trace| > 0 && IsOutcome(r, trace[|trace| - 1], receipt, true)
  {
    hide EffectCalls, Attempts, IsOutcome, RequestProblem;
    if EndsWell(r, ports) && EndingOf(r, ports).success {
      assert !RefusedInTry(r, ports);
    }
    hide EndingOf;
  }

  // From the acknowledged authorization to the end.
  method Finish(r: AuthRequest, ports: Ports, receipt: Receipt, before: seq<Call>) returns (completion: Completion, trace: seq<Call>)
    requires RequestProblem(r).None? && Disciplined(r, before, Some(receipt)) && Below(before, 2)
    ensures Disciplined(r, trace, Some(receipt)) && Follows(r, ports, receipt, trace, completion)
  {
    hide Disciplined, IsOutcome, Concluded, Attempts, OutcomeEvent, MayAttempt, Below, NoEffect;
    SuccessMeans(r, ports);
    ExtendTrace(r, before, receipt, ports);
    trace := before + EffectCalls(r, ports);
    match EndingOf(r, ports)
    case CutShort =>
      completion := Aborted;
    case Ends(success, reason, handle, cancellation, replayed) =>
      ghost var calls := trace;
      completion, trace := Conclude(r, receipt, ports.outcome, trace, success, reason, handle, cancellation, replayed);
      assert Effect(r.operation) in trace <==> Effect(r.operation) in calls;
      if completion.Raised? && RefusedInTry(r, ports) {
        RetryIsOpen(r, reason, handle, ports.outcome, calls, trace);
        ghost var once := trace;
        completion, trace :=
          Conclude(r, receipt, ports.secondOutcome, trace, false, HandlerReason(r, ports.outcome.record.value.reason), handle, None, false);
        assert Effect(r.operation) in trace <==> Effect(r.operation) in once;
      }
  }

  lemma RetryIsOpen(
      r: AuthRequest, reason: Reason, handle: Option<Handle>, attempt: Attempt, calls: seq<Call>, trace: seq<Call>)
    requires Below(calls, 4) && NoEffect(calls) && CheckRaises(attempt)
    requires trace == calls + [Record(Outcome, Some(OutcomeEvent(r, false, reason, handle, attempt.clock.value)), attempt.record)]
    ensures MayAttempt(trace, false)
  {
    assert trace[..|trace| - 1] == calls;
  }

  // start, resume and cancel, for any behaviour of the ports. The effect is called only under an authorization.
  method Operate(r: AuthRequest, ports: Ports) returns (completion: Completion, trace: seq<Call>, authorized: Option<Receipt>)
    ensures Disciplined(r, trace, authorized)
    ensures forall receipt :: Authorizes(r, ports, receipt) <==> authorized == Some(receipt)
    ensures forall receipt :: AuthorizedBy(r, ports, receipt) <==> authorized == Some(receipt)
    ensures (exists op :: Effect(op) in trace) <==> authorized.Some? && (r.operation == Cancel || ports.preflight == Returns(None))
    ensures completion.Completed? && completion.result.ok <==>
            && authorized.Some?
            && exists handle, reason :: Succeeds(r, ports, handle, reason) && SuccessReceived(r, ports, authorized.value, handle, reason)
    ensures Attempts(trace) == 2 <==>
            && authorized.Some? && r.operation != Cancel && !ports.preflight.Aborts? && ports.preflight != Returns(None)
            && ports.outcome.clock.Returns? && ports.outcome.record.Returns? && ports.outcome.record.value.Unreadable?
    ensures authorized.Some? ==> Follows(r, ports, authorized.value, trace, completion)
    ensures authorized.None? ==>
              && Below(trace, 2) && Attempts(trace) == 0
              && (completion.Completed? ==> !completion.result.ok && !completion.result.auditPending)
              && (completion.Raised? <==> ReachesAudit(r, ports) && CheckRaises(ports.authorization))
              && (completion.Aborted? <==> GateAborts(r, ports))
  {
    hide Acknowledges, IsOutcome, IsAuthorization, Authorizes, AuthorizedBy, Follows, Disciplined, Succeeds, SuccessReceived, Attempts, GateAborts, ReachesAudit;
    var gate, calls := AuthorizationGate(r, ports);
    authorized, trace := gate.Receipt(), calls;
    NoAttemptsBelow(trace);
    forall receipt ensures Authorizes(r, ports, receipt) <==> AuthorizedBy(r, ports, receipt) {
      AuthorizedExactly(r, ports, receipt);
    }
    assert forall op :: Effect(op) in trace ==> exists i :: 0 <= i < |trace| && trace[i] == Effect(op);
    match gate
    case Refused(result) =>
      completion := Completed(result);
    case GateRaised =>
      completion := Raised;
    case GateAborted =>
      completion := Aborted;
    case Authorized(receipt) =>
      assert Authorizes(r, ports, receipt);
      completion, trace := Finish(r, ports, receipt, calls);
      OkExactly(r, ports, receipt, trace, completion);
      EffectExactly(r, ports, receipt, trace, completion);
  }

  lemma EffectExactly(r: AuthRequest, ports: Ports, receipt: Receipt, trace: seq<Call>, completion: Completion)
    requires Follows(r, ports, receipt, trace, completion) && Disciplined(r, trace, Some(receipt))
    ensures (exists op :: Effect(op) in trace) <==> r.operation == Cancel || ports.preflight == Returns(None)
    ensures Attempts(trace) == 2 <==>
            && r.operation != Cancel && !ports.preflight.Aborts? && ports.preflight != Returns(None)
            && ports.outcome.clock.Returns? && ports.outcome.record.Returns? && ports.outcome.record.value.Unreadable?
  {
    forall op | Effect(op) in trace ensures op == r.operation {
      var i :| 0 <= i < |trace| && trace[i] == Effect(op);
    }
    hide Attempts, Concluded, Retries;
  }

  lemma NoAttemptsBelow(trace: seq<Call>)
    requires Below(trace, 2)
    ensures Attempts(trace) == 0
  {
    assert Below(trace, 4);
    NoAttempts(trace);
  }

  // The promise of exactly one outcome fails in three ways. A start cancelled inside the runtime call has happened as
  // far as anybody knows, under an acknowledged authorization, and no outcome was attempted.
  method CancelledStart(r: AuthRequest, ports: Ports, receipt: Receipt) returns (trace: seq<Call>)
    requires r.operation == Start && Authorizes(r, ports, receipt)
    requires ports.preflight == Returns(None) && ports.start.Aborts?
    ensures Effect(Start) in trace && Attempts(trace) == 0
  {
    var completion, calls, authorized := Operate(r, ports);
    trace := calls;
    assert authorized == Some(receipt);
  }

  // A start or resume whose preflight refuses, where the audit port answers the record of that failure with a receipt
  // whose check raises: the handler records a second failure.
  method FailureRecordedTwice(r: AuthRequest, ports: Ports, receipt: Receipt, refusal: Reason) returns (trace: seq<Call>)
    requires r.operation != Cancel && Authorizes(r, ports, receipt) && ports.preflight == Returns(Some(refusal))
    requires ports.outcome.clock.Returns? && ports.outcome.record == Returns(Unreadable(None))
    requires !AttemptAborts(ports.secondOutcome)
    ensures Attempts(trace) == 2 && !(Effect(r.operation) in trace)
  {
    var completion, calls, authorized := Operate(r, ports);
    trace := calls;
    assert authorized == Some(receipt);
  }

  // A resume that succeeded, recorded with such a receipt: the operation raises, with neither ok nor audit_pending.
  method SuccessThatRaises(r: AuthRequest, ports: Ports, receipt: Receipt) returns (completion: Completion, trace: seq<Call>)
    requires r.operation == Resume && Authorizes(r, ports, receipt) && ports.preflight == Returns(None)
    requires ports.resume.Returns? && r.handle.Some? && SameHandle(ports.resume.value, r.handle.value)
    requires ports.outcome.clock.Returns? && ports.outcome.record == Returns(Unreadable(None))
    ensures completion.Raised? && Effect(Resume) in trace && Attempts(trace) == 1
  {
    var authorized;
    completion, trace, authorized := Operate(r, ports);
    assert authorized == Some(receipt);
  }

  // ---- A chained audit log shared by many operations ---------------------------------------------------------------

  ghost predicate Chained(events: seq<Event>, receipts: seq<Receipt>) {
    && |events| == |receipts|
    && forall i :: 0 <= i < |receipts| ==> ChainedAt(events, receipts, i)
  }

  ghost predicate ChainedAt(events: seq<Event>, receipts: seq<Receipt>, i: nat)
    requires |events| == |receipts| && i < |receipts|
  {
    receipts[i] == Chain(events[i], i, if i == 0 then Genesis else receipts[i - 1].digest)
  }

  function Chain(e: Event, position: nat, previous: Digest): Receipt {
    Receipt(position + 1, previous, OfEvent(e), OfReceipt(position + 1, previous, OfEvent(e), true), true)
  }

  class ChainedLog {
    var events: seq<Event>
    var receipts: seq<Receipt>

    constructor ()
      ensures events == [] && receipts == [] && Chained(events, receipts)
    {
      events, receipts := [], [];
    }

    method Append(e: Event) returns (receipt: Receipt)
      requires Chained(events, receipts)
      modifies this
      ensures Chained(events, receipts) && events == old(events) + [e] && receipts == old(receipts) + [receipt]
      ensures Acknowledges(receipt, e, None)
    {
      receipt := Chain(e, |receipts|, if receipts == [] then Genesis else receipts[|receipts| - 1].digest);
      ghost var before := receipts;
      events, receipts := events + [e], receipts + [receipt];
      forall i | 0 <= i < |receipts|
        ensures ChainedAt(events, receipts, i)
      {
        assert i < |before| ==> ChainedAt(old(events), before, i);
      }
    }
  }

  // On such a log an outcome is acknowledged exactly when nothing was recorded between it and its authorization.
  lemma AcknowledgedIsAdjacent(events: seq<Event>, receipts: seq<Receipt>, a: nat, o: nat)
    requires Chained(events, receipts) && a < |events| && o < |events|
    ensures Acknowledges(receipts[o], events[o], Some(receipts[a])) <==> o == a + 1
  {
    assert ChainedAt(events, receipts, a) && ChainedAt(events, receipts, o) && (o > 0 ==> ChainedAt(events, receipts, o - 1));
  }
}
