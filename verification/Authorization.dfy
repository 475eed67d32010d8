// The authorization decision (corvus/application/authorization.py): a chain of denial checks over evidence, then the
// intersection of the requester's and the agent's capabilities.
module Authorization {
  import opened Common
  import opened AuthorizationRecords

  const PossessionWindow: Time := 30_000_000

  predicate Distinct<T(==)>(s: seq<T>) {
    forall i, j :: 0 <= i < j < |s| ==> s[i] != s[j]
  }

  // expires_at is None or lies after the evaluation time.
  predicate NotExpired(expiresAt: Option<Time>, at: Time) {
    expiresAt.Some? ==> at < expiresAt.value
  }

  // ---- Denial reasons, in the order of the checks ------------------------------------------------------------------

  function ManifestDenial(r: Request, e: Evidence, at: Time): Option<Reason> {
    if e.manifest.None? then Some(ManifestMissing)
    else
      var m := e.manifest.value;
      if m.id != r.manifestVersion || m.digest != r.manifestDigest then Some(ManifestMismatch)
      else if m.status != Active then Some(ManifestInactive)
      else if m.createdAt > at then Some(ManifestNotYetActive)
      else if exists f :: f in e.families && (f.manifest != m.id || f.canonicalization != m.canonicalization) then
        Some(FamilyBindingMismatch)
      else if exists i, j :: 0 <= i < j < |e.families| &&
                (e.families[i].name == e.families[j].name || e.families[i].ordinal == e.families[j].ordinal) then
        Some(FamilySetAmbiguous)
      else if exists name :: name in e.mutableFamilies && forall f :: f in e.families ==> f.name != name then Some(UnlistedFamily)
      else None
  }

  function PossessionDenial(o: Oracle, r: Request, e: Evidence, i: Instance, c: EpochCredential, a: Anchor, at: Time): Option<Reason> {
    if e.possession.None? then Some(PossessionMissing)
    else
      var p := e.possession.value;
      if
        || p.contextId != r.contextId || p.workspace != r.workspace || p.instance != i.id || p.credential != c.id
        || p.epoch != r.epoch || p.generation != r.generation || p.stateRoot != r.stateRoot
        || p.deviceBinding != i.deviceBinding
      then Some(PossessionMismatch)
      else if p.lockName != o.lockName(r.workspace, r.epoch) then Some(LockNotHeld)
      else if a.kind == SealedLocal && a.lockName != Some(p.lockName) then Some(LockNotHeld)
      else if
        || p.issuedAt > at || p.expiresAt <= at || p.expiresAt <= p.issuedAt
        || p.expiresAt - p.issuedAt > PossessionWindow
      then Some(PossessionExpired)
      else if !o.verifies(i.publicKey, e.instanceSignature, p) then Some(InstanceKeyUnavailable)
      else if !o.verifies(c.publicKey, e.epochSignature, p) then Some(EpochKeyUnavailable)
      else None
  }

  function LeaseDenial(r: Request, e: Evidence, i: Instance, at: Time): Option<Reason> {
    if e.lease.None? then Some(LeaseMissing)
    else
      var l := e.lease.value;
      if e.authority.activeLease != Some(l.id) then Some(LeaseMismatch)
      else if l.releasedAt.Some? then Some(LeaseReleased)
      else if l.acquiredAt > at then Some(LeaseNotYetActive)
      else if l.workspace != r.workspace || l.epoch != e.authority.epoch || l.instance != i.id then Some(LeaseMismatch)
      else if e.authority.activatedAt > at then Some(AuthorityNotYetActive)
      else None
  }

  // The commit proof and the epoch credential, neither of which depends on the time.
  function CommitDenial(r: Request, e: Evidence, i: Instance): Option<Reason> {
    var a := e.authority;
    if e.epochCredential.None? then Some(EpochCredentialMissing)
    else
      var c := e.epochCredential.value;
      if c.status == Revoked then Some(EpochCredentialRevoked)
      else if c.status == Destroyed then Some(EpochCredentialDestroyed)
      else if c.id != a.epochCredential || c.workspace != r.workspace || c.epoch != a.epoch || c.instance != i.id then
        Some(EpochCredentialMismatch)
      else if c.deviceBinding != i.deviceBinding then Some(DeviceBindingMismatch)
      else if e.commitProof.None? then Some(CommitProofMissing)
      else
        var p := e.commitProof.value;
        if !p.finalized then Some(CommitNotFinalized)
        else if p.workspace != r.workspace then Some(CrossWorkspaceProof)
        else if p.instance != i.id then Some(ProofInstanceMismatch)
        else if p.credential != c.id then Some(ProofCredentialMismatch)
        else if p.epoch < a.epoch then Some(StaleEpoch)
        else if p.epoch != a.epoch then Some(EpochMismatch)
        else if p.generation < a.generation then Some(StaleGeneration)
        else if p.generation != a.generation then Some(GenerationMismatch)
        else if p.stateRoot != a.stateRoot then Some(StateRootMismatch)
        else if p.receipt != r.commitReceipt then Some(CommitReceiptMismatch)
        else if p.proofDigest != r.proofDigest then Some(ProofDigestMismatch)
        else None
  }

  function InstanceDenial(r: Request, e: Evidence): Option<Reason> {
    if e.instance.None? then Some(DeploymentInstanceMissing)
    else
      var i, a := e.instance.value, e.authority;
      if a.workspace != r.workspace then Some(CrossWorkspaceAuthority)
      else if a.state == Quarantined then Some(RestoreQuarantine)
      else if a.state != Active then Some(WorkspaceAuthorityInactive)
      else if i.status != Active then Some(DeploymentInstanceInactive)
      else if a.profile != i.profile || a.instance != i.id || r.deploymentInstance != i.id then Some(DeploymentInstanceMismatch)
      else if r.epoch < a.epoch then Some(StaleEpoch)
      else if r.epoch != a.epoch then Some(EpochMismatch)
      else if r.generation < a.generation then Some(StaleGeneration)
      else if r.generation != a.generation then Some(GenerationMismatch)
      else if r.stateRoot != a.stateRoot then Some(StateRootMismatch)
      else if r.epochCredential != a.epochCredential then Some(EpochCredentialMismatch)
      else None
  }

  function AnchorDenial(o: Oracle, r: Request, e: Evidence, at: Time): Option<Reason> {
    if e.anchor.None? then Some(TrustAnchorMissing)
    else
      var n := e.anchor.value;
      if e.authority.trustAnchor != r.trustAnchor || n.id != r.trustAnchor then Some(TrustAnchorMismatch)
      else if n.workspace != r.workspace then Some(CrossWorkspaceAnchor)
      else if n.status != Active then Some(TrustAnchorInactive)
      else if n.createdAt > at then Some(TrustAnchorNotYetActive)
      else if n.kind == SealedLocal && (n.lockName.None? || n.sealedRef.None? || n.deviceBinding.None?) then
        Some(SealedAnchorIncomplete)
      else if n.kind == Registry then o.registry(r, e, at)
      else None
  }

  function AuthorityDenial(o: Oracle, r: Request, e: Evidence, at: Time): Option<Reason> {
    if InstanceDenial(r, e).Some? then InstanceDenial(r, e)
    else
      var i := e.instance.value;
      if CommitDenial(r, e, i).Some? then CommitDenial(r, e, i)
      else if AnchorDenial(o, r, e, at).Some? then AnchorDenial(o, r, e, at)
      else if ManifestDenial(r, e, at).Some? then ManifestDenial(r, e, at)
      else
        var possession := PossessionDenial(o, r, e, i, e.epochCredential.value, e.anchor.value, at);
        if possession.Some? then possession else LeaseDenial(r, e, i, at)
  }

  function PlacementDenial(r: Request, e: Evidence, at: Time): Option<Reason> {
    if r.placement.None? then if e.placement.Some? then Some(PlacementUnsolicited) else None
    else if e.placement.None? then Some(PlacementMissing)
    else
      var p := e.placement.value;
      if p.id != r.placement.value then Some(PlacementMismatch)
      else if p.status == Revoked then Some(PlacementRevoked)
      else if p.status == Unavailable then Some(PlacementUnavailable)
      else if p.createdAt > at then Some(PlacementNotYetActive)
      else None
  }

  function CredentialRefDenial(r: Request, e: Evidence, at: Time): Option<Reason> {
    if e.credentialRef.None? then Some(CredentialRefMissing)
    else
      var c := e.credentialRef.value;
      if Some(c.id) != r.credentialRef || c.workspace != r.workspace || Some(c.providerConnection) != r.providerConnection then
        Some(CredentialRefMismatch)
      else if c.owner.Some? && c.owner.value != r.requester then Some(CredentialOwnerMismatch)
      else if c.status == Revoked then Some(CredentialRefRevoked)
      else if c.status == Expired then Some(CredentialRefExpired)
      else if !NotExpired(c.expiresAt, at) then Some(CredentialRefExpired)
      else if c.createdAt > at || c.updatedAt > at then Some(CredentialRefNotYetCurrent)
      else None
  }

  function CredentialProofDenial(r: Request, e: Evidence, c: CredentialRef, at: Time): Option<Reason> {
    if e.credentialProof.None? then Some(CredentialProofMissing)
    else
      var p := e.credentialProof.value;
      if
        || p.contextId != r.contextId || p.workspace != r.workspace || Some(p.providerConnection) != r.providerConnection
        || Some(p.ref) != r.credentialRef || p.refVersion != c.version || Some(p.version) != r.credentialVersion
        || Some(p.grant) != r.credentialGrant || p.actingAgent != r.actingAgent || Some(p.placement) != r.placement
        || p.operation != r.action
      then Some(CredentialProofMismatch)
      else if !p.finalized then Some(CredentialNotFinalized)
      else if !p.versionActive then Some(CredentialVersionInactive)
      else if !p.grantActive then Some(CredentialGrantInactive)
      else if p.issuedAt > at then Some(CredentialProofNotYetValid)
      else if p.expiresAt <= at then Some(CredentialProofExpired)
      else if e.rotationEpoch.None? || e.credentialNonce.None? then Some(CredentialExpectationsMissing)
      else if p.rotationEpoch != e.rotationEpoch.value then Some(RotationEpochMismatch)
      else if p.nonce != e.credentialNonce.value then Some(CredentialNonceMismatch)
      else if p.useCount >= p.useLimit then Some(UseLimitExhausted)
      else None
  }

  function CredentialDenial(r: Request, e: Evidence, at: Time): Option<Reason> {
    if r.providerConnection.None? && r.credentialRef.None? && r.credentialVersion.None? && r.credentialGrant.None? then
      if e.credentialRef.Some? || e.credentialProof.Some? || e.rotationEpoch.Some? || e.credentialNonce.Some?
      then Some(CredentialUnsolicited) else None
    else if r.providerConnection.None? || r.credentialRef.None? || r.credentialVersion.None? || r.credentialGrant.None? then
      Some(CredentialClaimsIncomplete)
    else if r.placement.None? then Some(CredentialPlacementMissing)
    else if CredentialRefDenial(r, e, at).Some? then CredentialRefDenial(r, e, at)
    else CredentialProofDenial(r, e, e.credentialRef.value, at)
  }

  function BudgetProofDenial(r: Request, p: BudgetProof, at: Time): Option<Reason> {
    if
      || p.contextId != r.contextId || p.workspace != r.workspace || p.scopeKind != r.scopeKind || p.scopeId != r.scopeId
      || p.action != r.action || p.snapshots != r.budgetSnapshots || Some(p.digest) != r.budgetDigest
      || Some(p.runtimeLimitDigest) != r.runtimeLimitDigest || Some(p.unit) != r.budgetUnit || Some(p.amount) != r.budgetAmount
    then Some(BudgetProofMismatch)
    else if !p.finalized then Some(BudgetNotFinalized)
    else if p.observedAt > at then Some(BudgetProofNotYetValid)
    else if p.expiresAt <= at then Some(BudgetProofExpired)
    else if !p.hierarchyVerified then Some(BudgetHierarchyUnverified)
    else if !p.periodVerified then Some(BudgetPeriodUnverified)
    else if !p.accountsActive then Some(BudgetAccountInactive)
    else if !(p.startsAt <= at < p.endsAt && p.startsAt < p.endsAt) then Some(BudgetPeriodInactive)
    else if |p.accounts| != p.expectedAccounts then Some(BudgetClosureIncomplete)
    else if !Distinct(p.accounts) then Some(BudgetClosureAmbiguous)
    else if p.remaining < p.amount then Some(BudgetExhausted)
    else if p.runtimeConsumed >= p.runtimeLimit then Some(RuntimeExhausted)
    else None
  }

  function BudgetDenial(r: Request, e: Evidence, at: Time): Option<Reason> {
    if r.budgetSnapshots == [] && r.budgetDigest.None? && r.runtimeLimitDigest.None? && r.budgetUnit.None? && r.budgetAmount.None? then
      if e.budgetProof.Some? then Some(BudgetUnsolicited) else None
    else if r.budgetSnapshots == [] || r.budgetDigest.None? || r.runtimeLimitDigest.None? || r.budgetUnit.None? || r.budgetAmount.None? then
      Some(BudgetClaimsIncomplete)
    else if !Distinct(r.budgetSnapshots) then Some(BudgetSetAmbiguous)
    else if e.budgetProof.None? then Some(BudgetProofMissing)
    else BudgetProofDenial(r, e.budgetProof.value, at)
  }

  // The loop over snapshot, binding and entry side by side, from position i on.
  function EntriesDenial(r: Request, entries: seq<KillEntry>, i: nat, at: Time): Option<Reason>
    requires |entries| == |r.killSnapshots| == |r.killBindings| && i <= |entries|
    decreases |entries| - i
  {
    if i == |entries| then None
    else
      var e := entries[i];
      if e.snapshot != r.killSnapshots[i] || e.workspace != r.workspace || e.binding != r.killBindings[i] then
        Some(KillBindingMismatch)
      else if e.updatedAt > at then Some(KillSnapshotNotYetCurrent)
      else if e.state != Clear then Some(KillSwitched(e.state))
      else EntriesDenial(r, entries, i + 1, at)
  }

  function KillDenial(r: Request, e: Evidence, at: Time): Option<Reason> {
    if r.killSnapshots == [] || r.killBindings == [] || |r.killSnapshots| != |r.killBindings| then Some(KillClaimsIncomplete)
    else if !Distinct(r.killSnapshots) then Some(KillSetAmbiguous)
    else if !Distinct(r.killBindings) then Some(KillScopeAmbiguous)
    else if ScopeBinding(ForWorkspace, r.workspace) !in r.killBindings || ScopeBinding(ForAgent, r.actingAgent) !in r.killBindings then
      Some(KillHierarchyIncomplete)
    else if e.killProof.None? then Some(KillProofMissing)
    else
      var p := e.killProof.value;
      if
        || p.contextId != r.contextId || p.workspace != r.workspace || p.actingAgent != r.actingAgent
        || p.action != r.action || p.snapshots != r.killSnapshots || p.digest != r.killDigest || p.bindings != r.killBindings
      then Some(KillProofMismatch)
      else if !p.finalized then Some(KillNotFinalized)
      else if p.observedAt > at then Some(KillProofNotYetValid)
      else if p.expiresAt <= at then Some(KillProofExpired)
      else if !p.exhaustive then Some(KillHierarchyUnverified)
      else if |p.entries| != |r.killSnapshots| then Some(KillSetIncomplete)
      else if exists i, j :: 0 <= i < j < |p.entries| && p.entries[i].snapshot == p.entries[j].snapshot then Some(KillSetAmbiguous)
      else EntriesDenial(r, p.entries, 0, at)
  }

  function AudienceAllows(r: Request, e: Evidence, a: Audience): bool {
    match a.visibility
    case Personal => a.owner == Some(r.requester)
    case ExplicitPrincipals => r.requester in a.principals
    case ByRole => a.roles * e.requesterRoles != {}
    case ScopedTo(_) => true
    case WholeWorkspace => true
  }

  function AudienceDenial(r: Request, e: Evidence, at: Time): Option<Reason> {
    if e.audience.None? then Some(AudienceMissing)
    else if e.client.None? then Some(ClientMissing)
    else
      var a, c := e.audience.value, e.client.value;
      if a.id != r.audienceSnapshot || a.workspace != r.workspace || a.digest != r.audienceDigest || a.scopeDigest != r.scopeDigest then
        Some(AudienceMismatch)
      else if a.createdAt > at then Some(AudienceNotYetCurrent)
      else if a.visibility.ScopedTo? && a.visibility.kind != r.scopeKind then Some(AudienceScopeMismatch)
      else if !AudienceAllows(r, e, a) then Some(PrincipalDenied)
      else if r.clientSurface !in e.surfaces then Some(SurfaceDisabled)
      else if c.id != r.clientContext then Some(ClientMismatch)
      else if c.surface != r.clientSurface then Some(SurfaceMismatch)
      else if c.transportPrincipal != r.transportPrincipal then Some(TransportMismatch)
      else if c.issuedAt > at then Some(ClientNotYetActive)
      else if !NotExpired(c.expiresAt, at) then Some(ClientExpired)
      else None
  }

  // ---- The intersection ------------------------------------------------------------------------------------------

  predicate Targets(g: Grant, b: Bundle, r: Request) {
    && g.bundle == b.id && g.workspace == r.workspace
    && g.resourceKind == r.resourceKind && g.resource == r.resource && g.action == r.action
  }

  predicate Holds(grants: seq<Grant>, b: Bundle, r: Request, effect: GrantEffect) {
    exists g :: g in grants && Targets(g, b, r) && g.effect == effect
  }

  function DelegationDenial(r: Request, d: Delegation, g: AgentGrant, at: Time): Option<Reason> {
    if d.parentGrant != g.id then Some(DelegationParentMismatch)
    else if d.childAgent != r.actingAgent then Some(DelegationChildMismatch)
    else if d.revoked then Some(DelegationRevoked)
    else if at < d.issuedAt then Some(DelegationNotYetActive)
    else if at >= d.expiresAt then Some(DelegationExpired)
    else if d.depthLimit < 1 then Some(DepthExceeded)
    else if r.action !in d.capabilities then Some(Overreach)
    else None
  }

  // From the agent grant to the delegation chain.
  function StandingDenial(r: Request, h: Holdings, at: Time): Option<Reason> {
    if h.agentGrant.None? then Some(NoAgentGrant)
    else
      var g := h.agentGrant.value;
      if
        || h.requesterBundle.workspace != r.workspace || h.agentBundle.workspace != r.workspace || g.workspace != r.workspace
        || (exists x :: x in h.requesterGrants && x.workspace != r.workspace)
        || (exists x :: x in h.agentGrants && x.workspace != r.workspace)
      then Some(CrossWorkspaceGrant)
      else if
        || h.requesterBundle.scopeKind != r.scopeKind || h.requesterBundle.scopeId != r.scopeId
        || h.agentBundle.scopeKind != r.scopeKind || h.agentBundle.scopeId != r.scopeId
      then Some(ScopeMismatch)
      else if h.requesterBundle.revoked then Some(RequesterRevoked)
      else if !NotExpired(h.requesterBundle.expiresAt, at) then Some(RequesterExpired)
      else if h.agentBundle.revoked then Some(AgentBundleRevoked)
      else if !NotExpired(h.agentBundle.expiresAt, at) then Some(AgentBundleExpired)
      else if g.revoked then Some(AgentGrantRevoked)
      else if !NotExpired(g.expiresAt, at) then Some(AgentGrantExpired)
      else if |h.delegations| > 1 then Some(ChainUnverifiable)
      else if h.delegations == [] then None
      else DelegationDenial(r, h.delegations[0], g, at)
  }

  // The principal whose bundle must carry the capability: the parent agent when the right is delegated.
  function Holder(r: Request, h: Holdings): Id
    requires h.agentGrant.Some?
  {
    if h.delegations != [] then h.agentGrant.value.agent else r.actingAgent
  }

  predicate BundlesMatch(r: Request, h: Holdings)
    requires h.agentGrant.Some?
  {
    && h.requesterBundle.principal == r.requester
    && h.agentBundle.principal == Holder(r, h)
    && h.agentGrant.value.agent == Holder(r, h)
    && h.agentGrant.value.bundle == h.agentBundle.id
  }

  function IntersectionDenial(r: Request, h: Holdings, at: Time): Option<Reason> {
    if StandingDenial(r, h, at).Some? then StandingDenial(r, h, at)
    else if Holds(h.requesterGrants, h.requesterBundle, r, Denies) || Holds(h.agentGrants, h.agentBundle, r, Denies) then
      Some(ExplicitDeny)
    else if !Holds(h.requesterGrants, h.requesterBundle, r, Allows) then Some(NoRequesterGrant)
    else if !BundlesMatch(r, h) || !Holds(h.agentGrants, h.agentBundle, r, Allows) then Some(IntersectionMissing)
    else None
  }

  datatype Result = Result(allow: bool, reason: Reason, actions: set<string>)

  function Deny(reason: Reason): Result {
    Result(false, reason, {})
  }

  predicate IsCancellation(r: Request) {
    r.resourceKind == "agent_run" && r.action == "agent_run.cancel"
  }

  // evaluate_capability_intersection
  function Evaluate(o: Oracle, r: Request, context: Option<Evidence>, h: Holdings, at: Time): Result {
    if context.None? then Deny(AuthorityContextMissing)
    else
      var e := context.value;
      if AuthorityDenial(o, r, e, at).Some? then Deny(AuthorityDenial(o, r, e, at).value)
      else if PlacementDenial(r, e, at).Some? then Deny(PlacementDenial(r, e, at).value)
      else if CredentialDenial(r, e, at).Some? then Deny(CredentialDenial(r, e, at).value)
      else if !IsCancellation(r) && BudgetDenial(r, e, at).Some? then Deny(BudgetDenial(r, e, at).value)
      else if KillDenial(r, e, at).Some? then Deny(KillDenial(r, e, at).value)
      else if IntersectionDenial(r, h, at).Some? then Deny(IntersectionDenial(r, h, at).value)
      else if AudienceDenial(r, e, at).Some? then Deny(AudienceDenial(r, e, at).value)
      else Result(true, if h.delegations != [] then DelegatedIntersection else ExactIntersection, {r.action})
  }

  // ---- The authority window --------------------------------------------------------------------------------------

  // The validity windows of the evidence, stage by stage.
  ghost predicate AuthorityWindow(e: Evidence, t: Time)
    requires e.anchor.Some? && e.manifest.Some? && e.possession.Some? && e.lease.Some?
  {
    && e.anchor.value.createdAt <= t && e.manifest.value.createdAt <= t
    && e.possession.value.issuedAt <= t < e.possession.value.expiresAt
    && e.lease.value.acquiredAt <= t && e.authority.activatedAt <= t
  }

  ghost predicate PlacementWindow(e: Evidence, t: Time) {
    e.placement.Some? ==> e.placement.value.createdAt <= t
  }

  ghost predicate CredentialWindow(e: Evidence, t: Time) {
    && (e.credentialRef.Some? ==>
          e.credentialRef.value.createdAt <= t && e.credentialRef.value.updatedAt <= t && NotExpired(e.credentialRef.value.expiresAt, t))
    && (e.credentialProof.Some? ==> e.credentialProof.value.issuedAt <= t < e.credentialProof.value.expiresAt)
  }

  ghost predicate BudgetWindow(e: Evidence, t: Time) {
    e.budgetProof.Some? ==>
      && e.budgetProof.value.observedAt <= t < e.budgetProof.value.expiresAt
      && e.budgetProof.value.startsAt <= t < e.budgetProof.value.endsAt
  }

  ghost predicate EntriesWindow(entries: seq<KillEntry>, i: nat, t: Time) {
    forall k :: i <= k < |entries| ==> entries[k].updatedAt <= t
  }

  ghost predicate KillWindow(e: Evidence, t: Time) {
    e.killProof.Some? ==>
      && e.killProof.value.observedAt <= t < e.killProof.value.expiresAt
      && EntriesWindow(e.killProof.value.entries, 0, t)
  }

  ghost predicate HoldingsWindow(h: Holdings, t: Time) {
    && NotExpired(h.requesterBundle.expiresAt, t) && NotExpired(h.agentBundle.expiresAt, t)
    && (h.agentGrant.Some? ==> NotExpired(h.agentGrant.value.expiresAt, t))
    && (h.delegations != [] ==> h.delegations[0].issuedAt <= t < h.delegations[0].expiresAt)
  }

  ghost predicate AudienceWindow(e: Evidence, t: Time) {
    && (e.audience.Some? ==> e.audience.value.createdAt <= t)
    && (e.client.Some? ==> e.client.value.issuedAt <= t && NotExpired(e.client.value.expiresAt, t))
  }

  // A stage that passes at one time passes at another exactly within its windows.
  lemma AuthorityExact(o: Oracle, r: Request, e: Evidence, a: Time, b: Time)
    requires e.anchor.Some? && e.anchor.value.kind == SealedLocal && AuthorityDenial(o, r, e, a).None?
    ensures e.manifest.Some? && e.possession.Some? && e.lease.Some? && AuthorityWindow(e, a)
    ensures AuthorityDenial(o, r, e, b).None? <==> AuthorityWindow(e, b)
    ensures e.possession.value.expiresAt - e.possession.value.issuedAt <= PossessionWindow
  {
    var i, k, n := e.instance.value, e.epochCredential.value, e.anchor.value;
    hide InstanceDenial, CommitDenial;
    assert ManifestDenial(r, e, a).None? && AnchorDenial(o, r, e, a).None? && LeaseDenial(r, e, i, a).None?;
    assert PossessionDenial(o, r, e, i, k, n, a).None?;
  }

  lemma PlacementExact(r: Request, e: Evidence, a: Time, b: Time)
    requires PlacementDenial(r, e, a).None?
    ensures PlacementWindow(e, a) && (PlacementDenial(r, e, b).None? <==> PlacementWindow(e, b))
  {
  }

  lemma CredentialExact(r: Request, e: Evidence, a: Time, b: Time)
    requires CredentialDenial(r, e, a).None?
    ensures CredentialWindow(e, a) && (CredentialDenial(r, e, b).None? <==> CredentialWindow(e, b))
  {
  }

  lemma BudgetExact(r: Request, e: Evidence, a: Time, b: Time)
    requires BudgetDenial(r, e, a).None?
    ensures BudgetWindow(e, a) && (BudgetDenial(r, e, b).None? <==> BudgetWindow(e, b))
  {
    hide Distinct;
  }

  lemma {:induction false} EntriesExact(r: Request, entries: seq<KillEntry>, i: nat, a: Time, b: Time)
    requires |entries| == |r.killSnapshots| == |r.killBindings| && i <= |entries|
    requires EntriesDenial(r, entries, i, a).None?
    ensures EntriesWindow(entries, i, a) && (EntriesDenial(r, entries, i, b).None? <==> EntriesWindow(entries, i, b))
    decreases |entries| - i
  {
    if i < |entries| {
      EntriesExact(r, entries, i + 1, a, b);
      assert EntriesWindow(entries, i, b) <==> entries[i].updatedAt <= b && EntriesWindow(entries, i + 1, b);
    }
  }

  lemma KillExact(r: Request, e: Evidence, a: Time, b: Time)
    requires KillDenial(r, e, a).None?
    ensures KillWindow(e, a) && (KillDenial(r, e, b).None? <==> KillWindow(e, b))
  {
    hide Distinct;
    EntriesExact(r, e.killProof.value.entries, 0, a, b);
  }

  lemma IntersectionExact(r: Request, h: Holdings, a: Time, b: Time)
    requires IntersectionDenial(r, h, a).None?
    ensures HoldingsWindow(h, a) && (IntersectionDenial(r, h, b).None? <==> HoldingsWindow(h, b))
  {
    hide Holds, BundlesMatch;
    assert StandingDenial(r, h, a).None?;
  }

  lemma AudienceExact(r: Request, e: Evidence, a: Time, b: Time)
    requires AudienceDenial(r, e, a).None?
    ensures AudienceWindow(e, a) && (AudienceDenial(r, e, b).None? <==> AudienceWindow(e, b))
  {
  }

  // All the windows together; cancelling an agent run is not held to the budget.
  ghost predicate InWindow(r: Request, e: Evidence, h: Holdings, t: Time)
    requires e.anchor.Some? && e.manifest.Some? && e.possession.Some? && e.lease.Some?
  {
    && AuthorityWindow(e, t) && PlacementWindow(e, t) && CredentialWindow(e, t)
    && (!IsCancellation(r) ==> BudgetWindow(e, t))
    && KillWindow(e, t) && HoldingsWindow(h, t) && AudienceWindow(e, t)
  }

  // With a sealed-local anchor, evidence that allows a request at one time allows it at another exactly when that time
  // lies in every window of the evidence.
  lemma AllowedExactlyInWindow(o: Oracle, r: Request, e: Evidence, h: Holdings, a: Time, b: Time)
    requires e.anchor.Some? && e.anchor.value.kind == SealedLocal && Evaluate(o, r, Some(e), h, a).allow
    ensures e.manifest.Some? && e.possession.Some? && e.lease.Some? && InWindow(r, e, h, a)
    ensures Evaluate(o, r, Some(e), h, b).allow <==> InWindow(r, e, h, b)
    ensures e.possession.value.expiresAt - e.possession.value.issuedAt <= PossessionWindow
  {
    hide AuthorityDenial, PlacementDenial, CredentialDenial, BudgetDenial, KillDenial, IntersectionDenial, AudienceDenial;
    hide AuthorityWindow, PlacementWindow, CredentialWindow, BudgetWindow, KillWindow, HoldingsWindow, AudienceWindow;
    AuthorityExact(o, r, e, a, b);
    PlacementExact(r, e, a, b);
    CredentialExact(r, e, a, b);
    if !IsCancellation(r) {
      BudgetExact(r, e, a, b);
    }
    KillExact(r, e, a, b);
    IntersectionExact(r, h, a, b);
    AudienceExact(r, e, a, b);
  }

  // So the times at which fixed evidence allows a request form an interval shorter than thirty seconds.
  lemma WindowIsBoundedAndConvex(o: Oracle, r: Request, e: Evidence, h: Holdings, a: Time, b: Time, c: Time)
    requires e.anchor.Some? && e.anchor.value.kind == SealedLocal && a <= b <= c
    requires Evaluate(o, r, Some(e), h, a).allow && Evaluate(o, r, Some(e), h, c).allow
    ensures Evaluate(o, r, Some(e), h, b).allow && c - a < PossessionWindow
  {
    hide Evaluate;
    AllowedExactlyInWindow(o, r, e, h, a, b);
    AllowedExactlyInWindow(o, r, e, h, a, c);
  }

  // Evidence cannot be turned to another purpose: two requests that the same evidence allows, at whatever times and
  // with whatever holdings, agree on everything the evidence is bound to.
  lemma EvidenceAllowsOnePurpose(o: Oracle, r: Request, q: Request, e: Evidence, h: Holdings, k: Holdings, a: Time, b: Time)
    requires Evaluate(o, r, Some(e), h, a).allow && Evaluate(o, q, Some(e), k, b).allow
    ensures q.workspace == r.workspace && q.contextId == r.contextId && q.actingAgent == r.actingAgent && q.action == r.action
    ensures q.deploymentInstance == r.deploymentInstance && q.epoch == r.epoch && q.generation == r.generation
    ensures q.stateRoot == r.stateRoot && q.epochCredential == r.epochCredential && q.trustAnchor == r.trustAnchor
    ensures q.commitReceipt == r.commitReceipt && q.proofDigest == r.proofDigest
    ensures q.manifestVersion == r.manifestVersion && q.manifestDigest == r.manifestDigest && q.placement == r.placement
    ensures q.killSnapshots == r.killSnapshots && q.killBindings == r.killBindings && q.killDigest == r.killDigest
    ensures q.audienceSnapshot == r.audienceSnapshot && q.audienceDigest == r.audienceDigest && q.scopeDigest == r.scopeDigest
    ensures q.clientContext == r.clientContext && q.clientSurface == r.clientSurface && q.transportPrincipal == r.transportPrincipal
    ensures q.credentialRef == r.credentialRef && q.providerConnection == r.providerConnection
    ensures q.credentialVersion == r.credentialVersion && q.credentialGrant == r.credentialGrant
    ensures !IsCancellation(r) && !IsCancellation(q) ==>
              && q.budgetSnapshots == r.budgetSnapshots && q.budgetDigest == r.budgetDigest
              && q.runtimeLimitDigest == r.runtimeLimitDigest && q.budgetUnit == r.budgetUnit && q.budgetAmount == r.budgetAmount
              && (e.budgetProof.Some? ==> q.scopeKind == r.scopeKind && q.scopeId == r.scopeId)
  {
    AuthorityBinds(o, r, e, a);
    AuthorityBinds(o, q, e, b);
    StagesBind(r, e, a);
    StagesBind(q, e, b);
    if !IsCancellation(r) && !IsCancellation(q) {
      BudgetBinds(r, e, a);
      BudgetBinds(q, e, b);
    }
    hide AuthorityDenial, PlacementDenial, CredentialDenial, BudgetDenial, KillDenial, AudienceDenial, IntersectionDenial;
  }

  lemma BudgetBinds(r: Request, e: Evidence, at: Time)
    requires BudgetDenial(r, e, at).None?
    ensures e.budgetProof.None? ==>
              r.budgetSnapshots == [] && r.budgetDigest == None && r.runtimeLimitDigest == None && r.budgetUnit == None && r.budgetAmount == None
    ensures e.budgetProof.Some? ==>
              var p := e.budgetProof.value;
              && r.budgetSnapshots == p.snapshots && r.budgetDigest == Some(p.digest)
              && r.runtimeLimitDigest == Some(p.runtimeLimitDigest) && r.budgetUnit == Some(p.unit)
              && r.budgetAmount == Some(p.amount) && r.scopeKind == p.scopeKind && r.scopeId == p.scopeId
  {
    hide Distinct;
  }

  lemma AuthorityBinds(o: Oracle, r: Request, e: Evidence, at: Time)
    requires AuthorityDenial(o, r, e, at).None?
    ensures e.instance.Some? && e.commitProof.Some? && e.manifest.Some?
    ensures r.workspace == e.authority.workspace && r.deploymentInstance == e.instance.value.id
    ensures r.epoch == e.authority.epoch && r.generation == e.authority.generation && r.stateRoot == e.authority.stateRoot
    ensures r.epochCredential == e.authority.epochCredential && r.trustAnchor == e.authority.trustAnchor
    ensures r.commitReceipt == e.commitProof.value.receipt && r.proofDigest == e.commitProof.value.proofDigest
    ensures r.manifestVersion == e.manifest.value.id && r.manifestDigest == e.manifest.value.digest
  {
    hide PossessionDenial, LeaseDenial;
    assert InstanceDenial(r, e).None? && CommitDenial(r, e, e.instance.value).None?;
    assert AnchorDenial(o, r, e, at).None? && ManifestDenial(r, e, at).None?;
  }

  lemma StagesBind(r: Request, e: Evidence, at: Time)
    requires PlacementDenial(r, e, at).None? && CredentialDenial(r, e, at).None? && KillDenial(r, e, at).None?
    requires AudienceDenial(r, e, at).None?
    ensures r.placement == (if e.placement.Some? then Some(e.placement.value.id) else None)
    ensures e.credentialProof.None? ==>
              r.credentialRef == None && r.providerConnection == None && r.credentialVersion == None && r.credentialGrant == None
    ensures e.credentialProof.Some? ==>
              && r.credentialRef == Some(e.credentialProof.value.ref)
              && r.providerConnection == Some(e.credentialProof.value.providerConnection)
              && r.credentialVersion == Some(e.credentialProof.value.version)
              && r.credentialGrant == Some(e.credentialProof.value.grant)
    ensures e.killProof.Some? && e.audience.Some? && e.client.Some?
    ensures
      var p := e.killProof.value;
      && r.contextId == p.contextId && r.actingAgent == p.actingAgent && r.action == p.action
      && r.killSnapshots == p.snapshots && r.killBindings == p.bindings && r.killDigest == p.digest
    ensures
      var p, c := e.audience.value, e.client.value;
      && r.audienceSnapshot == p.id && r.audienceDigest == p.digest && r.scopeDigest == p.scopeDigest
      && r.clientContext == c.id && r.clientSurface == c.surface && r.transportPrincipal == c.transportPrincipal
  {
    hide Distinct, EntriesDenial;
  }

  // ---- The algebra of grants -------------------------------------------------------------------------------------

  ghost predicate SameGrants(a: seq<Grant>, b: seq<Grant>) {
    forall g :: g in a <==> g in b
  }

  // Neither the order nor the repetition of grants matters to the result.
  lemma OrderAndRepetitionIrrelevant(o: Oracle, r: Request, context: Option<Evidence>, h: Holdings, k: Holdings, at: Time)
    requires k == h.(requesterGrants := k.requesterGrants, agentGrants := k.agentGrants)
    requires SameGrants(h.requesterGrants, k.requesterGrants) && SameGrants(h.agentGrants, k.agentGrants)
    ensures Evaluate(o, r, context, k, at) == Evaluate(o, r, context, h, at)
  {
    hide AuthorityDenial, PlacementDenial, CredentialDenial, BudgetDenial, KillDenial, AudienceDenial;
    assert StandingDenial(r, h, at) == StandingDenial(r, k, at);
    forall effect | true
      ensures Holds(h.requesterGrants, h.requesterBundle, r, effect) == Holds(k.requesterGrants, k.requesterBundle, r, effect)
           && Holds(h.agentGrants, h.agentBundle, r, effect) == Holds(k.agentGrants, k.agentBundle, r, effect)
    {
      SameHolds(h.requesterGrants, k.requesterGrants, h.requesterBundle, r, effect);
      SameHolds(h.agentGrants, k.agentGrants, h.agentBundle, r, effect);
    }
  }

  lemma SameHolds(a: seq<Grant>, b: seq<Grant>, bundle: Bundle, r: Request, effect: GrantEffect)
    requires SameGrants(a, b)
    ensures Holds(a, bundle, r, effect) == Holds(b, bundle, r, effect)
  {
    if Holds(a, bundle, r, effect) {
      var g :| g in a && Targets(g, bundle, r) && g.effect == effect;
      assert g in b;
    }
    if Holds(b, bundle, r, effect) {
      var g :| g in b && Targets(g, bundle, r) && g.effect == effect;
      assert g in a;
    }
  }

  // b has at least a's denials and at most a's allowances.
  ghost predicate Stricter(a: seq<Grant>, b: seq<Grant>) {
    && (forall g :: g in a && g.effect == Denies ==> g in b)
    && (forall g :: g in b && g.effect == Allows ==> g in a)
  }

  // For grants of the request's workspace, more denials or fewer allowances can only turn an allowance into a denial.
  lemma StricterGrantsOnlyDeny(o: Oracle, r: Request, context: Option<Evidence>, h: Holdings, k: Holdings, at: Time)
    requires k == h.(requesterGrants := k.requesterGrants, agentGrants := k.agentGrants)
    requires Stricter(h.requesterGrants, k.requesterGrants) && Stricter(h.agentGrants, k.agentGrants)
    requires forall g :: g in h.requesterGrants + h.agentGrants ==> g.workspace == r.workspace
    requires Evaluate(o, r, context, k, at).allow
    ensures Evaluate(o, r, context, h, at) == Evaluate(o, r, context, k, at)
  {
    hide AuthorityDenial, PlacementDenial, CredentialDenial, BudgetDenial, KillDenial, AudienceDenial, DelegationDenial;
    assert IntersectionDenial(r, k, at).None?;
    assert StandingDenial(r, h, at).None? by {
      assert StandingDenial(r, k, at).None?;
      assert forall g :: g in h.requesterGrants ==> g in h.requesterGrants + h.agentGrants;
      assert forall g :: g in h.agentGrants ==> g in h.requesterGrants + h.agentGrants;
    }
    StricterHolds(h.requesterGrants, k.requesterGrants, h.requesterBundle, r);
    StricterHolds(h.agentGrants, k.agentGrants, h.agentBundle, r);
  }

  lemma StricterHolds(a: seq<Grant>, b: seq<Grant>, bundle: Bundle, r: Request)
    requires Stricter(a, b)
    ensures Holds(b, bundle, r, Allows) ==> Holds(a, bundle, r, Allows)
    ensures Holds(a, bundle, r, Denies) ==> Holds(b, bundle, r, Denies)
  {
    if Holds(b, bundle, r, Allows) {
      var g :| g in b && Targets(g, bundle, r) && g.effect == Allows;
      assert g in a;
    }
    if Holds(a, bundle, r, Denies) {
      var g :| g in a && Targets(g, bundle, r) && g.effect == Denies;
      assert g in b;
    }
  }

  // An allowance names the action and nothing else, and rests on an allowance of the requester and one of the agent
  // with no targeted denial on either side; a delegated one also on the delegation, with the capability in the bundle
  // of the parent agent itself.
  lemma AllowanceRestsOnBothSides(o: Oracle, r: Request, context: Option<Evidence>, h: Holdings, at: Time)
    requires Evaluate(o, r, context, h, at).allow
    ensures Evaluate(o, r, context, h, at).actions == {r.action}
    ensures Holds(h.requesterGrants, h.requesterBundle, r, Allows) && Holds(h.agentGrants, h.agentBundle, r, Allows)
    ensures !Holds(h.requesterGrants, h.requesterBundle, r, Denies) && !Holds(h.agentGrants, h.agentBundle, r, Denies)
    ensures h.requesterBundle.principal == r.requester && h.agentGrant.Some? && h.agentGrant.value.bundle == h.agentBundle.id
    ensures h.delegations == [] ==> h.agentBundle.principal == r.actingAgent
    ensures h.delegations != [] ==>
              && |h.delegations| == 1 && r.action in h.delegations[0].capabilities
              && h.delegations[0].childAgent == r.actingAgent && h.delegations[0].depthLimit >= 1
              && h.delegations[0].parentGrant == h.agentGrant.value.id
              && h.delegations[0].issuedAt <= at < h.delegations[0].expiresAt
              && h.agentBundle.principal == h.agentGrant.value.agent
  {
    hide AuthorityDenial, PlacementDenial, CredentialDenial, BudgetDenial, KillDenial, AudienceDenial, Holds;
    assert IntersectionDenial(r, h, at).None?;
  }
}
