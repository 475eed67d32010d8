// The records an authorization decision is made from (corvus/application/authorization.py, corvus/domain/access.py,
// corvus/domain/deployment.py), with the fields the decision reads. Times are in microseconds.
module AuthorizationRecords {
  import opened Common

  type Id = nat
  type Hash = string
  type Time = int

  // The evaluation time, evaluated_at in the source, is passed next to the request.
  datatype Request = Request(
    workspace: Id, contextId: Id, deploymentInstance: Id, epoch: nat, generation: nat, stateRoot: Hash,
    epochCredential: Id, commitReceipt: Id, proofDigest: Hash, trustAnchor: Id,
    manifestVersion: Id, manifestDigest: Hash,
    placement: Option<Id>,
    providerConnection: Option<Id>, credentialRef: Option<Id>, credentialVersion: Option<Id>, credentialGrant: Option<Id>,
    budgetSnapshots: seq<Id>, budgetDigest: Option<Hash>, runtimeLimitDigest: Option<Hash>, budgetUnit: Option<string>,
    budgetAmount: Option<nat>,
    killSnapshots: seq<Id>, killDigest: Hash, killBindings: seq<ScopeBinding>,
    audienceSnapshot: Id, audienceDigest: Hash, scopeDigest: Hash,
    clientContext: Id, clientSurface: nat, transportPrincipal: Id,
    requester: Id, actingAgent: Id, scopeKind: string, scopeId: Id,
    resourceKind: string, resource: Id, action: string)

  datatype Scoped = ForWorkspace | ForAgent | ForWorkflow | ForRun
  datatype ScopeBinding = ScopeBinding(kind: Scoped, scopeId: Id)
  datatype KillState = Armed | Stopping | Stopped | Clear
  datatype KillEntry = KillEntry(snapshot: Id, workspace: Id, binding: ScopeBinding, state: KillState, updatedAt: Time)
  datatype KillProof = KillProof(
    contextId: Id, workspace: Id, actingAgent: Id, action: string, snapshots: seq<Id>, digest: Hash,
    bindings: seq<ScopeBinding>, entries: seq<KillEntry>, observedAt: Time, expiresAt: Time, exhaustive: bool, finalized: bool)

  datatype Lifecycle = Active | Revoked | Retired | Destroyed | Expired | Unavailable | Quarantined | HandoffPending | Closed

  datatype Instance = Instance(id: Id, profile: Id, publicKey: string, deviceBinding: Hash, status: Lifecycle)
  datatype Authority = Authority(
    workspace: Id, profile: Id, instance: Id, epoch: nat, generation: nat, stateRoot: Hash, epochCredential: Id,
    trustAnchor: Id, activeLease: Option<Id>, state: Lifecycle, activatedAt: Time)
  datatype EpochCredential = EpochCredential(
    id: Id, workspace: Id, epoch: nat, instance: Id, publicKey: string, deviceBinding: Hash, status: Lifecycle)
  datatype CommitProof = CommitProof(
    workspace: Id, instance: Id, credential: Id, epoch: nat, generation: nat, stateRoot: Hash, receipt: Id,
    proofDigest: Hash, finalized: bool)
  datatype AnchorKind = SealedLocal | Registry
  datatype Anchor = Anchor(
    id: Id, workspace: Id, kind: AnchorKind, lockName: Option<string>, sealedRef: Option<string>,
    deviceBinding: Option<Hash>, status: Lifecycle, createdAt: Time)
  datatype Lease = Lease(id: Id, workspace: Id, epoch: nat, instance: Id, acquiredAt: Time, releasedAt: Option<Time>)
  datatype Manifest = Manifest(id: Id, digest: Hash, canonicalization: nat, status: Lifecycle, createdAt: Time)
  datatype Family = Family(manifest: Id, ordinal: nat, name: string, canonicalization: nat)
  datatype PossessionProof = PossessionProof(
    contextId: Id, workspace: Id, instance: Id, credential: Id, epoch: nat, generation: nat, stateRoot: Hash,
    deviceBinding: Hash, lockName: string, nonce: Hash, issuedAt: Time, expiresAt: Time)
  datatype Placement = Placement(id: Id, status: Lifecycle, createdAt: Time)
  datatype CredentialRef = CredentialRef(
    id: Id, workspace: Id, providerConnection: Id, owner: Option<Id>, status: Lifecycle, expiresAt: Option<Time>,
    createdAt: Time, updatedAt: Time, version: nat)
  datatype CredentialProof = CredentialProof(
    contextId: Id, workspace: Id, providerConnection: Id, ref: Id, refVersion: nat, version: Id, grant: Id,
    actingAgent: Id, placement: Id, operation: string, rotationEpoch: nat, nonce: Hash, useLimit: nat, useCount: nat,
    issuedAt: Time, expiresAt: Time, versionActive: bool, grantActive: bool, finalized: bool)
  datatype BudgetProof = BudgetProof(
    contextId: Id, workspace: Id, scopeKind: string, scopeId: Id, action: string, snapshots: seq<Id>, digest: Hash,
    runtimeLimitDigest: Hash, unit: string, amount: nat, accounts: seq<Id>, expectedAccounts: nat, remaining: nat,
    runtimeLimit: nat, runtimeConsumed: nat, startsAt: Time, endsAt: Time, observedAt: Time, expiresAt: Time,
    hierarchyVerified: bool, periodVerified: bool, accountsActive: bool, finalized: bool)
  datatype Visibility = Personal | ExplicitPrincipals | ByRole | ScopedTo(kind: string) | WholeWorkspace
  datatype Audience = Audience(
    id: Id, workspace: Id, visibility: Visibility, owner: Option<Id>, principals: set<Id>, roles: set<Id>,
    scopeDigest: Hash, digest: Hash, createdAt: Time)
  datatype Client = Client(id: Id, surface: nat, transportPrincipal: Id, issuedAt: Time, expiresAt: Option<Time>)

  datatype Evidence = Evidence(
    instance: Option<Instance>, authority: Authority, epochCredential: Option<EpochCredential>, lease: Option<Lease>,
    commitProof: Option<CommitProof>, anchor: Option<Anchor>, manifest: Option<Manifest>, families: seq<Family>,
    mutableFamilies: set<string>, placement: Option<Placement>,
    credentialRef: Option<CredentialRef>, credentialProof: Option<CredentialProof>, rotationEpoch: Option<nat>,
    credentialNonce: Option<Hash>, budgetProof: Option<BudgetProof>, killProof: Option<KillProof>,
    audience: Option<Audience>, requesterRoles: set<Id>, client: Option<Client>, surfaces: set<nat>,
    possession: Option<PossessionProof>, instanceSignature: string, epochSignature: string)

  datatype Bundle = Bundle(
    id: Id, workspace: Id, principal: Id, scopeKind: string, scopeId: Id, expiresAt: Option<Time>, revoked: bool)
  datatype GrantEffect = Allows | Denies
  datatype Grant = Grant(bundle: Id, workspace: Id, resourceKind: string, resource: Id, action: string, effect: GrantEffect)
  datatype AgentGrant = AgentGrant(
    id: Id, workspace: Id, agent: Id, bundle: Id, expiresAt: Option<Time>, revoked: bool)
  datatype Delegation = Delegation(
    parentGrant: Id, childAgent: Id, capabilities: set<string>, depthLimit: nat, issuedAt: Time, expiresAt: Time, revoked: bool)

  // What an evaluation is given besides request, evidence and time.
  datatype Holdings = Holdings(
    requesterBundle: Bundle, requesterGrants: seq<Grant>, agentGrant: Option<AgentGrant>, agentBundle: Bundle,
    agentGrants: seq<Grant>, delegations: seq<Delegation>)

  // Ed25519 verification of the possession digest, the fixed lock name, and the registry branch, all left abstract.
  datatype Oracle = Oracle(
    verifies: (string, string, PossessionProof) -> bool,
    lockName: (Id, nat) -> string,
    registry: (Request, Evidence, Time) -> Option<Reason>)

  datatype Reason =
    | AuthorityContextMissing | DeploymentInstanceMissing | CrossWorkspaceAuthority | RestoreQuarantine
    | WorkspaceAuthorityInactive | DeploymentInstanceInactive | DeploymentInstanceMismatch | StaleEpoch | EpochMismatch
    | StaleGeneration | GenerationMismatch | StateRootMismatch | EpochCredentialMismatch | EpochCredentialMissing
    | EpochCredentialRevoked | EpochCredentialDestroyed | DeviceBindingMismatch | CommitProofMissing | CommitNotFinalized
    | CrossWorkspaceProof | ProofInstanceMismatch | ProofCredentialMismatch | CommitReceiptMismatch | ProofDigestMismatch
    | TrustAnchorMissing | TrustAnchorMismatch | CrossWorkspaceAnchor | TrustAnchorInactive | TrustAnchorNotYetActive
    | SealedAnchorIncomplete | RegistryDenied
    | ManifestMissing | ManifestMismatch | ManifestInactive | ManifestNotYetActive | FamilyBindingMismatch
    | FamilySetAmbiguous | UnlistedFamily
    | PossessionMissing | PossessionMismatch | LockNotHeld | PossessionExpired | InstanceKeyUnavailable | EpochKeyUnavailable
    | LeaseMissing | LeaseMismatch | LeaseReleased | LeaseNotYetActive | AuthorityNotYetActive
    | PlacementUnsolicited | PlacementMissing | PlacementMismatch | PlacementRevoked | PlacementUnavailable | PlacementNotYetActive
    | CredentialUnsolicited | CredentialClaimsIncomplete | CredentialPlacementMissing | CredentialRefMissing
    | CredentialRefMismatch | CredentialOwnerMismatch | CredentialRefRevoked | CredentialRefExpired | CredentialRefNotYetCurrent
    | CredentialProofMissing | CredentialProofMismatch | CredentialNotFinalized | CredentialVersionInactive
    | CredentialGrantInactive | CredentialProofNotYetValid | CredentialProofExpired | CredentialExpectationsMissing
    | RotationEpochMismatch | CredentialNonceMismatch | UseLimitExhausted
    | BudgetUnsolicited | BudgetClaimsIncomplete | BudgetSetAmbiguous | BudgetProofMissing | BudgetProofMismatch
    | BudgetNotFinalized | BudgetProofNotYetValid | BudgetProofExpired | BudgetHierarchyUnverified | BudgetPeriodUnverified
    | BudgetAccountInactive | BudgetPeriodInactive | BudgetClosureIncomplete | BudgetClosureAmbiguous | BudgetExhausted
    | RuntimeExhausted
    | KillClaimsIncomplete | KillSetAmbiguous | KillScopeAmbiguous | KillHierarchyIncomplete | KillProofMissing
    | KillProofMismatch | KillNotFinalized | KillProofNotYetValid | KillProofExpired | KillHierarchyUnverified
    | KillSetIncomplete | KillBindingMismatch | KillSnapshotNotYetCurrent | KillSwitched(state: KillState)
    | AudienceMissing | ClientMissing | AudienceMismatch | AudienceNotYetCurrent | AudienceScopeMismatch | PrincipalDenied
    | SurfaceDisabled | ClientMismatch | SurfaceMismatch | TransportMismatch | ClientNotYetActive | ClientExpired
    | NoAgentGrant | CrossWorkspaceGrant | ScopeMismatch | RequesterRevoked | RequesterExpired | AgentBundleRevoked
    | AgentBundleExpired | AgentGrantRevoked | AgentGrantExpired | ChainUnverifiable | DelegationParentMismatch
    | DelegationChildMismatch | DelegationRevoked | DelegationNotYetActive | DelegationExpired | DepthExceeded | Overreach
    | ExplicitDeny | NoRequesterGrant | IntersectionMissing
    | DelegatedIntersection | ExactIntersection
}
