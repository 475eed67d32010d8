// What an allowance means, said of the evidence itself: the conditions under which a request is allowed, without the
// chain of denials that decides it (corvus/application/authorization.py).
module AuthorizationMeaning {
  import opened Common
  import opened AuthorizationRecords
  import opened Authorization

  ghost predicate Before(at: Time, expiresAt: Option<Time>) {
    expiresAt == None || exists t :: expiresAt == Some(t) && at < t
  }

  ghost predicate NoTwice<T(!new)>(s: seq<T>) {
    forall i, j :: 0 <= i < |s| && 0 <= j < |s| && s[i] == s[j] ==> i == j
  }

  // ---- Who decides: instance, authority, commit, anchor, manifest, possession, lease -----------------------------------

  ghost predicate InstanceStands(r: Request, e: Evidence) {
    && e.instance.Some? && e.instance.value.status == Active && e.authority.state == Active
    && e.authority.workspace == r.workspace
    && e.instance.value.id == r.deploymentInstance == e.authority.instance && e.instance.value.profile == e.authority.profile
    && e.authority.epoch == r.epoch && e.authority.generation == r.generation && e.authority.stateRoot == r.stateRoot
    && e.authority.epochCredential == r.epochCredential
  }

  ghost predicate CommitStands(r: Request, e: Evidence)
    requires e.instance.Some?
  {
    && e.epochCredential.Some? && e.commitProof.Some?
    && var c, p := e.epochCredential.value, e.commitProof.value;
       && c.status != Revoked && c.status != Destroyed
       && c.id == e.authority.epochCredential && c.workspace == r.workspace && c.epoch == e.authority.epoch
       && c.instance == e.instance.value.id && c.deviceBinding == e.instance.value.deviceBinding
       && p.finalized && p.workspace == r.workspace && p.instance == e.instance.value.id && p.credential == c.id
       && p.epoch == e.authority.epoch && p.generation == e.authority.generation && p.stateRoot == e.authority.stateRoot
       && p.receipt == r.commitReceipt && p.proofDigest == r.proofDigest
  }

  ghost predicate AnchorStands(o: Oracle, r: Request, e: Evidence, at: Time) {
    && e.anchor.Some?
    && var n := e.anchor.value;
       && n.id == r.trustAnchor == e.authority.trustAnchor && n.workspace == r.workspace
       && n.status == Active && n.createdAt <= at
       && (n.kind == SealedLocal ==> n.lockName.Some? && n.sealedRef.Some? && n.deviceBinding.Some?)
       && (n.kind == Registry ==> o.registry(r, e, at) == None)
  }

  ghost predicate ManifestStands(r: Request, e: Evidence, at: Time) {
    && e.manifest.Some?
    && var m := e.manifest.value;
       && m.id == r.manifestVersion && m.digest == r.manifestDigest && m.status == Active && m.createdAt <= at
       && (forall f :: f in e.families ==> f.manifest == m.id && f.canonicalization == m.canonicalization)
       && (forall i, j :: 0 <= i < |e.families| && 0 <= j < |e.families| && i != j ==>
             e.families[i].name != e.families[j].name && e.families[i].ordinal != e.families[j].ordinal)
       && (forall name :: name in e.mutableFamilies ==> exists f :: f in e.families && f.name == name)
  }

  // The lock is held, by the instance itself: both keys signed a proof of possession that is at most 30 seconds long.
  ghost predicate PossessionStands(o: Oracle, r: Request, e: Evidence, at: Time)
    requires e.instance.Some? && e.epochCredential.Some? && e.anchor.Some?
  {
    && e.possession.Some?
    && var p, i, c, n := e.possession.value, e.instance.value, e.epochCredential.value, e.anchor.value;
       && p.contextId == r.contextId && p.workspace == r.workspace && p.instance == i.id && p.credential == c.id
       && p.epoch == r.epoch && p.generation == r.generation && p.stateRoot == r.stateRoot
       && p.deviceBinding == i.deviceBinding
       && p.lockName == o.lockName(r.workspace, r.epoch) && (n.kind == SealedLocal ==> n.lockName == Some(p.lockName))
       && p.issuedAt <= at < p.expiresAt <= p.issuedAt + 30_000_000
       && o.verifies(i.publicKey, e.instanceSignature, p) && o.verifies(c.publicKey, e.epochSignature, p)
  }

  ghost predicate LeaseStands(r: Request, e: Evidence, at: Time)
    requires e.instance.Some?
  {
    && e.lease.Some? && e.authority.activeLease == Some(e.lease.value.id) && e.lease.value.releasedAt == None
    && e.lease.value.acquiredAt <= at && e.lease.value.workspace == r.workspace && e.lease.value.epoch == e.authority.epoch
    && e.lease.value.instance == e.instance.value.id && e.authority.activatedAt <= at
  }

  ghost predicate AuthorityStands(o: Oracle, r: Request, e: Evidence, at: Time) {
    && InstanceStands(r, e) && CommitStands(r, e) && AnchorStands(o, r, e, at) && ManifestStands(r, e, at)
    && PossessionStands(o, r, e, at) && LeaseStands(r, e, at)
  }

  // ---- Where and with what: placement, credential, budget --------------------------------------------------------------

  ghost predicate PlacementStands(r: Request, e: Evidence, at: Time) {
    if r.placement == None then e.placement == None
    else
      && e.placement.Some? && Some(e.placement.value.id) == r.placement && e.placement.value.createdAt <= at
      && e.placement.value.status != Revoked && e.placement.value.status != Unavailable
  }

  ghost predicate ClaimsCredential(r: Request) {
    r.providerConnection != None || r.credentialRef != None || r.credentialVersion != None || r.credentialGrant != None
  }

  // A current credential of the requester's or of nobody's, proved for this very use, with uses left.
  ghost predicate CredentialStands(r: Request, e: Evidence, at: Time) {
    if !ClaimsCredential(r) then
      e.credentialRef == None && e.credentialProof == None && e.rotationEpoch == None && e.credentialNonce == None
    else
      && r.placement.Some? && e.credentialRef.Some? && e.credentialProof.Some?
      && var c, p := e.credentialRef.value, e.credentialProof.value;
         && r.credentialRef == Some(c.id) == Some(p.ref)
         && r.providerConnection == Some(c.providerConnection) == Some(p.providerConnection)
         && r.credentialVersion == Some(p.version) && r.credentialGrant == Some(p.grant) && r.placement == Some(p.placement)
         && c.workspace == r.workspace == p.workspace && p.contextId == r.contextId && p.refVersion == c.version
         && p.actingAgent == r.actingAgent && p.operation == r.action
         && (c.owner == None || c.owner == Some(r.requester))
         && c.status != Revoked && c.status != Expired && Before(at, c.expiresAt) && c.createdAt <= at && c.updatedAt <= at
         && p.finalized && p.versionActive && p.grantActive && p.issuedAt <= at < p.expiresAt
         && e.rotationEpoch == Some(p.rotationEpoch) && e.credentialNonce == Some(p.nonce)
         && p.useCount < p.useLimit
  }

  ghost predicate ClaimsBudget(r: Request) {
    r.budgetSnapshots != [] || r.budgetDigest != None || r.runtimeLimitDigest != None || r.budgetUnit != None || r.budgetAmount != None
  }

  // A verified, running budget period over exactly the accounts expected, with the amount and some runtime left.
  ghost predicate BudgetStands(r: Request, e: Evidence, at: Time) {
    if !ClaimsBudget(r) then e.budgetProof == None
    else
      && r.budgetSnapshots != [] && NoTwice(r.budgetSnapshots) && e.budgetProof.Some?
      && var p := e.budgetProof.value;
         && r.budgetSnapshots == p.snapshots && r.budgetDigest == Some(p.digest)
         && r.runtimeLimitDigest == Some(p.runtimeLimitDigest) && r.budgetUnit == Some(p.unit) && r.budgetAmount == Some(p.amount)
         && p.contextId == r.contextId && p.workspace == r.workspace && p.action == r.action
         && p.scopeKind == r.scopeKind && p.scopeId == r.scopeId
         && p.finalized && p.hierarchyVerified && p.periodVerified && p.accountsActive
         && p.observedAt <= at < p.expiresAt && p.startsAt <= at < p.endsAt
         && |p.accounts| == p.expectedAccounts && NoTwice(p.accounts)
         && p.amount <= p.remaining && p.runtimeConsumed < p.runtimeLimit
  }

  // ---- Whether it is stopped, who may, and who listens -----------------------------------------------------------------

  // Every switch of a complete hierarchy, the workspace's and the agent's among them, is clear.
  ghost predicate SwitchesClear(r: Request, e: Evidence, at: Time) {
    && r.killSnapshots != [] && |r.killSnapshots| == |r.killBindings|
    && NoTwice(r.killSnapshots) && NoTwice(r.killBindings)
    && ScopeBinding(ForWorkspace, r.workspace) in r.killBindings && ScopeBinding(ForAgent, r.actingAgent) in r.killBindings
    && e.killProof.Some?
    && var p := e.killProof.value;
       && p.contextId == r.contextId && p.workspace == r.workspace && p.actingAgent == r.actingAgent && p.action == r.action
       && p.snapshots == r.killSnapshots && p.digest == r.killDigest && p.bindings == r.killBindings
       && p.finalized && p.exhaustive && p.observedAt <= at < p.expiresAt
       && |p.entries| == |r.killSnapshots|
       && forall i :: 0 <= i < |p.entries| ==>
            && p.entries[i].state == Clear && p.entries[i].workspace == r.workspace && p.entries[i].updatedAt <= at
            && p.entries[i].snapshot == r.killSnapshots[i] && p.entries[i].binding == r.killBindings[i]
  }

  // A grant of this effect in this bundle for exactly this action on exactly this resource.
  ghost predicate Granted(r: Request, grants: seq<Grant>, b: Bundle, effect: GrantEffect) {
    Grant(b.id, r.workspace, r.resourceKind, r.resource, r.action, effect) in grants
  }

  ghost predicate BundleStands(r: Request, b: Bundle, principal: Id, at: Time) {
    && b.workspace == r.workspace && b.principal == principal && b.scopeKind == r.scopeKind && b.scopeId == r.scopeId
    && !b.revoked && Before(at, b.expiresAt)
  }

  // Requester and agent both hold the right, nobody is denied it; a delegated right is the parent agent's own and was
  // passed to the acting agent.
  ghost predicate RightsStand(r: Request, h: Holdings, at: Time) {
    && h.agentGrant.Some? && |h.delegations| <= 1
    && var g := h.agentGrant.value;
       && (h.delegations == [] ==> g.agent == r.actingAgent)
       && BundleStands(r, h.requesterBundle, r.requester, at) && BundleStands(r, h.agentBundle, g.agent, at)
       && g.workspace == r.workspace && g.bundle == h.agentBundle.id && !g.revoked && Before(at, g.expiresAt)
       && (forall x :: x in h.requesterGrants || x in h.agentGrants ==> x.workspace == r.workspace)
       && Granted(r, h.requesterGrants, h.requesterBundle, Allows) && Granted(r, h.agentGrants, h.agentBundle, Allows)
       && !Granted(r, h.requesterGrants, h.requesterBundle, Denies) && !Granted(r, h.agentGrants, h.agentBundle, Denies)
       && forall d :: d in h.delegations ==>
            && d.parentGrant == g.id && d.childAgent == r.actingAgent && !d.revoked && d.issuedAt <= at < d.expiresAt
            && d.depthLimit >= 1 && r.action in d.capabilities
  }

  // The audience admits the requester, and the client is the one named, on an enabled surface.
  ghost predicate AudienceStands(r: Request, e: Evidence, at: Time) {
    && e.audience.Some? && e.client.Some?
    && var a, c := e.audience.value, e.client.value;
       && a.id == r.audienceSnapshot && a.workspace == r.workspace && a.digest == r.audienceDigest
       && a.scopeDigest == r.scopeDigest && a.createdAt <= at
       && (a.visibility == Personal ==> a.owner == Some(r.requester))
       && (a.visibility == ExplicitPrincipals ==> r.requester in a.principals)
       && (a.visibility == ByRole ==> exists role :: role in a.roles && role in e.requesterRoles)
       && (a.visibility.ScopedTo? ==> a.visibility.kind == r.scopeKind)
       && c.id == r.clientContext && c.surface == r.clientSurface && r.clientSurface in e.surfaces
       && c.transportPrincipal == r.transportPrincipal && c.issuedAt <= at && Before(at, c.expiresAt)
  }

  // ---- The decision ----------------------------------------------------------------------------------------------------

  ghost predicate Permitted(o: Oracle, r: Request, e: Evidence, h: Holdings, at: Time) {
    && AuthorityStands(o, r, e, at) && PlacementStands(r, e, at) && CredentialStands(r, e, at)
    && ((r.resourceKind == "agent_run" && r.action == "agent_run.cancel") || BudgetStands(r, e, at))
    && SwitchesClear(r, e, at) && RightsStand(r, h, at) && AudienceStands(r, e, at)
  }

  // A request is allowed exactly when all of this holds, and then for its one action.
  lemma AllowedExactly(o: Oracle, r: Request, context: Option<Evidence>, h: Holdings, at: Time)
    ensures Evaluate(o, r, context, h, at).allow <==> context.Some? && Permitted(o, r, context.value, h, at)
    ensures Evaluate(o, r, context, h, at).actions == if Evaluate(o, r, context, h, at).allow then {r.action} else {}
    ensures Evaluate(o, r, context, h, at).allow ==>
              Evaluate(o, r, context, h, at).reason == if |h.delegations| == 1 then DelegatedIntersection else ExactIntersection
  {
    if context.Some? {
      var e := context.value;
      AuthorityMeans(o, r, e, at);
      PlacementMeans(r, e, at);
      CredentialMeans(r, e, at);
      BudgetMeans(r, e, at);
      SwitchesMean(r, e, at);
      RightsMean(r, h, at);
      AudienceMeans(r, e, at);
    }
    hide AuthorityStands, PlacementStands, CredentialStands, BudgetStands, SwitchesClear, RightsStand, AudienceStands;
    hide AuthorityDenial, PlacementDenial, CredentialDenial, BudgetDenial, KillDenial, IntersectionDenial, AudienceDenial;
  }

  lemma AuthorityMeans(o: Oracle, r: Request, e: Evidence, at: Time)
    ensures AuthorityDenial(o, r, e, at).None? <==> AuthorityStands(o, r, e, at)
  {
    InstanceMeans(r, e);
    AnchorMeans(o, r, e, at);
    ManifestMeans(r, e, at);
    if InstanceStands(r, e) {
      CommitMeans(r, e);
      LeaseMeans(r, e, at);
      if CommitStands(r, e) && AnchorStands(o, r, e, at) {
        PossessionMeans(o, r, e, at);
      }
    }
    hide InstanceDenial, CommitDenial, AnchorDenial, ManifestDenial, PossessionDenial, LeaseDenial;
    hide ManifestStands, PossessionStands, LeaseStands;
  }

  lemma InstanceMeans(r: Request, e: Evidence)
    ensures InstanceDenial(r, e).None? <==> InstanceStands(r, e)
  {
  }

  lemma CommitMeans(r: Request, e: Evidence)
    requires e.instance.Some?
    ensures CommitDenial(r, e, e.instance.value).None? <==> CommitStands(r, e)
  {
  }

  lemma AnchorMeans(o: Oracle, r: Request, e: Evidence, at: Time)
    ensures AnchorDenial(o, r, e, at).None? <==> AnchorStands(o, r, e, at)
  {
  }

  lemma ManifestMeans(r: Request, e: Evidence, at: Time)
    ensures ManifestDenial(r, e, at).None? <==> ManifestStands(r, e, at)
  {
  }

  lemma PossessionMeans(o: Oracle, r: Request, e: Evidence, at: Time)
    requires e.instance.Some? && e.epochCredential.Some? && e.anchor.Some?
    ensures PossessionDenial(o, r, e, e.instance.value, e.epochCredential.value, e.anchor.value, at).None? <==> PossessionStands(o, r, e, at)
  {
  }

  lemma LeaseMeans(r: Request, e: Evidence, at: Time)
    requires e.instance.Some?
    ensures LeaseDenial(r, e, e.instance.value, at).None? <==> LeaseStands(r, e, at)
  {
  }

  lemma PlacementMeans(r: Request, e: Evidence, at: Time)
    ensures PlacementDenial(r, e, at).None? <==> PlacementStands(r, e, at)
  {
  }

  lemma CredentialMeans(r: Request, e: Evidence, at: Time)
    ensures CredentialDenial(r, e, at).None? <==> CredentialStands(r, e, at)
  {
  }

  lemma BudgetMeans(r: Request, e: Evidence, at: Time)
    ensures BudgetDenial(r, e, at).None? <==> BudgetStands(r, e, at)
  {
    DistinctMeansNoTwice(r.budgetSnapshots);
    if e.budgetProof.Some? {
      DistinctMeansNoTwice(e.budgetProof.value.accounts);
    }
    hide Distinct, NoTwice;
  }

  lemma DistinctMeansNoTwice<T(!new)>(s: seq<T>)
    ensures Distinct(s) <==> NoTwice(s)
  {
  }

  lemma {:induction false} EntriesMean(r: Request, entries: seq<KillEntry>, i: nat, at: Time)
    requires |entries| == |r.killSnapshots| == |r.killBindings| && i <= |entries|
    ensures EntriesDenial(r, entries, i, at).None? <==>
            forall k :: i <= k < |entries| ==>
              && entries[k].state == Clear && entries[k].workspace == r.workspace && entries[k].updatedAt <= at
              && entries[k].snapshot == r.killSnapshots[k] && entries[k].binding == r.killBindings[k]
    decreases |entries| - i
  {
    if i < |entries| {
      EntriesMean(r, entries, i + 1, at);
    }
  }

  lemma SwitchesMean(r: Request, e: Evidence, at: Time)
    ensures KillDenial(r, e, at).None? <==> SwitchesClear(r, e, at)
  {
    DistinctMeansNoTwice(r.killSnapshots);
    DistinctMeansNoTwice(r.killBindings);
    hide Distinct;
    if e.killProof.Some? {
      var entries := e.killProof.value.entries;
      if |entries| == |r.killSnapshots| == |r.killBindings| {
        EntriesMean(r, entries, 0, at);
      }
    }
    hide EntriesDenial;
  }

  lemma GrantedMeans(r: Request, grants: seq<Grant>, b: Bundle, effect: GrantEffect)
    ensures Holds(grants, b, r, effect) <==> Granted(r, grants, b, effect)
  {
    if Granted(r, grants, b, effect) {
      assert Targets(Grant(b.id, r.workspace, r.resourceKind, r.resource, r.action, effect), b, r);
    }
  }

  lemma RightsMean(r: Request, h: Holdings, at: Time)
    ensures IntersectionDenial(r, h, at).None? <==> RightsStand(r, h, at)
  {
    GrantedMeans(r, h.requesterGrants, h.requesterBundle, Allows);
    GrantedMeans(r, h.requesterGrants, h.requesterBundle, Denies);
    GrantedMeans(r, h.agentGrants, h.agentBundle, Allows);
    GrantedMeans(r, h.agentGrants, h.agentBundle, Denies);
    hide Holds, Granted;
  }

  lemma AudienceMeans(r: Request, e: Evidence, at: Time)
    ensures AudienceDenial(r, e, at).None? <==> AudienceStands(r, e, at)
  {
    if e.audience.Some? {
      var shared := e.audience.value.roles * e.requesterRoles;
      assert forall role :: role in shared <==> role in e.audience.value.roles && role in e.requesterRoles;
      if shared != {} {
        var role :| role in shared;
      }
    }
  }
}
