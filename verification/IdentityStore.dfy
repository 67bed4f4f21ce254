/** World Identity in the control-plane store: one human per sponsor in a scope, and a cap on how many
    managed agents one human may run. */
module IdentityStore {
  import opened Wrappers

  // Addresses and hashes are kept in their lower-case form.
  type Agent = nat
  type Address = nat
  type Hash = nat
  type RequestId = nat
  type Time = nat

  datatype Environment = Staging | Production

  /** The seven fields that, with the sponsor, make up the key of a sponsor binding. */
  datatype Scope = Scope(environment: Environment, appId: string, rpId: string, action: string,
                         policyId: string, policyVersion: nat, policyHash: Hash)

  /** The part of a scope that the managed-agent cap looks at. */
  datatype CapScope = CapScope(environment: Environment, appId: string, rpId: string, action: string, policyHash: Hash)

  function CapOf(c: Scope): CapScope {
    CapScope(c.environment, c.appId, c.rpId, c.action, c.policyHash)
  }

  datatype SponsorKey = SponsorKey(sponsor: Address, scope: Scope)
  datatype Credential = Credential(attributesHash: Hash, identifier: string, issuerSchemaId: nat)
  datatype Profile = Profile(sponsor: Address, signer: Address, managed: bool, retired: bool)
  datatype Request = Request(agentId: Agent, sponsor: Address, signer: Address, scope: Scope, rpNonceHash: Hash,
                             signalHash: Hash, attributesHash: Hash, expiresAt: Time, consumedAt: Option<Time>)
  datatype SponsorBinding = SponsorBinding(id: RequestId, sponsor: Address, subjectHash: Hash, nullifierHash: Hash,
                                           scope: Scope, credential: Credential, firstVerifiedAt: Time,
                                           lastVerifiedAt: Time, validUntil: Time, revokedAt: Option<Time>)
  datatype AgentBinding = AgentBinding(agentId: Agent, sponsorBindingId: RequestId, sponsor: Address, signer: Address,
                                       subjectHash: Hash, nullifierHash: Hash, scope: Scope, credential: Credential,
                                       verifiedAt: Time, validUntil: Time, revokedAt: Option<Time>)

  /** A proof that the World network accepted, as handed to `recordWorldIdentityVerification`. */
  datatype Proof = Proof(requestId: RequestId, agentId: Agent, sponsor: Address, signer: Address, scope: Scope,
                         rpNonceHash: Hash, signalHash: Hash, subjectHash: Hash, nullifierHash: Hash,
                         credential: Credential, verifiedAt: Time, validUntil: Time)

  datatype Reuse = Reuse(agentId: Agent, sponsor: Address, signer: Address, scope: Scope)

  datatype Reason = Verified | AlreadyVerified | SponsorUnverified | RequestInvalid | HumanBoundElsewhere
                  | BindingConflict | ManagedAgentLimit
  datatype Outcome = Outcome(accepted: bool, reason: Reason, binding: Option<AgentBinding>, managedAgentCount: nat)

  datatype Tables = Tables(profiles: map<Agent, Profile>, requests: map<RequestId, Request>,
                           sponsors: map<SponsorKey, SponsorBinding>, agents: map<Agent, AgentBinding>)

  // ---------- The operations on values ----------

  predicate LiveManaged(profiles: map<Agent, Profile>, b: AgentBinding, subject: Hash, cap: CapScope, at: Time) {
    && b.subjectHash == subject
    && CapOf(b.scope) == cap
    && b.revokedAt.None?
    && b.validUntil > at
    && b.agentId in profiles
    && profiles[b.agentId].managed
    && !profiles[b.agentId].retired
  }

  /** The agents one human currently runs in one scope. */
  function Managed(t: Tables, subject: Hash, cap: CapScope, at: Time): set<Agent> {
    set a | a in t.agents && LiveManaged(t.profiles, t.agents[a], subject, cap, at)
  }

  /** The same, leaving out the agent that is being verified. */
  function OthersManaged(t: Tables, subject: Hash, cap: CapScope, at: Time, self: Agent): set<Agent> {
    set a | a in t.agents && t.agents[a].agentId != self && LiveManaged(t.profiles, t.agents[a], subject, cap, at)
  }

  predicate OwnedBy(profiles: map<Agent, Profile>, agentId: Agent, sponsor: Address, signer: Address) {
    agentId in profiles && profiles[agentId].sponsor == sponsor && profiles[agentId].signer == signer
  }

  predicate RequestMatches(t: Tables, p: Proof) {
    && p.requestId in t.requests
    && var r := t.requests[p.requestId];
    && r.consumedAt.None?
    && r.expiresAt > p.verifiedAt
    && r.agentId == p.agentId && r.sponsor == p.sponsor && r.signer == p.signer
    && r.rpNonceHash == p.rpNonceHash && r.signalHash == p.signalHash
    && r.scope == p.scope && r.attributesHash == p.credential.attributesHash
    && OwnedBy(t.profiles, p.agentId, p.sponsor, p.signer)
  }

  predicate HeldByAnother(t: Tables, p: Proof) {
    exists k :: k in t.sponsors && k != SponsorKey(p.sponsor, p.scope)
      && t.sponsors[k].revokedAt.None?
      && t.sponsors[k].scope == p.scope
      && (t.sponsors[k].subjectHash == p.subjectHash || t.sponsors[k].nullifierHash == p.nullifierHash)
  }

  predicate SubjectTaken(t: Tables, p: Proof) {
    var key := SponsorKey(p.sponsor, p.scope);
    HeldByAnother(t, p)
    || (key in t.sponsors
        && (t.sponsors[key].subjectHash != p.subjectHash || t.sponsors[key].nullifierHash != p.nullifierHash))
  }

  predicate OwnerChanged(t: Tables, p: Proof) {
    p.agentId in t.agents && (t.agents[p.agentId].sponsor != p.sponsor || t.agents[p.agentId].signer != p.signer)
  }

  function ProvedSponsor(t: Tables, p: Proof): SponsorBinding {
    var key := SponsorKey(p.sponsor, p.scope);
    var known := key in t.sponsors;
    SponsorBinding(if known then t.sponsors[key].id else p.requestId, p.sponsor, p.subjectHash, p.nullifierHash, p.scope,
                   p.credential, if known then t.sponsors[key].firstVerifiedAt else p.verifiedAt, p.verifiedAt,
                   p.validUntil, None)
  }

  function ProvedAgent(t: Tables, p: Proof): AgentBinding {
    AgentBinding(p.agentId, ProvedSponsor(t, p).id, p.sponsor, p.signer, p.subjectHash, p.nullifierHash, p.scope,
                 p.credential, p.verifiedAt, p.validUntil, None)
  }

  function Proved(t: Tables, p: Proof): Tables
    requires p.requestId in t.requests
  {
    t.(sponsors := t.sponsors[SponsorKey(p.sponsor, p.scope) := ProvedSponsor(t, p)],
       requests := t.requests[p.requestId := t.requests[p.requestId].(consumedAt := Some(p.verifiedAt))],
       agents := t.agents[p.agentId := ProvedAgent(t, p)])
  }

  function Refused(reason: Reason, count: nat): Outcome {
    Outcome(false, reason, None, count)
  }

  function Verdict(t: Tables, p: Proof, limit: nat): Outcome {
    if !RequestMatches(t, p) then Refused(RequestInvalid, 0)
    else if SubjectTaken(t, p) then Refused(HumanBoundElsewhere, 0)
    else if OwnerChanged(t, p) then Refused(BindingConflict, 0)
    else
      var peers := |OthersManaged(t, p.subjectHash, CapOf(p.scope), p.verifiedAt, p.agentId)|;
      var managed := t.profiles[p.agentId].managed;
      if managed && peers >= limit then Refused(ManagedAgentLimit, peers)
      else Outcome(true, Verified, Some(ProvedAgent(t, p)), peers + if managed then 1 else 0)
  }

  function Verify(t: Tables, p: Proof, limit: nat): Tables {
    if Verdict(t, p, limit).accepted then Proved(t, p) else t
  }

  predicate SponsorLive(t: Tables, key: SponsorKey, now: Time) {
    key in t.sponsors && t.sponsors[key].revokedAt.None? && t.sponsors[key].validUntil > now
  }

  function CopiedAgent(s: SponsorBinding, r: Reuse): AgentBinding {
    AgentBinding(r.agentId, s.id, r.sponsor, r.signer, s.subjectHash, s.nullifierHash, s.scope, s.credential,
                 s.lastVerifiedAt, s.validUntil, None)
  }

  predicate Reusable(b: AgentBinding, s: SponsorBinding, r: Reuse, now: Time) {
    && b.revokedAt.None?
    && b.sponsorBindingId == s.id
    && b.sponsor == r.sponsor && b.signer == r.signer
    && b.scope == r.scope
    && b.validUntil > now
  }

  function ReuseVerdict(t: Tables, r: Reuse, now: Time, limit: nat): Outcome {
    var key := SponsorKey(r.sponsor, r.scope);
    if !SponsorLive(t, key, now) then Refused(SponsorUnverified, 0)
    else if !OwnedBy(t.profiles, r.agentId, r.sponsor, r.signer) then Refused(RequestInvalid, 0)
    else if r.agentId in t.agents then
      if Reusable(t.agents[r.agentId], t.sponsors[key], r, now)
      then Outcome(true, AlreadyVerified, Some(t.agents[r.agentId]), 0)
      else Refused(BindingConflict, 0)
    else
      var peers := |Managed(t, t.sponsors[key].subjectHash, CapOf(r.scope), now)|;
      var managed := t.profiles[r.agentId].managed;
      if managed && peers >= limit then Refused(ManagedAgentLimit, peers)
      else Outcome(true, Verified, Some(CopiedAgent(t.sponsors[key], r)), peers + if managed then 1 else 0)
  }

  function BindExisting(t: Tables, r: Reuse, now: Time, limit: nat): Tables {
    var o := ReuseVerdict(t, r, now, limit);
    if o.reason == Verified then t.(agents := t.agents[r.agentId := o.binding.value]) else t
  }

  function CreateRequest(t: Tables, id: RequestId, r: Request): Result<Tables, string> {
    if id in t.requests then Err("World Identity request collision")
    else Ok(t.(requests := t.requests[id := r]))
  }

  function UpsertProfile(t: Tables, agentId: Agent, p: Profile): Result<Tables, string> {
    if agentId in t.profiles && !OwnedBy(t.profiles, agentId, p.sponsor, p.signer)
    then Err("agent profile ownership mismatch")
    else Ok(t.(profiles := t.profiles[agentId := p]))
  }

  function SyncProfile(t: Tables, agentId: Agent, p: Profile): Result<Tables, string> {
    if agentId !in t.profiles || t.profiles[agentId].sponsor != p.sponsor
    then Err("agent profile sponsor mismatch")
    else Ok(t.(profiles := t.profiles[agentId := p]))
  }

  // ---------- The store ----------

  class IdentityStore {
    var profiles: map<Agent, Profile>
    var worldIdentityRequests: map<RequestId, Request>
    var worldIdentitySponsorBindings: map<SponsorKey, SponsorBinding>
    var worldIdentityAgentBindings: map<Agent, AgentBinding>

    ghost function Contents(): Tables
      reads this
    {
      Tables(profiles, worldIdentityRequests, worldIdentitySponsorBindings, worldIdentityAgentBindings)
    }

    constructor ()
      ensures Contents() == Tables(map[], map[], map[], map[])
    {
      profiles, worldIdentityRequests := map[], map[];
      worldIdentitySponsorBindings, worldIdentityAgentBindings := map[], map[];
    }

    method UpsertAgentProfile(agentId: Agent, profile: Profile) returns (ok: bool)
      modifies this
      ensures ok == UpsertProfile(old(Contents()), agentId, profile).Ok?
      ensures Contents() == if ok then UpsertProfile(old(Contents()), agentId, profile).value else old(Contents())
    {
      if agentId in profiles {
        var existing := profiles[agentId];
        if existing.sponsor != profile.sponsor || existing.signer != profile.signer {
          return false;
        }
      }
      profiles := profiles[agentId := profile];
      ok := true;
    }

    method SyncAgentProfile(agentId: Agent, profile: Profile) returns (ok: bool)
      modifies this
      ensures ok == SyncProfile(old(Contents()), agentId, profile).Ok?
      ensures Contents() == if ok then SyncProfile(old(Contents()), agentId, profile).value else old(Contents())
    {
      if agentId !in profiles || profiles[agentId].sponsor != profile.sponsor {
        return false;
      }
      profiles := profiles[agentId := profile];
      ok := true;
    }

    method CreateWorldIdentityRequest(id: RequestId, request: Request) returns (ok: bool)
      modifies this
      ensures ok == CreateRequest(old(Contents()), id, request).Ok?
      ensures Contents() == if ok then CreateRequest(old(Contents()), id, request).value else old(Contents())
    {
      if id in worldIdentityRequests {
        return false;
      }
      worldIdentityRequests := worldIdentityRequests[id := request];
      ok := true;
    }

    method BindExistingWorldIdentitySponsor(r: Reuse, now: Time, maxManagedAgents: nat) returns (o: Outcome)
      modifies this
      ensures o == ReuseVerdict(old(Contents()), r, now, maxManagedAgents)
      ensures Contents() == BindExisting(old(Contents()), r, now, maxManagedAgents)
    {
      var key := SponsorKey(r.sponsor, r.scope);
      if key !in worldIdentitySponsorBindings {
        return Refused(SponsorUnverified, 0);
      }
      var sponsorBinding := worldIdentitySponsorBindings[key];
      if sponsorBinding.revokedAt.Some? || sponsorBinding.validUntil <= now {
        return Refused(SponsorUnverified, 0);
      }
      if !OwnedBy(profiles, r.agentId, r.sponsor, r.signer) {
        return Refused(RequestInvalid, 0);
      }
      if r.agentId in worldIdentityAgentBindings {
        var existing := worldIdentityAgentBindings[r.agentId];
        if Reusable(existing, sponsorBinding, r, now) {
          return Outcome(true, AlreadyVerified, Some(existing), 0);
        }
        return Refused(BindingConflict, 0);
      }
      var tables := Tables(profiles, worldIdentityRequests, worldIdentitySponsorBindings, worldIdentityAgentBindings);
      var managedPeers := |Managed(tables, sponsorBinding.subjectHash, CapOf(r.scope), now)|;
      var managed := profiles[r.agentId].managed;
      if managed && managedPeers >= maxManagedAgents {
        return Refused(ManagedAgentLimit, managedPeers);
      }
      var binding := CopiedAgent(sponsorBinding, r);
      worldIdentityAgentBindings := worldIdentityAgentBindings[r.agentId := binding];
      o := Outcome(true, Verified, Some(binding), managedPeers + if managed then 1 else 0);
    }

    method RecordWorldIdentityVerification(p: Proof, maxManagedAgents: nat) returns (o: Outcome)
      modifies this
      ensures o == Verdict(old(Contents()), p, maxManagedAgents)
      ensures Contents() == Verify(old(Contents()), p, maxManagedAgents)
    {
      var tables := Tables(profiles, worldIdentityRequests, worldIdentitySponsorBindings, worldIdentityAgentBindings);
      if !RequestMatches(tables, p) {
        return Refused(RequestInvalid, 0);
      }
      var sponsorKey := SponsorKey(p.sponsor, p.scope);
      var existingSponsor := if sponsorKey in worldIdentitySponsorBindings
                             then Some(worldIdentitySponsorBindings[sponsorKey]) else None;
      if HeldByAnother(tables, p) {
        return Refused(HumanBoundElsewhere, 0);
      }
      if existingSponsor.Some? {
        var s := existingSponsor.value;
        if s.subjectHash != p.subjectHash || s.nullifierHash != p.nullifierHash {
          return Refused(HumanBoundElsewhere, 0);
        }
      }
      if p.agentId in worldIdentityAgentBindings {
        var existing := worldIdentityAgentBindings[p.agentId];
        if existing.sponsor != p.sponsor || existing.signer != p.signer {
          return Refused(BindingConflict, 0);
        }
      }
      var managedPeers := |OthersManaged(tables, p.subjectHash, CapOf(p.scope), p.verifiedAt, p.agentId)|;
      var managed := profiles[p.agentId].managed;
      if managed && managedPeers >= maxManagedAgents {
        return Refused(ManagedAgentLimit, managedPeers);
      }
      var id, first := p.requestId, p.verifiedAt;
      if existingSponsor.Some? {
        id, first := existingSponsor.value.id, existingSponsor.value.firstVerifiedAt;
      }
      var sponsorBinding := SponsorBinding(id, p.sponsor, p.subjectHash, p.nullifierHash, p.scope, p.credential, first,
                                           p.verifiedAt, p.validUntil, None);
      var binding := AgentBinding(p.agentId, id, p.sponsor, p.signer, p.subjectHash, p.nullifierHash, p.scope,
                                  p.credential, p.verifiedAt, p.validUntil, None);
      worldIdentitySponsorBindings := worldIdentitySponsorBindings[sponsorKey := sponsorBinding];
      var request := worldIdentityRequests[p.requestId];
      worldIdentityRequests := worldIdentityRequests[p.requestId := request.(consumedAt := Some(p.verifiedAt))];
      worldIdentityAgentBindings := worldIdentityAgentBindings[p.agentId := binding];
      o := Outcome(true, Verified, Some(binding), managedPeers + if managed then 1 else 0);
    }
  }
}
