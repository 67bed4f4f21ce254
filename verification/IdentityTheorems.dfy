/** Every reachable state of the identity store, under a clock that never runs back: requests, profile
    changes, reused bindings, verifications and revocations in any order. */
module IdentityTheorems {
  import opened Wrappers
  import opened IdentityStore

  /** Verifications carry the clock reading of a moment that has passed. */
  datatype Action =
    | Tick(elapsed: nat)
    | Upsert(agentId: Agent, profile: Profile)
    | Sync(agentId: Agent, profile: Profile)
    | Create(id: RequestId, request: Request)
    | Rebind(reuse: Reuse)
    | Prove(proof: Proof)
    | RevokeSponsor(key: SponsorKey)
    | RevokeAgent(agentId: Agent)

  datatype State = State(tables: Tables, now: Time)

  /** A profile keeps its runtime kind and, once retired, stays retired. */
  predicate KeepsKind(profiles: map<Agent, Profile>, agentId: Agent, p: Profile) {
    agentId in profiles ==>
      p.managed == profiles[agentId].managed && (profiles[agentId].retired ==> p.retired)
  }

  predicate Possible(s: State, a: Action) {
    match a
    case Upsert(agentId, p) => KeepsKind(s.tables.profiles, agentId, p)
    case Sync(agentId, p) => KeepsKind(s.tables.profiles, agentId, p)
    case Create(_, request) => request.consumedAt.None?
    case Prove(p) => p.verifiedAt <= s.now
    case _ => true
  }

  function OrSame(r: Result<Tables, string>, t: Tables): Tables {
    if r.Ok? then r.value else t
  }

  function Next(limit: nat, s: State, a: Action): State {
    var t := s.tables;
    match a
    case Tick(elapsed) => s.(now := s.now + elapsed)
    case Upsert(agentId, p) => s.(tables := OrSame(UpsertProfile(t, agentId, p), t))
    case Sync(agentId, p) => s.(tables := OrSame(SyncProfile(t, agentId, p), t))
    case Create(id, request) => s.(tables := OrSame(CreateRequest(t, id, request), t))
    case Rebind(reuse) => s.(tables := BindExisting(t, reuse, s.now, limit))
    case Prove(proof) => s.(tables := Verify(t, proof, limit))
    case RevokeSponsor(key) =>
      if key in t.sponsors
      then s.(tables := t.(sponsors := t.sponsors[key := t.sponsors[key].(revokedAt := Some(s.now))])) else s
    case RevokeAgent(agentId) =>
      if agentId in t.agents
      then s.(tables := t.(agents := t.agents[agentId := t.agents[agentId].(revokedAt := Some(s.now))])) else s
  }

  /** The state after the first `n` actions. */
  function After(limit: nat, run: seq<Action>, n: nat): State
    requires n <= |run|
  {
    if n == 0 then State(Tables(map[], map[], map[], map[]), 0)
    else Next(limit, After(limit, run, n - 1), run[n - 1])
  }

  ghost predicate IsRun(limit: nat, run: seq<Action>) {
    forall i :: 0 <= i < |run| ==> Possible(After(limit, run, i), run[i])
  }

  // ---------- Uniqueness and linkage ----------

  /** The proof of identity of two bindings has a part in common. */
  predicate ShareAHuman(s: SponsorBinding, r: SponsorBinding) {
    s.subjectHash == r.subjectHash || s.nullifierHash == r.nullifierHash
  }

  /** Two sponsors of one scope never share a subject or a nullifier. */
  ghost predicate NobodyShares(t: Tables) {
    forall k, l | k in t.sponsors && l in t.sponsors && k != l && t.sponsors[k].scope == t.sponsors[l].scope ::
      !ShareAHuman(t.sponsors[k], t.sponsors[l])
  }

  /** Two sponsors of one scope never share a subject or a nullifier while neither binding is revoked. */
  ghost predicate HumansUnique(t: Tables) {
    forall k, l | k in t.sponsors && l in t.sponsors && k != l && t.sponsors[k].scope == t.sponsors[l].scope
      :: t.sponsors[k].revokedAt.None? && t.sponsors[l].revokedAt.None? ==>
           t.sponsors[k].subjectHash != t.sponsors[l].subjectHash
           && t.sponsors[k].nullifierHash != t.sponsors[l].nullifierHash
  }

  /** A sponsor binding is filed under its own sponsor and scope, and carries the id of a request of
      that sponsor in that scope that was consumed. */
  ghost predicate SponsorsLinked(t: Tables) {
    forall k | k in t.sponsors :: var s := t.sponsors[k];
      && s.sponsor == k.sponsor && s.scope == k.scope
      && s.id in t.requests && t.requests[s.id].consumedAt.Some?
      && t.requests[s.id].sponsor == k.sponsor && t.requests[s.id].scope == k.scope
  }

  ghost predicate Linked(t: Tables, a: Agent)
    requires a in t.agents
  {
    var b := t.agents[a];
    var key := SponsorKey(b.sponsor, b.scope);
    && b.agentId == a
    && a in t.profiles && t.profiles[a].sponsor == b.sponsor
    && key in t.sponsors
    && t.sponsors[key].id == b.sponsorBindingId
    && t.sponsors[key].subjectHash == b.subjectHash
    && t.sponsors[key].nullifierHash == b.nullifierHash
  }

  ghost predicate AgentsLinked(t: Tables) {
    forall a | a in t.agents :: Linked(t, a)
  }

  ghost predicate Sound(t: Tables) {
    HumansUnique(t) && SponsorsLinked(t) && AgentsLinked(t)
  }

  lemma ProofKeepsSound(t: Tables, p: Proof, limit: nat)
    requires Sound(t) && Verdict(t, p, limit).accepted
    ensures Sound(Verify(t, p, limit))
  {
    var key := SponsorKey(p.sponsor, p.scope);
    var t' := Proved(t, p);
    assert t'.sponsors[key].revokedAt.None? && t'.sponsors[key].scope == p.scope;
    forall a | a in t'.agents ensures Linked(t', a) {
      if a != p.agentId {
        assert Linked(t, a);
      }
    }
  }

  lemma RebindKeepsSound(t: Tables, r: Reuse, now: Time, limit: nat)
    requires Sound(t)
    ensures Sound(BindExisting(t, r, now, limit))
  {
    var t' := BindExisting(t, r, now, limit);
    forall a | a in t'.agents ensures Linked(t', a) {
      if a in t.agents {
        assert Linked(t, a);
      }
    }
  }

  lemma RevokingKeepsSound(limit: nat, s: State, a: Action)
    requires Sound(s.tables) && (a.RevokeSponsor? || a.RevokeAgent?)
    ensures Sound(Next(limit, s, a).tables)
  {
    var t' := Next(limit, s, a).tables;
    forall b | b in t'.agents ensures Linked(t', b) {
      assert Linked(s.tables, b);
    }
  }

  lemma OthersKeepSound(limit: nat, s: State, a: Action)
    requires Sound(s.tables) && Possible(s, a)
    requires !a.Prove? && !a.Rebind? && !a.RevokeSponsor? && !a.RevokeAgent?
    ensures Sound(Next(limit, s, a).tables)
  {
    var t' := Next(limit, s, a).tables;
    assert t'.sponsors == s.tables.sponsors && t'.agents == s.tables.agents;
    forall b | b in t'.agents ensures Linked(t', b) {
      assert Linked(s.tables, b);
    }
  }

  lemma StepKeepsSound(limit: nat, s: State, a: Action)
    requires Sound(s.tables) && Possible(s, a)
    ensures Sound(Next(limit, s, a).tables)
  {
    if a.Prove? {
      if Verdict(s.tables, a.proof, limit).accepted {
        ProofKeepsSound(s.tables, a.proof, limit);
      }
    } else if a.Rebind? {
      RebindKeepsSound(s.tables, a.reuse, s.now, limit);
    } else if a.RevokeSponsor? || a.RevokeAgent? {
      RevokingKeepsSound(limit, s, a);
    } else {
      OthersKeepSound(limit, s, a);
    }
  }

  lemma {:induction false} RunsStaySound(limit: nat, run: seq<Action>, n: nat)
    requires IsRun(limit, run) && n <= |run|
    ensures Sound(After(limit, run, n).tables)
  {
    if n > 0 {
      hide Next, Sound;
      RunsStaySound(limit, run, n - 1);
      StepKeepsSound(limit, After(limit, run, n - 1), run[n - 1]);
    }
  }

  ghost predicate BackedBy(t: Tables, b: AgentBinding, k: SponsorKey) {
    && k in t.sponsors
    && t.sponsors[k].id == b.sponsorBindingId
    && t.sponsors[k].sponsor == b.sponsor && t.sponsors[k].scope == b.scope
    && t.sponsors[k].subjectHash == b.subjectHash && t.sponsors[k].nullifierHash == b.nullifierHash
  }

  /** In every reachable state: two sponsors of one scope with live bindings never share a human, sponsor
      binding ids are distinct, and every agent binding is backed by the sponsor binding whose id it
      names, with the same sponsor, scope, subject and nullifier. */
  lemma OneHumanOneSponsor(limit: nat, run: seq<Action>)
    requires IsRun(limit, run)
    ensures var t := After(limit, run, |run|).tables;
      && HumansUnique(t)
      && (forall k, l | k in t.sponsors && l in t.sponsors && t.sponsors[k].id == t.sponsors[l].id :: k == l)
      && (forall a | a in t.agents :: exists k :: BackedBy(t, t.agents[a], k))
  {
    RunsStaySound(limit, run, |run|);
    var t := After(limit, run, |run|).tables;
    forall a | a in t.agents ensures exists k :: BackedBy(t, t.agents[a], k) {
      assert Linked(t, a);
      assert BackedBy(t, t.agents[a], SponsorKey(t.agents[a].sponsor, t.agents[a].scope));
    }
  }

  // ---------- Sharing takes a revocation ----------

  /** What the methods of the store can do: none of them revokes an identity binding. */
  ghost predicate NothingRevoked(run: seq<Action>) {
    forall i :: 0 <= i < |run| ==> !run[i].RevokeSponsor?
  }

  ghost predicate AllLive(t: Tables) {
    forall k | k in t.sponsors :: t.sponsors[k].revokedAt.None?
  }

  lemma StepKeepsLive(limit: nat, s: State, a: Action)
    requires AllLive(s.tables) && !a.RevokeSponsor?
    ensures AllLive(Next(limit, s, a).tables)
  {
  }

  lemma {:induction false} RunsStayLive(limit: nat, run: seq<Action>, n: nat)
    requires NothingRevoked(run) && n <= |run|
    ensures AllLive(After(limit, run, n).tables)
  {
    if n > 0 {
      hide Next, AllLive;
      RunsStayLive(limit, run, n - 1);
      StepKeepsLive(limit, After(limit, run, n - 1), run[n - 1]);
    }
  }

  /** In every state that the store's own methods reach, two different sponsors of one scope never share
      a subject or a nullifier. */
  lemma SponsorsNeverShareAHuman(limit: nat, run: seq<Action>)
    requires IsRun(limit, run) && NothingRevoked(run)
    ensures NobodyShares(After(limit, run, |run|).tables)
  {
    hide After;
    RunsStaySound(limit, run, |run|);
    RunsStayLive(limit, run, |run|);
  }

  ghost predicate SharesAfter(t: Tables, key: SponsorKey)
    requires key in t.sponsors
  {
    exists k :: k in t.sponsors && k != key && t.sponsors[k].scope == t.sponsors[key].scope
      && ShareAHuman(t.sponsors[k], t.sponsors[key])
  }

  /** Another sponsor of the scope lost a binding that carries the subject or the nullifier of the proof. */
  ghost predicate RevokedElsewhere(t: Tables, p: Proof) {
    exists k :: k in t.sponsors && k.sponsor != p.sponsor && k.scope == p.scope && t.sponsors[k].revokedAt.Some?
      && (t.sponsors[k].subjectHash == p.subjectHash || t.sponsors[k].nullifierHash == p.nullifierHash)
  }

  /** Where bindings can be revoked, an accepted verification shares its human with another sponsor of the
      scope exactly when that human has a revoked binding under another sponsor there. */
  lemma AcceptanceSharesExactlyWhenRevokedElsewhere(t: Tables, p: Proof, limit: nat)
    requires Sound(t) && Verdict(t, p, limit).accepted
    ensures SponsorKey(p.sponsor, p.scope) in Verify(t, p, limit).sponsors
    ensures SharesAfter(Verify(t, p, limit), SponsorKey(p.sponsor, p.scope)) <==> RevokedElsewhere(t, p)
  {
    var key, t' := SponsorKey(p.sponsor, p.scope), Verify(t, p, limit);
    if RevokedElsewhere(t, p) {
      var k :| k in t.sponsors && k.sponsor != p.sponsor && k.scope == p.scope && t.sponsors[k].revokedAt.Some?
        && (t.sponsors[k].subjectHash == p.subjectHash || t.sponsors[k].nullifierHash == p.nullifierHash);
      assert k in t'.sponsors && k != key;
    }
    if SharesAfter(t', key) {
      var k :| k in t'.sponsors && k != key && t'.sponsors[k].scope == p.scope
        && ShareAHuman(t'.sponsors[k], t'.sponsors[key]);
      assert k in t.sponsors && t.sponsors[k] == t'.sponsors[k];
      assert k.scope == p.scope && k.sponsor != p.sponsor;
      assert !HeldByAnother(t, p);
    }
  }

  function Enrol(sponsor: Address, agent: Agent, scope: Scope, human: Hash): seq<Action> {
    var none := Credential(0, "", 0);
    [Upsert(agent, Profile(sponsor, sponsor, false, false)),
     Create(agent, Request(agent, sponsor, sponsor, scope, 0, 0, 0, 1, None)),
     Prove(Proof(agent, agent, sponsor, sponsor, scope, 0, 0, human, human, none, 0, 1))]
  }

  /** The binding that a fresh enrolment leaves. */
  function Enrolled(sponsor: Address, agent: Agent, scope: Scope, human: Hash): SponsorBinding {
    SponsorBinding(agent, sponsor, human, human, scope, Credential(0, "", 0), 0, 0, 1, None)
  }

  lemma EnrollingBinds(s: State, sponsor: Address, agent: Agent, scope: Scope, human: Hash)
    requires s.now == 0 && agent !in s.tables.profiles && agent !in s.tables.requests && agent !in s.tables.agents
    requires SponsorKey(sponsor, scope) !in s.tables.sponsors
    requires forall k | k in s.tables.sponsors :: s.tables.sponsors[k].revokedAt.Some?
    ensures var e := Enrol(sponsor, agent, scope, human);
      var s' := Next(1, Next(1, Next(1, s, e[0]), e[1]), e[2]);
      && s'.now == 0
      && s'.tables.sponsors == s.tables.sponsors[SponsorKey(sponsor, scope) := Enrolled(sponsor, agent, scope, human)]
      && s'.tables.profiles.Keys == s.tables.profiles.Keys + {agent}
      && s'.tables.requests.Keys == s.tables.requests.Keys + {agent}
      && s'.tables.agents.Keys == s.tables.agents.Keys + {agent}
  {
    var e := Enrol(sponsor, agent, scope, human);
    var two := Next(1, Next(1, s, e[0]), e[1]);
    assert RequestMatches(two.tables, e[2].proof);
    assert !SubjectTaken(two.tables, e[2].proof);
  }

  /** The run in which it happens: a human is enrolled by one sponsor, that binding is revoked, and the
      same human is enrolled by another sponsor of the scope. */
  function SharingRun(scope: Scope): seq<Action> {
    Enrol(1, 1, scope, 9) + [RevokeSponsor(SponsorKey(1, scope))] + Enrol(2, 2, scope, 9)
  }

  lemma AfterTheRevocation(scope: Scope)
    ensures var s := After(1, SharingRun(scope), 4);
      && s.now == 0
      && s.tables.profiles.Keys == {1} && s.tables.requests.Keys == {1} && s.tables.agents.Keys == {1}
      && s.tables.sponsors == map[SponsorKey(1, scope) := Enrolled(1, 1, scope, 9).(revokedAt := Some(0))]
  {
    hide Next;
    var run, first := SharingRun(scope), Enrol(1, 1, scope, 9);
    assert run[0] == first[0] && run[1] == first[1] && run[2] == first[2];
    ThreeSteps(1, run, 0);
    EnrollingBinds(After(1, run, 0), 1, 1, scope, 9);
    RevokingOne(After(1, run, 3), SponsorKey(1, scope));
    assert run[3] == RevokeSponsor(SponsorKey(1, scope));
  }

  lemma RevocationLetsAHumanBeShared(scope: Scope)
    ensures IsRun(1, SharingRun(scope)) && !NobodyShares(After(1, SharingRun(scope), 7).tables)
  {
    hide Next, After;
    var run, second := SharingRun(scope), Enrol(2, 2, scope, 9);
    AfterTheRevocation(scope);
    SharingRunIsPossible(scope);
    assert run[4] == second[0] && run[5] == second[1] && run[6] == second[2];
    ThreeSteps(1, run, 4);
    EnrollingBinds(After(1, run, 4), 2, 2, scope, 9);
    var t := After(1, run, 7).tables;
    assert ShareAHuman(t.sponsors[SponsorKey(1, scope)], t.sponsors[SponsorKey(2, scope)]);
  }

  lemma SharingRunIsPossible(scope: Scope)
    ensures IsRun(1, SharingRun(scope))
  {
    hide Next, After;
    var run, first, second := SharingRun(scope), Enrol(1, 1, scope, 9), Enrol(2, 2, scope, 9);
    AfterTheRevocation(scope);
    assert run == [first[0], first[1], first[2], RevokeSponsor(SponsorKey(1, scope)), second[0], second[1], second[2]];
    NothingAtFirst(run);
  }

  lemma NothingAtFirst(run: seq<Action>)
    ensures After(1, run, 0).tables.profiles == map[]
  {
  }

  lemma ThreeSteps(limit: nat, run: seq<Action>, n: nat)
    requires n + 3 <= |run|
    ensures After(limit, run, n + 3) ==
      Next(limit, Next(limit, Next(limit, After(limit, run, n), run[n]), run[n + 1]), run[n + 2])
  {
    hide Next;
    assert After(limit, run, n + 2) == Next(limit, After(limit, run, n + 1), run[n + 1]);
    assert After(limit, run, n + 3) == Next(limit, After(limit, run, n + 2), run[n + 2]);
  }

  lemma RevokingOne(s: State, key: SponsorKey)
    requires key in s.tables.sponsors
    ensures Next(1, s, RevokeSponsor(key)) ==
      s.(tables := s.tables.(sponsors := s.tables.sponsors[key := s.tables.sponsors[key].(revokedAt := Some(s.now))]))
  {
  }

  // ---------- Requests are used once ----------

  ghost predicate AcceptedAt(limit: nat, run: seq<Action>, i: nat, id: RequestId)
    requires i < |run|
  {
    run[i].Prove? && run[i].proof.requestId == id && Verdict(After(limit, run, i).tables, run[i].proof, limit).accepted
  }

  lemma {:induction false} ConsumedStays(limit: nat, run: seq<Action>, i: nat, n: nat, id: RequestId)
    requires i <= n <= |run|
    requires var t := After(limit, run, i).tables; id in t.requests && t.requests[id].consumedAt.Some?
    ensures var t := After(limit, run, n).tables; id in t.requests && t.requests[id].consumedAt.Some?
    decreases n
  {
    if i < n {
      ConsumedStays(limit, run, i, n - 1, id);
    }
  }

  /** Each identity request is accepted at most once, however the calls are interleaved. */
  lemma AcceptedAtMostOnce(limit: nat, run: seq<Action>, i: nat, j: nat, id: RequestId)
    requires i < |run| && j < |run| && AcceptedAt(limit, run, i, id) && AcceptedAt(limit, run, j, id)
    ensures i == j
  {
    if i < j {
      ConsumedStays(limit, run, i + 1, j, id);
    } else if j < i {
      ConsumedStays(limit, run, j + 1, i, id);
    }
  }

  /** A verification is all or nothing: it changes the tables exactly when it is accepted, and then
      writes the sponsor, the request and the agent together. */
  lemma RejectionChangesNothing(t: Tables, p: Proof, limit: nat)
    ensures Verdict(t, p, limit).accepted <==> Verify(t, p, limit) != t
    ensures Verdict(t, p, limit).accepted ==>
      var t' := Verify(t, p, limit);
      && SponsorKey(p.sponsor, p.scope) in t'.sponsors && p.agentId in t'.agents && p.requestId in t'.requests
      && t'.requests[p.requestId].consumedAt == Some(p.verifiedAt)
      && Some(t'.agents[p.agentId]) == Verdict(t, p, limit).binding
      && t'.sponsors[SponsorKey(p.sponsor, p.scope)].subjectHash == p.subjectHash
      && t'.sponsors[SponsorKey(p.sponsor, p.scope)].id == t'.agents[p.agentId].sponsorBindingId
      && t'.profiles == t.profiles
  {
    if Verdict(t, p, limit).accepted {
      assert t.requests[p.requestId].consumedAt.None?;
      assert Proved(t, p).requests[p.requestId].consumedAt.Some?;
    }
  }

  /** Whoever was just bound, by a proof or by reuse, is found bound by the next reuse in the same scope
      while the binding lasts, and that changes nothing any more. */
  lemma BindingIsReusable(t: Tables, p: Proof, now: Time, limit: nat, again: nat)
    requires Sound(t) && Verdict(t, p, limit).accepted
    ensures var t' := Verify(t, p, limit);
      var r := Reuse(p.agentId, p.sponsor, p.signer, p.scope);
      && ReuseVerdict(t', r, now, again).accepted == (now < p.validUntil)
      && BindExisting(t', r, now, again) == t'
      && (now < p.validUntil ==> ReuseVerdict(t', r, now, again).binding == Verdict(t, p, limit).binding)
  {
  }

  lemma ReuseIsIdempotent(t: Tables, r: Reuse, now: Time, limit: nat, later: Time, again: nat)
    requires Sound(t) && ReuseVerdict(t, r, now, limit).reason == Verified && now <= later
    ensures var t' := BindExisting(t, r, now, limit);
      var validUntil := t.sponsors[SponsorKey(r.sponsor, r.scope)].validUntil;
      && ReuseVerdict(t', r, later, again).accepted == (later < validUntil)
      && BindExisting(t', r, later, again) == t'
      && (later < validUntil ==> ReuseVerdict(t', r, later, again).binding == ReuseVerdict(t, r, now, limit).binding)
  {
    assert t.sponsors[SponsorKey(r.sponsor, r.scope)].scope == r.scope;
  }

  // ---------- The managed-agent cap ----------

  ghost predicate Capped(limit: nat, s: State) {
    forall subject, cap :: |Managed(s.tables, subject, cap, s.now)| <= limit
  }

  lemma SubsetIsSmaller(a: set<Agent>, b: set<Agent>)
    requires a <= b
    ensures |a| <= |b|
  {
    assert b == a + (b - a);
  }

  lemma ShrinkKeepsCap(limit: nat, s: State, s': State)
    requires Capped(limit, s)
    requires forall subject, cap :: Managed(s'.tables, subject, cap, s'.now) <= Managed(s.tables, subject, cap, s.now)
    ensures Capped(limit, s')
  {
    forall subject, cap ensures |Managed(s'.tables, subject, cap, s'.now)| <= limit {
      SubsetIsSmaller(Managed(s'.tables, subject, cap, s'.now), Managed(s.tables, subject, cap, s.now));
    }
  }

  lemma ProofKeepsCap(limit: nat, s: State, p: Proof)
    requires Capped(limit, s) && AgentsLinked(s.tables) && p.verifiedAt <= s.now && Verdict(s.tables, p, limit).accepted
    ensures Capped(limit, s.(tables := Verify(s.tables, p, limit)))
  {
    var t, t' := s.tables, Proved(s.tables, p);
    forall a | a in t.agents ensures t.agents[a].agentId == a {
      assert Linked(t, a);
    }
    forall subject, cap ensures |Managed(t', subject, cap, s.now)| <= limit {
      var counted := Managed(t', subject, cap, s.now);
      if p.agentId in counted {
        var others := OthersManaged(t, subject, cap, p.verifiedAt, p.agentId);
        SubsetIsSmaller(counted, others + {p.agentId});
      } else {
        SubsetIsSmaller(counted, Managed(t, subject, cap, s.now));
      }
    }
  }

  lemma RebindKeepsCap(limit: nat, s: State, r: Reuse)
    requires Capped(limit, s) && Sound(s.tables)
    ensures Capped(limit, s.(tables := BindExisting(s.tables, r, s.now, limit)))
  {
    var t, t' := s.tables, BindExisting(s.tables, r, s.now, limit);
    forall subject, cap ensures |Managed(t', subject, cap, s.now)| <= limit {
      var counted := Managed(t', subject, cap, s.now);
      var before := Managed(t, subject, cap, s.now);
      if r.agentId in counted - before {
        SubsetIsSmaller(counted, before + {r.agentId});
      } else {
        SubsetIsSmaller(counted, before);
      }
    }
  }

  lemma OthersKeepCap(limit: nat, s: State, a: Action)
    requires Capped(limit, s) && Sound(s.tables) && Possible(s, a) && !a.Prove? && !a.Rebind?
    ensures Capped(limit, Next(limit, s, a))
  {
    var t, t' := s.tables, Next(limit, s, a).tables;
    forall b | b in t.agents ensures t.agents[b].agentId == b && b in t.profiles {
      assert Linked(t, b);
    }
    ShrinkKeepsCap(limit, s, Next(limit, s, a));
  }

  lemma StepKeepsCap(limit: nat, s: State, a: Action)
    requires Capped(limit, s) && Sound(s.tables) && Possible(s, a)
    ensures Capped(limit, Next(limit, s, a))
  {
    if a.Prove? {
      if Verdict(s.tables, a.proof, limit).accepted {
        ProofKeepsCap(limit, s, a.proof);
      }
    } else if a.Rebind? {
      RebindKeepsCap(limit, s, a.reuse);
    } else {
      OthersKeepCap(limit, s, a);
    }
  }

  lemma {:induction false} RunsStayCapped(limit: nat, run: seq<Action>, n: nat)
    requires IsRun(limit, run) && n <= |run|
    ensures Capped(limit, After(limit, run, n))
  {
    if n > 0 {
      hide Next, Capped;
      RunsStayCapped(limit, run, n - 1);
      RunsStaySound(limit, run, n - 1);
      StepKeepsCap(limit, After(limit, run, n - 1), run[n - 1]);
    }
  }

  /** One human never runs more managed agents in one scope than the cap, at any moment of any run. */
  lemma ManagedAgentsAreCapped(limit: nat, run: seq<Action>, n: nat, subject: Hash, cap: CapScope)
    requires IsRun(limit, run) && n <= |run|
    ensures var s := After(limit, run, n); |Managed(s.tables, subject, cap, s.now)| <= limit
  {
    RunsStayCapped(limit, run, n);
  }

  /** The count an accepted verification of a managed agent reports is the count the store then holds. */
  lemma ReportedCountIsStored(limit: nat, run: seq<Action>, p: Proof)
    requires IsRun(limit, run)
    requires var t := After(limit, run, |run|).tables; Verdict(t, p, limit).accepted && !t.profiles[p.agentId].retired
    requires p.validUntil > p.verifiedAt
    ensures var t := After(limit, run, |run|).tables;
      Verdict(t, p, limit).managedAgentCount == |Managed(Verify(t, p, limit), p.subjectHash, CapOf(p.scope), p.verifiedAt)|
  {
    hide After;
    RunsStaySound(limit, run, |run|);
    var t := After(limit, run, |run|).tables;
    forall a | a in t.agents ensures t.agents[a].agentId == a {
      assert Linked(t, a);
    }
    var others := OthersManaged(t, p.subjectHash, CapOf(p.scope), p.verifiedAt, p.agentId);
    assert Managed(Verify(t, p, limit), p.subjectHash, CapOf(p.scope), p.verifiedAt)
        == if t.profiles[p.agentId].managed then others + {p.agentId} else others;
  }

  function Unretired(t: Tables, a: Agent): Tables
    requires a in t.profiles
  {
    t.(profiles := t.profiles[a := t.profiles[a].(retired := false)])
  }

  lemma UnretiringAddsOne(t: Tables, a: Agent, now: Time, subject: Hash, cap: CapScope)
    requires AgentsLinked(t) && a in t.agents && t.agents[a].revokedAt.None? && t.agents[a].validUntil > now
    requires a in t.profiles && t.profiles[a].managed && t.profiles[a].retired
    ensures |Managed(Unretired(t, a), subject, cap, now)| == |Managed(t, subject, cap, now)|
      + if subject == t.agents[a].subjectHash && cap == CapOf(t.agents[a].scope) then 1 else 0
  {
    forall c | c in t.agents ensures t.agents[c].agentId == c {
      assert Linked(t, c);
    }
    var before, after := Managed(t, subject, cap, now), Managed(Unretired(t, a), subject, cap, now);
    assert a !in before;
    if a in after {
      assert after == before + {a};
    } else {
      assert after == before;
    }
  }

  /** The assumption on profiles is needed: bringing a retired agent back passes the cap exactly when
      the human already runs as many agents as the cap allows. */
  lemma UnretiringPassesTheCapExactlyWhenFull(limit: nat, s: State, a: Agent)
    requires Capped(limit, s) && AgentsLinked(s.tables)
    requires a in s.tables.agents && s.tables.agents[a].revokedAt.None? && s.tables.agents[a].validUntil > s.now
    requires a in s.tables.profiles && s.tables.profiles[a].managed && s.tables.profiles[a].retired
    ensures Capped(limit, State(Unretired(s.tables, a), s.now)) <==>
      |Managed(s.tables, s.tables.agents[a].subjectHash, CapOf(s.tables.agents[a].scope), s.now)| < limit
  {
    forall subject, cap { UnretiringAddsOne(s.tables, a, s.now, subject, cap); }
  }
}
