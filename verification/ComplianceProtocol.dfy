/** The compliance service racing with the chain: admissions, public renewals and revocations run as
    interleaved asynchronous calls against the store and the on-chain eligibility gate. */
module ComplianceProtocol {
  import opened Wrappers
  import C = ComplianceStore

  type Address = C.Address
  type Person = C.Person
  type CallId = nat

  const MAX_TTL_SECONDS: nat := 90 * 24 * 3600
  const UINT48_MAX: nat := 0xFFFF_FFFF_FFFF

  // ---------- Decisions ----------

  datatype Config = Config(ttlSeconds: int, renewalWindowSeconds: nat, blockedJurisdictions: set<string>)

  datatype AdmissionRequest = AdmissionRequest(personId: Person, address: Address, usPerson: bool, jurisdiction: string)

  predicate PersonIdChar(c: char) {
    'A' <= c <= 'Z' || 'a' <= c <= 'z' || '0' <= c <= '9' || c in "_.:-"
  }

  predicate ValidPersonId(p: Person) {
    && 1 <= |p| <= 128
    && (forall i :: 0 <= i < |p| ==> PersonIdChar(p[i]))
    && p !in {"__proto__", "constructor", "prototype"}
  }

  function UpperChar(c: char): char {
    if 'a' <= c <= 'z' then (c as int - 32) as char else c
  }

  function Upper(s: string): (r: string)
    ensures |r| == |s|
  {
    seq(|s|, i requires 0 <= i < |s| => UpperChar(s[i]))
  }

  /** Two letters, after upper-casing. */
  predicate ValidJurisdiction(j: string) {
    |j| == 2 && 'A' <= j[0] <= 'Z' && 'A' <= j[1] <= 'Z'
  }

  predicate AdmissionAllowed(cfg: Config, r: AdmissionRequest, rhjBlocked: bool, d: C.Data) {
    && ValidPersonId(r.personId)
    && !r.usPerson
    && ValidJurisdiction(Upper(r.jurisdiction))
    && (forall x | x in cfg.blockedJurisdictions :: Upper(x) != Upper(r.jurisdiction))
    && !rhjBlocked
    && !C.BoundToAnother(d, r.personId, r.address)
    && !C.ActiveElsewhere(d, r.personId, r.address)
  }

  predicate RenewalAllowed(addressAdmitted: bool, personLocallyRevoked: bool, rhjBlocked: bool, revokedOnChain: bool,
                           withinRenewalWindow: bool) {
    addressAdmitted && !personLocallyRevoked && !revokedOnChain && !rhjBlocked && withinRenewalWindow
  }

  // ---------- The gate and the signatures ----------

  /** `revokedAt` is zero for an account that is not revoked. */
  datatype Gate = Gate(nonce: nat, revokedAt: nat, expiry: nat)

  datatype Kind = Admission | Renewal

  /** What the signer's key signs; the signature itself is a function of these fields. */
  datatype Attestation = Attestation(account: Address, expiry: nat, nonce: nat)

  /** Null where the source throws: a time to live out of policy, or an expiry beyond 48 bits. */
  function SignAttestation(ttlSeconds: int, account: Address, nonce: nat, blockTime: nat): Option<Attestation> {
    if !(0 < ttlSeconds <= MAX_TTL_SECONDS) then None
    else if blockTime + ttlSeconds > UINT48_MAX then None
    else Some(Attestation(account, blockTime + ttlSeconds, nonce))
  }

  /** A value read from the chain, with the number of the state it was read in. */
  datatype Reading = Reading(value: nat, at: nat)

  /** A signature that has left the service: whose, on which grounds, and when its nonce was read. */
  datatype Signed = Signed(kind: Kind, person: Person, attestation: Attestation, readAt: nat)

  /** Where an asynchronous call stands, with what it has read so far. */
  datatype Call =
    | Renewing(account: Address, revoked: Option<nat>, expiry: Option<nat>, time: Option<nat>)
    | Binding(person: Person, account: Address)
    | Signing(kind: Kind, person: Person, account: Address, nonce: Option<Reading>, time: Option<nat>)
    | Rechecking(signed: Signed)
    | Revoking(account: Address)

  datatype State = State(step: nat, now: nat, gates: map<Address, Gate>, store: C.Data, calls: map<CallId, Call>,
                         released: seq<Signed>)

  function GateOf(s: State, a: Address): Gate {
    if a in s.gates then s.gates[a] else Gate(0, 0, 0)
  }

  // ---------- Steps ----------

  datatype Action =
    | Tick(elapsed: nat)
    | StartRenewal(id: CallId, account: Address)
    | ReadRevoked(id: CallId)
    | ReadExpiry(id: CallId)
    | ReadBlock(id: CallId)
    | DecideRenewal(id: CallId, rhjBlocked: bool, recordRevoked: bool)
    | ReadNonce(id: CallId)
    | Sign(id: CallId)
    | Recheck(id: CallId)
    | StartAdmission(id: CallId, request: AdmissionRequest, rhjBlocked: bool)
    | Bind(id: CallId, at: nat)
    | StartRevocation(id: CallId, account: Address, at: nat)
    | MineRevocation(id: CallId)
    | Attest(k: nat)
    | Abandon(id: CallId)

  function Put(s: State, id: CallId, c: Call): State {
    s.(calls := s.calls[id := c])
  }

  function Drop(s: State, id: CallId): State {
    s.(calls := s.calls - {id})
  }

  function Release(s: State, id: CallId, x: Signed): State {
    s.(calls := s.calls - {id}, released := s.released + [x])
  }

  function SetGate(s: State, a: Address, g: Gate): State {
    s.(gates := s.gates[a := g])
  }

  function Deciding(cfg: Config, s: State, id: CallId, rhjBlocked: bool, recordRevoked: bool): State
    requires id in s.calls && s.calls[id].Renewing?
  {
    var c := s.calls[id];
    if c.revoked.None? || c.expiry.None? || c.time.None? then s
    else if RenewalAllowed(C.IsAdmitted(s.store, c.account), recordRevoked, rhjBlocked, c.revoked.value != 0,
                           c.expiry.value - c.time.value < cfg.renewalWindowSeconds)
    then Put(s, id, Signing(Renewal, if c.account in s.store.addresses then s.store.addresses[c.account] else "",
                            c.account, None, None))
    else Drop(s, id)
  }

  function Signature(cfg: Config, s: State, id: CallId): State
    requires id in s.calls && s.calls[id].Signing?
  {
    var c := s.calls[id];
    if c.nonce.None? || c.time.None? then s
    else
      var att := SignAttestation(cfg.ttlSeconds, c.account, c.nonce.value.value, c.time.value);
      if att.None? then Drop(s, id)
      else
        var x := Signed(c.kind, c.person, att.value, c.nonce.value.at);
        if c.kind == Renewal then Put(s, id, Rechecking(x)) else Release(s, id, x)
  }

  function Registered(s: State, id: CallId, at: nat): State
    requires id in s.calls && s.calls[id].Binding?
  {
    var c := s.calls[id];
    var r := C.Admit(s.store, c.person, c.account, at);
    if r.Err? then Drop(s, id)
    else Put(s.(store := r.value), id, Signing(Admission, c.person, c.account, None, None))
  }

  /** `attest`: anyone may submit a released signature; it clears a revocation. */
  function Attesting(s: State, k: nat): State {
    if k >= |s.released| then s
    else
      var att := s.released[k].attestation;
      if att.expiry <= s.now || att.nonce != GateOf(s, att.account).nonce then s
      else SetGate(s, att.account, Gate(att.nonce + 1, 0, att.expiry))
  }

  /** `revoke` on chain: advances the nonce. */
  function RevokedOnChain(s: State, id: CallId): State
    requires id in s.calls && s.calls[id].Revoking?
  {
    var a := s.calls[id].account;
    var g := GateOf(s, a);
    Drop(SetGate(s, a, Gate(g.nonce + 1, s.now, g.expiry)), id)
  }

  function ReadingStep(s: State, id: CallId, act: Action): State
    requires id in s.calls
  {
    var c := s.calls[id];
    match act
    case ReadRevoked(_) => if c.Renewing? then Put(s, id, c.(revoked := Some(GateOf(s, c.account).revokedAt))) else s
    case ReadExpiry(_) => if c.Renewing? then Put(s, id, c.(expiry := Some(GateOf(s, c.account).expiry))) else s
    case ReadBlock(_) => if c.Renewing? || c.Signing? then Put(s, id, c.(time := Some(s.now))) else s
    case ReadNonce(_) => if c.Signing? then Put(s, id, c.(nonce := Some(Reading(GateOf(s, c.account).nonce, s.step)))) else s
    case _ => s
  }

  function CallStep(cfg: Config, s: State, id: CallId, act: Action): State
    requires id in s.calls
  {
    var c := s.calls[id];
    match act
    case DecideRenewal(_, rhjBlocked, recordRevoked) =>
      if c.Renewing? then Deciding(cfg, s, id, rhjBlocked, recordRevoked) else s
    case Sign(_) => if c.Signing? then Signature(cfg, s, id) else s
    case Recheck(_) =>
      if !c.Rechecking? then s
      else if GateOf(s, c.signed.attestation.account).revokedAt != 0 then Drop(s, id)
      else Release(s, id, c.signed)
    case Bind(_, at) => if c.Binding? then Registered(s, id, at) else s
    case MineRevocation(_) => if c.Revoking? then RevokedOnChain(s, id) else s
    case Abandon(_) => Drop(s, id)
    case _ => ReadingStep(s, id, act)
  }

  function StartStep(cfg: Config, s: State, act: Action): State {
    match act
    case StartRenewal(id, a) => if id in s.calls then s else Put(s, id, Renewing(a, None, None, None))
    case StartAdmission(id, r, rhjBlocked) =>
      if id in s.calls || !AdmissionAllowed(cfg, r, rhjBlocked, s.store) then s
      else Put(s, id, Binding(r.personId, r.address))
    case StartRevocation(id, a, at) =>
      if id in s.calls then s else Put(s.(store := C.Revoke(s.store, a, at)), id, Revoking(a))
    case _ => s
  }

  /** An action that is not enabled changes nothing. */
  function Act(cfg: Config, s: State, act: Action): State {
    match act
    case Tick(elapsed) => s.(now := s.now + elapsed)
    case Attest(k) => Attesting(s, k)
    case StartRenewal(_, _) => StartStep(cfg, s, act)
    case StartAdmission(_, _, _) => StartStep(cfg, s, act)
    case StartRevocation(_, _, _) => StartStep(cfg, s, act)
    case _ => if act.id in s.calls then CallStep(cfg, s, act.id, act) else s
  }

  function Next(cfg: Config, s: State, act: Action): State {
    Act(cfg, s, act).(step := s.step + 1)
  }

  /** The state after `n` actions, from an empty store and gate; block timestamps are positive. */
  function After(cfg: Config, run: seq<Action>, n: nat): State
    requires n <= |run|
  {
    if n == 0 then State(0, 1, map[], C.Data(map[], map[], []), map[], [])
    else Next(cfg, After(cfg, run, n - 1), run[n - 1])
  }

  // ---------- The invariant ----------

  ghost predicate SignedOk(s: State, x: Signed) {
    && x.attestation.nonce <= GateOf(s, x.attestation.account).nonce
    && x.attestation.expiry <= s.now + MAX_TTL_SECONDS
    && x.attestation.expiry <= UINT48_MAX
  }

  ghost predicate CallOk(s: State, c: Call) {
    match c
    case Signing(_, _, a, nonce, time) =>
      (nonce.Some? ==> nonce.value.value <= GateOf(s, a).nonce) && (time.Some? ==> time.value <= s.now)
    case Rechecking(x) => SignedOk(s, x) && x.kind == Renewal
    case _ => true
  }

  /** A renewal that is still usable is for an account that is not revoked. */
  ghost predicate Harmless(s: State, x: Signed) {
    x.kind == Renewal && x.attestation.nonce == GateOf(s, x.attestation.account).nonce ==>
      GateOf(s, x.attestation.account).revokedAt == 0
  }

  ghost predicate Inv(s: State) {
    && s.now > 0
    && (forall a | a in s.gates :: s.gates[a].expiry <= s.now + MAX_TTL_SECONDS)
    && (forall id | id in s.calls :: CallOk(s, s.calls[id]))
    && (forall k | 0 <= k < |s.released| :: SignedOk(s, s.released[k]) && Harmless(s, s.released[k]))
  }

  /** Time passes and gate entries either stay or move to a higher nonce. */
  ghost predicate Ages(s: State, s': State) {
    && s.step <= s'.step && s.now <= s'.now
    && forall a: Address :: GateOf(s', a) == GateOf(s, a) || GateOf(s', a).nonce > GateOf(s, a).nonce
  }

  lemma SignedAges(s: State, s': State, x: Signed)
    requires Ages(s, s') && SignedOk(s, x)
    ensures SignedOk(s', x)
    ensures Harmless(s, x) ==> Harmless(s', x)
  {
    assert GateOf(s', x.attestation.account) == GateOf(s, x.attestation.account)
        || GateOf(s', x.attestation.account).nonce > GateOf(s, x.attestation.account).nonce;
  }

  lemma CallAges(s: State, s': State, c: Call)
    requires Ages(s, s') && CallOk(s, c)
    ensures CallOk(s', c)
  {
    match c
    case Signing(_, _, a, _, _) =>
      assert GateOf(s', a) == GateOf(s, a) || GateOf(s', a).nonce > GateOf(s, a).nonce;
    case Rechecking(x) => SignedAges(s, s', x);
    case _ =>
  }

  /** What a step may add: one call or one released signature, each in order. */
  lemma AgingKeepsInv(s: State, s': State, id: CallId)
    requires Inv(s) && Ages(s, s')
    requires forall a | a in s'.gates :: s'.gates[a].expiry <= s'.now + MAX_TTL_SECONDS
    requires forall j | j in s'.calls && j != id :: j in s.calls && s'.calls[j] == s.calls[j]
    requires id in s'.calls ==> CallOk(s', s'.calls[id])
    requires s.released <= s'.released && |s'.released| <= |s.released| + 1
    requires |s'.released| > |s.released| ==> SignedOk(s', s'.released[|s.released|]) && Harmless(s', s'.released[|s.released|])
    ensures Inv(s')
  {
    forall j | j in s'.calls ensures CallOk(s', s'.calls[j]) {
      if j != id {
        CallAges(s, s', s.calls[j]);
      }
    }
    forall k | 0 <= k < |s'.released| ensures SignedOk(s', s'.released[k]) && Harmless(s', s'.released[k]) {
      if k < |s.released| {
        assert s'.released[k] == s.released[k];
        SignedAges(s, s', s.released[k]);
      }
    }
  }

  lemma ReadingKeepsInv(s: State, id: CallId, act: Action)
    requires Inv(s) && id in s.calls
    ensures Inv(ReadingStep(s, id, act).(step := s.step + 1))
  {
    var s' := ReadingStep(s, id, act).(step := s.step + 1);
    CallAges(s, s.(step := s.step + 1), s.calls[id]);
    AgingKeepsInv(s, s', id);
  }

  lemma DecidingKeepsInv(cfg: Config, s: State, id: CallId, rhjBlocked: bool, recordRevoked: bool)
    requires Inv(s) && id in s.calls && s.calls[id].Renewing?
    ensures Inv(Deciding(cfg, s, id, rhjBlocked, recordRevoked).(step := s.step + 1))
  {
    AgingKeepsInv(s, Deciding(cfg, s, id, rhjBlocked, recordRevoked).(step := s.step + 1), id);
  }

  lemma SigningKeepsInv(cfg: Config, s: State, id: CallId)
    requires Inv(s) && id in s.calls && s.calls[id].Signing?
    ensures Inv(Signature(cfg, s, id).(step := s.step + 1))
  {
    CallAges(s, s.(step := s.step + 1), s.calls[id]);
    AgingKeepsInv(s, Signature(cfg, s, id).(step := s.step + 1), id);
  }

  lemma RecheckKeepsInv(cfg: Config, s: State, id: CallId)
    requires Inv(s) && id in s.calls && s.calls[id].Rechecking?
    ensures Inv(CallStep(cfg, s, id, Recheck(id)).(step := s.step + 1))
  {
    SignedAges(s, s.(step := s.step + 1), s.calls[id].signed);
    AgingKeepsInv(s, CallStep(cfg, s, id, Recheck(id)).(step := s.step + 1), id);
  }

  lemma BindingKeepsInv(s: State, id: CallId, at: nat)
    requires Inv(s) && id in s.calls && s.calls[id].Binding?
    ensures Inv(Registered(s, id, at).(step := s.step + 1))
  {
    AgingKeepsInv(s, Registered(s, id, at).(step := s.step + 1), id);
  }

  lemma RevokingKeepsInv(s: State, id: CallId)
    requires Inv(s) && id in s.calls && s.calls[id].Revoking?
    ensures Inv(RevokedOnChain(s, id).(step := s.step + 1))
  {
    AgingKeepsInv(s, RevokedOnChain(s, id).(step := s.step + 1), id);
  }

  lemma AttestingKeepsInv(s: State, k: nat)
    requires Inv(s)
    ensures Inv(Attesting(s, k).(step := s.step + 1))
  {
    AgingKeepsInv(s, Attesting(s, k).(step := s.step + 1), 0);
  }

  lemma StartKeepsInv(cfg: Config, s: State, act: Action)
    requires Inv(s) && (act.StartRenewal? || act.StartAdmission? || act.StartRevocation?)
    ensures Inv(StartStep(cfg, s, act).(step := s.step + 1))
  {
    AgingKeepsInv(s, StartStep(cfg, s, act).(step := s.step + 1), act.id);
  }

  lemma CallKeepsInv(cfg: Config, s: State, id: CallId, act: Action)
    requires Inv(s) && id in s.calls
    ensures Inv(CallStep(cfg, s, id, act).(step := s.step + 1))
  {
    var c := s.calls[id];
    match act
    case DecideRenewal(_, rhjBlocked, recordRevoked) =>
      if c.Renewing? {
        DecidingKeepsInv(cfg, s, id, rhjBlocked, recordRevoked);
      } else {
        ReadingKeepsInv(s, id, act);
      }
    case Sign(_) =>
      if c.Signing? {
        SigningKeepsInv(cfg, s, id);
      } else {
        ReadingKeepsInv(s, id, act);
      }
    case Recheck(_) =>
      if c.Rechecking? {
        RecheckKeepsInv(cfg, s, id);
      } else {
        ReadingKeepsInv(s, id, act);
      }
    case Bind(_, at) =>
      if c.Binding? {
        BindingKeepsInv(s, id, at);
      } else {
        ReadingKeepsInv(s, id, act);
      }
    case MineRevocation(_) =>
      if c.Revoking? {
        RevokingKeepsInv(s, id);
      } else {
        ReadingKeepsInv(s, id, act);
      }
    case Abandon(_) => AgingKeepsInv(s, Drop(s, id).(step := s.step + 1), id);
    case _ => ReadingKeepsInv(s, id, act);
  }

  predicate Continues(act: Action) {
    !act.Tick? && !act.Attest? && !act.StartRenewal? && !act.StartAdmission? && !act.StartRevocation?
  }

  lemma ContinuingKeepsInv(cfg: Config, s: State, act: Action)
    requires Inv(s) && Continues(act)
    ensures Inv(Act(cfg, s, act).(step := s.step + 1))
  {
    if act.id in s.calls {
      CallKeepsInv(cfg, s, act.id, act);
      assert Act(cfg, s, act) == CallStep(cfg, s, act.id, act);
    } else {
      assert Act(cfg, s, act) == s;
      AgingKeepsInv(s, s.(step := s.step + 1), act.id);
    }
  }

  lemma OtherKeepsInv(cfg: Config, s: State, act: Action)
    requires Inv(s) && !Continues(act)
    ensures Inv(Act(cfg, s, act).(step := s.step + 1))
  {
    match act
    case Tick(_) => AgingKeepsInv(s, Act(cfg, s, act).(step := s.step + 1), 0);
    case Attest(k) => AttestingKeepsInv(s, k);
    case _ => StartKeepsInv(cfg, s, act);
  }

  lemma NextKeepsInv(cfg: Config, s: State, act: Action)
    requires Inv(s)
    ensures Inv(Next(cfg, s, act))
  {
    if Continues(act) {
      ContinuingKeepsInv(cfg, s, act);
    } else {
      OtherKeepsInv(cfg, s, act);
    }
    assert Act(cfg, s, act).step == s.step;
  }

  lemma {:induction false} RunsKeepInv(cfg: Config, run: seq<Action>, n: nat)
    requires n <= |run|
    ensures Inv(After(cfg, run, n))
  {
    if n > 0 {
      RunsKeepInv(cfg, run, n - 1);
      NextKeepsInv(cfg, After(cfg, run, n - 1), run[n - 1]);
    }
  }

  lemma AfterOne(cfg: Config, run: seq<Action>, n: nat)
    requires n < |run|
    ensures After(cfg, run, n + 1) == Next(cfg, After(cfg, run, n), run[n])
  {
    hide Next;
  }

  /** A state of a run is a state of every longer run. */
  lemma {:induction false} AfterOfPrefix(cfg: Config, run: seq<Action>, longer: seq<Action>, n: nat)
    requires run <= longer && n <= |run|
    ensures After(cfg, longer, n) == After(cfg, run, n)
  {
    if n > 0 {
      hide Next;
      AfterOfPrefix(cfg, run, longer, n - 1);
    }
  }
}
