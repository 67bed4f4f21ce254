/** The service's methods as written, each a run of the protocol under any interference: `Await` stands
    for every suspension, after which the chain, the store and the other calls may have moved on. */
module ComplianceService {
  import opened Wrappers
  import C = ComplianceStore
  import opened ComplianceProtocol

  function LookUp(calls: map<CallId, Call>, id: CallId): Option<Call> {
    if id in calls then Some(calls[id]) else None
  }

  lemma BindEffect(cfg: Config, s: State, id: CallId, person: Person, account: Address, at: nat)
    requires LookUp(s.calls, id) == Some(Binding(person, account))
    ensures var s', r := Next(cfg, s, Bind(id, at)), C.Admit(s.store, person, account, at);
      && s'.gates == s.gates && s'.now == s.now
      && s'.store == (if r.Ok? then r.value else s.store)
      && LookUp(s'.calls, id) == if r.Ok? then Some(Signing(Admission, person, account, None, None)) else None
  {
  }

  /** Step `i` of the run, not before `start`, read this nonce of the account. */
  ghost predicate NonceRead(cfg: Config, run: seq<Action>, start: nat, id: CallId, account: Address, nonce: nat, i: nat) {
    start <= i < |run| && run[i] == ReadNonce(id) && nonce == GateOf(After(cfg, run, i), account).nonce
  }

  ghost predicate TimeRead(cfg: Config, run: seq<Action>, start: nat, id: CallId, time: nat, k: nat) {
    start <= k < |run| && run[k] == ReadBlock(id) && time == After(cfg, run, k).now
  }

  /** What was read at a step stays read as the run goes on. */
  lemma ReadingsLast(cfg: Config, run: seq<Action>, longer: seq<Action>, start: nat, id: CallId, account: Address,
                     nonce: nat, i: nat)
    requires NonceRead(cfg, run, start, id, account, nonce, i) && run <= longer
    ensures NonceRead(cfg, longer, start, id, account, nonce, i) && i < |run|
  {
    AfterOfPrefix(cfg, run, longer, i);
  }

  lemma TimesLast(cfg: Config, run: seq<Action>, longer: seq<Action>, start: nat, earlier: nat, id: CallId, time: nat, k: nat)
    requires TimeRead(cfg, run, start, id, time, k) && run <= longer && earlier <= start
    ensures TimeRead(cfg, longer, earlier, id, time, k) && k < |run|
  {
    AfterOfPrefix(cfg, run, longer, k);
  }

  class ComplianceService {
    const cfg: Config
    const store: C.ComplianceStore
    var gates: map<Address, Gate>
    var now: nat
    ghost var run: seq<Action>

    ghost function Now(): State
      reads this
    {
      After(cfg, run, |run|)
    }

    ghost predicate Valid()
      reads this, store, store.persons.Values
    {
      store.Valid() && Now().store == store.Contents() && Now().gates == gates && Now().now == now
    }

    constructor (cfg: Config)
      ensures Valid() && fresh(store) && run == []
    {
      this.cfg := cfg;
      store := new C.ComplianceStore();
      gates, now, run := map[], 1, [];
    }

    ghost method Take(act: Action)
      modifies this`run
      ensures run == old(run) + [act] && Now() == Next(cfg, old(Now()), act)
    {
      AfterOfPrefix(cfg, run, run + [act], |run|);
      run := run + [act];
    }

    /** Where the call `id` stands. */
    ghost function Mine(id: CallId): Option<Call>
      reads this
    {
      LookUp(Now().calls, id)
    }

    /** The signature that left the service last. */
    ghost function Newest(): Option<Signed>
      reads this
    {
      var r := Now().released;
      if r == [] then None else Some(r[|r| - 1])
    }

    /** Nothing is known of what happens meanwhile, except that it is a run and leaves this call alone. */
    method Await(ghost id: CallId)
      requires Valid()
      modifies this, store, store.persons.Values
      ensures Valid() && old(run) <= run && Mine(id) == old(Mine(id))
      ensures fresh(store.persons.Values - old(store.persons.Values))
    {
    }

    method ReadGate(account: Address) returns (g: Gate)
      requires Valid()
      ensures g == GateOf(Now(), account)
    {
      g := if account in gates then gates[account] else Gate(0, 0, 0);
    }

    // ---------- One method per stretch of code between two suspensions ----------

    method BeginRenewal(ghost id: CallId, account: Address) returns (rec: C.PersonRecord?)
      requires Valid() && Mine(id).None?
      modifies this`run
      ensures Valid() && old(run) <= run && Mine(id) == Some(Renewing(account, None, None, None))
    {
      Take(StartRenewal(id, account));
      var person := store.LookUpPerson(account);
      rec := null;
      if person.Some? && person.value != "" {
        rec := store.RecordOf(person.value);
      }
    }

    method FetchRevokedAt(ghost id: CallId, account: Address) returns (v: nat)
      requires Valid() && Mine(id).Some? && Mine(id).value.Renewing? && Mine(id).value.account == account
      modifies this`run
      ensures Valid() && old(run) <= run && Mine(id) == Some(old(Mine(id)).value.(revoked := Some(v)))
    {
      var g := ReadGate(account);
      v := g.revokedAt;
      Take(ReadRevoked(id));
    }

    method FetchExpiry(ghost id: CallId, account: Address) returns (v: nat)
      requires Valid() && Mine(id).Some? && Mine(id).value.Renewing? && Mine(id).value.account == account
      modifies this`run
      ensures Valid() && old(run) <= run && Mine(id) == Some(old(Mine(id)).value.(expiry := Some(v)))
    {
      var g := ReadGate(account);
      v := g.expiry;
      Take(ReadExpiry(id));
    }

    method FetchBlockTime(ghost id: CallId) returns (v: nat)
      requires Valid() && Mine(id).Some? && (Mine(id).value.Renewing? || Mine(id).value.Signing?)
      modifies this`run
      ensures Valid() && run == old(run) + [ReadBlock(id)] && Mine(id) == Some(old(Mine(id)).value.(time := Some(v)))
      ensures v == old(Now()).now
    {
      v := now;
      Take(ReadBlock(id));
    }

    method FetchNonce(ghost id: CallId, account: Address) returns (v: nat, ghost at: nat)
      requires Valid() && Mine(id).Some? && Mine(id).value.Signing? && Mine(id).value.account == account
      modifies this`run
      ensures Valid() && run == old(run) + [ReadNonce(id)]
      ensures Mine(id) == Some(old(Mine(id)).value.(nonce := Some(Reading(v, at))))
      ensures v == GateOf(old(Now()), account).nonce
    {
      var g := ReadGate(account);
      v, at := g.nonce, Now().step;
      Take(ReadNonce(id));
    }

    method Decide(ghost id: CallId, account: Address, rec: C.PersonRecord?, rhjBlocked: bool, revokedAt: nat, expiry: nat,
                  time: nat) returns (allowed: bool)
      requires Valid() && Mine(id) == Some(Renewing(account, Some(revokedAt), Some(expiry), Some(time)))
      modifies this`run
      ensures Valid() && old(run) <= run
      ensures allowed == RenewalAllowed(C.IsAdmitted(store.Contents(), account), rec != null && rec.revoked, rhjBlocked,
                                        revokedAt != 0, expiry - time < cfg.renewalWindowSeconds)
      ensures !allowed ==> Mine(id).None?
      ensures allowed ==> Mine(id) == Some(Signing(Renewal, store.addresses[account], account, None, None))
    {
      var admitted := store.CheckAdmitted(account);
      var recordRevoked := rec != null && rec.revoked;
      allowed := RenewalAllowed(admitted, recordRevoked, rhjBlocked, revokedAt != 0,
                                expiry - time < cfg.renewalWindowSeconds);
      Take(DecideRenewal(id, rhjBlocked, recordRevoked));
    }

    method SignNow(ghost id: CallId, account: Address, nonce: nat, time: nat) returns (att: Option<Attestation>)
      requires Valid() && Mine(id).Some? && Mine(id).value.Signing? && Mine(id).value.account == account
      requires Mine(id).value.nonce.Some? && Mine(id).value.nonce.value.value == nonce && Mine(id).value.time == Some(time)
      modifies this`run
      ensures Valid() && run == old(run) + [Sign(id)] && att == SignAttestation(cfg.ttlSeconds, account, nonce, time)
      ensures att.None? ==> Mine(id).None?
      ensures var c := old(Mine(id)).value;
        att.Some? ==>
          var x := Signed(c.kind, c.person, att.value, c.nonce.value.at);
          if c.kind == Renewal then Mine(id) == Some(Rechecking(x)) else Mine(id).None? && Newest() == Some(x)
    {
      att := SignAttestation(cfg.ttlSeconds, account, nonce, time);
      Take(Sign(id));
    }

    method CheckAgain(ghost id: CallId, account: Address) returns (ok: bool)
      requires Valid() && Mine(id).Some? && Mine(id).value.Rechecking? && Mine(id).value.signed.attestation.account == account
      modifies this`run
      ensures Valid() && old(run) <= run && Mine(id).None?
      ensures ok ==> Newest() == Some(old(Mine(id)).value.signed) && GateOf(Now(), account).revokedAt == 0
    {
      var g := ReadGate(account);
      ok := g.revokedAt == 0;
      Take(Recheck(id));
    }

    method CheckPolicy(ghost id: CallId, r: AdmissionRequest, rhjBlocked: bool) returns (ok: bool)
      requires Valid() && Mine(id).None?
      modifies this`run
      ensures Valid() && old(run) <= run && ok == AdmissionAllowed(cfg, r, rhjBlocked, store.Contents())
      ensures Mine(id) == if ok then Some(Binding(r.personId, r.address)) else None
    {
      var person := store.LookUpPerson(r.address);
      var address := store.LookUpActiveAddress(r.personId);
      ok := && ValidPersonId(r.personId)
            && !r.usPerson
            && ValidJurisdiction(Upper(r.jurisdiction))
            && (forall x | x in cfg.blockedJurisdictions :: Upper(x) != Upper(r.jurisdiction))
            && !rhjBlocked
            && (person.Some? && person.value != "" ==> person.value == r.personId)
            && (address.Some? ==> address.value == r.address);
      Take(StartAdmission(id, r, rhjBlocked));
    }

    method BindNow(ghost id: CallId, person: Person, account: Address) returns (ok: bool)
      requires Valid() && Mine(id) == Some(Binding(person, account))
      modifies this`run, store
      ensures Valid() && |run| == |old(run)| + 1 && old(run) <= run && run[|old(run)|].Bind? && run[|old(run)|].id == id
      ensures ok ==> C.ActiveAddressOf(Now().store, person) == Some(account)
      ensures fresh(store.persons.Values - old(store.persons.Values))
      ensures Mine(id) == if ok then Some(Signing(Admission, person, account, None, None)) else None
    {
      var at := now;
      BindEffect(cfg, Now(), id, person, account, at);
      ok := store.AdmitPerson(person, account, at);
      Take(Bind(id, at));
    }

    method MarkRevoked(ghost id: CallId, account: Address)
      requires Valid() && Mine(id).None?
      modifies this`run, store`audit, store.persons.Values
      ensures Valid() && |run| == |old(run)| + 1 && old(run) <= run && store.persons == old(store.persons)
      ensures run[|old(run)|].StartRevocation? && run[|old(run)|].id == id && run[|old(run)|].account == account
      ensures Mine(id) == Some(Revoking(account)) && !C.IsAdmitted(Now().store, account)
    {
      var at := now;
      var person := store.RevokeByAddress(account, at);
      Take(StartRevocation(id, account, at));
    }

    method MineNow(ghost id: CallId, account: Address)
      requires Valid() && Mine(id) == Some(Revoking(account))
      modifies this`run, this`gates
      ensures Valid() && run == old(run) + [MineRevocation(id)] && Mine(id).None?
      ensures GateOf(Now(), account).revokedAt == now
      ensures GateOf(Now(), account).nonce == old(GateOf(Now(), account).nonce) + 1
    {
      var g := ReadGate(account);
      gates := gates[account := Gate(g.nonce + 1, now, g.expiry)];
      Take(MineRevocation(id));
    }

    method GiveUp(ghost id: CallId)
      requires Valid()
      modifies this`run
      ensures Valid() && old(run) <= run && Mine(id).None?
    {
      Take(Abandon(id));
    }

    // ---------- The calls ----------

    method AwaitNonce(ghost id: CallId, account: Address) returns (nonce: nat, ghost read: nat)
      requires Valid() && Mine(id).Some? && Mine(id).value.Signing? && Mine(id).value.account == account
      modifies this, store, store.persons.Values
      ensures Valid() && old(run) <= run
      ensures fresh(store.persons.Values - old(store.persons.Values))
      ensures var c := old(Mine(id)).value;
        exists at: nat :: Mine(id) == Some(Signing(c.kind, c.person, c.account, Some(Reading(nonce, at)), c.time))
      ensures NonceRead(cfg, run, |old(run)|, id, account, nonce, read)
    {
      Await(id);
      read := |run|;
      ghost var before := run;
      ghost var at;
      nonce, at := FetchNonce(id, account);
      AfterOfPrefix(cfg, before, run, read);
    }

    method AwaitTime(ghost id: CallId) returns (time: nat, ghost read: nat)
      requires Valid() && Mine(id).Some? && Mine(id).value.Signing?
      modifies this, store, store.persons.Values
      ensures Valid() && old(run) <= run
      ensures fresh(store.persons.Values - old(store.persons.Values))
      ensures var c := old(Mine(id)).value;
        Mine(id) == Some(Signing(c.kind, c.person, c.account, c.nonce, Some(time)))
      ensures TimeRead(cfg, run, |old(run)|, id, time, read)
    {
      Await(id);
      read := |run|;
      ghost var before := run;
      time := FetchBlockTime(id);
      AfterOfPrefix(cfg, before, run, read);
    }

    /** The fresh reads and the signature of `signAttestation`: what is signed is what the gate and the
        latest block showed at two moments during this call. */
    method SignFresh(ghost id: CallId, account: Address)
      returns (att: Option<Attestation>, ghost nonceRead: nat, ghost timeRead: nat)
      requires Valid() && Mine(id).Some? && Mine(id).value.Signing? && Mine(id).value.account == account
      modifies this, store, store.persons.Values
      ensures Valid() && old(run) <= run
      ensures fresh(store.persons.Values - old(store.persons.Values))
      ensures att.None? ==> Mine(id).None?
      ensures att.Some? ==> att.value.account == account && att.value.expiry >= cfg.ttlSeconds
      ensures att.Some? ==> NonceRead(cfg, run, |old(run)|, id, account, att.value.nonce, nonceRead)
      ensures att.Some? ==> TimeRead(cfg, run, |old(run)|, id, att.value.expiry - cfg.ttlSeconds, timeRead)
      ensures att.Some? ==> nonceRead < |run| - 1 && timeRead < |run| - 1 && run[|run| - 1] == Sign(id)
      ensures var c := old(Mine(id)).value;
        att.Some? ==> exists at: nat ::
          var x := Signed(c.kind, c.person, att.value, at);
          if c.kind == Renewal then Mine(id) == Some(Rechecking(x)) else Mine(id).None? && Newest() == Some(x)
    {
      hide After, NonceRead, TimeRead, Valid, Newest;
      ghost var start := |run|;
      var nonce, time;
      nonce, nonceRead := AwaitNonce(id, account);
      ghost var read := run;
      time, timeRead := AwaitTime(id);
      ghost var timed := run;
      Await(id);
      att := SignNow(id, account, nonce, time);
      ReadingsLast(cfg, read, run, start, id, account, nonce, nonceRead);
      TimesLast(cfg, timed, run, |read|, start, id, time, timeRead);
    }

    method ReadChain(ghost id: CallId, account: Address) returns (revokedAt: nat, expiry: nat, time: nat)
      requires Valid() && Mine(id) == Some(Renewing(account, None, None, None))
      modifies this, store, store.persons.Values
      ensures Valid() && old(run) <= run
      ensures fresh(store.persons.Values - old(store.persons.Values))
      ensures Mine(id) == Some(Renewing(account, Some(revokedAt), Some(expiry), Some(time)))
    {
      Await(id);
      revokedAt := FetchRevokedAt(id, account);
      Await(id);
      expiry := FetchExpiry(id, account);
      Await(id);
      time := FetchBlockTime(id);
    }

    method ReadAndDecide(ghost id: CallId, account: Address, rhjBlocked: bool) returns (allowed: bool)
      requires Valid() && Mine(id).None?
      modifies this, store, store.persons.Values
      ensures Valid() && old(run) <= run
      ensures fresh(store.persons.Values - old(store.persons.Values))
      ensures !allowed ==> Mine(id).None?
      ensures allowed ==> Mine(id).Some? && Mine(id).value.Signing?
      ensures allowed ==> Mine(id).value.kind == Renewal && Mine(id).value.account == account
    {
      var rec := BeginRenewal(id, account);
      var revokedAt, expiry, time := ReadChain(id, account);
      allowed := Decide(id, account, rec, rhjBlocked, revokedAt, expiry, time);
    }

    /** The two reads of `revokedAt` frame the signature; a renewal is handed out only when the last
        thing the call saw was an account that is not revoked. */
    method Renew(ghost id: CallId, account: Address, rhjBlocked: bool) returns (att: Option<Attestation>)
      requires Valid() && Mine(id).None?
      modifies this, store, store.persons.Values
      ensures Valid() && old(run) <= run && Mine(id).None?
      ensures att.Some? ==> Newest().Some? && Newest().value.kind == Renewal && Newest().value.attestation == att.value
      ensures att.Some? ==> att.value.account == account && GateOf(Now(), account).revokedAt == 0
    {
      var allowed := ReadAndDecide(id, account, rhjBlocked);
      if !allowed {
        return None;
      }
      ghost var nonceRead, timeRead;
      att, nonceRead, timeRead := SignFresh(id, account);
      if att.Some? {
        Await(id);
        var ok := CheckAgain(id, account);
        att := if ok then att else None;
      }
    }

    /** Binds before it signs; a failure in between leaves the binding. */
    method Admit(ghost id: CallId, r: AdmissionRequest, rhjBlocked: bool)
      returns (att: Option<Attestation>, ghost bound: nat, ghost signed: nat)
      requires Valid() && Mine(id).None?
      modifies this, store, store.persons.Values
      ensures Valid() && old(run) <= run && Mine(id).None?
      ensures att.Some? ==> Newest().Some? && Newest().value.kind == Admission && Newest().value.person == r.personId
      ensures att.Some? ==> Newest().value.attestation == att.value && att.value.account == r.address
      ensures att.Some? ==> AdmissionAllowed(cfg, r, rhjBlocked, old(store.Contents()))
      ensures att.Some? ==> BoundThenSigned(|old(run)|, id, r, bound, signed)
    {
      var allowed := CheckPolicy(id, r, rhjBlocked);
      if !allowed {
        att, bound, signed := None, 0, 0;
        return;
      }
      att, bound, signed := BindAndSign(id, r);
    }

    /** The pair was bound at step `b` of this call, and the signature was made at the later step `g`. */
    ghost predicate BoundThenSigned(start: nat, id: CallId, r: AdmissionRequest, b: nat, g: nat)
      reads this
    {
      && start <= b < g < |run|
      && run[b].Bind? && run[b].id == id && C.ActiveAddressOf(After(cfg, run, b + 1).store, r.personId) == Some(r.address)
      && run[g] == Sign(id)
    }

    method BindAndSign(ghost id: CallId, r: AdmissionRequest)
      returns (att: Option<Attestation>, ghost bound: nat, ghost signed: nat)
      requires Valid() && Mine(id) == Some(Binding(r.personId, r.address))
      modifies this, store, store.persons.Values
      ensures Valid() && old(run) <= run && Mine(id).None?
      ensures att.Some? ==> Newest().Some? && Newest().value.kind == Admission && Newest().value.person == r.personId
      ensures att.Some? ==> Newest().value.attestation == att.value && att.value.account == r.address
      ensures att.Some? ==> BoundThenSigned(|old(run)|, id, r, bound, signed)
    {
      Await(id);
      bound, signed := |run|, 0;
      var ok := BindNow(id, r.personId, r.address);
      if !ok {
        att := None;
        return;
      }
      ghost var then_ := run;
      ghost var nonceRead, timeRead;
      att, nonceRead, timeRead := SignFresh(id, r.address);
      if att.Some? {
        signed := |run| - 1;
        AfterOfPrefix(cfg, then_, run, bound + 1);
        assert run[bound] == then_[bound];
      }
    }

    /** The account was marked at step `b` of this call, and not admitted right after. */
    ghost predicate MarkedSince(start: nat, id: CallId, account: Address, b: nat)
      reads this
    {
      && start <= b < |run| && run[b].StartRevocation? && run[b].id == id && run[b].account == account
      && !C.IsAdmitted(After(cfg, run, b + 1).store, account)
    }

    /** Marks the store first and sends the transaction after it; the mark stays if the transaction fails. */
    method Revoke(ghost id: CallId, account: Address, mined: bool) returns (ok: bool, ghost marked: nat)
      requires Valid() && Mine(id).None?
      modifies this, store, store.persons.Values
      ensures Valid() && old(run) <= run && Mine(id).None? && ok == mined
      ensures MarkedSince(|old(run)|, id, account, marked)
      ensures ok ==> GateOf(Now(), account).revokedAt == now && run[|run| - 1] == MineRevocation(id) && marked < |run| - 1
    {
      marked := |run|;
      MarkRevoked(id, account);
      ghost var then_ := run;
      Await(id);
      if mined {
        MineNow(id, account);
      } else {
        GiveUp(id);
      }
      ok := mined;
      AfterOfPrefix(cfg, then_, run, marked + 1);
      assert run[marked] == then_[marked];
    }
  }
}
