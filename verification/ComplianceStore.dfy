/** The person-to-address bindings of the compliance signer, with their audit trail. */
module ComplianceStore {
  import opened Wrappers

  // Addresses are kept in one canonical case. A person id is any string; the empty one reads as absent.
  type Person = string
  type Address = nat
  type Time = nat

  datatype Cause = Revoked | Rotated
  datatype AuditEntry = AuditEntry(personId: Person, address: Address, admittedAt: Time, releasedAt: Time, cause: Cause)
  datatype Binding = Binding(address: Address, admittedAt: Time, revoked: bool, revokedAt: Option<Time>)
  datatype Data = Data(persons: map<Person, Binding>, addresses: map<Address, Person>, audit: seq<AuditEntry>)

  // ---------- The operations on values ----------

  function PersonOf(d: Data, a: Address): Option<Person> {
    if a in d.addresses then Some(d.addresses[a]) else None
  }

  function ActiveAddressOf(d: Data, p: Person): Option<Address> {
    if p in d.persons && !d.persons[p].revoked then Some(d.persons[p].address) else None
  }

  predicate IsAdmitted(d: Data, a: Address) {
    && a in d.addresses
    && d.addresses[a] != ""
    && ActiveAddressOf(d, d.addresses[a]) == Some(a)
  }

  predicate BoundToAnother(d: Data, p: Person, a: Address) {
    a in d.addresses && d.addresses[a] != "" && d.addresses[a] != p
  }

  predicate ActiveElsewhere(d: Data, p: Person, a: Address) {
    p in d.persons && !d.persons[p].revoked && d.persons[p].address != a
  }

  predicate Moves(d: Data, p: Person, a: Address) {
    p in d.persons && d.persons[p].address != a
  }

  /** Drops the index entry of a person's former address, keeping the binding in the audit trail. */
  function ReleaseOld(d: Data, p: Person, now: Time): Data
    requires p in d.persons
  {
    var b := d.persons[p];
    d.(addresses := d.addresses - {b.address},
       audit := d.audit + [AuditEntry(p, b.address, b.admittedAt, now, Rotated)])
  }

  function Bound(d: Data, p: Person, a: Address, now: Time): Data {
    d.(persons := d.persons[p := Binding(a, now, false, None)], addresses := d.addresses[a := p])
  }

  function Admitted(d: Data, p: Person, a: Address, now: Time): Data {
    Bound(if Moves(d, p, a) then ReleaseOld(d, p, now) else d, p, a, now)
  }

  function Admit(d: Data, p: Person, a: Address, now: Time): Result<Data, string> {
    if BoundToAnother(d, p, a) then Err("address already bound to another person")
    else if ActiveElsewhere(d, p, a) then Err("the person already has another active address")
    else Ok(Admitted(d, p, a, now))
  }

  predicate Revocable(d: Data, a: Address) {
    a in d.addresses && d.addresses[a] != "" && d.addresses[a] in d.persons && !d.persons[d.addresses[a]].revoked
  }

  function Revoke(d: Data, a: Address, now: Time): Data {
    if !Revocable(d, a) then d
    else
      var p := d.addresses[a];
      var b := d.persons[p];
      d.(persons := d.persons[p := b.(revoked := true, revokedAt := Some(now))],
         audit := d.audit + [AuditEntry(p, b.address, b.admittedAt, now, Revoked)])
  }

  // ---------- The index is a bijection ----------

  /** Each person's address indexes back to that person, and nothing else is indexed. */
  ghost predicate Inverse(d: Data) {
    && (forall p | p in d.persons :: d.persons[p].address in d.addresses && d.addresses[d.persons[p].address] == p)
    && (forall a | a in d.addresses :: d.addresses[a] in d.persons && d.persons[d.addresses[a]].address == a)
  }

  /** Under the bijection, admitting makes exactly the new address admitted and leaves every other
      address as it was. */
  lemma AdmitAddsOne(d: Data, p: Person, a: Address, now: Time, b: Address)
    requires Inverse(d) && p != "" && Admit(d, p, a, now).Ok?
    ensures IsAdmitted(Admit(d, p, a, now).value, b) <==> b == a || IsAdmitted(d, b)
  {
    if b != a && b in d.addresses && d.addresses[b] == p {
      assert d.persons[p].address == b;
    }
  }

  lemma RevokeRemovesOne(d: Data, a: Address, now: Time, b: Address)
    requires Inverse(d)
    ensures IsAdmitted(Revoke(d, a, now), b) <==> b != a && IsAdmitted(d, b)
  {
    if b in d.addresses && a in d.addresses && d.addresses[a] == d.addresses[b] {
      assert a == d.persons[d.addresses[a]].address == b;
    }
  }

  lemma RevokeKeepsInverse(d: Data, a: Address, now: Time)
    requires Inverse(d)
    ensures Inverse(Revoke(d, a, now))
  {
    var d' := Revoke(d, a, now);
    forall b | b in d'.addresses ensures d'.addresses[b] in d'.persons && d'.persons[d'.addresses[b]].address == b {
      assert d.persons[d.addresses[b]].address == b;
    }
  }

  /** Admitting keeps the index a bijection exactly when it does not take an address from the empty
      person id, which the truthiness test of the guard overlooks. */
  lemma AdmitKeepsInverseExactlyWhen(d: Data, p: Person, a: Address, now: Time)
    requires Inverse(d) && Admit(d, p, a, now).Ok?
    ensures Inverse(Admit(d, p, a, now).value) <==> (a in d.addresses && d.addresses[a] == "" ==> p == "")
  {
    var d' := Admitted(d, p, a, now);
    if a in d.addresses && d.addresses[a] == "" && p != "" {
      assert d'.persons[""].address == a && d'.addresses[a] != "";
    } else {
      forall q | q in d'.persons ensures d'.persons[q].address in d'.addresses && d'.addresses[d'.persons[q].address] == q {
        if q != p {
          assert d.addresses[d.persons[q].address] == q;
        }
      }
      forall b | b in d'.addresses ensures d'.addresses[b] in d'.persons && d'.persons[d'.addresses[b]].address == b {
        if b != a {
          assert d.persons[d.addresses[b]].address == b;
        }
      }
    }
  }

  /** The empty id is a real counterexample: two persons end up on one address. */
  lemma EmptyIdSharesAnAddress(a: Address)
    ensures var d := Admit(Data(map[], map[], []), "", a, 0).value;
      Admit(d, "ana", a, 1).Ok? && !Inverse(Admit(d, "ana", a, 1).value)
      && ActiveAddressOf(Admit(d, "ana", a, 1).value, "") == ActiveAddressOf(Admit(d, "ana", a, 1).value, "ana")
  {
    var d := Admit(Data(map[], map[], []), "", a, 0).value;
    assert Inverse(d);
    AdmitKeepsInverseExactlyWhen(d, "ana", a, 1);
  }

  // ---------- Runs ----------

  datatype Action = Enrol(personId: Person, address: Address, at: Time) | Expel(address: Address, at: Time)

  function Next(d: Data, a: Action): Data {
    match a
    case Enrol(p, address, at) => if Admit(d, p, address, at).Ok? then Admit(d, p, address, at).value else d
    case Expel(address, at) => Revoke(d, address, at)
  }

  /** The service's policy lets no empty person id through. */
  ghost predicate Named(run: seq<Action>) {
    forall i :: 0 <= i < |run| && run[i].Enrol? ==> run[i].personId != ""
  }

  function After(run: seq<Action>, n: nat): Data
    requires n <= |run|
  {
    if n == 0 then Data(map[], map[], []) else Next(After(run, n - 1), run[n - 1])
  }

  ghost predicate Good(d: Data) {
    Inverse(d) && "" !in d.persons
  }

  lemma StepKeepsGood(d: Data, a: Action)
    requires Good(d) && (a.Enrol? ==> a.personId != "")
    ensures Good(Next(d, a))
  {
    match a
    case Enrol(p, address, at) =>
      if Admit(d, p, address, at).Ok? {
        assert address in d.addresses ==> d.addresses[address] in d.persons;
        AdmitKeepsInverseExactlyWhen(d, p, address, at);
      }
    case Expel(address, at) =>
      RevokeKeepsInverse(d, address, at);
  }

  lemma {:induction false} RunsStayGood(run: seq<Action>, n: nat)
    requires Named(run) && n <= |run|
    ensures Good(After(run, n))
  {
    if n > 0 {
      RunsStayGood(run, n - 1);
      StepKeepsGood(After(run, n - 1), run[n - 1]);
    }
  }

  ghost predicate AdmittedMeansActive(d: Data) {
    forall a: Address :: IsAdmitted(d, a) <==> exists p :: ActiveAddressOf(d, p) == Some(a)
  }

  ghost predicate OneActiveAddress(d: Data) {
    forall a: Address, b: Address | IsAdmitted(d, a) && IsAdmitted(d, b) && PersonOf(d, a) == PersonOf(d, b) :: a == b
  }

  /** In every reachable state the two tables are mutually inverse, an address is admitted exactly when
      it is some person's active address, and no person is behind two admitted addresses. */
  lemma BindingsAreABijection(run: seq<Action>)
    requires Named(run)
    ensures Inverse(After(run, |run|)) && AdmittedMeansActive(After(run, |run|)) && OneActiveAddress(After(run, |run|))
  {
    RunsStayGood(run, |run|);
    GoodIsABijection(After(run, |run|));
  }

  lemma GoodIsABijection(d: Data)
    requires Good(d)
    ensures AdmittedMeansActive(d) && OneActiveAddress(d)
  {
    forall a: Address ensures IsAdmitted(d, a) <==> exists p :: ActiveAddressOf(d, p) == Some(a) {
      if p :| ActiveAddressOf(d, p) == Some(a) {
        assert d.addresses[a] == p;
      }
    }
  }

  // ---------- The audit trail ----------

  lemma AuditGrows(d: Data, a: Action)
    ensures d.audit <= Next(d, a).audit
  {
  }

  lemma {:induction false} AuditIsAppendOnly(run: seq<Action>, i: nat, n: nat)
    requires i <= n <= |run|
    ensures After(run, i).audit <= After(run, n).audit
    decreases n
  {
    if i < n {
      AuditIsAppendOnly(run, i, n - 1);
      AuditGrows(After(run, n - 1), run[n - 1]);
    }
  }

  ghost predicate AuditedSince(d: Data, start: nat, p: Person, a: Address) {
    exists k :: start <= k < |d.audit| && d.audit[k].personId == p && d.audit[k].address == a
  }

  /** A step that ends an active pair writes it into the audit trail. */
  lemma LeavingIsAudited(d: Data, act: Action, p: Person, a: Address)
    requires ActiveAddressOf(d, p) == Some(a) && ActiveAddressOf(Next(d, act), p) != Some(a)
    ensures AuditedSince(Next(d, act), |d.audit|, p, a)
  {
    assert act.Expel?;
    assert Next(d, act).audit[|d.audit|].personId == p;
  }

  /** Whatever pair was active at some point and is not active now was audited in between. */
  lemma {:induction false} PastPairsAreAudited(run: seq<Action>, i: nat, n: nat, p: Person, a: Address)
    requires i <= n <= |run|
    requires ActiveAddressOf(After(run, i), p) == Some(a)
    ensures ActiveAddressOf(After(run, n), p) == Some(a) || AuditedSince(After(run, n), |After(run, i).audit|, p, a)
    decreases n
  {
    if i < n {
      var d, d' := After(run, n - 1), After(run, n);
      AuditIsAppendOnly(run, i, n - 1);
      AuditGrows(d, run[n - 1]);
      PastPairsAreAudited(run, i, n - 1, p, a);
      if AuditedSince(d, |After(run, i).audit|, p, a) {
        var k :| |After(run, i).audit| <= k < |d.audit| && d.audit[k].personId == p && d.audit[k].address == a;
        assert d'.audit[k] == d.audit[k];
      } else if ActiveAddressOf(d', p) != Some(a) {
        LeavingIsAudited(d, run[n - 1], p, a);
      }
    }
  }

  // ---------- The store ----------

  /** A record is shared with whoever asked for it: `RevokeByAddress` changes it in place. */
  class PersonRecord {
    var address: Address
    var admittedAt: Time
    var revoked: bool
    var revokedAt: Option<Time>

    constructor (address: Address, admittedAt: Time)
      ensures this.address == address && this.admittedAt == admittedAt && !revoked && revokedAt == None
    {
      this.address, this.admittedAt, revoked, revokedAt := address, admittedAt, false, None;
    }

    function Contents(): Binding
      reads this
    {
      Binding(address, admittedAt, revoked, revokedAt)
    }
  }

  class ComplianceStore {
    var persons: map<Person, PersonRecord>
    var addresses: map<Address, Person>
    var audit: seq<AuditEntry>

    ghost predicate Valid()
      reads this
    {
      forall p, q | p in persons && q in persons && p != q :: persons[p] != persons[q]
    }

    ghost function Contents(): Data
      reads this, persons.Values
    {
      Data(map p | p in persons :: persons[p].Contents(), addresses, audit)
    }

    constructor ()
      ensures Valid() && Contents() == Data(map[], map[], []) && persons == map[]
    {
      persons, addresses, audit := map[], map[], [];
    }

    method RecordOf(personId: Person) returns (r: PersonRecord?)
      ensures r == if personId in persons then persons[personId] else null
    {
      r := if personId in persons then persons[personId] else null;
    }

    method LookUpPerson(address: Address) returns (p: Option<Person>)
      ensures p == PersonOf(Contents(), address)
    {
      p := if address in addresses then Some(addresses[address]) else None;
    }

    method LookUpActiveAddress(personId: Person) returns (a: Option<Address>)
      ensures a == ActiveAddressOf(Contents(), personId)
    {
      var r := RecordOf(personId);
      a := if r != null && !r.revoked then Some(r.address) else None;
    }

    method CheckAdmitted(address: Address) returns (ok: bool)
      ensures ok == IsAdmitted(Contents(), address)
    {
      var p := LookUpPerson(address);
      if p.None? || p.value == "" {
        return false;
      }
      var r := RecordOf(p.value);
      ok := r != null && !r.revoked && r.address == address;
    }

    /** Refuses without changing anything, or binds the pair in a new record. */
    method AdmitPerson(personId: Person, address: Address, now: Time) returns (ok: bool)
      requires Valid()
      modifies this
      ensures Valid()
      ensures ok == Admit(old(Contents()), personId, address, now).Ok?
      ensures Contents() == if ok then Admit(old(Contents()), personId, address, now).value else old(Contents())
      ensures ok ==> personId in persons && fresh(persons[personId])
      ensures fresh(persons.Values - old(persons.Values))
    {
      if address in addresses && addresses[address] != "" && addresses[address] != personId {
        return false;
      }
      var existing := RecordOf(personId);
      if existing != null && !existing.revoked && existing.address != address {
        return false;
      }
      if existing != null && existing.address != address {
        ReleaseOldAddress(personId, now);
      }
      Bind(personId, address, now);
      ok := true;
    }

    method ReleaseOldAddress(personId: Person, now: Time)
      requires Valid() && personId in persons
      modifies this`addresses, this`audit
      ensures Valid() && Contents() == ReleaseOld(old(Contents()), personId, now)
    {
      var existing := persons[personId];
      addresses := addresses - {existing.address};
      audit := audit + [AuditEntry(personId, existing.address, existing.admittedAt, now, Rotated)];
    }

    method Bind(personId: Person, address: Address, now: Time)
      requires Valid()
      modifies this`persons, this`addresses
      ensures Valid() && personId in persons && fresh(persons[personId])
      ensures fresh(persons.Values - old(persons.Values))
      ensures Contents() == Bound(old(Contents()), personId, address, now)
    {
      var record := new PersonRecord(address, now);
      persons := persons[personId := record];
      addresses := addresses[address := personId];
    }

    /** Marks the record in place, so that every holder of the record sees the revocation. */
    method RevokeByAddress(address: Address, now: Time) returns (p: Option<Person>)
      requires Valid()
      modifies this`audit, persons.Values
      ensures Valid() && persons == old(persons)
      ensures Contents() == Revoke(old(Contents()), address, now)
      ensures p == if PersonOf(old(Contents()), address) == Some("") then None else PersonOf(old(Contents()), address)
      ensures p.Some? && p.value in persons ==> persons[p.value].revoked
    {
      if address !in addresses || addresses[address] == "" {
        return None;
      }
      var personId := addresses[address];
      p := Some(personId);
      var rec := RecordOf(personId);
      if rec != null && !rec.revoked {
        rec.revoked, rec.revokedAt := true, Some(now);
        audit := audit + [AuditEntry(personId, rec.address, rec.admittedAt, now, Revoked)];
      }
    }
  }
}
