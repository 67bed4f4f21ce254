/** What the compliance service guarantees over every interleaving. */
module ComplianceTheorems {
  import opened Wrappers
  import C = ComplianceStore
  import opened ComplianceProtocol

  /** A released renewal whose nonce is still the gate's is for an account that is not revoked, at every
      moment of every run. */
  lemma NoRenewalOutlivesARevocation(cfg: Config, run: seq<Action>, n: nat, k: nat)
    requires n <= |run| && k < |After(cfg, run, n).released|
    ensures var s := After(cfg, run, n);
      var x := s.released[k];
      x.kind == Renewal && x.attestation.nonce == GateOf(s, x.attestation.account).nonce ==>
        GateOf(s, x.attestation.account).revokedAt == 0
  {
    RunsKeepInv(cfg, run, n);
    assert Harmless(After(cfg, run, n), After(cfg, run, n).released[k]);
  }

  /** Eligibility never reaches further than 90 days past the current block, and every expiry that was
      signed fits 48 bits. */
  lemma EligibilityIsBounded(cfg: Config, run: seq<Action>, n: nat)
    requires n <= |run|
    ensures var s := After(cfg, run, n);
      && (forall a: Address :: GateOf(s, a).expiry <= s.now + MAX_TTL_SECONDS)
      && (forall x | x in s.released :: x.attestation.expiry <= s.now + MAX_TTL_SECONDS
                                        && x.attestation.expiry <= UINT48_MAX)
  {
    RunsKeepInv(cfg, run, n);
    var s := After(cfg, run, n);
    forall x | x in s.released
      ensures x.attestation.expiry <= s.now + MAX_TTL_SECONDS && x.attestation.expiry <= UINT48_MAX
    {
      var k :| 0 <= k < |s.released| && s.released[k] == x;
      assert SignedOk(s, s.released[k]);
    }
  }

  // ---------- A revocation is only undone on purpose ----------

  lemma GateMoves(cfg: Config, s: State, act: Action, a: Address)
    ensures GateOf(Next(cfg, s, act), a) == GateOf(s, a) || GateOf(Next(cfg, s, act), a).nonce > GateOf(s, a).nonce
  {
  }

  lemma {:induction false} NoncesOnlyGrow(cfg: Config, run: seq<Action>, i: nat, n: nat, a: Address)
    requires i <= n <= |run|
    ensures GateOf(After(cfg, run, i), a).nonce <= GateOf(After(cfg, run, n), a).nonce
    decreases n
  {
    if i < n {
      NoncesOnlyGrow(cfg, run, i, n - 1, a);
      GateMoves(cfg, After(cfg, run, n - 1), run[n - 1], a);
    }
  }

  ghost predicate ReadIn(cfg: Config, run: seq<Action>, n: nat, a: Address, nonce: nat, at: nat)
    requires n <= |run|
  {
    at <= n && GateOf(After(cfg, run, at), a).nonce == nonce
  }

  ghost predicate CallGenuine(cfg: Config, run: seq<Action>, n: nat, c: Call)
    requires n <= |run|
  {
    match c
    case Signing(_, _, a, nonce, _) => nonce.Some? ==> ReadIn(cfg, run, n, a, nonce.value.value, nonce.value.at)
    case Rechecking(x) => ReadIn(cfg, run, n, x.attestation.account, x.attestation.nonce, x.readAt)
    case _ => true
  }

  ghost predicate Genuine(cfg: Config, run: seq<Action>, n: nat, s: State)
    requires n <= |run|
  {
    && s.step == n
    && (forall id | id in s.calls :: CallGenuine(cfg, run, n, s.calls[id]))
    && (forall x | x in s.released :: ReadIn(cfg, run, n, x.attestation.account, x.attestation.nonce, x.readAt))
  }

  lemma CallStaysGenuine(cfg: Config, run: seq<Action>, n: nat, act: Action)
    requires n < |run| && Genuine(cfg, run, n, After(cfg, run, n))
    requires Continues(act) && act.id in After(cfg, run, n).calls
    ensures var s := After(cfg, run, n);
      var s' := CallStep(cfg, s, act.id, act);
      && s'.step == n
      && (forall id | id in s'.calls :: CallGenuine(cfg, run, n, s'.calls[id]))
      && (forall x | x in s'.released :: ReadIn(cfg, run, n, x.attestation.account, x.attestation.nonce, x.readAt))
  {
    var s := After(cfg, run, n);
    assert CallGenuine(cfg, run, n, s.calls[act.id]);
  }

  lemma OtherStaysGenuine(cfg: Config, run: seq<Action>, n: nat, s: State, act: Action)
    requires n < |run| && Genuine(cfg, run, n, s) && !Continues(act)
    ensures Genuine(cfg, run, n + 1, Next(cfg, s, act))
  {
    var s' := Next(cfg, s, act);
    assert s'.released == s.released;
    forall id | id in s'.calls ensures CallGenuine(cfg, run, n + 1, s'.calls[id]) {
      assert id in s.calls && s'.calls[id] == s.calls[id] ==> CallGenuine(cfg, run, n, s.calls[id]);
    }
  }

  /** Every nonce that was signed is what the gate showed in the state it was read in. */
  lemma {:induction false} ReadsAreGenuine(cfg: Config, run: seq<Action>, n: nat)
    requires n <= |run|
    ensures Genuine(cfg, run, n, After(cfg, run, n))
  {
    if n > 0 {
      ReadsAreGenuine(cfg, run, n - 1);
      var s, act := After(cfg, run, n - 1), run[n - 1];
      if !Continues(act) {
        OtherStaysGenuine(cfg, run, n - 1, s, act);
      } else if act.id in s.calls {
        CallStaysGenuine(cfg, run, n - 1, act);
      }
    }
  }

  /** Whatever clears a revocation is an admission whose nonce was read after every revocation of the
      account mined so far: neither a renewal nor a signature from before can do it. */
  lemma ClearingNeedsAFreshAdmission(cfg: Config, run: seq<Action>, i: nat, n: nat, a: Address)
    requires i < n < |run|
    requires run[i].MineRevocation? && run[i].id in After(cfg, run, i).calls
    requires After(cfg, run, i).calls[run[i].id] == Revoking(a)
    requires GateOf(After(cfg, run, n), a).revokedAt != 0 && GateOf(After(cfg, run, n + 1), a).revokedAt == 0
    ensures run[n].Attest? && run[n].k < |After(cfg, run, n).released|
      && After(cfg, run, n).released[run[n].k].attestation.account == a
      && After(cfg, run, n).released[run[n].k].kind == Admission
      && After(cfg, run, n).released[run[n].k].readAt > i
  {
    var s := After(cfg, run, n);
    RunsKeepInv(cfg, run, n);
    OnlyAttestClears(cfg, s, run[n], a);
    var x := s.released[run[n].k];
    assert Harmless(s, x);
    ReadsAreGenuine(cfg, run, n);
    RevokingAdvances(cfg, After(cfg, run, i), run[i], a);
    if x.readAt <= i {
      NoncesOnlyGrow(cfg, run, x.readAt, i, a);
      NoncesOnlyGrow(cfg, run, i + 1, n, a);
    }
  }

  lemma RevokingAdvances(cfg: Config, s: State, act: Action, a: Address)
    requires act.MineRevocation? && act.id in s.calls && s.calls[act.id] == Revoking(a)
    ensures GateOf(Next(cfg, s, act), a).nonce == GateOf(s, a).nonce + 1
  {
  }

  lemma OnlyAttestClears(cfg: Config, s: State, act: Action, a: Address)
    requires s.now > 0 && GateOf(s, a).revokedAt != 0 && GateOf(Next(cfg, s, act), a).revokedAt == 0
    ensures act.Attest? && act.k < |s.released|
      && s.released[act.k].attestation.account == a && s.released[act.k].attestation.nonce == GateOf(s, a).nonce
  {
  }

  // ---------- The local mark closes renewals ----------

  lemma OnlyBindingAdmits(cfg: Config, s: State, act: Action, a: Address)
    requires C.Good(s.store) && !C.IsAdmitted(s.store, a) && C.IsAdmitted(Next(cfg, s, act).store, a)
    requires forall id | id in s.calls && s.calls[id].Binding? :: s.calls[id].person != ""
    ensures act.Bind? && act.id in s.calls && s.calls[act.id].Binding? && s.calls[act.id].account == a
  {
    if act.StartRevocation? {
      C.RevokeRemovesOne(s.store, act.account, act.at, a);
    } else if act.Bind? && act.id in s.calls && s.calls[act.id].Binding? {
      var c := s.calls[act.id];
      if C.Admit(s.store, c.person, c.account, act.at).Ok? {
        C.AdmitAddsOne(s.store, c.person, c.account, act.at, a);
      }
    }
  }

  /** The store stays a bijection, because every person id that reaches it passed the policy. */
  ghost predicate StoreOk(s: State) {
    && C.Good(s.store)
    && forall id | id in s.calls && s.calls[id].Binding? :: s.calls[id].person != ""
  }

  lemma StoreStaysOk(cfg: Config, s: State, act: Action)
    requires StoreOk(s)
    ensures StoreOk(Next(cfg, s, act))
  {
    if act.StartRevocation? {
      C.StepKeepsGood(s.store, C.Expel(act.account, act.at));
    } else if act.Bind? && act.id in s.calls && s.calls[act.id].Binding? {
      C.StepKeepsGood(s.store, C.Enrol(s.calls[act.id].person, s.calls[act.id].account, act.at));
    }
  }

  lemma {:induction false} RunsKeepStoreOk(cfg: Config, run: seq<Action>, n: nat)
    requires n <= |run|
    ensures StoreOk(After(cfg, run, n))
  {
    if n > 0 {
      RunsKeepStoreOk(cfg, run, n - 1);
      StoreStaysOk(cfg, After(cfg, run, n - 1), run[n - 1]);
    }
  }

  ghost predicate BindsAt(cfg: Config, run: seq<Action>, j: nat, a: Address)
    requires j < |run|
  {
    var s := After(cfg, run, j);
    run[j].Bind? && run[j].id in s.calls && s.calls[run[j].id].Binding? && s.calls[run[j].id].account == a
  }

  lemma {:induction false} MarkStays(cfg: Config, run: seq<Action>, i: nat, n: nat, a: Address)
    requires i <= n <= |run| && !C.IsAdmitted(After(cfg, run, i).store, a)
    requires forall j | i <= j < n :: !BindsAt(cfg, run, j, a)
    ensures !C.IsAdmitted(After(cfg, run, n).store, a)
    decreases n
  {
    if i < n {
      MarkStays(cfg, run, i, n - 1, a);
      RunsKeepStoreOk(cfg, run, n - 1);
      if C.IsAdmitted(After(cfg, run, n).store, a) {
        OnlyBindingAdmits(cfg, After(cfg, run, n - 1), run[n - 1], a);
        assert BindsAt(cfg, run, n - 1, a);
      }
    }
  }

  /** From the write-ahead mark on, mined or not, no renewal of the address is decided in its favour
      until the address is admitted again. */
  lemma MarkingClosesRenewals(cfg: Config, run: seq<Action>, i: nat, n: nat, a: Address)
    requires i < n < |run| && run[i].StartRevocation? && run[i].account == a
    requires run[i].id !in After(cfg, run, i).calls
    requires forall j | i < j < n :: !BindsAt(cfg, run, j, a)
    requires run[n].DecideRenewal? && run[n].id in After(cfg, run, n).calls
    requires var c := After(cfg, run, n).calls[run[n].id]; c.Renewing? && c.account == a
    ensures run[n].id in After(cfg, run, n + 1).calls ==>
      After(cfg, run, n + 1).calls[run[n].id] == After(cfg, run, n).calls[run[n].id]
  {
    RunsKeepStoreOk(cfg, run, i);
    C.RevokeRemovesOne(After(cfg, run, i).store, a, run[i].at, a);
    MarkStays(cfg, run, i + 1, n, a);
  }

  // ---------- Every signature is accounted for ----------

  /** The pair is active now or was written into the audit trail when it ended. */
  ghost predicate Accounted(d: C.Data, p: Person, a: Address) {
    C.ActiveAddressOf(d, p) == Some(a) || C.AuditedSince(d, 0, p, a)
  }

  ghost predicate CallAccounted(d: C.Data, c: Call) {
    match c
    case Signing(_, p, a, _, _) => Accounted(d, p, a)
    case Rechecking(x) => Accounted(d, x.person, x.attestation.account)
    case _ => true
  }

  ghost predicate AllAccounted(s: State) {
    && (forall id | id in s.calls :: CallAccounted(s.store, s.calls[id]))
    && (forall x | x in s.released :: Accounted(s.store, x.person, x.attestation.account))
  }

  lemma StaysAccounted(d: C.Data, e: C.Action, p: Person, a: Address)
    requires Accounted(d, p, a)
    ensures Accounted(C.Next(d, e), p, a)
  {
    var d' := C.Next(d, e);
    C.AuditGrows(d, e);
    if C.AuditedSince(d, 0, p, a) {
      var k :| 0 <= k < |d.audit| && d.audit[k].personId == p && d.audit[k].address == a;
      assert d'.audit[k] == d.audit[k];
    } else if C.ActiveAddressOf(d', p) != Some(a) {
      C.LeavingIsAudited(d, e, p, a);
      var k :| |d.audit| <= k < |d'.audit| && d'.audit[k].personId == p && d'.audit[k].address == a;
      assert 0 <= k;
    }
  }

  lemma StoreMoveKeepsAccounts(s: State, e: C.Action)
    requires AllAccounted(s)
    ensures AllAccounted(s.(store := C.Next(s.store, e)))
  {
    var d := C.Next(s.store, e);
    forall id | id in s.calls ensures CallAccounted(d, s.calls[id]) {
      match s.calls[id]
      case Signing(_, p, a, _, _) => StaysAccounted(s.store, e, p, a);
      case Rechecking(x) => StaysAccounted(s.store, e, x.person, x.attestation.account);
      case _ =>
    }
    forall x | x in s.released ensures Accounted(d, x.person, x.attestation.account) {
      StaysAccounted(s.store, e, x.person, x.attestation.account);
    }
  }

  lemma CallStepKeepsAccounts(cfg: Config, s: State, id: CallId, act: Action)
    requires AllAccounted(s) && StoreOk(s) && id in s.calls
    ensures AllAccounted(CallStep(cfg, s, id, act))
  {
    assert CallAccounted(s.store, s.calls[id]);
    if act.Bind? && s.calls[id].Binding? {
      StoreMoveKeepsAccounts(s, C.Enrol(s.calls[id].person, s.calls[id].account, act.at));
    }
  }

  lemma StepKeepsAccounts(cfg: Config, s: State, act: Action)
    requires AllAccounted(s) && StoreOk(s)
    ensures AllAccounted(Next(cfg, s, act))
  {
    match act
    case Tick(_) =>
    case Attest(_) =>
    case StartRenewal(_, _) =>
    case StartAdmission(_, _, _) =>
    case StartRevocation(_, a, at) => StoreMoveKeepsAccounts(s, C.Expel(a, at));
    case _ =>
      if act.id in s.calls {
        CallStepKeepsAccounts(cfg, s, act.id, act);
      }
  }

  /** Every signature the service ever released names a pair that is bound now or is in the audit
      trail: the binding is written before anything is signed. */
  lemma {:induction false} SignaturesAreAccountedFor(cfg: Config, run: seq<Action>, n: nat)
    requires n <= |run|
    ensures AllAccounted(After(cfg, run, n))
  {
    if n > 0 {
      SignaturesAreAccountedFor(cfg, run, n - 1);
      RunsKeepStoreOk(cfg, run, n - 1);
      StepKeepsAccounts(cfg, After(cfg, run, n - 1), run[n - 1]);
    }
  }
}
