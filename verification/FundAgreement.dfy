/** Both indexers against the plain replay of the log, and against each other, on every log the Fund
    contract can emit. */
module FundAgreement {
  import opened Wrappers
  import opened FundEvents
  import Indexer
  import Subgraph

  // ---------- Sums over positions ----------

  datatype Field = Shares | Deposited | Withdrawn

  function Get(p: Indexer.Position, f: Field): int {
    match f
    case Shares => p.shares
    case Deposited => p.deposited6
    case Withdrawn => p.withdrawn6
  }

  ghost function Sum(m: map<Account, Indexer.Position>, f: Field): int
    decreases |m|
  {
    if m == map[] then 0
    else
      var a :| a in m;
      Get(m[a], f) + Sum(m - {a}, f)
  }

  lemma {:induction false} SumRemove(m: map<Account, Indexer.Position>, f: Field, a: Account)
    requires a in m
    ensures Sum(m, f) == Get(m[a], f) + Sum(m - {a}, f)
    decreases |m|
  {
    var b :| b in m && Sum(m, f) == Get(m[b], f) + Sum(m - {b}, f);
    if a != b {
      SumRemove(m - {b}, f, a);
      SumRemove(m - {a}, f, b);
      assert m - {b} - {a} == m - {a} - {b};
    }
  }

  lemma SumSet(m: map<Account, Indexer.Position>, f: Field, a: Account, p: Indexer.Position)
    ensures Sum(m[a := p], f) == Sum(m, f) - (if a in m then Get(m[a], f) else 0) + Get(p, f)
  {
    SumRemove(m[a := p], f, a);
    assert m[a := p] - {a} == m - {a};
    if a in m {
      SumRemove(m, f, a);
    } else {
      assert m - {a} == m;
    }
  }

  lemma {:induction false} SumAtLeast(m: map<Account, Indexer.Position>, f: Field, a: Account)
    requires forall b :: b in m ==> Get(m[b], f) >= 0
    ensures Sum(m, f) >= (if a in m then Get(m[a], f) else 0)
    decreases |m|
  {
    if m != map[] {
      var b := if a in m then a else var c :| c in m; c;
      SumRemove(m, f, b);
      SumAtLeast(m - {b}, f, b);
    }
  }

  ghost function Holders(m: map<Account, Indexer.Position>): set<Account> {
    set a | a in m && m[a].shares > 0
  }

  lemma HoldersSet(m: map<Account, Indexer.Position>, a: Account, p: Indexer.Position)
    ensures |Holders(m[a := p])| ==
      |Holders(m)| - (if a in m && m[a].shares > 0 then 1 else 0) + (if p.shares > 0 then 1 else 0)
  {
    var rest := Holders(m) - {a};
    assert Holders(m) == if a in m && m[a].shares > 0 then rest + {a} else rest;
    assert Holders(m[a := p]) == if p.shares > 0 then rest + {a} else rest;
  }

  // ---------- Extending a log by one event ----------

  ghost predicate MentionsPeriod(e: Event, period: Period) {
    (e.PerfFeeCrystallized? || e.Settled?) && e.period == period
  }

  lemma Extended(t: Trace, order: OrderId, period: Period)
    requires t != []
    ensures Requested(t, order) <==> Requested(Init(t), order) || (Last(t).WithdrawRequested? && Last(t).order == order)
    ensures Executed(t, order) <==> Executed(Init(t), order) || (Last(t).WithdrawExecuted? && Last(t).order == order)
    ensures Sliced(t, order) <==> Sliced(Init(t), order) || (Last(t).InKindSlice? && Last(t).order == order)
    ensures Mentions(t, period) <==> Mentions(Init(t), period) || MentionsPeriod(Last(t), period)
  {
    var u := Init(t);
    assert forall i :: 0 <= i < |u| ==> u[i] == t[i];
    if Requested(u, order) {
      var i :| 0 <= i < |u| && u[i].WithdrawRequested? && u[i].order == order;
      assert t[i].WithdrawRequested?;
    }
    if Executed(u, order) {
      var i :| 0 <= i < |u| && u[i].WithdrawExecuted? && u[i].order == order;
      assert t[i].WithdrawExecuted?;
    }
    if Sliced(u, order) {
      var i :| 0 <= i < |u| && u[i].InKindSlice? && u[i].order == order;
      assert t[i].InKindSlice?;
    }
    if Mentions(u, period) {
      var i :| 0 <= i < |u| && (u[i].PerfFeeCrystallized? || u[i].Settled?) && u[i].period == period;
      assert t[i].PerfFeeCrystallized? || t[i].Settled?;
    }
  }

  lemma {:induction false} UnslicedIsZero(t: Trace, order: OrderId)
    requires !Sliced(t, order)
    ensures SliceTotal(t, order) == 0
  {
    if t != [] {
      Extended(t, order, 0);
      UnslicedIsZero(Init(t), order);
    }
  }

  // ---------- The relational indexer against the replay ----------

  /** What the replay says about one account. */
  ghost function Replayed(splitter: Account, t: Trace, a: Account): Indexer.Position {
    Indexer.Position(Balance(splitter, t, a), Deposited6(t, a), Withdrawn6(t, a), Claimed6(t, a))
  }

  ghost predicate EverDeposited(t: Trace, a: Account) {
    exists i :: 0 <= i < |t| && t[i].DepositExecuted? && t[i].lp == a
  }

  ghost predicate PositionsOk(splitter: Account, t: Trace, v: Indexer.View) {
    && splitter !in v.positions
    && (forall a :: a in v.positions ==> v.positions[a] == Replayed(splitter, t, a))
    && (forall a :: a !in v.positions && a != splitter ==> Replayed(splitter, t, a) == Indexer.Position(0, 0, 0, 0))
    && (forall a :: Balance(splitter, t, a) >= 0)
    && (forall a :: EverDeposited(t, a) ==> a in v.positions)
  }

  ghost predicate FundOk(splitter: Account, t: Trace, v: Indexer.View) {
    && v.fund.Some?
    && var f := v.fund.value;
    && f.feeSplitter == splitter
    && f.totalShares == Sum(v.positions, Shares) + Balance(splitter, t, splitter)
    && f.lpCount == |Holders(v.positions)|
    && f.lifetimeDeposited6 == Sum(v.positions, Field.Deposited)
    && f.lifetimeWithdrawn6 == Sum(v.positions, Withdrawn)
  }

  ghost predicate OrdersOk(t: Trace, v: Indexer.View) {
    && (forall o :: o in v.withdrawals ==> Indexer.Or0(v.withdrawals[o].inKindValueWad) == SliceTotal(t, o))
    && (forall o :: Requested(t, o) ==> o in v.withdrawals)
    && (forall o :: o !in v.withdrawals ==> SliceTotal(t, o) == 0)
  }

  ghost predicate PeriodsOk(t: Trace, v: Indexer.View) {
    && (forall p :: p in v.settlements <==> Mentions(t, p))
    && (FeePending(t) ==> Last(t).period in v.settlements
                          && v.settlements[Last(t).period].perfFeeShares == Some(Last(t).sharesMinted))
  }

  ghost predicate IndexOk(splitter: Account, t: Trace, v: Indexer.View) {
    PositionsOk(splitter, t, v) && FundOk(splitter, t, v) && OrdersOk(t, v) && PeriodsOk(t, v)
  }

  lemma DepositedExtended(t: Trace, a: Account)
    requires t != []
    ensures EverDeposited(t, a) <==> EverDeposited(Init(t), a) || (Last(t).DepositExecuted? && Last(t).lp == a)
  {
    var u := Init(t);
    if EverDeposited(u, a) {
      var i :| 0 <= i < |u| && u[i].DepositExecuted? && u[i].lp == a;
      assert t[i].DepositExecuted?;
    }
  }

  /** `t` extends a valid log by one more event. */
  ghost predicate Grows(splitter: Account, t: Trace, v: Indexer.View) {
    t != [] && Allowed(splitter, Init(t), Last(t)) && IndexOk(splitter, Init(t), v)
  }

  lemma DepositKeeps(splitter: Account, t: Trace, v: Indexer.View)
    requires Grows(splitter, t, v) && Last(t).DepositExecuted?
    ensures PositionsOk(splitter, t, Indexer.Handle(v, Last(t))) && FundOk(splitter, t, Indexer.Handle(v, Last(t)))
  {
    var lp := Last(t).lp;
    var p := Indexer.Handle(v, Last(t)).positions[lp];
    forall f { SumSet(v.positions, f, lp, p); }
    HoldersSet(v.positions, lp, p);
    forall a ensures EverDeposited(t, a) <==> EverDeposited(Init(t), a) || a == lp {
      DepositedExtended(t, a);
    }
  }

  lemma WithdrawKeeps(splitter: Account, t: Trace, v: Indexer.View)
    requires Grows(splitter, t, v) && Last(t).WithdrawExecuted?
    ensures PositionsOk(splitter, t, Indexer.Handle(v, Last(t))) && FundOk(splitter, t, Indexer.Handle(v, Last(t)))
  {
    var e := Last(t);
    assert Indexer.ExitOf(v, e.order, e.paid6, e.inKind) == Exit6(Init(t), e);
    forall a ensures EverDeposited(t, a) <==> EverDeposited(Init(t), a) {
      DepositedExtended(t, a);
    }
    if e.lp != splitter {
      var p := Indexer.Handle(v, e).positions[e.lp];
      forall f { SumSet(v.positions, f, e.lp, p); }
      HoldersSet(v.positions, e.lp, p);
    }
  }

  lemma ClaimKeeps(splitter: Account, t: Trace, v: Indexer.View)
    requires Grows(splitter, t, v) && Last(t).ClaimMaterialized?
    ensures PositionsOk(splitter, t, Indexer.Handle(v, Last(t))) && FundOk(splitter, t, Indexer.Handle(v, Last(t)))
  {
    var e := Last(t);
    forall a ensures EverDeposited(t, a) <==> EverDeposited(Init(t), a) {
      DepositedExtended(t, a);
    }
    assert EverDeposited(Init(t), e.lp);
    var p := Indexer.Handle(v, e).positions[e.lp];
    forall f { SumSet(v.positions, f, e.lp, p); }
    HoldersSet(v.positions, e.lp, p);
  }

  lemma OtherKeeps(splitter: Account, t: Trace, v: Indexer.View)
    requires Grows(splitter, t, v)
    requires !Last(t).DepositExecuted? && !Last(t).WithdrawExecuted? && !Last(t).ClaimMaterialized?
    ensures PositionsOk(splitter, t, Indexer.Handle(v, Last(t))) && FundOk(splitter, t, Indexer.Handle(v, Last(t)))
  {
    forall a ensures EverDeposited(t, a) <==> EverDeposited(Init(t), a) {
      DepositedExtended(t, a);
    }
    assert Indexer.Handle(v, Last(t)).positions == v.positions;
  }

  lemma OrdersKeep(splitter: Account, t: Trace, v: Indexer.View)
    requires Grows(splitter, t, v)
    ensures OrdersOk(t, Indexer.Handle(v, Last(t)))
  {
    var v' := Indexer.Handle(v, Last(t));
    forall o
      ensures Requested(t, o) ==> o in v'.withdrawals
      ensures o in v'.withdrawals ==> Indexer.Or0(v'.withdrawals[o].inKindValueWad) == SliceTotal(t, o)
      ensures o !in v'.withdrawals ==> SliceTotal(t, o) == 0
    {
      Extended(t, o, 0);
    }
  }

  lemma PeriodsKeep(splitter: Account, t: Trace, v: Indexer.View)
    requires Grows(splitter, t, v)
    ensures PeriodsOk(t, Indexer.Handle(v, Last(t)))
  {
    forall p ensures p in Indexer.Handle(v, Last(t)).settlements <==> Mentions(t, p) {
      Extended(t, 0, p);
    }
  }

  lemma {:induction false} IndexerIsRight(splitter: Account, t: Trace)
    requires Valid(splitter, t)
    ensures IndexOk(splitter, t, Indexer.Index(splitter, t))
  {
    if t != [] {
      var v := Indexer.Index(splitter, Init(t));
      IndexerIsRight(splitter, Init(t));
      OrdersKeep(splitter, t, v);
      PeriodsKeep(splitter, t, v);
      if Last(t).DepositExecuted? {
        DepositKeeps(splitter, t, v);
      } else if Last(t).WithdrawExecuted? {
        WithdrawKeeps(splitter, t, v);
      } else if Last(t).ClaimMaterialized? {
        ClaimKeeps(splitter, t, v);
      } else {
        OtherKeeps(splitter, t, v);
      }
    }
  }

  /** The running aggregates are what the positions and the splitter add up to, and every LP's
      position is the mint/burn replay of the log. */
  lemma AggregatesMatchReplay(splitter: Account, t: Trace)
    requires Valid(splitter, t)
    ensures var v := Indexer.Index(splitter, t);
      && v.fund.Some?
      && v.fund.value.totalShares == Sum(v.positions, Shares) + Balance(splitter, t, splitter)
      && v.fund.value.lpCount == |Holders(v.positions)|
      && v.fund.value.lifetimeDeposited6 == Sum(v.positions, Field.Deposited)
      && v.fund.value.lifetimeWithdrawn6 == Sum(v.positions, Withdrawn)
      && (forall a :: a in v.positions ==> v.positions[a] == Replayed(splitter, t, a))
      && (forall a :: a != splitter && Balance(splitter, t, a) != 0 ==> a in v.positions)
      && splitter !in v.positions
  {
    IndexerIsRight(splitter, t);
  }

  /** The holder count is right after a deposit exactly when the deposit mints something or the LP
      already held shares. */
  lemma HolderCountNeedsAMint(v: Indexer.View, lp: Account, amount6: nat, minted: nat)
    requires v.fund.Some? && v.fund.value.lpCount == |Holders(v.positions)|
    requires forall a :: a in v.positions ==> v.positions[a].shares >= 0
    ensures var w := Indexer.DepositView(v, lp, amount6, minted);
      w.fund.value.lpCount == |Holders(w.positions)| <==> minted > 0 || (lp in v.positions && v.positions[lp].shares > 0)
  {
    HoldersSet(v.positions, lp, Indexer.DepositView(v, lp, amount6, minted).positions[lp]);
  }

  // ---------- The two indexers against each other ----------

  ghost predicate VaultAgrees(splitter: Account, t: Trace, v: Indexer.View, s: Subgraph.Entities) {
    && v.fund.Some? && s.vault.Some?
    && s.vault.value.totalShares == v.fund.value.totalShares
    && s.vault.value.lifetimeDeposited6 == v.fund.value.lifetimeDeposited6
    && s.vault.value.lifetimeWithdrawn6 == v.fund.value.lifetimeWithdrawn6 + Withdrawn6(t, splitter)
    && s.vault.value.pendingPerfFeeShares == (if FeePending(t) then Last(t).sharesMinted else 0)
  }

  ghost predicate ExitsAgree(t: Trace, s: Subgraph.Entities) {
    forall o :: !Executed(t, o) ==> Subgraph.Parked(s.exits, o) == SliceTotal(t, o)
  }

  ghost predicate Agree(splitter: Account, t: Trace, v: Indexer.View, s: Subgraph.Entities) {
    VaultAgrees(splitter, t, v, s) && ExitsAgree(t, s)
  }

  /** The supply covers every account, so a burn the Fund allows never saturates. */
  lemma SupplyCovers(splitter: Account, t: Trace, v: Indexer.View, a: Account)
    requires IndexOk(splitter, t, v)
    ensures v.fund.value.totalShares >= Balance(splitter, t, a)
  {
    SumAtLeast(v.positions, Shares, a);
  }

  lemma WithdrawAgrees(splitter: Account, t: Trace, v: Indexer.View, s: Subgraph.Entities)
    requires Grows(splitter, t, v) && Agree(splitter, Init(t), v, s) && Last(t).WithdrawExecuted?
    ensures VaultAgrees(splitter, t, Indexer.Handle(v, Last(t)), Subgraph.Handle(s, Last(t)))
  {
    var e := Last(t);
    SupplyCovers(splitter, Init(t), v, e.lp);
    if !e.inKind {
      UnslicedIsZero(Init(t), e.order);
    }
    assert Indexer.ExitOf(v, e.order, e.paid6, e.inKind) == Exit6(Init(t), e);
  }

  lemma OthersAgree(splitter: Account, t: Trace, v: Indexer.View, s: Subgraph.Entities)
    requires Grows(splitter, t, v) && Agree(splitter, Init(t), v, s) && !Last(t).WithdrawExecuted?
    ensures VaultAgrees(splitter, t, Indexer.Handle(v, Last(t)), Subgraph.Handle(s, Last(t)))
  {
    match Last(t)
    case DepositExecuted(_, _, _, _) =>
    case PerfFeeCrystallized(_, _, _) =>
    case Settled(_, _) =>
    case _ =>
  }

  lemma ExitsKeep(splitter: Account, t: Trace, s: Subgraph.Entities)
    requires t != [] && Allowed(splitter, Init(t), Last(t)) && ExitsAgree(Init(t), s) && s.vault.Some?
    ensures ExitsAgree(t, Subgraph.Handle(s, Last(t)))
  {
    forall o | !Executed(t, o) ensures Subgraph.Parked(Subgraph.Handle(s, Last(t)).exits, o) == SliceTotal(t, o) {
      Extended(t, o, 0);
    }
  }

  /** On every valid log the two indexers keep the same supply and deposits, and differ in lifetime
      withdrawals by exactly what the fee splitter took out. */
  lemma {:induction false} IndexersAgree(splitter: Account, t: Trace)
    requires Valid(splitter, t)
    ensures Agree(splitter, t, Indexer.Index(splitter, t), Subgraph.Fold(t))
  {
    if t != [] {
      IndexersAgree(splitter, Init(t));
      IndexerIsRight(splitter, Init(t));
      ExitsKeep(splitter, t, Subgraph.Fold(Init(t)));
      if Last(t).WithdrawExecuted? {
        WithdrawAgrees(splitter, t, Indexer.Index(splitter, Init(t)), Subgraph.Fold(Init(t)));
      } else {
        OthersAgree(splitter, t, Indexer.Index(splitter, Init(t)), Subgraph.Fold(Init(t)));
      }
    }
  }

  lemma PendingFeeIsCovered(splitter: Account, t: Trace)
    requires Valid(splitter, t)
    ensures var s := Subgraph.Fold(t); s.vault.Some? && 0 <= s.vault.value.pendingPerfFeeShares <= s.vault.value.totalShares
  {
    IndexersAgree(splitter, t);
    IndexerIsRight(splitter, t);
    SupplyCovers(splitter, t, Indexer.Index(splitter, t), splitter);
    if FeePending(t) {
      var u := Init(t);
      IndexersAgree(splitter, u);
      IndexerIsRight(splitter, u);
      SupplyCovers(splitter, u, Indexer.Index(splitter, u), splitter);
      assert Subgraph.Fold(t) == Subgraph.PerfFeeEntities(Subgraph.Fold(u), Last(t).sharesMinted);
    }
  }

  /** On valid logs the flooring subtraction of the subgraph is plain subtraction for the supply, both
      when shares burn and when the fee is taken off at settlement. */
  lemma SupplyNeverSaturates(splitter: Account, t: Trace)
    requires t != [] && Valid(splitter, t)
    ensures var s := Subgraph.Fold(Init(t));
      && s.vault.Some? && Subgraph.Fold(t).vault.Some?
      && (Last(t).WithdrawExecuted? ==>
            Subgraph.Fold(t).vault.value.totalShares == s.vault.value.totalShares - Last(t).shares >= 0)
      && (Last(t).Settled? ==>
            Subgraph.SubtractFloor(s.vault.value.totalShares, s.vault.value.pendingPerfFeeShares)
              == s.vault.value.totalShares - s.vault.value.pendingPerfFeeShares)
  {
    var u := Init(t);
    IndexersAgree(splitter, u);
    IndexerIsRight(splitter, u);
    PendingFeeIsCovered(splitter, u);
    if Last(t).WithdrawExecuted? {
      SupplyCovers(splitter, u, Indexer.Index(splitter, u), Last(t).lp);
    }
  }

  lemma FloorGap(pe: nat, supply: nat, fee: nat)
    requires fee <= supply
    ensures var nav := pe * (supply - fee) / WAD;
      var tvl := supply * Indexer.PostFee(pe, supply, fee) / WAD;
      0 <= nav - tvl <= supply / WAD + 1
  {
    var whole := pe * (supply - fee);
    if supply > 0 && fee > 0 {
      var post := whole / supply;
      assert supply * post <= whole < supply * post + supply;
    } else {
      assert supply * pe == whole;
    }
  }

  /** Right after a settlement, the subgraph's NAV and the indexer's value of all shares at the
      post-fee price differ only by rounding. */
  lemma SettlementsAgree(splitter: Account, t: Trace)
    requires t != [] && Valid(splitter, t) && Last(t).Settled?
    ensures var v, s := Indexer.Index(splitter, t), Subgraph.Fold(t);
      && v.fund.Some? && s.vault.Some? && v.fund.value.lastPePostFeeWad.Some?
      && var tvl := v.fund.value.totalShares * v.fund.value.lastPePostFeeWad.value / WAD;
      && v.fund.value.totalShares >= 0
      && 0 <= s.vault.value.navWad - tvl <= v.fund.value.totalShares / WAD + 1
  {
    var u := Init(t);
    var v, s := Indexer.Index(splitter, u), Subgraph.Fold(u);
    IndexersAgree(splitter, u);
    IndexerIsRight(splitter, u);
    PendingFeeIsCovered(splitter, u);
    var supply, fee := v.fund.value.totalShares, s.vault.value.pendingPerfFeeShares;
    if FeePending(u) {
      assert v.settlements[Last(t).period].perfFeeShares == Some(fee);
    } else {
      assert Last(t).period !in v.settlements;
    }
    FloorGap(Last(t).peWad, supply, fee);
  }
}
