/** The subgraph's view of the same log: one entity per vault plus the values it parks between two
    events of one transaction. */
module Subgraph {
  import opened Wrappers
  import opened FundEvents

  datatype Vault = Vault(
    totalShares: int,
    lifetimeDeposited6: int,
    lifetimeWithdrawn6: int,
    navWad: int,
    lastPeWad: int,
    pendingPerfFeeShares: int)

  /** The vault entity, and the pending entry fees and in-kind exits by order. */
  datatype Entities = Entities(vault: Option<Vault>, fees: map<OrderId, int>, exits: map<OrderId, int>)

  function SubtractFloor(value: int, amount: int): int {
    if value >= amount then value - amount else 0
  }

  function Created(): Entities {
    Entities(Some(Vault(0, 0, 0, 0, 0, 0)), map[], map[])
  }

  function Parked(m: map<OrderId, int>, order: OrderId): int {
    if order in m then m[order] else 0
  }

  // ---------- One function per handler ----------

  function DepositEntities(s: Entities, order: OrderId, amount6: int, sharesMinted: int): Entities {
    if s.vault.None? then s
    else
      var v := s.vault.value;
      var net6 := SubtractFloor(amount6, Parked(s.fees, order));
      s.(fees := s.fees - {order},
         vault := Some(v.(totalShares := v.totalShares + sharesMinted,
                          lifetimeDeposited6 := v.lifetimeDeposited6 + amount6,
                          navWad := v.navWad + net6 * USDG_TO_WAD)))
  }

  function SliceEntities(s: Entities, order: OrderId, valueWad: int): Entities {
    if s.vault.None? then s
    else
      var v := s.vault.value;
      s.(exits := s.exits[order := Parked(s.exits, order) + valueWad],
         vault := Some(v.(navWad := SubtractFloor(v.navWad, valueWad))))
  }

  function WithdrawEntities(s: Entities, order: OrderId, shares: int, paid6: int): Entities {
    if s.vault.None? then s
    else
      var v := s.vault.value;
      s.(exits := s.exits - {order},
         vault := Some(v.(totalShares := SubtractFloor(v.totalShares, shares),
                          navWad := SubtractFloor(v.navWad, paid6 * USDG_TO_WAD),
                          lifetimeWithdrawn6 := v.lifetimeWithdrawn6 + paid6 + Parked(s.exits, order) / USDG_TO_WAD)))
  }

  function PerfFeeEntities(s: Entities, sharesMinted: int): Entities {
    if s.vault.None? then s
    else
      var v := s.vault.value;
      s.(vault := Some(v.(totalShares := v.totalShares + sharesMinted,
                          pendingPerfFeeShares := v.pendingPerfFeeShares + sharesMinted)))
  }

  function SettledEntities(s: Entities, peWad: int): Entities {
    if s.vault.None? then s
    else
      var v := s.vault.value;
      s.(vault := Some(v.(navWad := peWad * SubtractFloor(v.totalShares, v.pendingPerfFeeShares) / WAD,
                          lastPeWad := peWad,
                          pendingPerfFeeShares := 0)))
  }

  function Handle(s: Entities, e: Event): Entities {
    match e
    case EntryFeeCharged(order, fee6) => s.(fees := s.fees[order := fee6])
    case DepositExecuted(order, _, amount6, minted) => DepositEntities(s, order, amount6, minted)
    case InKindSlice(order, valueWad) => SliceEntities(s, order, valueWad)
    case WithdrawExecuted(order, _, shares, paid6, _) => WithdrawEntities(s, order, shares, paid6)
    case PerfFeeCrystallized(_, _, minted) => PerfFeeEntities(s, minted)
    case Settled(_, peWad) => SettledEntities(s, peWad)
    case _ => s
  }

  function Fold(t: Trace): Entities {
    if t == [] then Created() else Handle(Fold(Init(t)), Last(t))
  }

  // ---------- The handlers ----------

  class Store {
    var vault: Option<Vault>
    var fees: map<OrderId, int>
    var exits: map<OrderId, int>

    ghost function AsEntities(): Entities
      reads this
    {
      Entities(vault, fees, exits)
    }

    constructor ()
      ensures AsEntities() == Created()
    {
      vault, fees, exits := Some(Vault(0, 0, 0, 0, 0, 0)), map[], map[];
    }

    method HandleEntryFeeCharged(order: OrderId, fee6: int)
      modifies this
      ensures AsEntities() == old(AsEntities()).(fees := old(fees)[order := fee6])
    {
      fees := fees[order := fee6];
    }

    method HandleDepositExecuted(order: OrderId, amount6: int, sharesMinted: int)
      modifies this
      ensures AsEntities() == DepositEntities(old(AsEntities()), order, amount6, sharesMinted)
    {
      if vault.None? { return; }
      var v := vault.value;
      var fee6 := 0;
      if order in fees { fee6 := fees[order]; }
      var net6 := SubtractFloor(amount6, fee6);
      fees := fees - {order};
      v := v.(totalShares := v.totalShares + sharesMinted);
      v := v.(lifetimeDeposited6 := v.lifetimeDeposited6 + amount6);
      v := v.(navWad := v.navWad + net6 * USDG_TO_WAD);
      vault := Some(v);
    }

    method HandleInKindSlice(order: OrderId, valueWad: int)
      modifies this
      ensures AsEntities() == SliceEntities(old(AsEntities()), order, valueWad)
    {
      if vault.None? { return; }
      vault := Some(vault.value.(navWad := SubtractFloor(vault.value.navWad, valueWad)));
      var pending := 0;
      if order in exits { pending := exits[order]; }
      pending := pending + valueWad;
      exits := exits[order := pending];
    }

    method HandleWithdrawExecuted(order: OrderId, shares: int, paid6: int)
      modifies this
      ensures AsEntities() == WithdrawEntities(old(AsEntities()), order, shares, paid6)
    {
      if vault.None? { return; }
      var v := vault.value;
      v := v.(totalShares := SubtractFloor(v.totalShares, shares));
      v := v.(navWad := SubtractFloor(v.navWad, paid6 * USDG_TO_WAD));
      var inKind6 := 0;
      if order in exits { inKind6 := exits[order] / USDG_TO_WAD; }
      exits := exits - {order};
      v := v.(lifetimeWithdrawn6 := v.lifetimeWithdrawn6 + paid6 + inKind6);
      vault := Some(v);
    }

    method HandlePerfFeeCrystallized(sharesMinted: int)
      modifies this
      ensures AsEntities() == PerfFeeEntities(old(AsEntities()), sharesMinted)
    {
      if vault.None? { return; }
      var v := vault.value;
      v := v.(totalShares := v.totalShares + sharesMinted);
      v := v.(pendingPerfFeeShares := v.pendingPerfFeeShares + sharesMinted);
      vault := Some(v);
    }

    method HandleSettled(peWad: int)
      modifies this
      ensures AsEntities() == SettledEntities(old(AsEntities()), peWad)
    {
      if vault.None? { return; }
      var v := vault.value;
      var preFeeSupply := SubtractFloor(v.totalShares, v.pendingPerfFeeShares);
      v := v.(navWad := peWad * preFeeSupply / WAD);
      v := v.(lastPeWad := peWad);
      v := v.(pendingPerfFeeShares := 0);
      vault := Some(v);
    }

    method OnEvent(e: Event)
      modifies this
      ensures AsEntities() == Handle(old(AsEntities()), e)
    {
      match e {
        case EntryFeeCharged(order, fee6) => HandleEntryFeeCharged(order, fee6);
        case DepositExecuted(order, _, amount6, minted) => HandleDepositExecuted(order, amount6, minted);
        case InKindSlice(order, valueWad) => HandleInKindSlice(order, valueWad);
        case WithdrawExecuted(order, _, shares, paid6, _) => HandleWithdrawExecuted(order, shares, paid6);
        case PerfFeeCrystallized(_, _, minted) => HandlePerfFeeCrystallized(minted);
        case Settled(_, peWad) => HandleSettled(peWad);
        case _ =>
      }
    }
  }

  /** Process a whole log from the creation of the vault. */
  method FoldLog(t: Trace) returns (s: Store)
    ensures fresh(s) && s.AsEntities() == Fold(t)
  {
    s := new Store();
    for i := 0 to |t|
      invariant fresh(s) && s.AsEntities() == Fold(t[..i])
    {
      assert t[..i + 1][..i] == t[..i];
      s.OnEvent(t[i]);
    }
    assert t[..|t|] == t;
  }
}
