/** The relational indexer: its rows as values, one function per event handler, and the handlers
    themselves over a database whose `find` returns the cached row and whose `update` mutates that
    same row in place. */
module Indexer {
  import opened Wrappers
  import opened FundEvents

  datatype Fund = Fund(
    feeSplitter: Account,
    totalShares: int,
    lpCount: int,
    lifetimeDeposited6: int,
    lifetimeWithdrawn6: int,
    currentPeriod: nat,
    lastPeWad: Option<int>,
    lastPePostFeeWad: Option<int>)

  datatype Position = Position(shares: int, deposited6: int, withdrawn6: int, claimed6: int)

  datatype Status = Pending | Done | Cancelled

  datatype Withdrawal = Withdrawal(lp: Account, shares: int, inKind: bool, status: Status, paid6: Option<int>,
                                   inKindValueWad: Option<int>)

  datatype Settlement = Settlement(peWad: int, pePostFeeWad: Option<int>, perfFeeShares: Option<int>)

  datatype View = View(
    fund: Option<Fund>,
    positions: map<Account, Position>,
    withdrawals: map<OrderId, Withdrawal>,
    settlements: map<Period, Settlement>)

  function Or0(x: Option<int>): int {
    if x.Some? then x.value else 0
  }

  function Registered(splitter: Account): View {
    View(Some(Fund(splitter, 0, 0, 0, 0, 1, None, None)), map[], map[], map[])
  }

  // ---------- One function per handler ----------

  function AddView(v: View, shares: int, deposited6: int, withdrawn6: int, lps: int): View {
    if v.fund.None? then v
    else
      var f := v.fund.value;
      v.(fund := Some(f.(totalShares := f.totalShares + shares,
                         lifetimeDeposited6 := f.lifetimeDeposited6 + deposited6,
                         lifetimeWithdrawn6 := f.lifetimeWithdrawn6 + withdrawn6,
                         lpCount := f.lpCount + lps)))
  }

  function PriceView(v: View, period: Period, peWad: int, post: int): View {
    if v.fund.None? then v
    else v.(fund := Some(v.fund.value.(currentPeriod := period + 1, lastPeWad := Some(peWad), lastPePostFeeWad := Some(post))))
  }

  function CreditView(v: View, lp: Account, amount6: int, sharesMinted: int): View {
    var pos := if lp in v.positions then v.positions[lp] else Position(0, 0, 0, 0);
    v.(positions := v.positions[lp := pos.(shares := pos.shares + sharesMinted, deposited6 := pos.deposited6 + amount6)])
  }

  function DepositView(v: View, lp: Account, amount6: int, sharesMinted: int): View {
    var isNewHolder := lp !in v.positions || v.positions[lp].shares == 0;
    AddView(CreditView(v, lp, amount6, sharesMinted), sharesMinted, amount6, 0, if isNewHolder then 1 else 0)
  }

  function RequestView(v: View, order: OrderId, lp: Account, shares: int, inKind: bool): View {
    if order in v.withdrawals then v
    else v.(withdrawals := v.withdrawals[order := Withdrawal(lp, shares, inKind, Pending, None, None)])
  }

  function SliceView(v: View, order: OrderId, valueWad: int): View {
    if order !in v.withdrawals then v
    else
      var row := v.withdrawals[order];
      v.(withdrawals := v.withdrawals[order := row.(inKindValueWad := Some(Or0(row.inKindValueWad) + valueWad))])
  }

  /** The total value a withdrawal delivers, from the row as it was before the upsert. */
  function ExitOf(v: View, order: OrderId, paid6: int, inKind: bool): int {
    paid6 + if inKind && order in v.withdrawals then Or0(v.withdrawals[order].inKindValueWad) / USDG_TO_WAD else 0
  }

  function CloseOrder(v: View, order: OrderId, lp: Account, shares: int, paid6: int, inKind: bool): View {
    v.(withdrawals := v.withdrawals[order :=
      if order in v.withdrawals then v.withdrawals[order].(status := Done, paid6 := Some(paid6), inKind := inKind)
      else Withdrawal(lp, shares, inKind, Done, Some(paid6), None)])
  }

  function BurnView(v: View, lp: Account, shares: int, exit6: int): View {
    if v.fund.None? then v
    else if lp == v.fund.value.feeSplitter then AddView(v, -shares, 0, 0, 0)
    else
      var exited := lp in v.positions && v.positions[lp].shares > 0 && v.positions[lp].shares - shares == 0;
      var v' := v.(positions := if lp !in v.positions then v.positions else
                     v.positions[lp := v.positions[lp].(shares := v.positions[lp].shares - shares,
                                                        withdrawn6 := v.positions[lp].withdrawn6 + exit6)]);
      AddView(v', -shares, 0, exit6, if exited then -1 else 0)
  }

  function WithdrawView(v: View, order: OrderId, lp: Account, shares: int, paid6: int, inKind: bool): View {
    BurnView(CloseOrder(v, order, lp, shares, paid6, inKind), lp, shares, ExitOf(v, order, paid6, inKind))
  }

  function CancelView(v: View, order: OrderId, isDeposit: bool): View {
    if isDeposit || order !in v.withdrawals then v
    else v.(withdrawals := v.withdrawals[order := v.withdrawals[order].(status := Cancelled)])
  }

  function ConvertView(v: View, order: OrderId): View {
    if order !in v.withdrawals then v
    else v.(withdrawals := v.withdrawals[order := v.withdrawals[order].(inKind := true)])
  }

  function PerfFeeView(v: View, period: Period, sharesMinted: int): View {
    var row := if period in v.settlements then v.settlements[period] else Settlement(0, None, None);
    AddView(v.(settlements := v.settlements[period := row.(perfFeeShares := Some(sharesMinted))]), sharesMinted, 0, 0, 0)
  }

  /** The price after the fee dilution. */
  function PostFee(peWad: int, supply: int, feeShares: int): int {
    if supply > 0 && feeShares > 0 then peWad * (supply - feeShares) / supply else peWad
  }

  function SettledView(v: View, period: Period, peWad: int): View {
    var row := if period in v.settlements then v.settlements[period] else Settlement(0, None, None);
    var supply := if v.fund.Some? then v.fund.value.totalShares else 0;
    var post := PostFee(peWad, supply, Or0(row.perfFeeShares));
    PriceView(v.(settlements := v.settlements[period := row.(peWad := peWad, pePostFeeWad := Some(post))]), period, peWad, post)
  }

  function ClaimView(v: View, lp: Account, claim6: int): View {
    if lp !in v.positions then v
    else v.(positions := v.positions[lp := v.positions[lp].(claimed6 := v.positions[lp].claimed6 + claim6)])
  }

  function Handle(v: View, e: Event): View {
    match e
    case EntryFeeCharged(_, _) => v
    case DepositExecuted(_, lp, amount6, minted) => DepositView(v, lp, amount6, minted)
    case WithdrawRequested(order, lp, shares, inKind) => RequestView(v, order, lp, shares, inKind)
    case InKindSlice(order, valueWad) => SliceView(v, order, valueWad)
    case WithdrawExecuted(order, lp, shares, paid6, inKind) => WithdrawView(v, order, lp, shares, paid6, inKind)
    case OrderCancelled(order, isDeposit) => CancelView(v, order, isDeposit)
    case ConvertedToInKind(order) => ConvertView(v, order)
    case PerfFeeCrystallized(period, _, minted) => PerfFeeView(v, period, minted)
    case Settled(period, peWad) => SettledView(v, period, peWad)
    case ClaimMaterialized(lp, _, claim6) => ClaimView(v, lp, claim6)
  }

  /** The rows after a whole log. */
  function Index(splitter: Account, t: Trace): View {
    if t == [] then Registered(splitter) else Handle(Index(splitter, Init(t)), Last(t))
  }

  // ---------- The database ----------

  /** A cached row. Whoever found it sees later updates. */
  class Row<T> {
    var value: T
    constructor (value: T)
      ensures this.value == value
    {
      this.value := value;
    }
  }

  /** One table of the database: rows by primary key, each cached once. */
  class Table<K(==), V> {
    var rows: map<K, Row<V>>
    ghost var Repr: set<object>

    ghost predicate Valid()
      reads this, Repr
    {
      && this in Repr
      && (forall k :: k in rows ==> rows[k] in Repr)
      && (forall j, k :: j in rows && k in rows && rows[j] == rows[k] ==> j == k)
    }

    ghost function AsMap(): map<K, V>
      requires Valid()
      reads this, Repr
    {
      map k | k in rows :: rows[k].value
    }

    constructor ()
      ensures Valid() && fresh(Repr) && AsMap() == map[]
    {
      rows, Repr := map[], {this};
    }

    /** The cached row itself, or null. */
    method Find(key: K) returns (row: Row?<V>)
      requires Valid()
      ensures row == if key in rows then rows[key] else null
      ensures row != null <==> key in AsMap()
      ensures row != null ==> row in Repr && row.value == AsMap()[key]
    {
      if key in rows { row := rows[key]; } else { row := null; }
    }

    method Insert(key: K, value: V)
      requires Valid() && key !in AsMap()
      modifies this
      ensures Valid() && fresh(Repr - old(Repr)) && old(Repr) <= Repr
      ensures AsMap() == old(AsMap())[key := value]
    {
      var row := new Row(value);
      rows := rows[key := row];
      Repr := Repr + {row};
    }

    /** Mutates the cached row in place. */
    method Update(key: K, value: V)
      requires Valid() && key in AsMap()
      modifies Repr
      ensures Valid() && Repr == old(Repr) && rows == old(rows)
      ensures AsMap() == old(AsMap())[key := value] && rows[key].value == value
    {
      var row := rows[key];
      row.value := value;
    }

    /** Insert, or update on conflict. */
    method Put(key: K, value: V)
      requires Valid()
      modifies Repr
      ensures Valid() && fresh(Repr - old(Repr)) && old(Repr) <= Repr
      ensures AsMap() == old(AsMap())[key := value]
    {
      if key in rows { Update(key, value); } else { Insert(key, value); }
    }
  }

  class Database {
    const fund: Table<(), Fund>
    const positions: Table<Account, Position>
    const withdrawals: Table<OrderId, Withdrawal>
    const settlements: Table<Period, Settlement>

    ghost function Repr(): set<object>
      reads fund, positions, withdrawals, settlements
    {
      fund.Repr + positions.Repr + withdrawals.Repr + settlements.Repr
    }

    /** The tables share no object. */
    ghost predicate Valid()
      reads fund, positions, withdrawals, settlements, Repr()
    {
      && fund.Valid() && positions.Valid() && withdrawals.Valid() && settlements.Valid()
      && fund.Repr !! positions.Repr !! withdrawals.Repr !! settlements.Repr
    }

    ghost function AsView(): View
      requires Valid()
      reads fund, positions, withdrawals, settlements, Repr()
    {
      View(if () in fund.AsMap() then Some(fund.AsMap()[()]) else None,
           positions.AsMap(), withdrawals.AsMap(), settlements.AsMap())
    }

    /** Registration creates the fund row. */
    constructor (splitter: Account)
      ensures Valid() && fresh(Repr()) && AsView() == Registered(splitter)
    {
      fund := new Table<(), Fund>();
      positions := new Table<Account, Position>();
      withdrawals := new Table<OrderId, Withdrawal>();
      settlements := new Table<Period, Settlement>();
      new;
      fund.Insert((), Fund(splitter, 0, 0, 0, 0, 1, None, None));
    }

    method DepositExecuted(lp: Account, amount6: int, sharesMinted: int)
      requires Valid()
      modifies fund.Repr, positions.Repr
      ensures Valid() && fresh(Repr() - old(Repr()))
      ensures AsView() == DepositView(old(AsView()), lp, amount6, sharesMinted)
    {
      hide AddView, CreditView;
      var isNewHolder := Credit(lp, amount6, sharesMinted);
      AddToFund(sharesMinted, amount6, 0, if isNewHolder then 1 else 0);
    }

    /** Update or create the position; whether the LP held nothing is decided first, because the
        update mutates the row that was found. */
    method Credit(lp: Account, amount6: int, sharesMinted: int) returns (isNewHolder: bool)
      requires Valid()
      modifies positions.Repr
      ensures Valid() && fresh(Repr() - old(Repr()))
      ensures isNewHolder == (lp !in old(AsView()).positions || old(AsView()).positions[lp].shares == 0)
      ensures AsView() == CreditView(old(AsView()), lp, amount6, sharesMinted)
    {
      var existing := positions.Find(lp);
      isNewHolder := existing == null || existing.value.shares == 0;
      positions.Put(lp, if existing == null then Position(sharesMinted, amount6, 0, 0) else existing.value.(
        shares := existing.value.shares + sharesMinted, deposited6 := existing.value.deposited6 + amount6));
    }

    /** Move the fund's running aggregates, if the fund is registered. */
    method AddToFund(shares: int, deposited6: int, withdrawn6: int, lps: int)
      requires Valid()
      modifies fund.Repr
      ensures Valid() && Repr() == old(Repr())
      ensures AsView() == AddView(old(AsView()), shares, deposited6, withdrawn6, lps)
    {
      var f := fund.Find(());
      if f == null { return; }
      fund.Update((), f.value.(
        totalShares := f.value.totalShares + shares,
        lifetimeDeposited6 := f.value.lifetimeDeposited6 + deposited6,
        lifetimeWithdrawn6 := f.value.lifetimeWithdrawn6 + withdrawn6,
        lpCount := f.value.lpCount + lps));
    }

    method WithdrawRequested(order: OrderId, lp: Account, shares: int, inKind: bool)
      requires Valid()
      modifies withdrawals.Repr
      ensures Valid() && fresh(Repr() - old(Repr()))
      ensures AsView() == RequestView(old(AsView()), order, lp, shares, inKind)
    {
      var row := withdrawals.Find(order);
      if row == null {
        withdrawals.Insert(order, Withdrawal(lp, shares, inKind, Pending, None, None));
      }
    }

    method InKindSlice(order: OrderId, valueWad: int)
      requires Valid()
      modifies withdrawals.Repr
      ensures Valid() && fresh(Repr() - old(Repr()))
      ensures AsView() == SliceView(old(AsView()), order, valueWad)
    {
      var row := withdrawals.Find(order);
      if row != null {
        withdrawals.Update(order, row.value.(inKindValueWad := Some(Or0(row.value.inKindValueWad) + valueWad)));
      }
    }

    method WithdrawExecuted(order: OrderId, lp: Account, shares: int, paid6: int, inKind: bool)
      requires Valid()
      modifies fund.Repr, positions.Repr, withdrawals.Repr
      ensures Valid() && fresh(Repr() - old(Repr()))
      ensures AsView() == WithdrawView(old(AsView()), order, lp, shares, paid6, inKind)
    {
      var exit6 := UpsertExecuted(order, lp, shares, paid6, inKind);
      Burn(lp, shares, exit6);
    }

    /** The aggregates after a burn; the splitter's are not LP withdrawals. */
    method Burn(lp: Account, shares: int, exit6: int)
      requires Valid()
      modifies fund.Repr, positions.Repr
      ensures Valid() && Repr() == old(Repr())
      ensures AsView() == BurnView(old(AsView()), lp, shares, exit6)
    {
      var f := fund.Find(());
      if f == null { return; }
      if lp == f.value.feeSplitter {
        AddToFund(-shares, 0, 0, 0);
        return;
      }
      var exitedFully := Debit(lp, shares, exit6);
      AddToFund(-shares, 0, exit6, if exitedFully then -1 else 0);
    }

    /** Take shares from a position, if there is one; whether that empties it is decided first. */
    method Debit(lp: Account, shares: int, exit6: int) returns (exitedFully: bool)
      requires Valid()
      modifies positions.Repr
      ensures Valid() && Repr() == old(Repr())
      ensures var v := old(AsView());
        && exitedFully == (lp in v.positions && v.positions[lp].shares > 0 && v.positions[lp].shares - shares == 0)
        && AsView() == v.(positions := if lp !in v.positions then v.positions else
             v.positions[lp := v.positions[lp].(shares := v.positions[lp].shares - shares,
                                                withdrawn6 := v.positions[lp].withdrawn6 + exit6)])
    {
      var pos := positions.Find(lp);
      var newShares := if pos != null then pos.value.shares - shares else 0;
      exitedFully := pos != null && pos.value.shares > 0 && newShares == 0;
      if pos != null {
        positions.Update(lp, pos.value.(shares := newShares, withdrawn6 := pos.value.withdrawn6 + exit6));
      }
    }

    /** Close the order's row; the value delivered is read before the row changes. */
    method UpsertExecuted(order: OrderId, lp: Account, shares: int, paid6: int, inKind: bool) returns (exit6: int)
      requires Valid()
      modifies withdrawals.Repr
      ensures Valid() && fresh(Repr() - old(Repr()))
      ensures AsView() == CloseOrder(old(AsView()), order, lp, shares, paid6, inKind)
      ensures exit6 == ExitOf(old(AsView()), order, paid6, inKind)
    {
      var prev := withdrawals.Find(order);
      var inKindValue6 := if inKind && prev != null then Or0(prev.value.inKindValueWad) / USDG_TO_WAD else 0;
      exit6 := paid6 + inKindValue6;
      withdrawals.Put(order, if prev == null then Withdrawal(lp, shares, inKind, Done, Some(paid6), None)
                             else prev.value.(status := Done, paid6 := Some(paid6), inKind := inKind));
    }

    method OrderCancelled(order: OrderId, isDeposit: bool)
      requires Valid()
      modifies withdrawals.Repr
      ensures Valid() && fresh(Repr() - old(Repr()))
      ensures AsView() == CancelView(old(AsView()), order, isDeposit)
    {
      if isDeposit { return; }
      var row := withdrawals.Find(order);
      if row != null {
        withdrawals.Update(order, row.value.(status := Cancelled));
      }
    }

    method ConvertedToInKind(order: OrderId)
      requires Valid()
      modifies withdrawals.Repr
      ensures Valid() && fresh(Repr() - old(Repr()))
      ensures AsView() == ConvertView(old(AsView()), order)
    {
      var row := withdrawals.Find(order);
      if row != null {
        withdrawals.Update(order, row.value.(inKind := true));
      }
    }

    method PerfFeeCrystallized(period: Period, sharesMinted: int)
      requires Valid()
      modifies fund.Repr, settlements.Repr
      ensures Valid() && fresh(Repr() - old(Repr()))
      ensures AsView() == PerfFeeView(old(AsView()), period, sharesMinted)
    {
      var row := settlements.Find(period);
      settlements.Put(period, if row == null then Settlement(0, None, Some(sharesMinted))
                              else row.value.(perfFeeShares := Some(sharesMinted)));
      AddToFund(sharesMinted, 0, 0, 0);
    }

    method Settled(period: Period, peWad: int)
      requires Valid()
      modifies fund.Repr, settlements.Repr
      ensures Valid() && fresh(Repr() - old(Repr()))
      ensures AsView() == SettledView(old(AsView()), period, peWad)
    {
      var row, pePostFeeWad := PriceRow(period, peWad);
      settlements.Put(period, row);
      PriceFund(period, peWad, pePostFeeWad);
    }

    /** The settlement row to write: the fee shares were minted by an earlier event. */
    method PriceRow(period: Period, peWad: int) returns (row: Settlement, pePostFeeWad: int)
      requires Valid()
      ensures SettledView(AsView(), period, peWad) ==
        PriceView(AsView().(settlements := AsView().settlements[period := row]), period, peWad, pePostFeeWad)
    {
      var existing := settlements.Find(period);
      var sFee := if existing != null then Or0(existing.value.perfFeeShares) else 0;
      var f := fund.Find(());
      var supply := if f != null then f.value.totalShares else 0;
      pePostFeeWad := PostFee(peWad, supply, sFee);
      row := if existing == null then Settlement(peWad, Some(pePostFeeWad), None)
             else existing.value.(peWad := peWad, pePostFeeWad := Some(pePostFeeWad));
    }

    method PriceFund(period: Period, peWad: int, pePostFeeWad: int)
      requires Valid()
      modifies fund.Repr
      ensures Valid() && Repr() == old(Repr())
      ensures AsView() == PriceView(old(AsView()), period, peWad, pePostFeeWad)
    {
      var f := fund.Find(());
      if f == null { return; }
      fund.Update((), f.value.(
        currentPeriod := period + 1, lastPeWad := Some(peWad), lastPePostFeeWad := Some(pePostFeeWad)));
    }

    method ClaimMaterialized(lp: Account, claim6: int)
      requires Valid()
      modifies positions.Repr
      ensures Valid() && fresh(Repr() - old(Repr()))
      ensures AsView() == ClaimView(old(AsView()), lp, claim6)
    {
      var pos := positions.Find(lp);
      if pos != null {
        positions.Update(lp, pos.value.(claimed6 := pos.value.claimed6 + claim6));
      }
    }

    /** Dispatch one event to its handler. */
    method OnEvent(e: Event)
      requires Valid()
      modifies Repr()
      ensures Valid() && fresh(Repr() - old(Repr()))
      ensures AsView() == Handle(old(AsView()), e)
    {
      match e {
        case EntryFeeCharged(_, _) =>
        case DepositExecuted(_, lp, amount6, minted) => DepositExecuted(lp, amount6, minted);
        case WithdrawRequested(order, lp, shares, inKind) => WithdrawRequested(order, lp, shares, inKind);
        case InKindSlice(order, valueWad) => InKindSlice(order, valueWad);
        case WithdrawExecuted(order, lp, shares, paid6, inKind) => WithdrawExecuted(order, lp, shares, paid6, inKind);
        case OrderCancelled(order, isDeposit) => OrderCancelled(order, isDeposit);
        case ConvertedToInKind(order) => ConvertedToInKind(order);
        case PerfFeeCrystallized(period, _, minted) => PerfFeeCrystallized(period, minted);
        case Settled(period, peWad) => Settled(period, peWad);
        case ClaimMaterialized(lp, _, claim6) => ClaimMaterialized(lp, claim6);
      }
    }
  }

  /** Index a whole log from registration. */
  method IndexLog(splitter: Account, t: Trace) returns (db: Database)
    ensures fresh(db) && db.Valid() && db.AsView() == Index(splitter, t)
  {
    db := new Database(splitter);
    for i := 0 to |t|
      invariant fresh(db) && db.Valid() && fresh(db.Repr())
      invariant db.AsView() == Index(splitter, t[..i])
    {
      assert t[..i + 1][..i] == t[..i];
      db.OnEvent(t[i]);
    }
    assert t[..|t|] == t;
  }
}
