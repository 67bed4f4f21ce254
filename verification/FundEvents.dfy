/** The event log of one Fund, what a plain replay of it means, and the order in which the Fund
    contract emits events. */
module FundEvents {
  type Account = nat
  type OrderId = nat
  type Period = nat

  const USDG_TO_WAD: nat := 1_000_000_000_000
  const WAD: nat := 1_000_000_000_000_000_000

  datatype Event =
    | EntryFeeCharged(order: OrderId, fee6: nat)
    | DepositExecuted(order: OrderId, lp: Account, amount6: nat, sharesMinted: nat)
    | WithdrawRequested(order: OrderId, lp: Account, shares: nat, inKind: bool)
    | InKindSlice(order: OrderId, valueWad: nat)
    | WithdrawExecuted(order: OrderId, lp: Account, shares: nat, paid6: nat, inKind: bool)
    | OrderCancelled(order: OrderId, isDeposit: bool)
    | ConvertedToInKind(order: OrderId)
    | PerfFeeCrystallized(period: Period, feeWad: nat, sharesMinted: nat)
    | Settled(period: Period, peWad: nat)
    | ClaimMaterialized(lp: Account, period: Period, claim6: nat)

  type Trace = seq<Event>

  function Init(t: Trace): Trace
    requires t != []
  {
    t[..|t| - 1]
  }

  function Last(t: Trace): Event
    requires t != []
  {
    t[|t| - 1]
  }

  // ---------- The reference: sums over the log ----------

  /** Minted minus burned. Performance fees are minted to the splitter. */
  function Balance(splitter: Account, t: Trace, a: Account): int {
    if t == [] then 0
    else Balance(splitter, Init(t), a) + Change(splitter, Last(t), a)
  }

  function Change(splitter: Account, e: Event, a: Account): int {
    match e
    case DepositExecuted(_, lp, _, minted) => if lp == a then minted else 0
    case WithdrawExecuted(_, lp, shares, _, _) => if lp == a then -(shares as int) else 0
    case PerfFeeCrystallized(_, _, minted) => if splitter == a then minted else 0
    case _ => 0
  }

  function Deposited6(t: Trace, a: Account): nat {
    if t == [] then 0
    else Deposited6(Init(t), a) + match Last(t)
      case DepositExecuted(_, lp, amount6, _) => if lp == a then amount6 else 0
      case _ => 0
  }

  /** The value delivered in kind for one order. */
  function SliceTotal(t: Trace, order: OrderId): nat {
    if t == [] then 0
    else SliceTotal(Init(t), order) + match Last(t)
      case InKindSlice(o, valueWad) => if o == order then valueWad else 0
      case _ => 0
  }

  /** What left the Fund with a withdrawal that executes after `t`. */
  function Exit6(t: Trace, e: Event): nat
    requires e.WithdrawExecuted?
  {
    e.paid6 + if e.inKind then SliceTotal(t, e.order) / USDG_TO_WAD else 0
  }

  function Withdrawn6(t: Trace, a: Account): nat {
    if t == [] then 0
    else Withdrawn6(Init(t), a) + (if Last(t).WithdrawExecuted? && Last(t).lp == a then Exit6(Init(t), Last(t)) else 0)
  }

  function Claimed6(t: Trace, a: Account): nat {
    if t == [] then 0
    else Claimed6(Init(t), a) + match Last(t)
      case ClaimMaterialized(lp, _, claim6) => if lp == a then claim6 else 0
      case _ => 0
  }

  // ---------- The order of emission ----------

  predicate Requested(t: Trace, order: OrderId) {
    exists i :: 0 <= i < |t| && t[i].WithdrawRequested? && t[i].order == order
  }

  predicate Executed(t: Trace, order: OrderId) {
    exists i :: 0 <= i < |t| && t[i].WithdrawExecuted? && t[i].order == order
  }

  predicate Sliced(t: Trace, order: OrderId) {
    exists i :: 0 <= i < |t| && t[i].InKindSlice? && t[i].order == order
  }

  predicate Mentions(t: Trace, period: Period) {
    exists i :: 0 <= i < |t| && (t[i].PerfFeeCrystallized? || t[i].Settled?) && t[i].period == period
  }

  predicate FeePending(t: Trace) {
    t != [] && Last(t).PerfFeeCrystallized?
  }

  /** What the Fund may emit after `t`: deposits mint shares to LPs, never to the splitter; burns are of
      something and covered by the balance; slices belong to a requested order, precede its execution, and
      that execution is in kind; a period settles once, and its fee, if any, comes immediately before;
      claims are of accounts that deposited. */
  predicate Allowed(splitter: Account, t: Trace, e: Event) {
    && (FeePending(t) ==> e.Settled? && e.period == Last(t).period)
    && match e
       case DepositExecuted(_, lp, _, minted) => lp != splitter && minted > 0
       case InKindSlice(order, _) => Requested(t, order) && !Executed(t, order)
       case WithdrawExecuted(order, lp, shares, _, inKind) =>
         && Requested(t, order) && !Executed(t, order)
         && (!inKind ==> !Sliced(t, order))
         && 0 < shares <= Balance(splitter, t, lp)
       case PerfFeeCrystallized(period, _, _) => !Mentions(t, period)
       case Settled(period, _) => FeePending(t) || !Mentions(t, period)
       case ClaimMaterialized(lp, _, _) => lp != splitter && exists i :: 0 <= i < |t| && t[i].DepositExecuted? && t[i].lp == lp
       case _ => true
  }

  predicate Valid(splitter: Account, t: Trace) {
    t != [] ==> Valid(splitter, Init(t)) && Allowed(splitter, Init(t), Last(t))
  }
}
