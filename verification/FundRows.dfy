/** Every order row and every settlement row of the relational indexer, field by field, from the log. */
module FundRows {
  import opened Wrappers
  import opened FundEvents
  import opened FundAgreement
  import Indexer

  // ---------- What the log says ----------

  /** Everything minted minus everything burned. */
  function Supply(t: Trace): int {
    if t == [] then 0
    else Supply(Init(t)) + Issued(Last(t))
  }

  function Issued(e: Event): int {
    match e
    case DepositExecuted(_, _, _, minted) => minted as int
    case WithdrawExecuted(_, _, shares, _, _) => -(shares as int)
    case PerfFeeCrystallized(_, _, minted) => minted as int
    case _ => 0
  }

  /** The request that opened the order. */
  function Opening(t: Trace, order: OrderId): Option<Event> {
    if t == [] then None
    else if Opening(Init(t), order).Some? then Opening(Init(t), order)
    else if Last(t).WithdrawRequested? && Last(t).order == order then Some(Last(t)) else None
  }

  /** The last thing that was said of an open order. */
  function StatusOf(t: Trace, order: OrderId): Indexer.Status {
    if t == [] then Indexer.Pending
    else match Last(t)
      case WithdrawExecuted(o, _, _, _, _) => if o == order then Indexer.Done else StatusOf(Init(t), order)
      case OrderCancelled(o, isDeposit) =>
        if o == order && !isDeposit && Opening(Init(t), order).Some? then Indexer.Cancelled else StatusOf(Init(t), order)
      case _ => StatusOf(Init(t), order)
  }

  /** What the execution paid. */
  function PaidOf(t: Trace, order: OrderId): Option<int> {
    if t == [] then None
    else if Last(t).WithdrawExecuted? && Last(t).order == order then Some(Last(t).paid6) else PaidOf(Init(t), order)
  }

  /** As requested, unless converted or executed otherwise since. */
  function InKindOf(t: Trace, order: OrderId): bool {
    if t == [] then false
    else match Last(t)
      case WithdrawRequested(o, _, _, inKind) =>
        if o == order && Opening(Init(t), order).None? then inKind else InKindOf(Init(t), order)
      case ConvertedToInKind(o) =>
        if o == order && Opening(Init(t), order).Some? then true else InKindOf(Init(t), order)
      case WithdrawExecuted(o, _, _, _, inKind) => if o == order then inKind else InKindOf(Init(t), order)
      case _ => InKindOf(Init(t), order)
  }

  /** The row of an open order. */
  function OrderRow(t: Trace, order: OrderId): Indexer.Withdrawal
    requires Opening(t, order).Some? && Opening(t, order).value.WithdrawRequested?
  {
    var e := Opening(t, order).value;
    Indexer.Withdrawal(e.lp, e.shares, InKindOf(t, order), StatusOf(t, order), PaidOf(t, order),
                       if SlicedSince(t, order) then Some(SliceTotal(t, order)) else None)
  }

  predicate SlicedSince(t: Trace, order: OrderId) {
    t != [] && (SlicedSince(Init(t), order) || (Last(t).InKindSlice? && Last(t).order == order))
  }

  /** The fee shares minted right before the next event. */
  function FeeBefore(t: Trace): Option<int> {
    if FeePending(t) then Some(Last(t).sharesMinted) else None
  }

  /** The row of a period that settled after `t` at price `peWad`. */
  function SettlementRow(t: Trace, peWad: nat): Indexer.Settlement {
    Indexer.Settlement(peWad, Some(Indexer.PostFee(peWad, Supply(t), Indexer.Or0(FeeBefore(t)))), FeeBefore(t))
  }

  // ---------- Orders ----------

  lemma {:induction false} OpenedMeansRequested(t: Trace, order: OrderId)
    ensures Opening(t, order).Some? <==> Requested(t, order)
    ensures Opening(t, order).Some? ==> Opening(t, order).value.WithdrawRequested?
    ensures SlicedSince(t, order) <==> Sliced(t, order)
  {
    if t != [] {
      OpenedMeansRequested(Init(t), order);
      Extended(t, order, 0);
    }
  }

  /** Nothing is said of an order before it is requested. */
  lemma {:induction false} UnopenedIsBlank(splitter: Account, t: Trace, order: OrderId)
    requires Valid(splitter, t) && !Requested(t, order)
    ensures StatusOf(t, order) == Indexer.Pending && PaidOf(t, order) == None && !SlicedSince(t, order)
  {
    if t != [] {
      Extended(t, order, 0);
      UnopenedIsBlank(splitter, Init(t), order);
      OpenedMeansRequested(Init(t), order);
    }
  }

  ghost predicate OrderIsRow(t: Trace, v: Indexer.View, order: OrderId) {
    && (order in v.withdrawals <==> Opening(t, order).Some?)
    && (Opening(t, order).Some? ==> Opening(t, order).value.WithdrawRequested?)
    && (order in v.withdrawals ==> v.withdrawals[order] == OrderRow(t, order))
  }

  /** What is known of an order when the log grows by one event. */
  ghost predicate Extends(splitter: Account, t: Trace, v: Indexer.View, order: OrderId) {
    && t != [] && Allowed(splitter, Init(t), Last(t)) && OrderIsRow(Init(t), v, order)
    && (Opening(Init(t), order).Some? <==> Requested(Init(t), order))
    && (Opening(Init(t), order).None? ==>
          StatusOf(Init(t), order) == Indexer.Pending && PaidOf(Init(t), order) == None && !SlicedSince(Init(t), order))
    && (SlicedSince(Init(t), order) || SliceTotal(Init(t), order) == 0)
  }

  lemma RequestedRow(splitter: Account, t: Trace, v: Indexer.View, order: OrderId)
    requires Extends(splitter, t, v, order) && Last(t).WithdrawRequested?
    ensures OrderIsRow(t, Indexer.Handle(v, Last(t)), order)
  {
  }

  lemma SlicedRow(splitter: Account, t: Trace, v: Indexer.View, order: OrderId)
    requires Extends(splitter, t, v, order) && Last(t).InKindSlice?
    ensures OrderIsRow(t, Indexer.Handle(v, Last(t)), order)
  {
  }

  lemma ExecutedRow(splitter: Account, t: Trace, v: Indexer.View, order: OrderId)
    requires Extends(splitter, t, v, order) && Last(t).WithdrawExecuted?
    ensures OrderIsRow(t, Indexer.Handle(v, Last(t)), order)
  {
  }

  lemma CancelledRow(splitter: Account, t: Trace, v: Indexer.View, order: OrderId)
    requires Extends(splitter, t, v, order) && Last(t).OrderCancelled?
    ensures OrderIsRow(t, Indexer.Handle(v, Last(t)), order)
  {
  }

  lemma ConvertedRow(splitter: Account, t: Trace, v: Indexer.View, order: OrderId)
    requires Extends(splitter, t, v, order) && Last(t).ConvertedToInKind?
    ensures OrderIsRow(t, Indexer.Handle(v, Last(t)), order)
  {
  }

  lemma UntouchedRow(splitter: Account, t: Trace, v: Indexer.View, order: OrderId)
    requires Extends(splitter, t, v, order)
    requires !Last(t).WithdrawRequested? && !Last(t).InKindSlice? && !Last(t).WithdrawExecuted?
    requires !Last(t).OrderCancelled? && !Last(t).ConvertedToInKind?
    ensures OrderIsRow(t, Indexer.Handle(v, Last(t)), order)
  {
    assert Indexer.Handle(v, Last(t)).withdrawals == v.withdrawals;
  }

  lemma OrderStep(splitter: Account, t: Trace, v: Indexer.View, order: OrderId)
    requires t != [] && Valid(splitter, t) && OrderIsRow(Init(t), v, order)
    ensures OrderIsRow(t, Indexer.Handle(v, Last(t)), order)
  {
    OpenedMeansRequested(Init(t), order);
    if !Requested(Init(t), order) {
      UnopenedIsBlank(splitter, Init(t), order);
    }
    if !Sliced(Init(t), order) {
      UnslicedIsZero(Init(t), order);
    }
    hide OrderIsRow, Requested, Sliced;
    match Last(t)
    case WithdrawRequested(_, _, _, _) => RequestedRow(splitter, t, v, order);
    case InKindSlice(_, _) => SlicedRow(splitter, t, v, order);
    case WithdrawExecuted(_, _, _, _, _) => ExecutedRow(splitter, t, v, order);
    case OrderCancelled(_, _) => CancelledRow(splitter, t, v, order);
    case ConvertedToInKind(_) => ConvertedRow(splitter, t, v, order);
    case _ => UntouchedRow(splitter, t, v, order);
  }

  lemma {:induction false} OrderRows(splitter: Account, t: Trace, order: OrderId)
    requires Valid(splitter, t)
    ensures OrderIsRow(t, Indexer.Index(splitter, t), order)
  {
    if t != [] {
      OrderRows(splitter, Init(t), order);
      OrderStep(splitter, t, Indexer.Index(splitter, Init(t)), order);
    }
  }

  /** An order has a row exactly when it was requested, and the row is what the log says in every field: who
      asked for how much, whether in kind, how it stands, what was paid and what was delivered. */
  lemma OrdersMatchReplay(splitter: Account, t: Trace, order: OrderId)
    requires Valid(splitter, t)
    ensures order in Indexer.Index(splitter, t).withdrawals <==> Requested(t, order)
    ensures Requested(t, order) ==>
      && Opening(t, order).Some? && Opening(t, order).value.WithdrawRequested?
      && Indexer.Index(splitter, t).withdrawals[order] == OrderRow(t, order)
  {
    OrderRows(splitter, t, order);
    OpenedMeansRequested(t, order);
  }

  // ---------- Orders by their last word ----------

  /** The event opens the order: the first request of it. */
  predicate Opens(t: Trace, order: OrderId, i: nat) {
    i < |t| && t[i].WithdrawRequested? && t[i].order == order && !Requested(t[..i], order)
  }

  predicate Executes(t: Trace, order: OrderId, i: nat) {
    i < |t| && t[i].WithdrawExecuted? && t[i].order == order
  }

  /** The event settles how the order stands. */
  predicate Decides(t: Trace, order: OrderId, i: nat) {
    || Executes(t, order, i)
    || (i < |t| && t[i].OrderCancelled? && !t[i].isDeposit && t[i].order == order && Requested(t[..i], order))
  }

  /** The event says whether the order is in kind. */
  predicate Chooses(t: Trace, order: OrderId, i: nat) {
    || Opens(t, order, i) || Executes(t, order, i)
    || (i < |t| && t[i].ConvertedToInKind? && t[i].order == order && Requested(t[..i], order))
  }

  ghost predicate LastDecision(t: Trace, order: OrderId, i: nat) {
    Decides(t, order, i) && forall j | i < j < |t| :: !Decides(t, order, j)
  }

  ghost predicate LastChoice(t: Trace, order: OrderId, i: nat) {
    Chooses(t, order, i) && forall j | i < j < |t| :: !Chooses(t, order, j)
  }

  /** Events before the last are what they were before it came. */
  lemma SameBefore(t: Trace, order: OrderId, i: nat)
    requires t != [] && i < |t| - 1
    ensures Opens(t, order, i) == Opens(Init(t), order, i) && Executes(t, order, i) == Executes(Init(t), order, i)
    ensures Decides(t, order, i) == Decides(Init(t), order, i) && Chooses(t, order, i) == Chooses(Init(t), order, i)
  {
    assert Init(t)[..i] == t[..i] && Init(t)[i] == t[i];
  }

  lemma {:induction false} OpeningIsTheFirst(t: Trace, order: OrderId, i: nat)
    requires Opens(t, order, i)
    ensures Opening(t, order) == Some(t[i])
  {
    OpenedMeansRequested(Init(t), order);
    if i < |t| - 1 {
      SameBefore(t, order, i);
      OpeningIsTheFirst(Init(t), order, i);
    } else {
      assert t[..i] == Init(t);
    }
  }

  lemma {:induction false} PaidIsTheExecution(splitter: Account, t: Trace, order: OrderId, i: nat)
    requires Valid(splitter, t) && Executes(t, order, i)
    ensures PaidOf(t, order) == Some(t[i].paid6)
  {
    if i < |t| - 1 {
      SameBefore(t, order, i);
      PaidIsTheExecution(splitter, Init(t), order, i);
      assert Executed(Init(t), order);
    }
  }

  lemma {:induction false} UnexecutedIsUnpaid(t: Trace, order: OrderId)
    requires !Executed(t, order)
    ensures PaidOf(t, order) == None
  {
    if t != [] {
      assert !(Last(t).WithdrawExecuted? && Last(t).order == order);
      assert forall i | 0 <= i < |Init(t)| :: Init(t)[i] == t[i];
      UnexecutedIsUnpaid(Init(t), order);
    }
  }

  lemma {:induction false} StatusIsTheLastDecision(t: Trace, order: OrderId, i: nat)
    requires LastDecision(t, order, i)
    ensures StatusOf(t, order) == if t[i].WithdrawExecuted? then Indexer.Done else Indexer.Cancelled
  {
    OpenedMeansRequested(Init(t), order);
    assert t[..|t| - 1] == Init(t);
    if i < |t| - 1 {
      assert !Decides(t, order, |t| - 1);
      SameBefore(t, order, i);
      forall j: nat | i < j < |Init(t)| ensures !Decides(Init(t), order, j) {
        SameBefore(t, order, j);
      }
      StatusIsTheLastDecision(Init(t), order, i);
    }
  }

  lemma {:induction false} UndecidedIsPending(t: Trace, order: OrderId)
    requires forall i: nat | i < |t| :: !Decides(t, order, i)
    ensures StatusOf(t, order) == Indexer.Pending
  {
    if t != [] {
      OpenedMeansRequested(Init(t), order);
      assert t[..|t| - 1] == Init(t) && !Decides(t, order, |t| - 1);
      forall i: nat | i < |Init(t)| ensures !Decides(Init(t), order, i) {
        SameBefore(t, order, i);
      }
      UndecidedIsPending(Init(t), order);
    }
  }

  lemma {:induction false} KindIsTheLastChoice(t: Trace, order: OrderId, i: nat)
    requires LastChoice(t, order, i)
    ensures InKindOf(t, order) == if t[i].ConvertedToInKind? then true else t[i].inKind
  {
    OpenedMeansRequested(Init(t), order);
    assert t[..|t| - 1] == Init(t);
    if i < |t| - 1 {
      assert !Chooses(t, order, |t| - 1);
      SameBefore(t, order, i);
      forall j: nat | i < j < |Init(t)| ensures !Chooses(Init(t), order, j) {
        SameBefore(t, order, j);
      }
      KindIsTheLastChoice(Init(t), order, i);
    }
  }

  /** The row of an order by single events of the log: who and how much, as its first request says; settled as
      the last execution or cancellation since says, and pending without one; in kind as the last request,
      conversion or execution says; paid what its one execution paid. */
  lemma OrdersSayTheLastWord(splitter: Account, t: Trace, order: OrderId, i: nat)
    requires Valid(splitter, t) && order in Indexer.Index(splitter, t).withdrawals
    ensures var row := Indexer.Index(splitter, t).withdrawals[order];
      && (Opens(t, order, i) ==> row.lp == t[i].lp && row.shares == t[i].shares)
      && (LastDecision(t, order, i) ==>
            row.status == if t[i].WithdrawExecuted? then Indexer.Done else Indexer.Cancelled)
      && ((forall j: nat | j < |t| :: !Decides(t, order, j)) ==> row.status == Indexer.Pending)
      && (LastChoice(t, order, i) ==> row.inKind == if t[i].ConvertedToInKind? then true else t[i].inKind)
      && (Executes(t, order, i) ==> row.paid6 == Some(t[i].paid6))
      && (!Executed(t, order) ==> row.paid6 == None)
  {
    hide LastDecision, LastChoice, Decides, Opens, Executes, Executed;
    OrdersMatchReplay(splitter, t, order);
    if Opens(t, order, i) { OpeningIsTheFirst(t, order, i); }
    if LastDecision(t, order, i) { StatusIsTheLastDecision(t, order, i); }
    if forall j: nat | j < |t| :: !Decides(t, order, j) { UndecidedIsPending(t, order); }
    if LastChoice(t, order, i) { KindIsTheLastChoice(t, order, i); }
    if Executes(t, order, i) { PaidIsTheExecution(splitter, t, order, i); }
    if !Executed(t, order) { UnexecutedIsUnpaid(t, order); }
  }

  // ---------- Settlements ----------

  lemma {:induction false} SupplyIsReplayed(splitter: Account, t: Trace)
    requires Valid(splitter, t)
    ensures var f := Indexer.Index(splitter, t).fund; f.Some? && f.value.totalShares == Supply(t)
  {
    if t != [] {
      SupplyIsReplayed(splitter, Init(t));
      SupplyStep(Indexer.Index(splitter, Init(t)), Last(t));
    }
  }

  lemma SupplyStep(v: Indexer.View, e: Event)
    requires v.fund.Some?
    ensures Indexer.Handle(v, e).fund.Some?
    ensures Indexer.Handle(v, e).fund.value.totalShares == v.fund.value.totalShares + Issued(e)
  {
    match e
    case DepositExecuted(_, _, _, _) =>
    case WithdrawExecuted(_, _, _, _, _) =>
    case PerfFeeCrystallized(_, _, _) =>
    case Settled(_, _) =>
    case _ =>
  }

  /** The row of every period the log settles, and the half-written row of a fee that waits. */
  ghost predicate SettledRows(t: Trace, v: Indexer.View) {
    && (forall i | 0 <= i < |t| && t[i].Settled? :: t[i].period in v.settlements
          && v.settlements[t[i].period] == SettlementRow(t[..i], t[i].peWad))
    && (FeePending(t) ==> Last(t).period in v.settlements
                          && v.settlements[Last(t).period] == Indexer.Settlement(0, None, FeeBefore(t)))
    && (forall p | p in v.settlements :: Mentions(t, p))
  }

  lemma EarlierPeriodsDiffer(splitter: Account, t: Trace, i: nat)
    requires t != [] && Valid(splitter, t) && i < |t| - 1 && t[i].Settled?
    requires Last(t).PerfFeeCrystallized? || Last(t).Settled?
    ensures t[i].period != Last(t).period
  {
    var u := Init(t);
    assert u[i] == t[i] && Mentions(u, t[i].period);
    if FeePending(u) {
      SettledBeforeTheFee(splitter, u, i);
    }
  }

  lemma SettledBeforeTheFee(splitter: Account, t: Trace, i: nat)
    requires t != [] && Valid(splitter, t) && FeePending(t) && i < |t| && t[i].Settled?
    ensures t[i].period != Last(t).period
  {
    var u := Init(t);
    assert i < |u| && u[i] == t[i] && Mentions(u, t[i].period);
  }

  lemma SettledStep(splitter: Account, t: Trace, v: Indexer.View)
    requires t != [] && Valid(splitter, t) && SettledRows(Init(t), v)
    requires v.fund.Some? && v.fund.value.totalShares == Supply(Init(t))
    ensures SettledRows(t, Indexer.Handle(v, Last(t)))
  {
    var u, v' := Init(t), Indexer.Handle(v, Last(t));
    forall i: nat | i < |t| && t[i].Settled?
      ensures t[i].period in v'.settlements && v'.settlements[t[i].period] == SettlementRow(t[..i], t[i].peWad)
    {
      if i < |u| {
        assert u[i] == t[i] && u[..i] == t[..i];
        if Last(t).PerfFeeCrystallized? || Last(t).Settled? {
          EarlierPeriodsDiffer(splitter, t, i);
        }
      } else {
        assert t[..i] == u;
        SettlingWrites(splitter, t, v);
      }
    }
    forall p | p in v'.settlements ensures Mentions(t, p) {
      Extended(t, 0, p);
    }
  }

  lemma SettlingWrites(splitter: Account, t: Trace, v: Indexer.View)
    requires t != [] && Valid(splitter, t) && SettledRows(Init(t), v) && Last(t).Settled?
    requires v.fund.Some? && v.fund.value.totalShares == Supply(Init(t))
    ensures Last(t).period in Indexer.Handle(v, Last(t)).settlements
    ensures Indexer.Handle(v, Last(t)).settlements[Last(t).period] == SettlementRow(Init(t), Last(t).peWad)
  {
    if !FeePending(Init(t)) {
      assert Last(t).period !in v.settlements;
    }
  }

  lemma {:induction false} SettlementRows(splitter: Account, t: Trace)
    requires Valid(splitter, t)
    ensures SettledRows(t, Indexer.Index(splitter, t))
  {
    if t != [] {
      SettlementRows(splitter, Init(t));
      SupplyIsReplayed(splitter, Init(t));
      SettledStep(splitter, t, Indexer.Index(splitter, Init(t)));
    }
  }

  /** The row of a settled period is what the log says in every field: the price, the fee shares minted right
      before, and the price after they dilute the supply of that moment. */
  lemma SettlementsMatchReplay(splitter: Account, t: Trace, i: nat)
    requires Valid(splitter, t) && i < |t| && t[i].Settled?
    ensures t[i].period in Indexer.Index(splitter, t).settlements
    ensures Indexer.Index(splitter, t).settlements[t[i].period] == SettlementRow(t[..i], t[i].peWad)
  {
    SettlementRows(splitter, t);
  }
}
