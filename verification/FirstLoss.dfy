/** First-loss arithmetic of the settlement keeper: WAD fixed-point with floor division over an
    arbitrary list of LPs. */
module FirstLoss {

  const WAD: nat := 1_000_000_000_000_000_000
  const VIRT: nat := 1_000_000

  /** Net investment may be negative; shares and timestamps may not. */
  datatype LpState = LpState(niWad: int, shares: nat, vestTime: nat)

  datatype Mark = Mark(peWad: nat, markTime: nat, periodSeconds: nat)

  function Age(lp: LpState, mark: Mark): nat {
    if mark.markTime > lp.vestTime then mark.markTime - lp.vestTime else 0
  }

  function Coverage(age: nat, periodSeconds: nat): nat {
    if age >= periodSeconds then WAD else age * WAD / periodSeconds
  }

  function Value(shares: nat, peWad: nat): nat {
    shares * peWad / WAD
  }

  function Loss(lp: LpState, peWad: nat): nat {
    if lp.niWad <= Value(lp.shares, peWad) then 0 else lp.niWad - Value(lp.shares, peWad)
  }

  function LpVestedLoss(lp: LpState, mark: Mark): nat {
    if lp.niWad <= Value(lp.shares, mark.peWad) then 0
    else Loss(lp, mark.peWad) * Coverage(Age(lp, mark), mark.periodSeconds) / WAD
  }

  /** Sums over the first `n` LPs. */
  function GrossClaims(lps: seq<LpState>, mark: Mark, n: nat): nat
    requires n <= |lps|
  {
    if n == 0 then 0 else GrossClaims(lps, mark, n - 1) + LpVestedLoss(lps[n - 1], mark)
  }

  function TotalNi(lps: seq<LpState>, n: nat): int
    requires n <= |lps|
  {
    if n == 0 then 0 else TotalNi(lps, n - 1) + lps[n - 1].niWad
  }

  function TotalShares(lps: seq<LpState>, n: nat): nat
    requires n <= |lps|
  {
    if n == 0 then 0 else TotalShares(lps, n - 1) + lps[n - 1].shares
  }

  function TotalValue(lps: seq<LpState>, peWad: nat, n: nat): nat
    requires n <= |lps|
  {
    if n == 0 then 0 else TotalValue(lps, peWad, n - 1) + Value(lps[n - 1].shares, peWad)
  }

  method ComputeGrossClaims(lps: seq<LpState>, mark: Mark) returns (total: nat)
    ensures total == GrossClaims(lps, mark, |lps|)
  {
    total := 0;
    for i := 0 to |lps|
      invariant total == GrossClaims(lps, mark, i)
    {
      total := total + LpVestedLoss(lps[i], mark);
    }
  }

  function SharePriceWad(navWad: nat, totalSupply: nat): nat {
    (navWad + VIRT) * WAD / (totalSupply + VIRT)
  }

  function Netted(niAggregateWad: int, supplyLpWad: nat, peWad: nat, frozen: bool): nat {
    if niAggregateWad > Value(supplyLpWad, peWad) && !frozen then niAggregateWad - Value(supplyLpWad, peWad) else 0
  }

  function Funding(netted: nat, stakeAvailableWad: nat): nat {
    if netted < stakeAvailableWad then netted else stakeAvailableWad
  }

  function UncappedLambda(fundingWad: nat, grossClaimsWad: nat): nat {
    if grossClaimsWad == 0 then 0 else fundingWad * WAD / grossClaimsWad
  }

  function Lambda(fundingWad: nat, grossClaimsWad: nat): nat {
    if UncappedLambda(fundingWad, grossClaimsWad) > WAD then WAD else UncappedLambda(fundingWad, grossClaimsWad)
  }

  method PreviewSettlement(grossClaimsWad: nat, niAggregateWad: int, supplyLpWad: nat, peWad: nat,
                           stakeAvailableWad: nat, frozen: bool) returns (fundingWad: nat, lambdaWad: nat)
    ensures fundingWad == Funding(Netted(niAggregateWad, supplyLpWad, peWad, frozen), stakeAvailableWad)
    ensures lambdaWad == Lambda(fundingWad, grossClaimsWad)
  {
    var netted := 0;
    if niAggregateWad > 0 && !frozen {
      var lpValue := supplyLpWad * peWad / WAD;
      if niAggregateWad > lpValue { netted := niAggregateWad - lpValue; }
    }
    fundingWad := if netted < stakeAvailableWad then netted else stakeAvailableWad;
    if grossClaimsWad == 0 {
      lambdaWad := 0;
    } else {
      lambdaWad := fundingWad * WAD / grossClaimsWad;
      if lambdaWad > WAD { lambdaWad := WAD; }
    }
  }

  // ---------- Floor division ----------

  lemma MulStep(d: nat, p: nat, q: nat)
    ensures p >= q + 1 ==> d * p >= d * q + d
  {
    if p >= q + 1 {
      MulMonotone(q + 1, p, d);
    }
  }

  lemma FloorMonotone(a: nat, b: nat, d: nat)
    requires a <= b && d > 0
    ensures a / d <= b / d
  {
    FloorBounds(a, d);
    FloorBounds(b, d);
    MulStep(d, a / d, b / d);
  }

  lemma FloorBounds(a: nat, d: nat)
    requires d > 0
    ensures d * (a / d) <= a < d * (a / d) + d
  {
  }

  lemma FloorBelow(a: nat, d: nat, q: nat)
    requires d > 0 && a <= d * q
    ensures a / d <= q
  {
    FloorBounds(a, d);
    MulStep(d, a / d, q);
  }

  lemma MulMonotone(a: nat, b: nat, c: nat)
    requires a <= b
    ensures a * c <= b * c
  {
  }

  lemma Distribute(a: nat, b: nat, c: nat)
    ensures (a + b) * c == a * c + b * c
  {
  }

  lemma ValueMonotone(shares: nat, more: nat, peWad: nat, higher: nat)
    requires shares <= more && peWad <= higher
    ensures Value(shares, peWad) <= Value(more, higher)
  {
    MulMonotone(shares, more, peWad);
    MulMonotone(peWad, higher, more);
    FloorMonotone(shares * peWad, more * higher, WAD);
  }

  lemma CoverageBounded(age: nat, periodSeconds: nat)
    ensures Coverage(age, periodSeconds) <= WAD
  {
    if age < periodSeconds {
      MulMonotone(age, periodSeconds, WAD);
      FloorBelow(age * WAD, periodSeconds, WAD);
    }
  }

  lemma CoverageMonotone(age: nat, older: nat, periodSeconds: nat)
    requires age <= older
    ensures Coverage(age, periodSeconds) <= Coverage(older, periodSeconds)
  {
    CoverageBounded(age, periodSeconds);
    if older < periodSeconds {
      MulMonotone(age, older, WAD);
      FloorMonotone(age * WAD, older * WAD, periodSeconds);
    }
  }

  // ---------- The vested loss of one LP ----------

  /** The vested loss is the covered part of the loss: it grows with the mark time, shrinks as the
      price rises, never exceeds the loss, and is the whole loss once the period has passed. */
  lemma VestedLossShape(lp: LpState, mark: Mark, later: nat, higher: nat)
    requires mark.markTime <= later && mark.peWad <= higher
    ensures LpVestedLoss(lp, mark) <= LpVestedLoss(lp, mark.(markTime := later))
    ensures LpVestedLoss(lp, mark.(peWad := higher)) <= LpVestedLoss(lp, mark)
    ensures LpVestedLoss(lp, mark) <= Loss(lp, mark.peWad)
    ensures Age(lp, mark) >= mark.periodSeconds ==> LpVestedLoss(lp, mark) == Loss(lp, mark.peWad)
  {
    var loss, less := Loss(lp, mark.peWad), Loss(lp, higher);
    var now := Coverage(Age(lp, mark), mark.periodSeconds);
    var then_ := Coverage(Age(lp, mark.(markTime := later)), mark.periodSeconds);
    CoverageMonotone(Age(lp, mark), Age(lp, mark.(markTime := later)), mark.periodSeconds);
    CoverageBounded(Age(lp, mark), mark.periodSeconds);
    ValueMonotone(lp.shares, lp.shares, mark.peWad, higher);
    MulMonotone(now, then_, loss);
    FloorMonotone(loss * now, loss * then_, WAD);
    MulMonotone(less, loss, now);
    FloorMonotone(less * now, loss * now, WAD);
    MulMonotone(now, WAD, loss);
    FloorBelow(loss * now, WAD, loss);
  }

  // ---------- Netting never exceeds the gross claims ----------

  ghost predicate FullyVested(lps: seq<LpState>, mark: Mark) {
    forall i :: 0 <= i < |lps| ==> Age(lps[i], mark) >= mark.periodSeconds
  }

  /** Rounding each holding down loses at least as much as rounding their total down. */
  lemma {:induction false} FloorsAddUpBelow(lps: seq<LpState>, peWad: nat, n: nat)
    requires n <= |lps|
    ensures TotalValue(lps, peWad, n) <= Value(TotalShares(lps, n), peWad)
  {
    if n > 0 {
      FloorsAddUpBelow(lps, peWad, n - 1);
      var s, t := TotalShares(lps, n - 1), lps[n - 1].shares;
      Distribute(s, t, peWad);
      FloorBounds(s * peWad, WAD);
      FloorBounds(t * peWad, WAD);
      FloorBounds((s + t) * peWad, WAD);
    }
  }

  lemma {:induction false} GrossCoversNet(lps: seq<LpState>, mark: Mark, n: nat)
    requires n <= |lps| && FullyVested(lps, mark)
    ensures GrossClaims(lps, mark, n) >= TotalNi(lps, n) - TotalValue(lps, mark.peWad, n)
  {
    if n > 0 {
      GrossCoversNet(lps, mark, n - 1);
      VestedLossShape(lps[n - 1], mark, mark.markTime, mark.peWad);
    }
  }

  /** With every LP vested, the netted loss is at most the gross claims, so the sharing factor never
      needs its cap. */
  lemma NettedNeverExceedsGross(lps: seq<LpState>, mark: Mark, supplyLpWad: nat, stakeAvailableWad: nat, frozen: bool)
    requires FullyVested(lps, mark) && TotalShares(lps, |lps|) <= supplyLpWad
    ensures var gross := GrossClaims(lps, mark, |lps|);
      var netted := Netted(TotalNi(lps, |lps|), supplyLpWad, mark.peWad, frozen);
      netted <= gross && UncappedLambda(Funding(netted, stakeAvailableWad), gross) <= WAD
  {
    var gross := GrossClaims(lps, mark, |lps|);
    var netted := Netted(TotalNi(lps, |lps|), supplyLpWad, mark.peWad, frozen);
    GrossCoversNet(lps, mark, |lps|);
    FloorsAddUpBelow(lps, mark.peWad, |lps|);
    ValueMonotone(TotalShares(lps, |lps|), supplyLpWad, mark.peWad, mark.peWad);
    if gross > 0 {
      FloorBelow(Funding(netted, stakeAvailableWad) * WAD, gross, WAD);
    }
  }

  lemma LambdaMonotone(fundingWad: nat, more: nat, grossClaimsWad: nat)
    requires fundingWad <= more
    ensures Lambda(fundingWad, grossClaimsWad) <= Lambda(more, grossClaimsWad)
  {
    if grossClaimsWad > 0 {
      FloorMonotone(fundingWad * WAD, more * WAD, grossClaimsWad);
    }
  }

  /** The assessment previews with the total supply, fee shares included: that never over-estimates
      the funding or the sharing factor. */
  lemma PreviewIsConservative(grossClaimsWad: nat, niAggregateWad: int, supplyLpWad: nat, totalSupply: nat, peWad: nat,
                              stakeAvailableWad: nat, frozen: bool)
    requires supplyLpWad <= totalSupply
    ensures var previewed := Funding(Netted(niAggregateWad, totalSupply, peWad, frozen), stakeAvailableWad);
      var actual := Funding(Netted(niAggregateWad, supplyLpWad, peWad, frozen), stakeAvailableWad);
      previewed <= actual && Lambda(previewed, grossClaimsWad) <= Lambda(actual, grossClaimsWad)
  {
    ValueMonotone(supplyLpWad, totalSupply, peWad, peWad);
    LambdaMonotone(Funding(Netted(niAggregateWad, totalSupply, peWad, frozen), stakeAvailableWad),
                   Funding(Netted(niAggregateWad, supplyLpWad, peWad, frozen), stakeAvailableWad), grossClaimsWad);
  }

  /** The marked holdings of all LPs never add up to more than the assets, up to the virtual offset. */
  lemma MarkingCreatesNoValue(lps: seq<LpState>, navWad: nat, totalSupply: nat)
    requires TotalShares(lps, |lps|) <= totalSupply
    ensures TotalValue(lps, SharePriceWad(navWad, totalSupply), |lps|) <= navWad + VIRT
  {
    var pe := SharePriceWad(navWad, totalSupply);
    FloorsAddUpBelow(lps, pe, |lps|);
    ValueMonotone(TotalShares(lps, |lps|), totalSupply + VIRT, pe, pe);
    FloorBounds((navWad + VIRT) * WAD, totalSupply + VIRT);
    FloorBelow((totalSupply + VIRT) * pe, WAD, navWad + VIRT);
  }

  // ---------- Sharing the funding ----------

  /** What the LPs are paid, each rounded down. */
  function Payout(lps: seq<LpState>, mark: Mark, lambdaWad: nat, n: nat): nat
    requires n <= |lps|
  {
    if n == 0 then 0 else Payout(lps, mark, lambdaWad, n - 1) + LpVestedLoss(lps[n - 1], mark) * lambdaWad / WAD
  }

  lemma RoundOneMore(paid: nat, owed: nat, share: nat, n: nat)
    requires WAD * paid <= owed <= WAD * paid + n * WAD
    ensures WAD * (paid + share / WAD) <= owed + share <= WAD * (paid + share / WAD) + (n + 1) * WAD
  {
    FloorBounds(share, WAD);
  }

  lemma {:induction false} PayoutBounds(lps: seq<LpState>, mark: Mark, lambdaWad: nat, n: nat)
    requires n <= |lps|
    ensures WAD * Payout(lps, mark, lambdaWad, n) <= GrossClaims(lps, mark, n) * lambdaWad
    ensures GrossClaims(lps, mark, n) * lambdaWad <= WAD * Payout(lps, mark, lambdaWad, n) + n * WAD
  {
    if n > 0 {
      PayoutBounds(lps, mark, lambdaWad, n - 1);
      var g, v := GrossClaims(lps, mark, n - 1), LpVestedLoss(lps[n - 1], mark);
      Distribute(g, v, lambdaWad);
      RoundOneMore(Payout(lps, mark, lambdaWad, n - 1), g * lambdaWad, v * lambdaWad, n - 1);
    }
  }

  function CeilDiv(a: nat, d: nat): nat
    requires d > 0
  {
    (a + d - 1) / d
  }

  /** Solvent and tight: all payouts together fit the funding, and when the factor is not capped
      they miss it by at most one unit per LP plus the rounding of the factor itself. */
  lemma SharingIsSolventAndTight(lps: seq<LpState>, mark: Mark, fundingWad: nat)
    ensures var n, gross := |lps|, GrossClaims(lps, mark, |lps|);
      var paid := Payout(lps, mark, Lambda(fundingWad, gross), n);
      && paid <= fundingWad
      && (gross > 0 && UncappedLambda(fundingWad, gross) <= WAD ==> fundingWad - paid <= n + CeilDiv(gross, WAD))
  {
    var n, gross := |lps|, GrossClaims(lps, mark, |lps|);
    var lambda := Lambda(fundingWad, gross);
    var paid := Payout(lps, mark, lambda, n);
    PayoutBounds(lps, mark, lambda, n);
    if gross > 0 {
      FloorBounds(fundingWad * WAD, gross);
      if UncappedLambda(fundingWad, gross) <= WAD {
        assert gross * lambda <= fundingWad * WAD < gross * lambda + gross;
        assert WAD * paid <= WAD * fundingWad;
        assert WAD * fundingWad < WAD * (paid + n) + gross;
        FloorBounds(gross + WAD - 1, WAD);
      } else {
        MulMonotone(WAD, UncappedLambda(fundingWad, gross), gross);
        assert WAD * paid <= gross * WAD <= fundingWad * WAD;
      }
    } else {
      assert WAD * paid <= 0;
    }
  }
}
