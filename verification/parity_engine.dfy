/**
 * The revenue-sharing engine of the NBA commissioner game: pooling a share
 * of every team's base revenue, paying the pool back out equally or by
 * inverse market size, an optional 50% luxury tax on the overage above a
 * threshold, one-decimal rounding, and the scores derived from the result.
 * Money is modelled as `real`.
 */
module ParityEngine {

  datatype Market = Big | Small | Mid

  /** The distribution type string: 'equal', 'weighted', or anything else. */
  datatype Distribution = Equal | Weighted | Unrecognised

  datatype Team = Team(
    name: string,
    city: string,
    market: Market,
    baseRevenue: real,
    marketSize: real,
    icon: string)

  /** One entry of the result list: the team itself plus what the engine computed for it. */
  datatype TeamResult = TeamResult(
    team: Team,
    afterSharing: real,
    redistribution: real,
    luxuryTax: real,
    finalRevenue: real,
    change: real)

  // ---------------------------------------------------------------------
  // Rounding and sums
  // ---------------------------------------------------------------------

  /** `Math.round(x * 10) / 10`: JavaScript rounds halves towards +infinity. */
  function Round1(x: real): (r: real)
    ensures x - 0.05 < r <= x + 0.05
    ensures (10.0 * r).Floor as real == 10.0 * r
  {
    var y := 10.0 * x + 0.5;
    assert y - 1.0 < y.Floor as real <= y;
    (y.Floor as real) / 10.0
  }

  /** A value that is a whole number of tenths is left alone by Round1. */
  lemma Round1OfTenths(k: int)
    ensures Round1(k as real / 10.0) == k as real / 10.0
  {
    var y := 10.0 * (k as real / 10.0) + 0.5;
    assert y == k as real + 0.5;
    assert y.Floor == k;
  }

  /** Left fold of `+` from 0, the shape of `reduce((sum, x) => sum + x, 0)`. */
  function Sum(s: seq<real>): real
  {
    if |s| == 0 then 0.0 else Sum(s[..|s| - 1]) + s[|s| - 1]
  }

  lemma {:induction false} SumScaled(a: seq<real>, b: seq<real>, c: real)
    requires |a| == |b|
    requires forall i :: 0 <= i < |a| ==> b[i] == c * a[i]
    ensures Sum(b) == c * Sum(a)
  {
    if |a| > 0 {
      SumScaled(a[..|a| - 1], b[..|b| - 1], c);
    }
  }

  lemma {:induction false} SumPointwise(a: seq<real>, b: seq<real>, c: seq<real>)
    requires |a| == |b| == |c|
    requires forall i :: 0 <= i < |a| ==> c[i] == a[i] + b[i]
    ensures Sum(c) == Sum(a) + Sum(b)
  {
    if |a| > 0 {
      SumPointwise(a[..|a| - 1], b[..|b| - 1], c[..|c| - 1]);
    }
  }

  lemma {:induction false} SumAtLeast(a: seq<real>, lo: real)
    requires forall i :: 0 <= i < |a| ==> lo <= a[i]
    ensures |a| as real * lo <= Sum(a)
  {
    if |a| > 0 {
      SumAtLeast(a[..|a| - 1], lo);
    }
  }

  lemma {:induction false} SumAtMost(a: seq<real>, hi: real)
    requires forall i :: 0 <= i < |a| ==> a[i] <= hi
    ensures Sum(a) <= |a| as real * hi
  {
    if |a| > 0 {
      SumAtMost(a[..|a| - 1], hi);
    }
  }

  lemma SumBetween(a: seq<real>, lo: real, hi: real)
    requires forall i :: 0 <= i < |a| ==> lo <= a[i] <= hi
    ensures |a| as real * lo <= Sum(a) <= |a| as real * hi
  {
    SumAtLeast(a, lo);
    SumAtMost(a, hi);
  }

  lemma SumConstant(a: seq<real>, c: real)
    requires forall i :: 0 <= i < |a| ==> a[i] == c
    ensures Sum(a) == |a| as real * c
  {
    SumBetween(a, c, c);
  }

  // ---------------------------------------------------------------------
  // The per-team quantities of calculateRevenueSharing
  // ---------------------------------------------------------------------

  function BaseRevenues(teams: seq<Team>): (s: seq<real>)
    ensures |s| == |teams|
  {
    seq(|teams|, i requires 0 <= i < |teams| => teams[i].baseRevenue)
  }

  function MarketSizes(teams: seq<Team>): (s: seq<real>)
    ensures |s| == |teams|
  {
    seq(|teams|, i requires 0 <= i < |teams| => teams[i].marketSize)
  }

  /** What each team puts into the shared pool. */
  function Contributions(teams: seq<Team>, sharingPercent: real): (s: seq<real>)
    ensures |s| == |teams|
  {
    seq(|teams|, i requires 0 <= i < |teams| => teams[i].baseRevenue * (sharingPercent / 100.0))
  }

  function SharedPool(teams: seq<Team>, sharingPercent: real): real
  {
    Sum(Contributions(teams, sharingPercent))
  }

  function TotalMarketSize(teams: seq<Team>): real
  {
    Sum(MarketSizes(teams))
  }

  /** Smaller market, larger inverse weight. */
  function InverseWeight(teams: seq<Team>, team: Team): real
  {
    TotalMarketSize(teams) - team.marketSize + 1.0
  }

  function InverseWeights(teams: seq<Team>): (s: seq<real>)
    ensures |s| == |teams|
  {
    seq(|teams|, i requires 0 <= i < |teams| => InverseWeight(teams, teams[i]))
  }

  function TotalInverseWeight(teams: seq<Team>): real
  {
    Sum(InverseWeights(teams))
  }

  /**
   * The weighted split divides by the total inverse weight once per team; when
   * that is 0 on a non-empty roster JavaScript would produce NaN or Infinity,
   * which a real cannot be. An empty roster never reaches the division.
   */
  predicate WellWeighted(teams: seq<Team>, distributionType: Distribution)
  {
    distributionType == Weighted && |teams| > 0 ==> TotalInverseWeight(teams) != 0.0
  }

  function AfterSharing(team: Team, sharingPercent: real): real
  {
    team.baseRevenue * (1.0 - sharingPercent / 100.0)
  }

  function Redistribution(teams: seq<Team>, i: nat, sharingPercent: real, distributionType: Distribution): real
    requires i < |teams|
    requires WellWeighted(teams, distributionType)
  {
    match distributionType
    case Equal => SharedPool(teams, sharingPercent) / (|teams| as real)
    case Weighted =>
      SharedPool(teams, sharingPercent) * (InverseWeight(teams, teams[i]) / TotalInverseWeight(teams))
    case Unrecognised => 0.0
  }

  /** Half of the overage above the threshold, when the tax is on (threshold > 0) and the revenue is above it. */
  function LuxuryTax(revenue: real, threshold: real): (tax: real)
    ensures tax >= 0.0
    ensures tax > 0.0 <==> threshold > 0.0 && revenue > threshold
    ensures tax > 0.0 ==> threshold < revenue - tax < revenue
    ensures tax > 0.0 ==> revenue - tax == threshold + (revenue - threshold) / 2.0
  {
    if threshold > 0.0 && revenue > threshold then (revenue - threshold) * 0.5 else 0.0
  }

  function PreTaxRevenue(teams: seq<Team>, i: nat, sharingPercent: real, distributionType: Distribution): real
    requires i < |teams|
    requires WellWeighted(teams, distributionType)
  {
    AfterSharing(teams[i], sharingPercent) + Redistribution(teams, i, sharingPercent, distributionType)
  }

  /** The result entry of team i, stated step by step. */
  function ResultFor(teams: seq<Team>, i: nat, sharingPercent: real, distributionType: Distribution, threshold: real): TeamResult
    requires i < |teams|
    requires WellWeighted(teams, distributionType)
  {
    var pre := PreTaxRevenue(teams, i, sharingPercent, distributionType);
    var tax := LuxuryTax(pre, threshold);
    TeamResult(
      teams[i],
      AfterSharing(teams[i], sharingPercent),
      Redistribution(teams, i, sharingPercent, distributionType),
      tax,
      Round1(pre - tax),
      Round1(pre - tax - teams[i].baseRevenue))
  }

  /** The whole result list: one entry per team, same order, team fields carried unchanged. */
  function SharingOutcome(teams: seq<Team>, sharingPercent: real, distributionType: Distribution, threshold: real): (r: seq<TeamResult>)
    requires WellWeighted(teams, distributionType)
    ensures |r| == |teams|
    ensures forall i :: 0 <= i < |teams| ==> r[i].team == teams[i]
  {
    seq(|teams|, i requires 0 <= i < |teams| => ResultFor(teams, i, sharingPercent, distributionType, threshold))
  }

  /** calculateRevenueSharing: builds the result list team by team. */
  method CalculateRevenueSharing(teams: seq<Team>, sharingPercent: real, distributionType: Distribution, luxuryTaxThreshold: real)
    returns (results: seq<TeamResult>)
    requires WellWeighted(teams, distributionType)
    ensures results == SharingOutcome(teams, sharingPercent, distributionType, luxuryTaxThreshold)
  {
    results := [];
    var sharedPool := SharedPool(teams, sharingPercent);
    var totalMarketSize := 0.0;
    if distributionType == Weighted {
      totalMarketSize := TotalMarketSize(teams);
    }
    var i := 0;
    while i < |teams|
      invariant 0 <= i <= |teams|
      invariant distributionType == Weighted ==> totalMarketSize == TotalMarketSize(teams)
      invariant |results| == i
      invariant forall k :: 0 <= k < i ==>
        results[k] == ResultFor(teams, k, sharingPercent, distributionType, luxuryTaxThreshold)
    {
      var team := teams[i];
      var afterSharing := team.baseRevenue * (1.0 - sharingPercent / 100.0);
      assert afterSharing == AfterSharing(team, sharingPercent);
      var redistributionAmount := 0.0;
      if distributionType == Equal {
        redistributionAmount := sharedPool / (|teams| as real);
      } else if distributionType == Weighted {
        var inverseWeight := totalMarketSize - team.marketSize + 1.0;
        var totalInverseWeight := TotalInverseWeight(teams);
        redistributionAmount := sharedPool * (inverseWeight / totalInverseWeight);
      }
      assert redistributionAmount == Redistribution(teams, i, sharingPercent, distributionType);
      var finalRevenue := afterSharing + redistributionAmount;
      ghost var pre := finalRevenue;
      assert pre == PreTaxRevenue(teams, i, sharingPercent, distributionType);
      var luxuryTaxPaid := 0.0;
      if luxuryTaxThreshold > 0.0 && finalRevenue > luxuryTaxThreshold {
        luxuryTaxPaid := (finalRevenue - luxuryTaxThreshold) * 0.5;
        finalRevenue := finalRevenue - luxuryTaxPaid;
      }
      assert luxuryTaxPaid == LuxuryTax(pre, luxuryTaxThreshold) && finalRevenue == pre - luxuryTaxPaid;
      var entry := TeamResult(team, afterSharing, redistributionAmount, luxuryTaxPaid,
                              Round1(finalRevenue), Round1(finalRevenue - team.baseRevenue));
      assert entry == ResultFor(teams, i, sharingPercent, distributionType, luxuryTaxThreshold);
      results := results + [entry];
      i := i + 1;
    }
  }

  // ---------------------------------------------------------------------
  // Projections of a result list
  // ---------------------------------------------------------------------

  function FinalRevenues(results: seq<TeamResult>): (s: seq<real>)
    ensures |s| == |results|
  {
    seq(|results|, i requires 0 <= i < |results| => results[i].finalRevenue)
  }

  function Redistributions(results: seq<TeamResult>): (s: seq<real>)
    ensures |s| == |results|
  {
    seq(|results|, i requires 0 <= i < |results| => results[i].redistribution)
  }

  /** What each team holds after sharing and redistribution, before any tax. */
  function PreTaxRevenues(results: seq<TeamResult>): (s: seq<real>)
    ensures |s| == |results|
  {
    seq(|results|, i requires 0 <= i < |results| => results[i].afterSharing + results[i].redistribution)
  }

  // ---------------------------------------------------------------------
  // Properties of the revenue-sharing result
  // ---------------------------------------------------------------------

  /** The pool is sharingPercent% of the league's total base revenue. */
  lemma SharedPoolIsShareOfBase(teams: seq<Team>, sharingPercent: real)
    ensures SharedPool(teams, sharingPercent) == (sharingPercent / 100.0) * Sum(BaseRevenues(teams))
  {
    SumScaled(BaseRevenues(teams), Contributions(teams, sharingPercent), sharingPercent / 100.0);
  }

  /** An empty roster yields an empty result list under every policy: the weighted division is never reached. */
  lemma EmptyRosterHasNoResults(sharingPercent: real, distributionType: Distribution, threshold: real)
    ensures WellWeighted([], distributionType)
    ensures SharingOutcome([], sharingPercent, distributionType, threshold) == []
  {
  }

  /** Every team keeps its base revenue less its own contribution to the pool. */
  lemma KeepsRemainder(teams: seq<Team>, sharingPercent: real, distributionType: Distribution, threshold: real, i: nat)
    requires WellWeighted(teams, distributionType)
    requires i < |teams|
    ensures SharingOutcome(teams, sharingPercent, distributionType, threshold)[i].afterSharing
            == teams[i].baseRevenue - Contributions(teams, sharingPercent)[i]
  {
    var out := SharingOutcome(teams, sharingPercent, distributionType, threshold);
    assert out[i].afterSharing == AfterSharing(teams[i], sharingPercent) by {
      assert out[i] == ResultFor(teams, i, sharingPercent, distributionType, threshold);
    }
    KeepsRemainderStep(teams[i], sharingPercent, Contributions(teams, sharingPercent)[i]);
  }

  /** One team's share of the pool is what afterSharing holds back. */
  lemma KeepsRemainderStep(team: Team, sharingPercent: real, c: real)
    requires c == team.baseRevenue * (sharingPercent / 100.0)
    ensures AfterSharing(team, sharingPercent) == team.baseRevenue - c
  {
  }

  /** Total inverse weight is (n - 1) * totalMarketSize + n. */
  lemma TotalInverseWeightClosedForm(teams: seq<Team>)
    ensures TotalInverseWeight(teams) == (|teams| as real - 1.0) * TotalMarketSize(teams) + |teams| as real
  {
    var n := |teams| as real;
    var t := TotalMarketSize(teams);
    var plusOne := seq(|teams|, i requires 0 <= i < |teams| => t + 1.0);
    SumPointwise(InverseWeights(teams), MarketSizes(teams), plusOne);
    SumConstant(plusOne, t + 1.0);
  }

  /** With non-negative market sizes on a non-empty roster, the weighted split never divides by zero. */
  lemma NonNegativeSizesWellWeighted(teams: seq<Team>)
    requires |teams| > 0
    requires forall i :: 0 <= i < |teams| ==> teams[i].marketSize >= 0.0
    ensures TotalMarketSize(teams) >= 0.0
    ensures TotalInverseWeight(teams) >= |teams| as real
  {
    SumAtLeast(MarketSizes(teams), 0.0);
    TotalInverseWeightClosedForm(teams);
    var n := |teams| as real;
    var t := TotalMarketSize(teams);
    assert (n - 1.0) * t >= 0.0;
  }

  /** The redistribution amounts of all teams, in roster order. */
  function Shares(teams: seq<Team>, sharingPercent: real, distributionType: Distribution): (s: seq<real>)
    requires WellWeighted(teams, distributionType)
    ensures |s| == |teams|
  {
    seq(|teams|, i requires 0 <= i < |teams| => Redistribution(teams, i, sharingPercent, distributionType))
  }

  lemma OutcomeShares(teams: seq<Team>, sharingPercent: real, distributionType: Distribution, threshold: real)
    requires WellWeighted(teams, distributionType)
    ensures Redistributions(SharingOutcome(teams, sharingPercent, distributionType, threshold))
            == Shares(teams, sharingPercent, distributionType)
  {
  }

  lemma ScaleByRatio(a: real, b: real, c: real)
    requires c != 0.0
    ensures a * (b / c) == (a / c) * b
  {
  }

  lemma CancelRatio(a: real, c: real)
    requires c != 0.0
    ensures c * (a / c) == a && (a / c) * c == a
  {
  }

  lemma EqualSharesPayOutPool(teams: seq<Team>, sharingPercent: real)
    requires |teams| > 0
    ensures Sum(Shares(teams, sharingPercent, Equal)) == SharedPool(teams, sharingPercent)
  {
    var r := Shares(teams, sharingPercent, Equal);
    var pool := SharedPool(teams, sharingPercent);
    var n := |teams| as real;
    assert forall i :: 0 <= i < |r| ==> r[i] == pool / n;
    SumConstant(r, pool / n);
    CancelRatio(pool, n);
  }

  lemma WeightedSharesPayOutPool(teams: seq<Team>, sharingPercent: real)
    requires WellWeighted(teams, Weighted)
    ensures Sum(Shares(teams, sharingPercent, Weighted)) == SharedPool(teams, sharingPercent)
  {
    var r := Shares(teams, sharingPercent, Weighted);
    var pool := SharedPool(teams, sharingPercent);
    if |teams| == 0 {
      assert r == [] && Contributions(teams, sharingPercent) == [];
    } else {
      var w := TotalInverseWeight(teams);
      var ws := InverseWeights(teams);
      forall i | 0 <= i < |teams|
        ensures r[i] == (pool / w) * ws[i]
      {
        ScaleByRatio(pool, ws[i], w);
      }
      SumScaled(ws, r, pool / w);
      CancelRatio(pool, w);
    }
  }

  /** Under either recognised policy the redistributions pay out exactly the pool. */
  lemma RedistributionPaysOutPool(teams: seq<Team>, sharingPercent: real, distributionType: Distribution)
    requires WellWeighted(teams, distributionType)
    requires |teams| > 0
    requires distributionType != Unrecognised
    ensures Sum(Shares(teams, sharingPercent, distributionType)) == SharedPool(teams, sharingPercent)
  {
    if distributionType == Equal {
      EqualSharesPayOutPool(teams, sharingPercent);
    } else {
      WeightedSharesPayOutPool(teams, sharingPercent);
    }
  }

  /** Before tax, sharing is a zero-sum transfer: the league total is the base total. */
  lemma SharingConservesRevenue(teams: seq<Team>, sharingPercent: real, distributionType: Distribution, threshold: real)
    requires WellWeighted(teams, distributionType)
    requires |teams| > 0
    requires distributionType != Unrecognised
    ensures Sum(PreTaxRevenues(SharingOutcome(teams, sharingPercent, distributionType, threshold)))
            == Sum(BaseRevenues(teams))
  {
    var out := SharingOutcome(teams, sharingPercent, distributionType, threshold);
    var kept := seq(|teams|, i requires 0 <= i < |teams| => out[i].afterSharing);
    var base := BaseRevenues(teams);
    var given := Contributions(teams, sharingPercent);
    SumPointwise(kept, Redistributions(out), PreTaxRevenues(out));
    forall i | 0 <= i < |teams|
      ensures base[i] == kept[i] + given[i]
    {
      KeepsRemainder(teams, sharingPercent, distributionType, threshold, i);
    }
    SumPointwise(kept, given, base);
    OutcomeShares(teams, sharingPercent, distributionType, threshold);
    RedistributionPaysOutPool(teams, sharingPercent, distributionType);
  }

  /** With the luxury tax off, each final revenue is the pre-tax revenue rounded. */
  lemma UntaxedFinalIsRounded(teams: seq<Team>, sharingPercent: real, distributionType: Distribution, threshold: real, i: nat)
    requires WellWeighted(teams, distributionType)
    requires threshold <= 0.0
    requires i < |teams|
    ensures var r := SharingOutcome(teams, sharingPercent, distributionType, threshold)[i];
            r.luxuryTax == 0.0 && r.finalRevenue == Round1(r.afterSharing + r.redistribution)
  {
  }

  /** With no tax, the league's rounded total is within 0.05 per team of the base total. */
  lemma NoTaxTotalWithinRounding(teams: seq<Team>, sharingPercent: real, distributionType: Distribution)
    requires WellWeighted(teams, distributionType)
    requires |teams| > 0
    requires distributionType != Unrecognised
    ensures var total := CalculateTotalRevenue(SharingOutcome(teams, sharingPercent, distributionType, 0.0));
            var base := Sum(BaseRevenues(teams));
            var slack := 0.05 * |teams| as real;
            base - slack <= total <= base + slack
  {
    var out := SharingOutcome(teams, sharingPercent, distributionType, 0.0);
    var pre := PreTaxRevenues(out);
    var fin := FinalRevenues(out);
    var err := seq(|teams|, i requires 0 <= i < |teams| => fin[i] - pre[i]);
    forall i | 0 <= i < |teams|
      ensures -0.05 <= err[i] <= 0.05
    {
      UntaxedFinalIsRounded(teams, sharingPercent, distributionType, 0.0, i);
    }
    SumBetween(err, -0.05, 0.05);
    SumPointwise(pre, err, fin);
    SharingConservesRevenue(teams, sharingPercent, distributionType, 0.0);
  }

  /** Under 'equal' every team receives the same share, pool / n. */
  lemma EqualSplitIsUniform(teams: seq<Team>, sharingPercent: real, threshold: real, i: nat)
    requires i < |teams|
    ensures SharingOutcome(teams, sharingPercent, Equal, threshold)[i].redistribution
            == SharedPool(teams, sharingPercent) / (|teams| as real)
  {
  }

  /** Under 'weighted' a strictly smaller market receives strictly more, whenever there is something to share. */
  lemma WeightedFavoursSmallerMarkets(teams: seq<Team>, sharingPercent: real, i: nat, j: nat)
    requires i < |teams| && j < |teams|
    requires forall k :: 0 <= k < |teams| ==> teams[k].marketSize >= 0.0
    requires teams[i].marketSize < teams[j].marketSize
    requires SharedPool(teams, sharingPercent) > 0.0
    ensures WellWeighted(teams, Weighted)
    ensures Redistribution(teams, i, sharingPercent, Weighted) > Redistribution(teams, j, sharingPercent, Weighted)
  {
    assert TotalInverseWeight(teams) > 0.0 by {
      NonNegativeSizesWellWeighted(teams);
    }
    LargerWeightLargerShare(SharedPool(teams, sharingPercent), InverseWeight(teams, teams[i]),
                            InverseWeight(teams, teams[j]), TotalInverseWeight(teams));
  }

  lemma LargerWeightLargerShare(pool: real, wi: real, wj: real, w: real)
    requires pool > 0.0 && w > 0.0 && wi > wj
    ensures pool * (wi / w) > pool * (wj / w)
  {
    assert wi / w - wj / w == (wi - wj) / w;
    assert (wi - wj) / w > 0.0;
    assert pool * (wi / w) - pool * (wj / w) == pool * ((wi - wj) / w);
  }

  /** pool * (wi / w) > pool / n exactly when wi * n > w, for positive pool, w and n. */
  lemma ShareComparison(pool: real, wi: real, w: real, n: real)
    requires pool > 0.0 && w > 0.0 && n > 0.0
    ensures pool * (wi / w) > pool / n <==> wi * n > w
  {
    assert pool * (wi / w) - pool / n == pool * (wi * n - w) / (w * n);
    assert w * n > 0.0;
    if wi * n > w {
      assert pool * (wi * n - w) > 0.0;
    } else {
      assert pool * (wi * n - w) <= 0.0;
    }
  }

  /** The arithmetic core of the mean comparison: w = (n - 1) t + n and wi = t - m + 1. */
  lemma BelowMeanArithmetic(pool: real, wi: real, w: real, n: real, t: real, m: real)
    requires pool > 0.0 && w > 0.0 && n > 0.0
    requires w == (n - 1.0) * t + n
    requires wi == t - m + 1.0
    ensures pool * (wi / w) > pool / n <==> m * n < t
  {
    ShareComparison(pool, wi, w, n);
    assert wi * n - w == t - m * n;
  }

  /**
   * Under 'weighted' a team gets more than its equal share exactly when its
   * market is smaller than the league's mean market size.
   */
  lemma WeightedBeatsEqualIffBelowMean(teams: seq<Team>, sharingPercent: real, i: nat)
    requires i < |teams|
    requires forall k :: 0 <= k < |teams| ==> teams[k].marketSize >= 0.0
    requires SharedPool(teams, sharingPercent) > 0.0
    ensures WellWeighted(teams, Weighted)
    ensures Redistribution(teams, i, sharingPercent, Weighted) > Redistribution(teams, i, sharingPercent, Equal)
            <==> teams[i].marketSize * (|teams| as real) < TotalMarketSize(teams)
  {
    var pool := SharedPool(teams, sharingPercent);
    var n := |teams| as real;
    var t := TotalMarketSize(teams);
    var w := TotalInverseWeight(teams);
    var wi := InverseWeight(teams, teams[i]);
    assert w > 0.0 && t >= 0.0 by {
      NonNegativeSizesWellWeighted(teams);
    }
    assert w == (n - 1.0) * t + n by {
      TotalInverseWeightClosedForm(teams);
    }
    BelowMeanArithmetic(pool, wi, w, n, t, teams[i].marketSize);
  }

  /** A taxed team ends above the threshold and below its pre-tax revenue; an untaxed team pays nothing. */
  lemma LuxuryTaxOutcome(teams: seq<Team>, sharingPercent: real, distributionType: Distribution, threshold: real, i: nat)
    requires WellWeighted(teams, distributionType)
    requires i < |teams|
    ensures var r := SharingOutcome(teams, sharingPercent, distributionType, threshold)[i];
            var pre := r.afterSharing + r.redistribution;
            (r.luxuryTax > 0.0 <==> threshold > 0.0 && pre > threshold) &&
            (r.luxuryTax > 0.0 ==> r.finalRevenue == Round1(threshold + (pre - threshold) / 2.0)
                                   && threshold < pre - r.luxuryTax < pre) &&
            (r.luxuryTax == 0.0 ==> r.finalRevenue == Round1(pre))
  {
  }

  /** The revenue a team keeps after the luxury tax, before rounding. */
  function AfterTax(revenue: real, threshold: real): real
  {
    revenue - LuxuryTax(revenue, threshold)
  }

  /** Raising an enabled threshold never lowers what a team keeps, nor raises the tax it pays. */
  lemma AfterTaxMonotoneInThreshold(revenue: real, t1: real, t2: real)
    requires 0.0 < t1 <= t2
    ensures AfterTax(revenue, t1) <= AfterTax(revenue, t2) <= revenue
    ensures LuxuryTax(revenue, t2) <= LuxuryTax(revenue, t1)
  {
  }

  /** No sharing and no tax leave every team where it started. */
  lemma ZeroSharingIdentity(teams: seq<Team>, distributionType: Distribution, i: nat, tenths: int)
    requires WellWeighted(teams, distributionType)
    requires i < |teams|
    requires teams[i].baseRevenue == tenths as real / 10.0
    ensures var r := SharingOutcome(teams, 0.0, distributionType, 0.0)[i];
            r.finalRevenue == teams[i].baseRevenue && r.change == 0.0 && r.luxuryTax == 0.0
  {
    var pool := SharedPool(teams, 0.0);
    SharedPoolIsShareOfBase(teams, 0.0);
    assert pool == 0.0;
    assert Redistribution(teams, i, 0.0, distributionType) == 0.0;
    Round1OfTenths(tenths);
    Round1OfTenths(0);
  }

  // ---------------------------------------------------------------------
  // Aggregates: fairness score, total revenue, revenue gap
  // ---------------------------------------------------------------------

  /** Math.min(...s) on a non-empty list. */
  function MinOf(s: seq<real>): (m: real)
    requires |s| > 0
    ensures m in s
    ensures forall k :: 0 <= k < |s| ==> m <= s[k]
  {
    if |s| == 1 then s[0]
    else
      var rest := MinOf(s[..|s| - 1]);
      if s[|s| - 1] < rest then s[|s| - 1] else rest
  }

  /** Math.max(...s) on a non-empty list. */
  function MaxOf(s: seq<real>): (m: real)
    requires |s| > 0
    ensures m in s
    ensures forall k :: 0 <= k < |s| ==> s[k] <= m
  {
    if |s| == 1 then s[0]
    else
      var rest := MaxOf(s[..|s| - 1]);
      if s[|s| - 1] > rest then s[|s| - 1] else rest
  }

  predicate AllEqual(s: seq<real>)
  {
    forall j, k :: 0 <= j < |s| && 0 <= k < |s| ==> s[j] == s[k]
  }

  predicate AllNonNegative(s: seq<real>)
  {
    forall k :: 0 <= k < |s| ==> s[k] >= 0.0
  }

  lemma SelfRatio(x: real)
    requires x != 0.0
    ensures x / x == 1.0
  {
  }

  lemma RatioInUnitInterval(min: real, max: real)
    requires 0.0 <= min <= max && max != 0.0
    ensures 0.0 <= min / max <= 1.0
  {
  }

  /** `Math.round((min / max) * 1000) / 10`, or 0 when the largest revenue is 0. */
  function CalculateFairnessScore(results: seq<TeamResult>): (score: real)
    requires |results| > 0
    ensures MaxOf(FinalRevenues(results)) == 0.0 ==> score == 0.0
    ensures MaxOf(FinalRevenues(results)) != 0.0 ==>
              var ratio := MinOf(FinalRevenues(results)) / MaxOf(FinalRevenues(results));
              100.0 * ratio - 0.05 < score <= 100.0 * ratio + 0.05
    ensures (10.0 * score).Floor as real == 10.0 * score
    ensures AllNonNegative(FinalRevenues(results)) ==> 0.0 <= score <= 100.0
    ensures AllEqual(FinalRevenues(results)) && MaxOf(FinalRevenues(results)) != 0.0 ==> score == 100.0
  {
    var revenues := FinalRevenues(results);
    var min := MinOf(revenues);
    var max := MaxOf(revenues);
    if max == 0.0 then 0.0
    else
      var q := min / max;
      ScoreFromRatio(q);
      assert AllNonNegative(revenues) ==> 0.0 <= q <= 1.0 by {
        if AllNonNegative(revenues) {
          RatioInUnitInterval(min, max);
        }
      }
      assert AllEqual(revenues) ==> q == 1.0 by {
        if AllEqual(revenues) {
          assert min == max;
          SelfRatio(max);
        }
      }
      (((q * 1000.0 + 0.5).Floor) as real) / 10.0
  }

  /** Rounding a ratio to a tenth of a percent lands within 0.05 of the percentage, on a whole tenth. */
  lemma ScoreFromRatio(q: real)
    ensures var s := (((q * 1000.0 + 0.5).Floor) as real) / 10.0;
            && 100.0 * q - 0.05 < s <= 100.0 * q + 0.05
            && (10.0 * s).Floor as real == 10.0 * s
            && (0.0 <= q <= 1.0 ==> 0.0 <= s <= 100.0)
            && (q == 1.0 ==> s == 100.0)
  {
    var k := (q * 1000.0 + 0.5).Floor;
    assert q * 1000.0 - 0.5 < k as real <= q * 1000.0 + 0.5;
    var s := k as real / 10.0;
    assert 10.0 * s == k as real;
  }

  lemma RoundedRatioIsFull(min: real, max: real)
    requires max > 0.0
    requires (((min / max) * 1000.0 + 0.5).Floor as real) / 10.0 == 100.0
    ensures min >= 0.9995 * max
  {
    var q := min / max;
    assert (q * 1000.0 + 0.5).Floor == 1000;
    assert q >= 0.9995;
    assert min == q * max;
  }

  /** A score of 100 means the lowest revenue is at least 99.95% of the highest. */
  lemma FullFairnessBound(results: seq<TeamResult>)
    requires |results| > 0
    requires MaxOf(FinalRevenues(results)) > 0.0
    requires CalculateFairnessScore(results) == 100.0
    ensures MinOf(FinalRevenues(results)) >= 0.9995 * MaxOf(FinalRevenues(results))
  {
    var revenues := FinalRevenues(results);
    var min := MinOf(revenues);
    var max := MaxOf(revenues);
    RoundedRatioIsFull(min, max);
    assert min >= 0.9995 * max;
  }

  /** Rounding lets two unequal revenues score 100: 1999 against 2000. */
  lemma FullFairnessWithoutEquality(a: TeamResult, b: TeamResult)
    requires a.finalRevenue == 1999.0 && b.finalRevenue == 2000.0
    ensures !AllEqual(FinalRevenues([a, b]))
    ensures CalculateFairnessScore([a, b]) == 100.0
  {
    var revenues := FinalRevenues([a, b]);
    assert revenues == [1999.0, 2000.0];
    assert MinOf(revenues) == 1999.0;
    assert MaxOf(revenues) == 2000.0;
    var y := (1999.0 / 2000.0) * 1000.0 + 0.5;
    assert y == 1000.0;
  }

  /** calculateTotalRevenue: the sum of the final revenues. */
  function CalculateTotalRevenue(results: seq<TeamResult>): (total: real)
    ensures |results| == 0 ==> total == 0.0
    ensures AllNonNegative(FinalRevenues(results)) ==> total >= 0.0
  {
    var revenues := FinalRevenues(results);
    assert AllNonNegative(revenues) ==> Sum(revenues) >= 0.0 by {
      if AllNonNegative(revenues) {
        SumAtLeast(revenues, 0.0);
      }
    }
    Sum(revenues)
  }

  /** When every final revenue lies in [lo, hi], the league total lies in [n * lo, n * hi]. */
  lemma TotalRevenueBounded(results: seq<TeamResult>, lo: real, hi: real)
    requires forall k :: 0 <= k < |results| ==> lo <= results[k].finalRevenue <= hi
    ensures (|results| as real) * lo <= CalculateTotalRevenue(results) <= (|results| as real) * hi
  {
    var revenues := FinalRevenues(results);
    assert forall i :: 0 <= i < |revenues| ==> lo <= revenues[i] <= hi;
    SumBetween(revenues, lo, hi);
  }

  /** calculateRevenueGap: highest minus lowest final revenue. */
  function CalculateRevenueGap(results: seq<TeamResult>): (gap: real)
    requires |results| > 0
    ensures gap >= 0.0
    ensures gap == 0.0 <==> AllEqual(FinalRevenues(results))
  {
    var revenues := FinalRevenues(results);
    MaxOf(revenues) - MinOf(revenues)
  }

  // ---------------------------------------------------------------------
  // Coaching tip, distribution explanation, currency unit
  // ---------------------------------------------------------------------

  /** The advisory messages of getCoachingTip, in the order they are tried. */
  datatype Tip =
    | Perfect            // target met
    | GapTooBig          // gap > 20
    | NeedMoreSharing    // gap > 10, sharing below 30%
    | TryEqualSplit      // gap > 10, sharing at least 30%
    | GettingClose       // gap > 5
    | AlmostThere        // gap > 0
    | AdjustSettings     // final fallback

  function GetCoachingTip(fairnessScore: real, targetFairness: real, sharingPercent: real, distributionType: Distribution): (tip: Tip)
    ensures tip != AdjustSettings
    ensures tip == Perfect <==> fairnessScore >= targetFairness
  {
    var gap := targetFairness - fairnessScore;
    if fairnessScore >= targetFairness then Perfect
    else if gap > 20.0 then GapTooBig
    else if gap > 10.0 then (if sharingPercent < 30.0 then NeedMoreSharing else TryEqualSplit)
    else if gap > 5.0 then GettingClose
    else if gap > 0.0 then AlmostThere
    else AdjustSettings
  }

  /** How far from the target a tip says the player is: 0 for met, higher for larger gaps. */
  function Severity(tip: Tip): nat
  {
    match tip
    case Perfect => 0
    case AlmostThere => 1
    case GettingClose => 2
    case NeedMoreSharing => 3
    case TryEqualSplit => 3
    case GapTooBig => 4
    case AdjustSettings => 5
  }

  /** Each tip corresponds to one bucket of the gap target - score. */
  lemma CoachingTipBuckets(fairnessScore: real, targetFairness: real, sharingPercent: real, distributionType: Distribution)
    ensures var tip := GetCoachingTip(fairnessScore, targetFairness, sharingPercent, distributionType);
            var gap := targetFairness - fairnessScore;
            (tip == Perfect <==> gap <= 0.0) &&
            (tip == AlmostThere <==> 0.0 < gap <= 5.0) &&
            (tip == GettingClose <==> 5.0 < gap <= 10.0) &&
            (tip == NeedMoreSharing <==> 10.0 < gap <= 20.0 && sharingPercent < 30.0) &&
            (tip == TryEqualSplit <==> 10.0 < gap <= 20.0 && sharingPercent >= 30.0) &&
            (tip == GapTooBig <==> gap > 20.0)
  {
  }

  /** A wider gap never yields a tip that claims the player is closer. */
  lemma CoachingTipMonotone(score1: real, score2: real, targetFairness: real, sharingPercent: real, distributionType: Distribution)
    requires score2 <= score1
    ensures Severity(GetCoachingTip(score1, targetFairness, sharingPercent, distributionType))
            <= Severity(GetCoachingTip(score2, targetFairness, sharingPercent, distributionType))
  {
  }

  /** getDistributionExplanation: one sentence per recognised policy, empty otherwise. */
  function GetDistributionExplanation(distributionType: Distribution): (text: string)
    ensures text == "" <==> distributionType == Unrecognised
  {
    match distributionType
    case Equal => "Money is split equally among all teams - everyone gets the same amount."
    case Weighted => "Smaller market teams get more money to help them compete with big markets."
    case Unrecognised => ""
  }

  datatype CurrencyUnit = Billions | Millions

  /** The amount shown and its unit; the decimal formatting is not modelled. */
  datatype Currency = Currency(shown: real, unit: CurrencyUnit)

  function UnitFactor(unit: CurrencyUnit): real
  {
    match unit
    case Billions => 1000.0
    case Millions => 1.0
  }

  /** formatCurrency's branch: amounts of 1000 (million) or more are shown in billions. */
  function FormatCurrency(amount: real): (c: Currency)
    ensures c.unit == Billions <==> amount >= 1000.0
    ensures c.shown * UnitFactor(c.unit) == amount
    ensures c.unit == Billions ==> c.shown >= 1.0
    ensures c.unit == Millions ==> c.shown < 1000.0
  {
    if amount >= 1000.0 then Currency(amount / 1000.0, Billions) else Currency(amount, Millions)
  }
}
