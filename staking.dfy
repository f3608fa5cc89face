/**
  The staking calculator of staking.py. Net earnings (revenue less debt)
  converted to tokens decide, month by month, whether tokens are minted for
  stakers (a deficit) or bought back (a surplus); the cumulative staking
  incentive is compounded over five passes at the monthly APR, and the staking
  pool pays the compounded incentive out of its balance every month.

  The calculator never changes its fields after construction, so it is a value;
  the compounding and the pool balance are loops in the source and methods
  here, proved against the closed forms in `StakingTable`.
 */
module Staking {
  import opened Series

  /** `m^i` */
  function Pow(m: real, i: nat): real
  {
    if i == 0 then 1.0 else Pow(m, i - 1) * m
  }

  /** `1 + m + ... + m^n` */
  function GeomSum(m: real, n: nat): real
  {
    if n == 0 then 1.0 else GeomSum(m, n - 1) + Pow(m, n)
  }

  /** The compounding passes of `compute_incentive_for_stakers`. */
  const CompoundingPasses: nat := 5

  /** `list(accumulate(s))`: the running totals of a series. */
  function Accumulate(s: seq<real>): (acc: seq<real>)
    ensures |acc| == |s|
    ensures forall t :: 0 <= t < |s| ==> acc[t] == Sum(s[..t + 1])
  {
    seq(|s|, t requires 0 <= t < |s| => Sum(s[..t + 1]))
  }

  /** The staking pool's balance: the initial pool less every compounded incentive paid so far, never clamped. */
  function StakingPool(initialStakingPool: real, incentive: seq<real>): (pool: seq<real>)
    ensures |pool| == |incentive|
  {
    seq(|incentive|, t requires 0 <= t < |incentive| => initialStakingPool - Sum(incentive[..t + 1]))
  }

  /** The columns of the DataFrame `compute_incentive_for_stakers` returns. */
  datatype StakingData = StakingData(
    incentiveForStakers: seq<seq<real>>,
    tokensToBeStakedInflationary: seq<real>,
    percentStaked: seq<real>,
    tokensToBeBoughtAligned: seq<real>,
    stakingPool: seq<real>)

  datatype StakingCalculator = StakingCalculator(debtUsd: seq<real>, revenue: seq<real>, tokenPrice: seq<real>, yearlyTargetApr: real)
  {
    /** The months all three input series cover: where the chained `zip`s stop. */
    function Months(): nat
    {
      Min(Min(|revenue|, |debtUsd|), |tokenPrice|)
    }

    /** No token price the calculator divides by is zero. */
    predicate PricesNonZero()
    {
      forall t :: 0 <= t < Months() ==> tokenPrice[t] != 0.0
    }

    /** The tokens needed each month to cover the debt the revenue does not: negative when there is a surplus. */
    function TokensToBuy(): (tokens: seq<real>)
      requires PricesNonZero()
      ensures |tokens| == Months()
      ensures forall t :: 0 <= t < Months() ==> tokens[t] * tokenPrice[t] == debtUsd[t] - revenue[t]
    {
      seq(Months(), t requires 0 <= t < Months() => -((revenue[t] - debtUsd[t]) / tokenPrice[t]))
    }

    /**
      `compute_tokens_to_be_staked`: a share of a deficit is minted for stakers,
      a share of a surplus is bought back; each month is one or the other, and
      the difference of the two is the share of the tokens to buy.
     */
    function ComputeTokensToBeStaked(proportion: real): (split: (seq<real>, seq<real>))
      requires PricesNonZero()
      ensures |split.0| == Months() && |split.1| == Months()
      ensures forall t :: 0 <= t < Months() ==> split.0[t] - split.1[t] == TokensToBuy()[t] * proportion
      ensures forall t :: 0 <= t < Months() ==> TokensToBuy()[t] <= 0.0 ==> split.0[t] == 0.0
      ensures forall t :: 0 <= t < Months() ==> TokensToBuy()[t] >= 0.0 ==> split.1[t] == 0.0
      ensures proportion >= 0.0 ==> forall t :: 0 <= t < Months() ==> split.0[t] >= 0.0 && split.1[t] >= 0.0
    {
      var tokensToBuy := TokensToBuy();
      (seq(Months(), t requires 0 <= t < Months() => if tokensToBuy[t] > 0.0 then tokensToBuy[t] * proportion else 0.0),
       seq(Months(), t requires 0 <= t < Months() => if tokensToBuy[t] < 0.0 then -tokensToBuy[t] * proportion else 0.0))
    }

    /** The base incentive: the running total of the minted tokens times the monthly APR. */
    function BaseIncentive(proportion: real): (base: seq<real>)
      requires PricesNonZero()
      ensures |base| == Months()
    {
      Accumulate(Scale(ComputeTokensToBeStaked(proportion).0, yearlyTargetApr / 12.0))
    }

    /**
      What `compute_incentive_for_stakers` returns, in closed form: column `i`
      of the incentive is the base times `m^i`, column 0 the base times
      `1 + m + ... + m^5`, with `m` the monthly APR.
     */
    function StakingTable(proportion: real, totalSupply: real, initialStakingPool: real): (data: StakingData)
      requires PricesNonZero() && yearlyTargetApr != 0.0 && totalSupply != 0.0
    {
      var m := yearlyTargetApr / 12.0;
      var base := BaseIncentive(proportion);
      var incentive0 := Scale(base, GeomSum(m, CompoundingPasses));
      var inflationary := seq(|incentive0|, t requires 0 <= t < |incentive0| => incentive0[t] / yearlyTargetApr);
      StakingData(
        seq(CompoundingPasses + 1, i requires 0 <= i <= CompoundingPasses => if i == 0 then incentive0 else Scale(base, Pow(m, i))),
        inflationary,
        seq(|inflationary|, t requires 0 <= t < |inflationary| => inflationary[t] / totalSupply),
        ComputeTokensToBeStaked(proportion).1,
        StakingPool(initialStakingPool, incentive0))
    }
  }

  /** Scaling twice is scaling by the product. */
  lemma ScaleScale(s: seq<real>, a: real, b: real)
    ensures Scale(Scale(s, a), b) == Scale(s, a * b)
  {
    forall t | 0 <= t < |s| ensures Scale(Scale(s, a), b)[t] == Scale(s, a * b)[t] {
      assert s[t] * a * b == s[t] * (a * b);
    }
  }

  /** Adding two scalings of a series scales it by the sum. */
  lemma ZipAddScale(s: seq<real>, a: real, b: real)
    ensures ZipAdd(Scale(s, a), Scale(s, b)) == Scale(s, a + b)
  {
    forall t | 0 <= t < |s| ensures ZipAdd(Scale(s, a), Scale(s, b))[t] == Scale(s, a + b)[t] {
      assert s[t] * a + s[t] * b == s[t] * (a + b);
    }
  }

  /**
    `compute_incentive_for_stakers`: accumulate the base incentive, compound it
    over five passes into column 0, derive the staking pool month by month,
    and add the remaining columns.
   */
  method ComputeIncentiveForStakers(c: StakingCalculator, proportion: real, totalSupply: real, initialStakingPool: real)
    returns (data: StakingData)
    requires c.PricesNonZero() && c.yearlyTargetApr != 0.0 && totalSupply != 0.0
    requires c.Months() > 0
    ensures data == c.StakingTable(proportion, totalSupply, initialStakingPool)
  {
    var m := c.yearlyTargetApr / 12.0;
    var split := c.ComputeTokensToBeStaked(proportion);
    var base := Accumulate(Scale(split.0, m));
    var columns := Compound(base, m);
    var pool := DrawDown(initialStakingPool, columns[0]);
    var incentive0 := columns[0];
    var inflationary := seq(|incentive0|, t requires 0 <= t < |incentive0| => incentive0[t] / c.yearlyTargetApr);
    data := StakingData(columns, inflationary,
                        seq(|inflationary|, t requires 0 <= t < |inflationary| => inflationary[t] / totalSupply),
                        split.1, pool);
  }

  /**
    The five compounding passes: column `i` is column `i - 1` times `m`, and
    each new column is added into column 0.
   */
  method Compound(base: seq<real>, m: real) returns (columns: seq<seq<real>>)
    ensures |columns| == CompoundingPasses + 1
    ensures columns[0] == Scale(base, GeomSum(m, CompoundingPasses))
    ensures forall i :: 1 <= i <= CompoundingPasses ==> columns[i] == Scale(base, Pow(m, i))
  {
    columns := [base];
    var i := 1;
    while i <= CompoundingPasses
      invariant 1 <= i <= CompoundingPasses + 1
      invariant |columns| == i
      invariant columns[0] == Scale(base, GeomSum(m, i - 1))
      invariant forall j :: 1 <= j < i ==> columns[j] == Scale(base, Pow(m, j))
      invariant i == 1 ==> columns[0] == base
    {
      var previous := columns[i - 1];
      assert i == 1 ==> previous == Scale(base, 1.0);
      var next := Scale(previous, m);
      var first := ZipAdd(columns[0], next);
      CompoundStep(base, m, i, columns[0], previous);
      columns := [first] + columns[1..] + [next];
      i := i + 1;
    }
  }

  /** One compounding pass, in closed form. */
  lemma CompoundStep(base: seq<real>, m: real, i: nat, first: seq<real>, previous: seq<real>)
    requires i >= 1 && first == Scale(base, GeomSum(m, i - 1)) && previous == Scale(base, Pow(m, i - 1))
    ensures Scale(previous, m) == Scale(base, Pow(m, i))
    ensures ZipAdd(first, Scale(previous, m)) == Scale(base, GeomSum(m, i))
  {
    var a := Pow(m, i - 1);
    ScaleScale(base, a, m);
    assert Scale(Scale(base, a), m) == Scale(base, a * m);
    assert Pow(m, i) == a * m;
    ZipAddScale(base, GeomSum(m, i - 1), Pow(m, i));
  }

  /** The staking-pool loop: start from the initial pool less the first incentive, then pay each month's. */
  method DrawDown(initialStakingPool: real, incentive: seq<real>) returns (pool: seq<real>)
    requires |incentive| > 0
    ensures pool == StakingPool(initialStakingPool, incentive)
  {
    SumPrefixStep(incentive, 0);
    pool := [initialStakingPool - incentive[0]];
    var t := 1;
    while t < |incentive|
      invariant 1 <= t <= |incentive|
      invariant pool == StakingPool(initialStakingPool, incentive)[..t]
    {
      SumPrefixStep(incentive, t);
      pool := pool + [pool[t - 1] - incentive[t]];
      t := t + 1;
    }
  }

  /** The pool moves by exactly each month's compounded incentive, starting from the initial pool. */
  lemma StakingPoolStep(initialStakingPool: real, incentive: seq<real>, t: nat)
    requires t < |incentive|
    ensures t == 0 ==> StakingPool(initialStakingPool, incentive)[0] == initialStakingPool - incentive[0]
    ensures t > 0 ==> StakingPool(initialStakingPool, incentive)[t] == StakingPool(initialStakingPool, incentive)[t - 1] - incentive[t]
  {
    SumPrefixStep(incentive, t);
  }

  lemma {:induction false} SumNonNegative(s: seq<real>)
    requires forall t :: 0 <= t < |s| ==> s[t] >= 0.0
    ensures Sum(s) >= 0.0
  {
    if |s| > 0 {
      SumNonNegative(s[..|s| - 1]);
    }
  }

  lemma {:induction false} GeomSumNonNegative(m: real, n: nat)
    requires m >= 0.0
    ensures Pow(m, n) >= 0.0 && GeomSum(m, n) >= 1.0
  {
    if n > 0 {
      GeomSumNonNegative(m, n - 1);
    }
  }

  /**
    With a non-negative staking proportion and APR, everything paid out is
    non-negative, so the staking pool never grows; nothing stops it from going
    below zero.
   */
  lemma StakingPoolNonIncreasing(c: StakingCalculator, proportion: real, totalSupply: real, initialStakingPool: real)
    requires c.PricesNonZero() && c.yearlyTargetApr > 0.0 && totalSupply != 0.0 && proportion >= 0.0
    ensures var pool := c.StakingTable(proportion, totalSupply, initialStakingPool).stakingPool;
            forall t :: 0 < t < |pool| ==> pool[t] <= pool[t - 1]
  {
    var m := c.yearlyTargetApr / 12.0;
    var base := c.BaseIncentive(proportion);
    var g := GeomSum(m, CompoundingPasses);
    var incentive0 := Scale(base, g);
    StakingTablePool(c, proportion, totalSupply, initialStakingPool);
    GeomSumNonNegative(m, CompoundingPasses);
    forall t | 0 < t < |incentive0|
      ensures StakingPool(initialStakingPool, incentive0)[t] <= StakingPool(initialStakingPool, incentive0)[t - 1]
    {
      BaseIncentiveNonNegative(c, proportion, t);
      ProductNonNegative(base[t], g);
      StakingPoolStep(initialStakingPool, incentive0, t);
    }
  }

  /** The pool column of the table is the pool drawn down by the compounded incentive. */
  lemma StakingTablePool(c: StakingCalculator, proportion: real, totalSupply: real, initialStakingPool: real)
    requires c.PricesNonZero() && c.yearlyTargetApr != 0.0 && totalSupply != 0.0
    ensures c.StakingTable(proportion, totalSupply, initialStakingPool).stakingPool
              == StakingPool(initialStakingPool, Scale(c.BaseIncentive(proportion), GeomSum(c.yearlyTargetApr / 12.0, CompoundingPasses)))
  {
  }

  lemma ProductNonNegative(a: real, b: real)
    requires a >= 0.0 && b >= 0.0
    ensures a * b >= 0.0
  {
  }

  /** With a non-negative proportion and APR, the base incentive is never negative. */
  lemma BaseIncentiveNonNegative(c: StakingCalculator, proportion: real, t: nat)
    requires c.PricesNonZero() && c.yearlyTargetApr > 0.0 && proportion >= 0.0 && t < c.Months()
    ensures c.BaseIncentive(proportion)[t] >= 0.0
  {
    var m := c.yearlyTargetApr / 12.0;
    var split := c.ComputeTokensToBeStaked(proportion);
    var upTo := Scale(split.0, m)[..t + 1];
    forall i | 0 <= i < |upTo| ensures upTo[i] >= 0.0 {
      assert upTo[i] == split.0[i] * m && split.0[i] >= 0.0;
    }
    SumNonNegative(upTo);
  }

  /** Month `t`'s base incentive is the monthly APR times all tokens minted for stakers up to month `t`. */
  lemma BaseIncentiveIsMintedSoFar(c: StakingCalculator, proportion: real, t: nat)
    requires c.PricesNonZero() && t < c.Months()
    ensures c.BaseIncentive(proportion)[t]
         == Sum(c.ComputeTokensToBeStaked(proportion).0[..t + 1]) * (c.yearlyTargetApr / 12.0)
  {
    var minted := c.ComputeTokensToBeStaked(proportion).0;
    var m := c.yearlyTargetApr / 12.0;
    var upTo := Scale(minted, m)[..t + 1];
    forall i | 0 <= i <= t ensures upTo[i] == Scale(minted[..t + 1], m)[i] { }
    assert upTo == Scale(minted[..t + 1], m);
    SumScale(minted[..t + 1], m);
  }

  /** The reported columns: every one runs over the months all three inputs cover. */
  lemma StakingTableShape(c: StakingCalculator, proportion: real, totalSupply: real, initialStakingPool: real)
    requires c.PricesNonZero() && c.yearlyTargetApr != 0.0 && totalSupply != 0.0
    ensures var data := c.StakingTable(proportion, totalSupply, initialStakingPool);
            |data.incentiveForStakers| == CompoundingPasses + 1 &&
            (forall i :: 0 <= i <= CompoundingPasses ==> |data.incentiveForStakers[i]| == c.Months()) &&
            |data.tokensToBeStakedInflationary| == c.Months() && |data.percentStaked| == c.Months() &&
            |data.tokensToBeBoughtAligned| == c.Months() && |data.stakingPool| == c.Months()
  {
  }

  /** The staked share of the supply, times the supply and the APR, is the compounded incentive. */
  lemma StakedShareIsIncentive(c: StakingCalculator, proportion: real, totalSupply: real, initialStakingPool: real)
    requires c.PricesNonZero() && c.yearlyTargetApr != 0.0 && totalSupply != 0.0
    ensures var data := c.StakingTable(proportion, totalSupply, initialStakingPool);
            forall t :: 0 <= t < |data.percentStaked| ==>
              data.percentStaked[t] * totalSupply * c.yearlyTargetApr == data.incentiveForStakers[0][t]
  {
    var data := c.StakingTable(proportion, totalSupply, initialStakingPool);
    StakingTableShape(c, proportion, totalSupply, initialStakingPool);
    var incentive0 := data.incentiveForStakers[0];
    assert |incentive0| == |data.percentStaked|;
    forall t | 0 <= t < |data.percentStaked|
      ensures data.percentStaked[t] * totalSupply * c.yearlyTargetApr == incentive0[t]
    {
      StakedShareAt(c, proportion, totalSupply, initialStakingPool, data, t);
    }
  }

  /** One month of `StakedShareIsIncentive`, on the table `data`. */
  lemma StakedShareAt(c: StakingCalculator, proportion: real, totalSupply: real, initialStakingPool: real, data: StakingData, t: nat)
    requires c.PricesNonZero() && c.yearlyTargetApr != 0.0 && totalSupply != 0.0
    requires data == c.StakingTable(proportion, totalSupply, initialStakingPool)
    requires t < |data.percentStaked| && t < |data.incentiveForStakers[0]|
    ensures data.percentStaked[t] * totalSupply * c.yearlyTargetApr == data.incentiveForStakers[0][t]
  {
    var x := data.incentiveForStakers[0][t];
    assert data.tokensToBeStakedInflationary[t] == x / c.yearlyTargetApr;
    assert data.percentStaked[t] == x / c.yearlyTargetApr / totalSupply;
    ShareTimesBack(x, c.yearlyTargetApr, totalSupply);
  }

  /** Dividing by the APR and the supply, then multiplying by the supply and the APR, gives the original. */
  lemma ShareTimesBack(x: real, apr: real, supply: real)
    requires apr != 0.0 && supply != 0.0
    ensures x / apr / supply * supply * apr == x
  {
    assert x / apr / supply * supply == x / apr;
    assert x / apr * apr == x;
  }

  /**
    The compounding has its closed form: column 0 is the base incentive times
    `1 + m + ... + m^5`, which is the sum of the columns `base * m^i`.
   */
  lemma {:induction false} GeomSumIsColumnSum(m: real, n: nat)
    ensures GeomSum(m, n) == Sum(seq(n + 1, i requires 0 <= i <= n => Pow(m, i)))
  {
    var powers := seq(n + 1, i requires 0 <= i <= n => Pow(m, i));
    if n == 0 {
      SumSingle(1.0);
      assert powers == [1.0];
    } else {
      GeomSumIsColumnSum(m, n - 1);
      assert powers[..n] == seq(n, i requires 0 <= i <= n - 1 => Pow(m, i));
    }
  }
}
