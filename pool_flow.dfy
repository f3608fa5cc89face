/**
  The month-by-month pool flow of `compute_distribution_scenario`
  (streamlit_ioty.py). Three pools, Treasury, Staking and Minting, are driven
  over the months that both the revenue and the token-price series cover:

  - the revenue of the month buys tokens that are locked;
  - the Minting pool emits in proportion to how full it is, and the emission is
    locked too;
  - the Staking pool pays out the month's compounded staking incentive;
  - everything locked in a month is released in twelve equal slices, 12 to 23
    months later, as far as the release list reaches;
  - the release due this month is shared out by ratio, and every pool closes
    the month.

  The dashboard's session state and globals (revenue scenario, token prices,
  staking incentives, initial pool sizes) are the fields of `Inputs`.
  `ScenarioUpTo` is the loop as a value; the method
  `ComputeDistributionScenario` drives `Pool` objects and two arrays and is
  proved to end in the state `ScenarioUpTo` describes.
 */
module PoolFlow {
  import opened Wrappers
  import opened Series
  import opened DataPool

  const LockingYears: nat := 1
  const LockingMonths: nat := LockingYears * 12

  /** The dashboard's three pools, which it keys by these names. */
  datatype PoolName = Treasury | Staking | Minting
  {
    function Label(): string
    {
      match this
      case Treasury => "Treasury"
      case Staking => "Staking"
      case Minting => "Minting"
    }
  }

  /** The pools in the order the dashboard creates them. */
  const PoolNames: seq<PoolName> := [Treasury, Staking, Minting]

  /** What the scenario reads: its series, the initial pool sizes, the emission rate and the distribution ratios. */
  datatype Inputs = Inputs(
    revenue: seq<real>,
    tokenPrice: seq<real>,
    stakingIncentive: seq<real>,
    initialTreasuryTokens: real,
    initialStakingTokens: real,
    initialMintingTokens: real,
    emissionRate: real,
    ratios: map<PoolName, real>)
  {
    /** `simulation_length` */
    function SimulationLength(): nat
    {
      Min(|revenue|, |tokenPrice|)
    }

    /**
      What the loop needs: no zero price to divide by, a staking incentive for
      every month and a non-zero Minting cap to divide by.
     */
    predicate Valid()
    {
      (forall t :: 0 <= t < SimulationLength() ==> tokenPrice[t] != 0.0) &&
      |stakingIncentive| >= SimulationLength() &&
      initialMintingTokens != 0.0
    }
  }

  /** Only the Minting pool is capped, at its initial size. */
  function Cap(inputs: Inputs, name: PoolName): Option<real>
  {
    if name == Minting then Some(inputs.initialMintingTokens) else None
  }

  /** The three pools of the dashboard, as values. */
  datatype Pools = Pools(treasury: PoolState, staking: PoolState, minting: PoolState)
  {
    /** `pools[name]` */
    function Get(n: PoolName): PoolState
    {
      match n
      case Treasury => treasury
      case Staking => staking
      case Minting => minting
    }

    predicate Valid()
    {
      treasury.Valid() && staking.Valid() && minting.Valid()
    }
  }

  /** The three pools as the dashboard creates them. */
  function InitialPools(inputs: Inputs): (p: Pools)
    ensures p.Valid()
  {
    Pools(InitialState(inputs.initialTreasuryTokens), InitialState(inputs.initialStakingTokens), InitialState(inputs.initialMintingTokens))
  }

  /** The state of the loop: the pools, `tokens_to_be_unlocked` and `total_tokens_locked`. */
  datatype Scenario = Scenario(pools: Pools, unlocked: seq<real>, locked: seq<real>)

  /** A pool whose pending inflow and outflow are both zero. */
  predicate Settled(s: PoolState)
  {
    s.Valid() && s.PendingIn() == 0.0 && s.PendingOut() == 0.0
  }

  /** The tokens the revenue of month `m` buys, to be locked. */
  function LockedFromRevenue(inputs: Inputs, m: nat): (tokens: real)
    requires inputs.Valid() && m < inputs.SimulationLength()
    ensures tokens * inputs.tokenPrice[m] == inputs.revenue[m]
  {
    inputs.revenue[m] / inputs.tokenPrice[m]
  }

  /** What the Minting pool emits in month `m`, given its balance at the start of the month. */
  function MintingEmission(inputs: Inputs, m: nat, mintingTokens: real): (emission: real)
    requires inputs.Valid() && m < inputs.SimulationLength()
    ensures mintingTokens == 0.0 ==> emission == 0.0
    ensures emission * inputs.initialMintingTokens == LockedFromRevenue(inputs, m) * inputs.emissionRate * mintingTokens
  {
    IncentiveEmissionProportional(LockedFromRevenue(inputs, m), mintingTokens, inputs.initialMintingTokens, inputs.emissionRate);
    ComputeIncentiveEmission(LockedFromRevenue(inputs, m), mintingTokens, inputs.initialMintingTokens, inputs.emissionRate)
  }

  /** What a pool pays out in month `m`: the Minting emission, the staking incentive, or nothing. */
  function Outflow(inputs: Inputs, m: nat, n: PoolName, emission: real): real
    requires inputs.Valid() && m < inputs.SimulationLength()
  {
    if n == Minting then emission else if n == Staking then inputs.stakingIncentive[m] else 0.0
  }

  /** The share of the month's release a pool is handed: `amount * ratio`, or nothing for a pool without a ratio. */
  function Share(ratios: map<PoolName, real>, release: real, n: PoolName): real
  {
    if n in ratios then Portion(release, ratios[n]) else 0.0
  }

  /** `distribute_tokens_to_pools` for one pool: a pool with a ratio is handed its share of the release. */
  function HandedShare(s: PoolState, ratios: map<PoolName, real>, release: real, n: PoolName): (s': PoolState)
    requires s.Valid()
    ensures s'.Valid()
  {
    if n in ratios then AddIn(s, Share(ratios, release, n)) else s
  }

  /** A pool's month: it pays out, is handed its share of the release, and closes under its cap. */
  function PoolMonth(s: PoolState, inputs: Inputs, m: nat, n: PoolName, emission: real, release: real): (s': PoolState)
    requires inputs.Valid() && m < inputs.SimulationLength() && s.Valid()
    ensures s'.Valid()
  {
    var paid := if n == Treasury then s else AddOut(s, Outflow(inputs, m, n, emission));
    var handed := HandedShare(paid, inputs.ratios, release, n);
    Close(handed, Cap(inputs, n))
  }

  /** The pools after month `m`. */
  function MonthPools(p: Pools, inputs: Inputs, m: nat, emission: real, release: real): (p': Pools)
    requires inputs.Valid() && m < inputs.SimulationLength() && p.Valid()
    ensures p'.Valid()
  {
    Pools(PoolMonth(p.treasury, inputs, m, Treasury, emission, release),
          PoolMonth(p.staking, inputs, m, Staking, emission, release),
          PoolMonth(p.minting, inputs, m, Minting, emission, release))
  }

  /** One month of the loop. */
  function MonthStep(sc: Scenario, inputs: Inputs, m: nat): (sc': Scenario)
    requires inputs.Valid() && m < inputs.SimulationLength()
    requires sc.pools.Valid() && m < |sc.locked| && m < |sc.unlocked|
    ensures sc'.pools.Valid()
    ensures |sc'.unlocked| == |sc.unlocked| && |sc'.locked| == |sc.locked|
  {
    var unlocked := AddWindow(sc.unlocked, m + LockingMonths, LockingMonths, MonthLock(sc, inputs, m) / LockingMonths as real);
    Scenario(MonthPools(sc.pools, inputs, m, MonthEmission(sc, inputs, m), unlocked[m]), unlocked, sc.locked[m := MonthLock(sc, inputs, m)])
  }

  /** The Minting emission of month `m`, on what the month has locked so far. */
  function MonthEmission(sc: Scenario, inputs: Inputs, m: nat): real
    requires inputs.Valid() && m < inputs.SimulationLength() && m < |sc.locked|
  {
    ComputeIncentiveEmission(sc.locked[m] + LockedFromRevenue(inputs, m), sc.pools.minting.Current(), inputs.initialMintingTokens, inputs.emissionRate)
  }

  /** Everything month `m` locks: what was locked for it already, the revenue's tokens and the emission. */
  function MonthLock(sc: Scenario, inputs: Inputs, m: nat): real
    requires inputs.Valid() && m < inputs.SimulationLength() && m < |sc.locked|
  {
    sc.locked[m] + LockedFromRevenue(inputs, m) + MonthEmission(sc, inputs, m)
  }

  /** The loop of `compute_distribution_scenario` after its first `k` months. */
  function ScenarioUpTo(inputs: Inputs, k: nat): (sc: Scenario)
    requires inputs.Valid() && k <= inputs.SimulationLength()
    ensures sc.pools.Valid()
    ensures |sc.unlocked| == inputs.SimulationLength() + LockingMonths
    ensures |sc.locked| == inputs.SimulationLength() + LockingMonths
  {
    if k == 0 then
      Scenario(InitialPools(inputs), Zeros(inputs.SimulationLength() + LockingMonths), Zeros(inputs.SimulationLength() + LockingMonths))
    else
      MonthStep(ScenarioUpTo(inputs, k - 1), inputs, k - 1)
  }

  /**
    What holds between months after the first `k`: no pool has pending flows
    and each has `k + 1` closed balances, no release is due in the first twelve
    months, and nothing is locked yet for month `k` or later.
   */
  ghost predicate Between(sc: Scenario, inputs: Inputs, k: nat)
  {
    Settled(sc.pools.treasury) && Settled(sc.pools.staking) && Settled(sc.pools.minting) &&
    |sc.pools.treasury.history| == |sc.pools.staking.history| == |sc.pools.minting.history| == k + 1 &&
    |sc.unlocked| == |sc.locked| == inputs.SimulationLength() + LockingMonths &&
    (forall j :: 0 <= j < LockingMonths ==> sc.unlocked[j] == 0.0) &&
    (forall j :: k <= j < |sc.locked| ==> sc.locked[j] == 0.0) &&
    (inputs.initialMintingTokens >= 0.0 ==> AllBounded(sc.pools, inputs))
  }

  lemma {:induction false} ScenarioInvariant(inputs: Inputs, k: nat)
    requires inputs.Valid() && k <= inputs.SimulationLength()
    ensures Between(ScenarioUpTo(inputs, k), inputs, k)
  {
    if k == 0 {
      ScenarioStarts(inputs);
    } else {
      ScenarioInvariant(inputs, k - 1);
      ScenarioStep(inputs, k);
    }
  }

  lemma ScenarioStarts(inputs: Inputs)
    requires inputs.Valid()
    ensures Between(ScenarioUpTo(inputs, 0), inputs, 0)
  {
  }

  lemma ScenarioStep(inputs: Inputs, k: nat)
    requires inputs.Valid() && 0 < k <= inputs.SimulationLength()
    requires Between(ScenarioUpTo(inputs, k - 1), inputs, k - 1)
    ensures Between(ScenarioUpTo(inputs, k), inputs, k)
  {
    MonthStepBetween(ScenarioUpTo(inputs, k - 1), inputs, k - 1);
  }

  /** A pool's month closes one more balance, keeps the earlier ones and opens fresh pending slots. */
  lemma PoolMonthCloses(s: PoolState, inputs: Inputs, m: nat, n: PoolName, emission: real, release: real)
    requires inputs.Valid() && m < inputs.SimulationLength() && s.Valid()
    ensures var s' := PoolMonth(s, inputs, m, n, emission, release);
            Settled(s') && |s'.history| == |s.history| + 1 && s'.history[..|s.history|] == s.history
  {
  }

  /** The month as `MonthStep` computes it once nothing is locked yet for month `m`. */
  lemma MonthStepUnfold(sc: Scenario, inputs: Inputs, m: nat)
    requires inputs.Valid() && m < inputs.SimulationLength()
    requires sc.pools.Valid() && m < |sc.locked| && m < |sc.unlocked| && sc.locked[m] == 0.0
    ensures var emission := MintingEmission(inputs, m, sc.pools.minting.Current());
            var sc' := MonthStep(sc, inputs, m);
            sc'.pools == MonthPools(sc.pools, inputs, m, emission, sc.unlocked[m]) &&
            sc'.locked[m] == LockedFromRevenue(inputs, m) + emission
  {
    assert sc.locked[m] + LockedFromRevenue(inputs, m) == LockedFromRevenue(inputs, m);
  }

  /** The month's lock is spread over later months only: the releases due up to month `m + 11` stay as they were. */
  lemma MonthStepReleases(sc: Scenario, inputs: Inputs, m: nat)
    requires inputs.Valid() && m < inputs.SimulationLength()
    requires sc.pools.Valid() && m < |sc.locked| && m < |sc.unlocked|
    ensures forall j :: 0 <= j < m + LockingMonths && j < |sc.unlocked| ==> MonthStep(sc, inputs, m).unlocked[j] == sc.unlocked[j]
  {
  }

  /** Only month `m`'s lock changes. */
  lemma MonthStepLocks(sc: Scenario, inputs: Inputs, m: nat)
    requires inputs.Valid() && m < inputs.SimulationLength()
    requires sc.pools.Valid() && m < |sc.locked| && m < |sc.unlocked|
    ensures forall j :: 0 <= j < |sc.locked| && j != m ==> MonthStep(sc, inputs, m).locked[j] == sc.locked[j]
  {
  }

  /** A month keeps `Between`. */
  lemma MonthStepBetween(sc: Scenario, inputs: Inputs, m: nat)
    requires inputs.Valid() && m < inputs.SimulationLength() && Between(sc, inputs, m)
    ensures Between(MonthStep(sc, inputs, m), inputs, m + 1)
  {
    var emission := MintingEmission(inputs, m, sc.pools.minting.Current());
    MonthStepUnfold(sc, inputs, m);
    MonthStepReleases(sc, inputs, m);
    MonthStepLocks(sc, inputs, m);
    PoolMonthCloses(sc.pools.treasury, inputs, m, Treasury, emission, sc.unlocked[m]);
    PoolMonthCloses(sc.pools.staking, inputs, m, Staking, emission, sc.unlocked[m]);
    PoolMonthCloses(sc.pools.minting, inputs, m, Minting, emission, sc.unlocked[m]);
    if inputs.initialMintingTokens >= 0.0 {
      MonthStepAllBounded(sc, inputs, m);
    }
  }

  /** `MonthPools` runs each pool's own month. */
  lemma MonthPoolsGet(p: Pools, inputs: Inputs, m: nat, emission: real, release: real, n: PoolName)
    requires inputs.Valid() && m < inputs.SimulationLength() && p.Valid()
    ensures MonthPools(p, inputs, m, emission, release).Get(n) == PoolMonth(p.Get(n), inputs, m, n, emission, release)
  {
  }

  /** A settled pool's month: the new balance is the old one plus its share, less its payout, clamped under its cap. */
  lemma PoolMonthBalance(s: PoolState, inputs: Inputs, m: nat, n: PoolName, emission: real, release: real)
    requires inputs.Valid() && m < inputs.SimulationLength() && Settled(s)
    ensures PoolMonth(s, inputs, m, n, emission, release).Current()
              == Clamp(s.Current() + Share(inputs.ratios, release, n) - Outflow(inputs, m, n, emission), Cap(inputs, n))
  {
    var share, outflow := Share(inputs.ratios, release, n), Outflow(inputs, m, n, emission);
    var paid := if n == Treasury then s else AddOut(s, outflow);
    var handed := HandedShare(paid, inputs.ratios, release, n);
    assert handed.Current() == s.Current() && handed.PendingIn() == share && handed.PendingOut() == outflow;
    assert handed.Current() + handed.PendingIn() - handed.PendingOut() == s.Current() + share - outflow;
  }

  /** A pool whose closed balances lie in [0, cap] keeps them there through its month. */
  lemma PoolMonthBounded(s: PoolState, inputs: Inputs, m: nat, n: PoolName, emission: real, release: real)
    requires inputs.Valid() && m < inputs.SimulationLength() && s.Valid()
    requires CapAdmitsZero(Cap(inputs, n)) && Bounded(s.history, Cap(inputs, n))
    ensures Bounded(PoolMonth(s, inputs, m, n, emission, release).history, Cap(inputs, n))
  {
  }

  /**
    The balance law of month `m`: each pool's new balance is the old one plus
    its share of the release due this month, less its payout, clamped to
    [0, cap]. The Minting payout is its emission, computed from its balance at
    the start of the month; the Staking payout is the month's staking
    incentive; the month's lock is the revenue's tokens plus the emission.
   */
  ghost predicate BalanceLaw(before: Scenario, after: Scenario, inputs: Inputs, m: nat, n: PoolName)
    requires inputs.Valid() && m < inputs.SimulationLength() && m < |before.unlocked| && m < |after.locked|
  {
    var emission := MintingEmission(inputs, m, before.pools.minting.Current());
    after.pools.Get(n).Current()
      == Clamp(before.pools.Get(n).Current() + Share(inputs.ratios, before.unlocked[m], n) - Outflow(inputs, m, n, emission), Cap(inputs, n)) &&
    after.locked[m] == LockedFromRevenue(inputs, m) + emission
  }

  /** Every month between months obeys the balance law. */
  lemma MonthBalance(sc: Scenario, inputs: Inputs, m: nat, n: PoolName)
    requires inputs.Valid() && m < inputs.SimulationLength()
    requires sc.pools.Valid() && Settled(sc.pools.Get(n))
    requires m < |sc.locked| && m < |sc.unlocked| && sc.locked[m] == 0.0
    ensures BalanceLaw(sc, MonthStep(sc, inputs, m), inputs, m, n)
  {
    var emission := MintingEmission(inputs, m, sc.pools.minting.Current());
    MonthStepPool(sc, inputs, m, n);
    PoolMonthBalance(sc.pools.Get(n), inputs, m, n, emission, sc.unlocked[m]);
  }

  /** Each pool's month within `MonthStep`, once nothing is locked yet for month `m`. */
  lemma MonthStepPool(sc: Scenario, inputs: Inputs, m: nat, n: PoolName)
    requires inputs.Valid() && m < inputs.SimulationLength()
    requires sc.pools.Valid() && m < |sc.locked| && m < |sc.unlocked| && sc.locked[m] == 0.0
    ensures var emission := MintingEmission(inputs, m, sc.pools.minting.Current());
            MonthStep(sc, inputs, m).pools.Get(n) == PoolMonth(sc.pools.Get(n), inputs, m, n, emission, sc.unlocked[m]) &&
            MonthStep(sc, inputs, m).locked[m] == LockedFromRevenue(inputs, m) + emission
  {
    var emission := MintingEmission(inputs, m, sc.pools.minting.Current());
    MonthStepUnfold(sc, inputs, m);
    MonthPoolsGet(sc.pools, inputs, m, emission, sc.unlocked[m], n);
  }

  /** Month `m`'s lock adds a twelfth of itself to each of the months m + 12 to m + 23 that the list holds, and nowhere else. */
  lemma MonthStepWindow(sc: Scenario, inputs: Inputs, m: nat)
    requires inputs.Valid() && m < inputs.SimulationLength()
    requires sc.pools.Valid() && m < |sc.locked| && m < |sc.unlocked|
    ensures var after := MonthStep(sc, inputs, m);
            forall j :: 0 <= j < |sc.unlocked| ==>
              after.unlocked[j] == sc.unlocked[j] + (if m + LockingMonths <= j < m + 2 * LockingMonths then after.locked[m] / LockingMonths as real else 0.0)
  {
  }

  /** Month `m`'s lock is released in full when the list holds all twelve of its release months. */
  lemma MonthStepReleasesLockInFull(sc: Scenario, inputs: Inputs, m: nat)
    requires inputs.Valid() && m < inputs.SimulationLength()
    requires sc.pools.Valid() && m < |sc.locked| && m + 2 * LockingMonths <= |sc.unlocked|
    ensures var after := MonthStep(sc, inputs, m);
            Sum(after.unlocked) == Sum(sc.unlocked) + after.locked[m]
  {
    var after := MonthStep(sc, inputs, m);
    MonthStepUnlocked(sc, inputs, m);
    WindowTotalInside(sc.unlocked, m + LockingMonths, after.locked[m]);
  }

  /** The release list after month `m`: the month's lock spread over months m + 12 to m + 23. */
  lemma MonthStepUnlocked(sc: Scenario, inputs: Inputs, m: nat)
    requires inputs.Valid() && m < inputs.SimulationLength()
    requires sc.pools.Valid() && m < |sc.locked| && m < |sc.unlocked|
    ensures var after := MonthStep(sc, inputs, m);
            after.unlocked == AddWindow(sc.unlocked, m + LockingMonths, LockingMonths, after.locked[m] / LockingMonths as real)
  {
  }

  /** Spreading `total` in twelfths from month `lo` on adds a twelfth for each month of the window the list holds. */
  lemma WindowTotal(s: seq<real>, lo: nat, total: real)
    ensures var r := AddWindow(s, lo, LockingMonths, total / LockingMonths as real);
            Sum(r) == Sum(s) + WindowCount(lo, LockingMonths, |s|) as real * (total / LockingMonths as real)
  {
    SumAddWindow(s, lo, LockingMonths, total / LockingMonths as real);
  }

  /** When the list holds all twelve months of the window, all of `total` is spread. */
  lemma WindowTotalInside(s: seq<real>, lo: nat, total: real)
    requires lo + LockingMonths <= |s|
    ensures Sum(AddWindow(s, lo, LockingMonths, total / LockingMonths as real)) == Sum(s) + total
  {
    SpreadSum(s, lo, LockingMonths, total);
  }

  /** A month keeps every earlier closed balance of every pool. */
  lemma MonthStepKeepsHistory(sc: Scenario, inputs: Inputs, m: nat, n: PoolName)
    requires inputs.Valid() && m < inputs.SimulationLength() && Between(sc, inputs, m)
    ensures IsPrefix(sc.pools.Get(n).history, MonthStep(sc, inputs, m).pools.Get(n).history)
  {
    var emission := MintingEmission(inputs, m, sc.pools.minting.Current());
    MonthStepPool(sc, inputs, m, n);
    PoolMonthCloses(sc.pools.Get(n), inputs, m, n, emission, sc.unlocked[m]);
  }

  /** A month keeps the closed balances of every pool in [0, cap]. */
  lemma MonthStepBounded(sc: Scenario, inputs: Inputs, m: nat, n: PoolName)
    requires inputs.Valid() && m < inputs.SimulationLength() && Between(sc, inputs, m)
    requires CapAdmitsZero(Cap(inputs, n)) && Bounded(sc.pools.Get(n).history, Cap(inputs, n))
    ensures Bounded(MonthStep(sc, inputs, m).pools.Get(n).history, Cap(inputs, n))
  {
    var emission := MintingEmission(inputs, m, sc.pools.minting.Current());
    MonthStepPool(sc, inputs, m, n);
    PoolMonthBounded(sc.pools.Get(n), inputs, m, n, emission, sc.unlocked[m]);
  }

  /** Every pool has one closed balance per month simulated, and no pending flow between months. */
  lemma ScenarioHistoryLengths(inputs: Inputs, k: nat, n: PoolName)
    requires inputs.Valid() && k <= inputs.SimulationLength()
    ensures var s := ScenarioUpTo(inputs, k).pools.Get(n);
            |s.history| == k + 1 && Settled(s)
  {
    ScenarioInvariant(inputs, k);
  }

  /** Every month of the loop obeys the balance law. */
  lemma ScenarioMonth(inputs: Inputs, m: nat, n: PoolName)
    requires inputs.Valid() && m < inputs.SimulationLength()
    ensures BalanceLaw(ScenarioUpTo(inputs, m), ScenarioUpTo(inputs, m + 1), inputs, m, n)
  {
    ScenarioInvariant(inputs, m);
    MonthBalance(ScenarioUpTo(inputs, m), inputs, m, n);
  }

  /** Nothing is due for release, and so nothing is shared out, in the first twelve months. */
  lemma NothingReleasedEarly(inputs: Inputs, m: nat, n: PoolName)
    requires inputs.Valid() && m < inputs.SimulationLength() && m < LockingMonths
    ensures ScenarioUpTo(inputs, m).unlocked[m] == 0.0
    ensures Share(inputs.ratios, ScenarioUpTo(inputs, m).unlocked[m], n) == 0.0
  {
    ScenarioInvariant(inputs, m);
  }

  /** The whole of month `m`'s lock is released, when its twelve release months all lie within the list. */
  lemma ScenarioReleasesLock(inputs: Inputs, m: nat)
    requires inputs.Valid() && m + LockingMonths <= inputs.SimulationLength()
    ensures var before, after := ScenarioUpTo(inputs, m), ScenarioUpTo(inputs, m + 1);
            Sum(after.unlocked) == Sum(before.unlocked) + after.locked[m]
  {
    MonthStepReleasesLockInFull(ScenarioUpTo(inputs, m), inputs, m);
  }

  /** `h` is the start of `h'`. */
  predicate IsPrefix(h: seq<real>, h': seq<real>)
  {
    |h| <= |h'| && h'[..|h|] == h
  }

  /** A month of the loop never rewrites a pool's earlier closed balances. */
  lemma ScenarioKeepsHistory(inputs: Inputs, m: nat, n: PoolName)
    requires inputs.Valid() && m < inputs.SimulationLength()
    ensures IsPrefix(ScenarioUpTo(inputs, m).pools.Get(n).history, ScenarioUpTo(inputs, m + 1).pools.Get(n).history)
  {
    ScenarioInvariant(inputs, m);
    MonthStepKeepsHistory(ScenarioUpTo(inputs, m), inputs, m, n);
  }

  /** Every balance each pool has closed lies in [0, cap]. */
  ghost predicate AllBounded(p: Pools, inputs: Inputs)
  {
    Bounded(p.treasury.history, Cap(inputs, Treasury)) &&
    Bounded(p.staking.history, Cap(inputs, Staking)) &&
    Bounded(p.minting.history, Cap(inputs, Minting))
  }

  /** A month keeps every pool's closed balances in [0, cap]. */
  lemma MonthStepAllBounded(sc: Scenario, inputs: Inputs, m: nat)
    requires inputs.Valid() && m < inputs.SimulationLength() && Between(sc, inputs, m)
    requires inputs.initialMintingTokens >= 0.0
    ensures AllBounded(MonthStep(sc, inputs, m).pools, inputs)
  {
    MonthStepBounded(sc, inputs, m, Treasury);
    MonthStepBounded(sc, inputs, m, Staking);
    MonthStepBounded(sc, inputs, m, Minting);
  }

  /**
    Every balance a pool closes lies in [0, cap] when the Minting cap is not
    negative: the Minting pool never exceeds its initial size, and no pool
    goes below zero after its first month.
   */
  lemma ScenarioBounded(inputs: Inputs, k: nat, n: PoolName)
    requires inputs.Valid() && k <= inputs.SimulationLength() && inputs.initialMintingTokens >= 0.0
    ensures Bounded(ScenarioUpTo(inputs, k).pools.Get(n).history, Cap(inputs, n))
  {
    ScenarioInvariant(inputs, k);
  }

  /** The pools after `MonthStep`, as the loop body computes them. */
  lemma MonthStepPools(sc: Scenario, inputs: Inputs, m: nat, lockedSoFar: real, emission: real)
    requires inputs.Valid() && m < inputs.SimulationLength()
    requires sc.pools.Valid() && m < |sc.locked| && m < |sc.unlocked|
    requires lockedSoFar == sc.locked[m] + LockedFromRevenue(inputs, m)
    requires emission == ComputeIncentiveEmission(lockedSoFar, sc.pools.minting.Current(), inputs.initialMintingTokens, inputs.emissionRate)
    ensures MonthStep(sc, inputs, m).pools == MonthPools(sc.pools, inputs, m, emission, sc.unlocked[m])
  {
    assert emission == MonthEmission(sc, inputs, m);
    MonthStepRelease(sc, inputs, m);
  }

  /** The two lists after `MonthStep`, as the loop body computes them. */
  lemma MonthStepLists(sc: Scenario, inputs: Inputs, m: nat, lockedSoFar: real, emission: real, unlocked': seq<real>, locked': seq<real>)
    requires inputs.Valid() && m < inputs.SimulationLength()
    requires sc.pools.Valid() && m < |sc.locked| && m < |sc.unlocked|
    requires lockedSoFar == sc.locked[m] + LockedFromRevenue(inputs, m)
    requires emission == ComputeIncentiveEmission(lockedSoFar, sc.pools.minting.Current(), inputs.initialMintingTokens, inputs.emissionRate)
    requires unlocked' == AddWindow(sc.unlocked, m + LockingMonths, LockingMonths, (lockedSoFar + emission) / LockingMonths as real)
    requires locked' == sc.locked[m := lockedSoFar + emission]
    ensures MonthStep(sc, inputs, m).unlocked == unlocked'
    ensures MonthStep(sc, inputs, m).locked == locked'
  {
    assert lockedSoFar + emission == MonthLock(sc, inputs, m);
  }

  /** The month's lock is released in later months only: the release due this month stays as it was. */
  lemma MonthStepRelease(sc: Scenario, inputs: Inputs, m: nat)
    requires inputs.Valid() && m < inputs.SimulationLength()
    requires sc.pools.Valid() && m < |sc.locked| && m < |sc.unlocked|
    ensures MonthStep(sc, inputs, m).unlocked[m] == sc.unlocked[m]
  {
  }

  /** Every name is one of the three pools'. */
  lemma AllPoolNames(names: set<PoolName>)
    ensures names <= {Treasury, Staking, Minting}
  {
    forall n | n in names
      ensures n in {Treasury, Staking, Minting}
    {
      match n
      case Treasury =>
      case Staking =>
      case Minting =>
    }
  }

  /** The pools of the dashboard's map, as values. */
  function PoolsOf(pools: map<PoolName, Pool>): Pools
    requires Treasury in pools && Staking in pools && Minting in pools
    reads pools.Values
  {
    Pools(pools[Treasury].State(), pools[Staking].State(), pools[Minting].State())
  }

  /** The inner loop: a twelfth of `lockedThisMonth` is added to each of the months `month + 12` to `month + 23` that the list holds. */
  method SpreadLock(tokensToBeUnlocked: array<real>, simulationLength: nat, month: nat, lockedThisMonth: real)
    requires tokensToBeUnlocked.Length == simulationLength + LockingMonths
    modifies tokensToBeUnlocked
    ensures tokensToBeUnlocked[..] == AddWindow(old(tokensToBeUnlocked[..]), month + LockingMonths, LockingMonths, lockedThisMonth / LockingMonths as real)
  {
    ghost var start := tokensToBeUnlocked[..];
    var slice := lockedThisMonth / LockingMonths as real;
    var i := 0;
    AddWindowEmpty(start, month + LockingMonths, 0, slice);
    while i < LockingMonths
      invariant 0 <= i <= LockingMonths
      invariant tokensToBeUnlocked[..] == AddWindow(start, month + LockingMonths, i, slice)
    {
      if month + LockingMonths + i < simulationLength + LockingMonths {
        AddWindowGrow(start, month + LockingMonths, i, slice);
        tokensToBeUnlocked[month + LockingMonths + i] := tokensToBeUnlocked[month + LockingMonths + i] + slice;
      } else {
        AddWindowBeyond(start, month + LockingMonths, i, slice);
      }
      i := i + 1;
    }
  }

  /** The dashboard's map: the three distinct pool objects under their names. */
  ghost predicate PoolMap(pools: map<PoolName, Pool>, treasury: Pool, staking: Pool, minting: Pool)
  {
    pools == map[Treasury := treasury, Staking := staking, Minting := minting] &&
    treasury != staking && treasury != minting && staking != minting
  }

  lemma PoolMapFacts(pools: map<PoolName, Pool>, treasury: Pool, staking: Pool, minting: Pool)
    requires PoolMap(pools, treasury, staking, minting)
    ensures pools.Keys == {Treasury, Staking, Minting} && DistinctPools(pools)
  {
  }

  /** The value of a month assembled from its parts: the pools as `MonthPools` and the two lists as the loop body leaves them. */
  lemma MonthStepAssembled(sc: Scenario, inputs: Inputs, m: nat, lockedSoFar: real, emission: real, p': Pools, unlocked': seq<real>, locked': seq<real>)
    requires inputs.Valid() && m < inputs.SimulationLength()
    requires sc.pools.Valid() && m < |sc.locked| && m < |sc.unlocked|
    requires lockedSoFar == sc.locked[m] + LockedFromRevenue(inputs, m)
    requires emission == ComputeIncentiveEmission(lockedSoFar, sc.pools.minting.Current(), inputs.initialMintingTokens, inputs.emissionRate)
    requires p' == MonthPools(sc.pools, inputs, m, emission, sc.unlocked[m])
    requires unlocked' == AddWindow(sc.unlocked, m + LockingMonths, LockingMonths, (lockedSoFar + emission) / LockingMonths as real)
    requires locked' == sc.locked[m := lockedSoFar + emission]
    ensures Scenario(p', unlocked', locked') == MonthStep(sc, inputs, m)
  {
    var sc' := MonthStep(sc, inputs, m);
    MonthStepPools(sc, inputs, m, lockedSoFar, emission);
    MonthStepLists(sc, inputs, m, lockedSoFar, emission, unlocked', locked');
  }

  /** The three pools' months as the loop body runs them: pay out, be handed a share, close. */
  lemma MonthPoolsAre(p: Pools, inputs: Inputs, m: nat, emission: real, release: real, paidStaking: PoolState, paidMinting: PoolState, p': Pools)
    requires inputs.Valid() && m < inputs.SimulationLength() && p.Valid()
    requires paidStaking == AddOut(p.staking, inputs.stakingIncentive[m])
    requires paidMinting == AddOut(p.minting, emission)
    requires p'.treasury == Close(HandedShare(p.treasury, inputs.ratios, release, Treasury), Cap(inputs, Treasury))
    requires p'.staking == Close(HandedShare(paidStaking, inputs.ratios, release, Staking), Cap(inputs, Staking))
    requires p'.minting == Close(HandedShare(paidMinting, inputs.ratios, release, Minting), Cap(inputs, Minting))
    ensures p' == MonthPools(p, inputs, m, emission, release)
  {
    PoolMonthSteps(p.treasury, inputs, m, Treasury, emission, release, p.treasury,
                   HandedShare(p.treasury, inputs.ratios, release, Treasury));
    PoolMonthSteps(p.staking, inputs, m, Staking, emission, release, paidStaking,
                   HandedShare(paidStaking, inputs.ratios, release, Staking));
    PoolMonthSteps(p.minting, inputs, m, Minting, emission, release, paidMinting,
                   HandedShare(paidMinting, inputs.ratios, release, Minting));
  }

  /** A pool's month as the loop body runs it: pay out, be handed a share, close. */
  lemma PoolMonthSteps(s: PoolState, inputs: Inputs, m: nat, n: PoolName, emission: real, release: real, paid: PoolState, handed: PoolState)
    requires inputs.Valid() && m < inputs.SimulationLength() && s.Valid()
    requires paid == if n == Treasury then s else AddOut(s, Outflow(inputs, m, n, emission))
    requires handed == HandedShare(paid, inputs.ratios, release, n)
    ensures PoolMonth(s, inputs, m, n, emission, release) == Close(handed, Cap(inputs, n))
  {
  }

  /**
    The start of month `month`: the month's revenue buys tokens that are
    locked, the Minting pool emits in proportion to how full it is and the
    emission is locked too, and the Staking pool pays the month's staking
    incentive.
   */
  method LockAndPayOut(inputs: Inputs, month: nat, pools: map<PoolName, Pool>, treasury: Pool, staking: Pool, minting: Pool,
                       totalTokensLocked: array<real>)
    returns (mintingEmission: real)
    requires inputs.Valid() && month < inputs.SimulationLength() && month < totalTokensLocked.Length
    requires PoolMap(pools, treasury, staking, minting) && staking.Valid() && minting.Valid()
    modifies staking, minting, totalTokensLocked
    ensures mintingEmission == ComputeIncentiveEmission(old(totalTokensLocked[month]) + LockedFromRevenue(inputs, month),
                                                        old(minting.State().Current()), inputs.initialMintingTokens, inputs.emissionRate)
    ensures totalTokensLocked[..] == old(totalTokensLocked[..])[month := old(totalTokensLocked[month]) + LockedFromRevenue(inputs, month) + mintingEmission]
    ensures staking.Valid() && staking.State() == AddOut(old(staking.State()), inputs.stakingIncentive[month])
    ensures minting.Valid() && minting.State() == AddOut(old(minting.State()), mintingEmission)
  {
    var tokensToBeLockedFromRevenu := inputs.revenue[month] / inputs.tokenPrice[month];
    totalTokensLocked[month] := totalTokensLocked[month] + tokensToBeLockedFromRevenu;
    var mintingPoolTokens := pools[Minting].GetCurrentTokens();
    mintingEmission := ComputeIncentiveEmission(totalTokensLocked[month], mintingPoolTokens, inputs.initialMintingTokens, inputs.emissionRate);
    pools[Minting].SubtractTokens(mintingEmission);
    var stakingEmission := inputs.stakingIncentive[month];
    pools[Staking].SubtractTokens(stakingEmission);
    totalTokensLocked[month] := totalTokensLocked[month] + mintingEmission;
  }

  /** `distribute_tokens_to_pools` on the dashboard's pools: each pool is handed its share of the release. */
  method HandOut(inputs: Inputs, release: real, pools: map<PoolName, Pool>, treasury: Pool, staking: Pool, minting: Pool)
    requires PoolMap(pools, treasury, staking, minting) && treasury.Valid() && staking.Valid() && minting.Valid()
    modifies treasury, staking, minting
    ensures treasury.Valid() && treasury.State() == HandedShare(old(treasury.State()), inputs.ratios, release, Treasury)
    ensures staking.Valid() && staking.State() == HandedShare(old(staking.State()), inputs.ratios, release, Staking)
    ensures minting.Valid() && minting.State() == HandedShare(old(minting.State()), inputs.ratios, release, Minting)
  {
    PoolMapFacts(pools, treasury, staking, minting);
    AllPoolNames(inputs.ratios.Keys);
    assert pools[Treasury] == treasury && pools[Staking] == staking && pools[Minting] == minting;
    DistributeTokensToPools(release, pools, inputs.ratios);
  }

  /** `update_history` on the dashboard's pools: every pool closes the month against its cap. */
  method CloseMonth(inputs: Inputs, pools: map<PoolName, Pool>, treasury: Pool, staking: Pool, minting: Pool)
    requires PoolMap(pools, treasury, staking, minting) && treasury.Valid() && staking.Valid() && minting.Valid()
    requires treasury.maxTokens == Cap(inputs, Treasury) && staking.maxTokens == Cap(inputs, Staking) && minting.maxTokens == Cap(inputs, Minting)
    modifies treasury, staking, minting
    ensures treasury.Valid() && treasury.State() == Close(old(treasury.State()), Cap(inputs, Treasury))
    ensures staking.Valid() && staking.State() == Close(old(staking.State()), Cap(inputs, Staking))
    ensures minting.Valid() && minting.State() == Close(old(minting.State()), Cap(inputs, Minting))
  {
    PoolMapFacts(pools, treasury, staking, minting);
    assert pools[Treasury] == treasury && pools[Staking] == staking && pools[Minting] == minting;
    UpdateHistories(pools);
  }

  /** The first half of the loop body: lock the month's tokens, pay out the two emissions and spread the lock over the
      unlocking window. `sc` is the scenario the month starts from. */
  method LockMonth(inputs: Inputs, month: nat, pools: map<PoolName, Pool>, treasury: Pool, staking: Pool, minting: Pool,
                   tokensToBeUnlocked: array<real>, totalTokensLocked: array<real>, ghost sc: Scenario, ghost lockedSoFar: real)
    returns (mintingEmission: real)
    requires inputs.Valid() && month < inputs.SimulationLength()
    requires PoolMap(pools, treasury, staking, minting) && staking.Valid() && minting.Valid()
    requires tokensToBeUnlocked.Length == totalTokensLocked.Length == inputs.SimulationLength() + LockingMonths
    requires tokensToBeUnlocked != totalTokensLocked
    requires sc.pools.minting == minting.State() && sc.pools.staking == staking.State()
    requires sc.unlocked == tokensToBeUnlocked[..] && sc.locked == totalTokensLocked[..]
    requires lockedSoFar == totalTokensLocked[month] + LockedFromRevenue(inputs, month)
    modifies staking, minting, tokensToBeUnlocked, totalTokensLocked
    ensures mintingEmission == ComputeIncentiveEmission(lockedSoFar, sc.pools.minting.Current(), inputs.initialMintingTokens, inputs.emissionRate)
    ensures totalTokensLocked[..] == sc.locked[month := lockedSoFar + mintingEmission]
    ensures tokensToBeUnlocked[..] == AddWindow(sc.unlocked, month + LockingMonths, LockingMonths, (lockedSoFar + mintingEmission) / LockingMonths as real)
    ensures staking.Valid() && staking.State() == AddOut(sc.pools.staking, inputs.stakingIncentive[month])
    ensures minting.Valid() && minting.State() == AddOut(sc.pools.minting, mintingEmission)
  {
    mintingEmission := LockAndPayOut(inputs, month, pools, treasury, staking, minting, totalTokensLocked);
    SpreadLock(tokensToBeUnlocked, inputs.SimulationLength(), month, totalTokensLocked[month]);
  }

  /** The body of the month loop: its effect on the pools and the two lists is `MonthStep`. */
  method RunMonth(inputs: Inputs, month: nat, pools: map<PoolName, Pool>, treasury: Pool, staking: Pool, minting: Pool,
                  tokensToBeUnlocked: array<real>, totalTokensLocked: array<real>)
    requires inputs.Valid() && month < inputs.SimulationLength()
    requires PoolMap(pools, treasury, staking, minting) && treasury.Valid() && staking.Valid() && minting.Valid()
    requires treasury.maxTokens == Cap(inputs, Treasury) && staking.maxTokens == Cap(inputs, Staking) && minting.maxTokens == Cap(inputs, Minting)
    requires tokensToBeUnlocked.Length == totalTokensLocked.Length == inputs.SimulationLength() + LockingMonths
    requires tokensToBeUnlocked != totalTokensLocked
    modifies treasury, staking, minting, tokensToBeUnlocked, totalTokensLocked
    ensures treasury.Valid() && staking.Valid() && minting.Valid()
    ensures Scenario(Pools(treasury.State(), staking.State(), minting.State()), tokensToBeUnlocked[..], totalTokensLocked[..])
              == MonthStep(Scenario(Pools(old(treasury.State()), old(staking.State()), old(minting.State())),
                                    old(tokensToBeUnlocked[..]), old(totalTokensLocked[..])), inputs, month)
  {
    ghost var sc := Scenario(Pools(treasury.State(), staking.State(), minting.State()), tokensToBeUnlocked[..], totalTokensLocked[..]);
    ghost var lockedSoFar := totalTokensLocked[month] + LockedFromRevenue(inputs, month);
    var mintingEmission := LockMonth(inputs, month, pools, treasury, staking, minting, tokensToBeUnlocked, totalTokensLocked, sc, lockedSoFar);
    ghost var paid := Pools(treasury.State(), staking.State(), minting.State());
    ghost var unlockedNow := tokensToBeUnlocked[..];
    ghost var lockedNow := totalTokensLocked[..];
    var release := tokensToBeUnlocked[month];
    assert release == sc.unlocked[month];
    HandOut(inputs, release, pools, treasury, staking, minting);
    CloseMonth(inputs, pools, treasury, staking, minting);
    ghost var after := Pools(treasury.State(), staking.State(), minting.State());
    MonthPoolsAre(sc.pools, inputs, month, mintingEmission, release, paid.staking, paid.minting, after);
    MonthStepAssembled(sc, inputs, month, lockedSoFar, mintingEmission, after, unlockedNow, lockedNow);
  }

  /** Month `month` of the loop takes the scenario after `month` months to the one after `month + 1`. */
  method NextMonth(inputs: Inputs, month: nat, pools: map<PoolName, Pool>, treasury: Pool, staking: Pool, minting: Pool,
                   tokensToBeUnlocked: array<real>, totalTokensLocked: array<real>)
    requires inputs.Valid() && month < inputs.SimulationLength()
    requires PoolMap(pools, treasury, staking, minting) && treasury.Valid() && staking.Valid() && minting.Valid()
    requires treasury.maxTokens == Cap(inputs, Treasury) && staking.maxTokens == Cap(inputs, Staking) && minting.maxTokens == Cap(inputs, Minting)
    requires tokensToBeUnlocked != totalTokensLocked
    requires Reached(inputs, month, treasury, staking, minting, tokensToBeUnlocked, totalTokensLocked)
    modifies treasury, staking, minting, tokensToBeUnlocked, totalTokensLocked
    ensures Reached(inputs, month + 1, treasury, staking, minting, tokensToBeUnlocked, totalTokensLocked)
  {
    RunMonth(inputs, month, pools, treasury, staking, minting, tokensToBeUnlocked, totalTokensLocked);
    ScenarioUpToNext(inputs, month);
  }

  /** The pools and the two lists hold the scenario after `month` months. */
  ghost predicate Reached(inputs: Inputs, month: nat, treasury: Pool, staking: Pool, minting: Pool,
                          tokensToBeUnlocked: array<real>, totalTokensLocked: array<real>)
    reads treasury, staking, minting, tokensToBeUnlocked, totalTokensLocked
  {
    inputs.Valid() && month <= inputs.SimulationLength() &&
    treasury.Valid() && staking.Valid() && minting.Valid() &&
    Scenario(Pools(treasury.State(), staking.State(), minting.State()), tokensToBeUnlocked[..], totalTokensLocked[..])
      == ScenarioUpTo(inputs, month)
  }

  /** Both month lists of `compute_distribution_scenario` start at zero, twelve months beyond the simulation. */
  method StartLists(inputs: Inputs, simulationLength: nat) returns (tokensToBeUnlocked: array<real>, totalTokensLocked: array<real>)
    requires inputs.Valid() && simulationLength == Min(|inputs.revenue|, |inputs.tokenPrice|)
    ensures fresh(tokensToBeUnlocked) && fresh(totalTokensLocked) && tokensToBeUnlocked != totalTokensLocked
    ensures Scenario(InitialPools(inputs), tokensToBeUnlocked[..], totalTokensLocked[..]) == ScenarioUpTo(inputs, 0)
  {
    tokensToBeUnlocked := new real[simulationLength + LockingMonths](_ => 0.0);
    totalTokensLocked := new real[simulationLength + LockingMonths](_ => 0.0);
    assert simulationLength == inputs.SimulationLength();
    assert tokensToBeUnlocked[..] == Zeros(simulationLength + LockingMonths);
    assert totalTokensLocked[..] == Zeros(simulationLength + LockingMonths);
  }

  /**
    The lists and the month loop of `compute_distribution_scenario`: both
    lists start at zero, and the loop takes the initial pools to the end of the
    simulation.
   */
  method RunMonths(inputs: Inputs, pools: map<PoolName, Pool>, treasury: Pool, staking: Pool, minting: Pool)
    requires inputs.Valid()
    requires PoolMap(pools, treasury, staking, minting) && treasury.Valid() && staking.Valid() && minting.Valid()
    requires treasury.maxTokens == Cap(inputs, Treasury) && staking.maxTokens == Cap(inputs, Staking) && minting.maxTokens == Cap(inputs, Minting)
    requires Pools(treasury.State(), staking.State(), minting.State()) == InitialPools(inputs)
    modifies treasury, staking, minting
    ensures Pools(treasury.State(), staking.State(), minting.State()) == ScenarioUpTo(inputs, inputs.SimulationLength()).pools
  {
    var simulationLength := Min(|inputs.revenue|, |inputs.tokenPrice|);
    var tokensToBeUnlocked, totalTokensLocked := StartLists(inputs, simulationLength);
    var month := 0;
    while month < simulationLength
      invariant month <= simulationLength
      invariant Reached(inputs, month, treasury, staking, minting, tokensToBeUnlocked, totalTokensLocked)
    {
      NextMonth(inputs, month, pools, treasury, staking, minting, tokensToBeUnlocked, totalTokensLocked);
      month := month + 1;
    }
    assert month == inputs.SimulationLength();
  }

  /** The dashboard's three pools, keyed by name: only Minting is capped, at its initial size. */
  method CreatePools(inputs: Inputs) returns (pools: map<PoolName, Pool>, treasury: Pool, staking: Pool, minting: Pool)
    ensures fresh(treasury) && fresh(staking) && fresh(minting)
    ensures PoolMap(pools, treasury, staking, minting) && treasury.Valid() && staking.Valid() && minting.Valid()
    ensures treasury.name == "Treasury" && staking.name == "Staking" && minting.name == "Minting"
    ensures treasury.maxTokens == Cap(inputs, Treasury) && staking.maxTokens == Cap(inputs, Staking) && minting.maxTokens == Cap(inputs, Minting)
    ensures Pools(treasury.State(), staking.State(), minting.State()) == InitialPools(inputs)
  {
    treasury := new Pool("Treasury", None, inputs.initialTreasuryTokens);
    staking := new Pool("Staking", None, inputs.initialStakingTokens);
    minting := new Pool("Minting", Some(inputs.initialMintingTokens), inputs.initialMintingTokens);
    pools := map[Treasury := treasury, Staking := staking, Minting := minting];
  }

  /**
    `compute_distribution_scenario`: three pools and two lists driven month by
    month. The pools end as `ScenarioUpTo` describes after the last month.
   */
  method ComputeDistributionScenario(inputs: Inputs) returns (pools: map<PoolName, Pool>)
    requires inputs.Valid()
    ensures pools.Keys == {Treasury, Staking, Minting} && DistinctPools(pools)
    ensures forall n :: n in pools ==> pools[n].name == n.Label() && pools[n].maxTokens == Cap(inputs, n)
    ensures PoolsOf(pools) == ScenarioUpTo(inputs, inputs.SimulationLength()).pools
  {
    var treasury, staking, minting;
    pools, treasury, staking, minting := CreatePools(inputs);
    RunMonths(inputs, pools, treasury, staking, minting);
    PoolMapFacts(pools, treasury, staking, minting);
    PoolMapLabels(inputs, pools, treasury, staking, minting);
  }

  /** The scenario after one more month is the next `MonthStep`. */
  lemma ScenarioUpToNext(inputs: Inputs, k: nat)
    requires inputs.Valid() && k < inputs.SimulationLength()
    ensures ScenarioUpTo(inputs, k + 1) == MonthStep(ScenarioUpTo(inputs, k), inputs, k)
  {
  }

  /** The dashboard's map holds each pool under its own label, with its own cap. */
  lemma PoolMapLabels(inputs: Inputs, pools: map<PoolName, Pool>, treasury: Pool, staking: Pool, minting: Pool)
    requires PoolMap(pools, treasury, staking, minting)
    requires treasury.name == "Treasury" && staking.name == "Staking" && minting.name == "Minting"
    requires treasury.maxTokens == Cap(inputs, Treasury) && staking.maxTokens == Cap(inputs, Staking) && minting.maxTokens == Cap(inputs, Minting)
    ensures forall n :: n in pools ==> pools[n].name == n.Label() && pools[n].maxTokens == Cap(inputs, n)
  {
    forall n | n in pools
      ensures pools[n].name == n.Label() && pools[n].maxTokens == Cap(inputs, n)
    {
      match n
      case Treasury =>
      case Staking =>
      case Minting =>
    }
  }
}
