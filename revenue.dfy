/**
  The revenue-to-lock engine of revenue.py. Every revenue source yields four
  monthly series: gross revenue, the immediate part, the reserve part, and the
  tokens bought with the immediate part and locked. Locked tokens are released
  in equal slices over the source's locking duration.

  The Python class hierarchy (an abstract `RevenueSource`, `BaseRevenue` and its
  five subclasses) is the closed datatype `RevenueSource`: `BaseRevenue` covers
  the License, DeviceCreation and Message subclasses, which only fix its
  constructor arguments, while `ServicesRevenue` and `NetworkRevenue` override its
  formulas.
 */
module Revenue {
  import opened Wrappers
  import opened Series

  datatype RevenueSource =
    | BaseRevenue(units: seq<int>, unitPrice: real, proportionImmediate: real, tokenPrice: seq<real>, lockingDuration: int)
    | ServicesRevenue(units: seq<int>, pingWifiProportion: seq<real>, instantDataConsultProportion: seq<real>,
                      dataStorageProportion: seq<real>, wifiPrice: real, dataConsultPrice: real, dataStoragePrice: real,
                      wifiCost: real, dataConsultCost: real, dataStorageCost: real, tokenPrice: seq<real>)
    | NetworkRevenue(lightObjects: seq<int>, silverObjects: seq<int>, goldObjects: seq<int>, premiumObjects: seq<int>,
                     tokenPrice: seq<real>, proportionImmediate: real)

  /** `token_price or [1.0] * len(units)`: a missing or empty price list becomes a price of 1 every month. */
  function DefaultTokenPrice(tokenPrice: Option<seq<real>>, units: seq<int>): (prices: seq<real>)
    ensures tokenPrice.Some? && tokenPrice.value != [] ==> prices == tokenPrice.value
    ensures tokenPrice.None? || tokenPrice.value == [] ==> prices == Const(|units|, 1.0)
  {
    if tokenPrice.Some? && tokenPrice.value != [] then tokenPrice.value else Const(|units|, 1.0)
  }

  /** `BaseRevenue(units, unit_price, proportion_immediate, token_price, locking_duration)` */
  function Base(units: seq<int>, unitPrice: real, proportionImmediate: real, tokenPrice: Option<seq<real>>, lockingDuration: int): (src: RevenueSource)
    ensures src.BaseRevenue? && src.units == units && src.unitPrice == unitPrice
    ensures src.proportionImmediate == proportionImmediate && src.lockingDuration == lockingDuration
    ensures src.tokenPrice == DefaultTokenPrice(tokenPrice, units)
  {
    BaseRevenue(units, unitPrice, proportionImmediate, DefaultTokenPrice(tokenPrice, units), lockingDuration)
  }

  /** `LicenseRevenue`: the margin per license is its price less its yearly cost; prices default to 1; locked for 12 months. */
  function License(licenses: seq<int>, pricePerLicense: real, licenseYearlyCost: real, proportionImmediateRevenue: real): (src: RevenueSource)
    ensures src.BaseRevenue? && src.units == licenses && src.unitPrice == pricePerLicense - licenseYearlyCost
    ensures src.proportionImmediate == proportionImmediateRevenue
    ensures src.tokenPrice == Const(|licenses|, 1.0) && src.lockingDuration == 12
  {
    Base(licenses, pricePerLicense - licenseYearlyCost, proportionImmediateRevenue, None, 12)
  }

  /** `DeviceCreationRevenue`: locked for 36 months. */
  function DeviceCreation(devices: seq<int>, pricePerDevice: real, proportionImmediateRevenue: real, tokenPrice: seq<real>): (src: RevenueSource)
    ensures src.BaseRevenue? && src.units == devices && src.unitPrice == pricePerDevice
    ensures src.proportionImmediate == proportionImmediateRevenue
    ensures src.tokenPrice == DefaultTokenPrice(Some(tokenPrice), devices) && src.lockingDuration == 36
  {
    Base(devices, pricePerDevice, proportionImmediateRevenue, Some(tokenPrice), 36)
  }

  /** `MessageRevenue`: nothing is immediate; locked for 12 months. */
  function Message(messages: seq<int>, pricePerMessage: real, tokenPrice: seq<real>): (src: RevenueSource)
    ensures src.BaseRevenue? && src.units == messages && src.unitPrice == pricePerMessage
    ensures src.proportionImmediate == 0.0
    ensures src.tokenPrice == DefaultTokenPrice(Some(tokenPrice), messages) && src.lockingDuration == 12
  {
    Base(messages, pricePerMessage, 0.0, Some(tokenPrice), 12)
  }

  /**
    `ServicesRevenue`. Its constructor takes a proportion of immediate revenue
    but never uses it: the base is built with 0.0, and the immediate series is
    overridden with zeros anyway.
   */
  function Services(objects: seq<int>, pingWifiProportion: seq<real>, instantDataConsultProportion: seq<real>,
                    dataStorageProportion: seq<real>, wifiPrice: real, dataConsultPrice: real, dataStoragePrice: real,
                    wifiCost: real, dataConsultCost: real, dataStorageCost: real, proportionImmediate: real,
                    tokenPrice: seq<real>): (src: RevenueSource)
    ensures src.ServicesRevenue? && src.units == objects
    ensures src.tokenPrice == DefaultTokenPrice(Some(tokenPrice), objects)
    ensures Immediate(src) == Zeros(|objects|)
  {
    ServicesRevenue(objects, pingWifiProportion, instantDataConsultProportion, dataStorageProportion,
                    wifiPrice, dataConsultPrice, dataStoragePrice, wifiCost, dataConsultCost, dataStorageCost,
                    DefaultTokenPrice(Some(tokenPrice), objects))
  }

  /** The margins of the four network tiers: price less cost. */
  const LightMargin: real := 1.0 - 0.07
  const SilverMargin: real := 3.0 - 1.08
  const GoldMargin: real := 8.0 - 5.4
  const PremiumMargin: real := 12.0 - 10.8

  /** `[float(obj * margin) for obj in objects]` */
  function TierRevenue(objects: seq<int>, margin: real): (r: seq<real>)
    ensures |r| == |objects| && forall i :: 0 <= i < |objects| ==> r[i] == objects[i] as real * margin
  {
    seq(|objects|, i requires 0 <= i < |objects| => objects[i] as real * margin)
  }

  /** `[obj * prop * margin for obj, prop in zip(units, proportions)]` */
  function ServiceRevenue(units: seq<int>, proportions: seq<real>, margin: real): (r: seq<real>)
    ensures |r| == Min(|units|, |proportions|)
    ensures forall i :: 0 <= i < |r| ==> r[i] == units[i] as real * proportions[i] * margin
  {
    seq(Min(|units|, |proportions|), i requires 0 <= i < Min(|units|, |proportions|) => units[i] as real * proportions[i] * margin)
  }

  /** `calculate_revenues`: the gross revenue of every month. */
  function Gross(src: RevenueSource): (g: seq<real>)
    ensures src.BaseRevenue? ==> |g| == |src.units| && forall i :: 0 <= i < |g| ==> g[i] == src.units[i] as real * src.unitPrice
    ensures src.ServicesRevenue? ==>
              |g| == Min(Min(Min(|src.units|, |src.pingWifiProportion|), Min(|src.units|, |src.instantDataConsultProportion|)),
                         Min(|src.units|, |src.dataStorageProportion|))
    ensures src.ServicesRevenue? ==> forall i :: 0 <= i < |g| ==>
              g[i] == src.units[i] as real * src.pingWifiProportion[i] * (src.wifiPrice - src.wifiCost)
                      + src.units[i] as real * src.instantDataConsultProportion[i] * (src.dataConsultPrice - src.dataConsultCost)
                      + src.units[i] as real * src.dataStorageProportion[i] * (src.dataStoragePrice - src.dataStorageCost)
    ensures src.NetworkRevenue? ==>
              |g| == Min(Min(Min(|src.lightObjects|, |src.silverObjects|), |src.goldObjects|), |src.premiumObjects|)
    ensures src.NetworkRevenue? ==> forall i :: 0 <= i < |g| ==>
              g[i] == src.lightObjects[i] as real * LightMargin + src.silverObjects[i] as real * SilverMargin
                      + src.goldObjects[i] as real * GoldMargin + src.premiumObjects[i] as real * PremiumMargin
  {
    match src
    case BaseRevenue(units, unitPrice, _, _, _) =>
      seq(|units|, i requires 0 <= i < |units| => units[i] as real * unitPrice)
    case ServicesRevenue(units, wifi, consult, storage, wifiPrice, consultPrice, storagePrice, wifiCost, consultCost, storageCost, _) =>
      ZipAdd(ZipAdd(ServiceRevenue(units, wifi, wifiPrice - wifiCost), ServiceRevenue(units, consult, consultPrice - consultCost)),
             ServiceRevenue(units, storage, storagePrice - storageCost))
    case NetworkRevenue(light, silver, gold, premium, _, _) =>
      ZipAdd(ZipAdd(ZipAdd(TierRevenue(light, LightMargin), TierRevenue(silver, SilverMargin)), TierRevenue(gold, GoldMargin)),
             TierRevenue(premium, PremiumMargin))
  }

  /** `calculate_immediate_revenues` */
  function Immediate(src: RevenueSource): (im: seq<real>)
    ensures !src.ServicesRevenue? ==> |im| == |Gross(src)|
    ensures src.ServicesRevenue? || src.proportionImmediate == 0.0 ==> forall t :: 0 <= t < |im| ==> im[t] == 0.0
  {
    match src
    case ServicesRevenue(units, _, _, _, _, _, _, _, _, _, _) => Zeros(|units|)
    case _ => Scale(Gross(src), src.proportionImmediate)
  }

  /** `calculate_reserve_revenues` */
  function Reserve(src: RevenueSource): (re: seq<real>)
    ensures |re| == |Gross(src)|
    ensures src.ServicesRevenue? || src.proportionImmediate == 0.0 ==> forall t :: 0 <= t < |re| ==> re[t] == Gross(src)[t]
  {
    match src
    case ServicesRevenue(_, _, _, _, _, _, _, _, _, _, _) => Gross(src)
    case _ => Scale(Gross(src), 1.0 - src.proportionImmediate)
  }

  /**
    The split of gross revenue: for the base and network sources the immediate
    and reserve parts add up to the gross revenue every month; a services source
    keeps nothing immediate and reserves its whole gross revenue.
   */
  lemma RevenueSplit(src: RevenueSource)
    ensures !src.ServicesRevenue? ==> |Immediate(src)| == |Reserve(src)| == |Gross(src)|
    ensures !src.ServicesRevenue? ==> forall t :: 0 <= t < |Gross(src)| ==> Immediate(src)[t] + Reserve(src)[t] == Gross(src)[t]
    ensures src.ServicesRevenue? ==> Reserve(src) == Gross(src)
    ensures src.ServicesRevenue? ==> |Immediate(src)| == |src.units| && forall t :: 0 <= t < |src.units| ==> Immediate(src)[t] == 0.0
  {
    if !src.ServicesRevenue? {
      var g, p := Gross(src), src.proportionImmediate;
      forall t | 0 <= t < |g| ensures Immediate(src)[t] + Reserve(src)[t] == g[t] {
        assert Immediate(src)[t] == g[t] * p;
        assert Reserve(src)[t] == g[t] * (1.0 - p);
      }
    }
  }

  /** The months in which `calculate_tokens_to_be_locked` divides: immediate revenue paired with a token price. */
  function LockMonths(src: RevenueSource): nat
  {
    Min(|Immediate(src)|, |src.tokenPrice|)
  }

  /** `locking_duration`: 12 unless a base source was given another. */
  function LockingDuration(src: RevenueSource): (d: int)
    ensures src.BaseRevenue? ==> d == src.lockingDuration
    ensures !src.BaseRevenue? ==> d == 12
  {
    if src.BaseRevenue? then src.lockingDuration else 12
  }

  /** What `calculate_tokens_to_be_locked` needs to avoid dividing by zero. */
  predicate LockDefined(src: RevenueSource)
  {
    (forall t :: 0 <= t < LockMonths(src) ==> src.tokenPrice[t] != 0.0) &&
    (!src.NetworkRevenue? && LockMonths(src) > 0 ==> LockingDuration(src) != 0)
  }

  /**
    `calculate_tokens_to_be_locked`: the immediate revenue of each month buys
    tokens at that month's price. The base formula (also used by services)
    spreads them over the locking duration; the network formula does not.
   */
  function TokensToLock(src: RevenueSource): (tokens: seq<real>)
    requires LockDefined(src)
    ensures |tokens| == LockMonths(src)
  {
    var immediate := Immediate(src);
    var n := LockMonths(src);
    if src.NetworkRevenue? then
      seq(n, t requires 0 <= t < n => immediate[t] / src.tokenPrice[t])
    else
      seq(n, t requires 0 <= t < n => immediate[t] / src.tokenPrice[t] / LockingDuration(src) as real)
  }

  /**
    The tokens locked in a month are what that month's immediate revenue buys at
    that month's price, spread over the locking duration except for network
    revenue.
   */
  lemma TokensBuyImmediate(src: RevenueSource)
    requires LockDefined(src)
    ensures var tokens := TokensToLock(src);
      !src.NetworkRevenue? ==>
        forall t :: 0 <= t < |tokens| ==> tokens[t] * src.tokenPrice[t] * LockingDuration(src) as real == Immediate(src)[t]
    ensures var tokens := TokensToLock(src);
      src.NetworkRevenue? ==>
        forall t :: 0 <= t < |tokens| ==> tokens[t] * src.tokenPrice[t] == Immediate(src)[t]
  {
    forall t | 0 <= t < |TokensToLock(src)| {
      TokenBuys(src, t);
    }
  }

  /** One month of `TokensBuyImmediate`. */
  lemma TokenBuys(src: RevenueSource, t: nat)
    requires LockDefined(src) && t < LockMonths(src)
    ensures !src.NetworkRevenue? ==> TokensToLock(src)[t] * src.tokenPrice[t] * LockingDuration(src) as real == Immediate(src)[t]
    ensures src.NetworkRevenue? ==> TokensToLock(src)[t] * src.tokenPrice[t] == Immediate(src)[t]
  {
    var x, price := Immediate(src)[t], src.tokenPrice[t];
    if src.NetworkRevenue? {
      assert TokensToLock(src)[t] == x / price;
      DivThenTimes(x, price);
    } else {
      var d := LockingDuration(src) as real;
      assert TokensToLock(src)[t] == x / price / d;
      SpreadThenTimes(x, price, d);
    }
  }

  /** Dividing by two non-zero amounts and multiplying back by both gives the original. */
  lemma SpreadThenTimes(x: real, y: real, z: real)
    requires y != 0.0 && z != 0.0
    ensures x / y / z * y * z == x
  {
    DivThenTimes(x / y, z);
    assert x / y / z * y * z == x / y / z * z * y;
    DivThenTimes(x, y);
  }

  /** Dividing by a non-zero amount and multiplying back gives the original. */
  lemma DivThenTimes(x: real, y: real)
    requires y != 0.0
    ensures x / y * y == x
  {
  }

  /** A services source and a message source lock nothing, whatever their prices. */
  lemma NothingImmediateNothingLocked(src: RevenueSource)
    requires LockDefined(src)
    requires src.ServicesRevenue? || (src.BaseRevenue? && src.proportionImmediate == 0.0)
    ensures forall t :: 0 <= t < |TokensToLock(src)| ==> TokensToLock(src)[t] == 0.0
  {
    var tokens := TokensToLock(src);
    TokensBuyImmediate(src);
    forall t | 0 <= t < |tokens| ensures tokens[t] == 0.0 {
      assert Immediate(src)[t] == 0.0;
      assert tokens[t] * src.tokenPrice[t] * LockingDuration(src) as real == 0.0;
    }
  }

  /**
    `NetworkRevenue.unit_price`: the average monthly revenue, or 0 with no
    months.
   */
  function NetworkUnitPrice(src: RevenueSource): (unitPrice: real)
    requires src.NetworkRevenue?
    ensures |Gross(src)| > 0 ==> unitPrice * |Gross(src)| as real == Sum(Gross(src))
    ensures |Gross(src)| == 0 ==> unitPrice == 0.0
  {
    var revenues := Gross(src);
    if |revenues| > 0 then Sum(revenues) / |revenues| as real else 0.0
  }

  /**
    `compute_tokens_to_be_unlocked` once the first `k` locked amounts have been
    spread: amount `i` adds `amount / D` to each month of [i, i + D). A
    non-positive duration spreads nothing.
   */
  function UnlockedUpTo(tokens: seq<real>, lockingDuration: int, k: nat): (unlocked: seq<real>)
    requires k <= |tokens|
    requires lockingDuration != 0 || k == 0
    ensures |unlocked| == Max(0, lockingDuration + |tokens|)
  {
    if k == 0 then Zeros(Max(0, lockingDuration + |tokens|))
    else AddWindow(UnlockedUpTo(tokens, lockingDuration, k - 1), k - 1, lockingDuration, tokens[k - 1] / lockingDuration as real)
  }

  function Unlocked(tokens: seq<real>, lockingDuration: int): (unlocked: seq<real>)
    requires lockingDuration != 0 || |tokens| == 0
    ensures |unlocked| == Max(0, lockingDuration + |tokens|)
  {
    UnlockedUpTo(tokens, lockingDuration, |tokens|)
  }

  /** Over a positive duration, everything locked is unlocked: the spread conserves the total. */
  lemma {:induction false} UnlockedUpToSum(tokens: seq<real>, lockingDuration: int, k: nat)
    requires k <= |tokens| && lockingDuration >= 1
    ensures Sum(UnlockedUpTo(tokens, lockingDuration, k)) == Sum(tokens[..k])
  {
    if k == 0 {
      SumZeros(lockingDuration + |tokens|);
    } else {
      UnlockedUpToSum(tokens, lockingDuration, k - 1);
      UnlockedStepSum(tokens, lockingDuration, k);
      SumPrefixStep(tokens, k - 1);
    }
  }

  /** Spreading one more amount adds exactly that amount to the total. */
  lemma UnlockedStepSum(tokens: seq<real>, lockingDuration: int, k: nat)
    requires 0 < k <= |tokens| && lockingDuration >= 1
    ensures Sum(UnlockedUpTo(tokens, lockingDuration, k)) == Sum(UnlockedUpTo(tokens, lockingDuration, k - 1)) + tokens[k - 1]
  {
    SpreadSum(UnlockedUpTo(tokens, lockingDuration, k - 1), k - 1, lockingDuration, tokens[k - 1]);
  }

  lemma UnlockedSum(tokens: seq<real>, lockingDuration: int)
    requires lockingDuration >= 1
    ensures |Unlocked(tokens, lockingDuration)| == lockingDuration + |tokens|
    ensures Sum(Unlocked(tokens, lockingDuration)) == Sum(tokens)
  {
    UnlockedUpToSum(tokens, lockingDuration, |tokens|);
    assert tokens[..|tokens|] == tokens;
  }

  /** The spread never reaches the last month of the list, which stays 0. */
  lemma {:induction false} UnlockedLastIsZero(tokens: seq<real>, lockingDuration: int, k: nat)
    requires k <= |tokens| && (lockingDuration != 0 || k == 0)
    requires lockingDuration + |tokens| > 0
    ensures UnlockedUpTo(tokens, lockingDuration, k)[lockingDuration + |tokens| - 1] == 0.0
  {
    if k > 0 {
      UnlockedLastIsZero(tokens, lockingDuration, k - 1);
    }
  }

  /**
    Month `j` of the spread receives, from every locked amount `i` whose window
    [i, i + D) contains it, the slice `amount / D`, and nothing from the others.
   */
  lemma {:induction false} UnlockedUpToAt(tokens: seq<real>, lockingDuration: int, k: nat, j: nat)
    requires k <= |tokens| && lockingDuration >= 1 && j < lockingDuration + |tokens|
    ensures UnlockedUpTo(tokens, lockingDuration, k)[j] == Sum(SlicesAt(tokens[..k], lockingDuration, j))
  {
    if k == 0 {
      assert SlicesAt(tokens[..0], lockingDuration, j) == [];
    } else {
      UnlockedUpToAt(tokens, lockingDuration, k - 1, j);
      var slices := SlicesAt(tokens[..k], lockingDuration, j);
      assert slices[..k - 1] == SlicesAt(tokens[..k - 1], lockingDuration, j);
    }
  }

  /** The slices that month `j` receives from each locked amount. */
  function SlicesAt(tokens: seq<real>, lockingDuration: int, j: int): (slices: seq<real>)
    requires lockingDuration >= 1
    ensures |slices| == |tokens|
    ensures forall i :: 0 <= i < |tokens| ==>
              slices[i] == if i <= j < i + lockingDuration then tokens[i] / lockingDuration as real else 0.0
  {
    seq(|tokens|, i requires 0 <= i < |tokens| =>
      if i <= j < i + lockingDuration then tokens[i] / lockingDuration as real else 0.0)
  }

  /**
    `compute_tokens_to_be_unlocked`: a zeroed list of `D + n` months in which
    each locked amount adds `amount / D` to its own month and the `D - 1` after.
   */
  method ComputeTokensToBeUnlocked(tokensToBeLocked: seq<real>, lockingDuration: int) returns (unlocked: seq<real>)
    requires lockingDuration != 0 || |tokensToBeLocked| == 0
    ensures unlocked == Unlocked(tokensToBeLocked, lockingDuration)
  {
    var tokensToBeUnlocked := new real[Max(0, lockingDuration + |tokensToBeLocked|)](_ => 0.0);
    var i := 0;
    while i < |tokensToBeLocked|
      invariant 0 <= i <= |tokensToBeLocked|
      invariant tokensToBeUnlocked[..] == UnlockedUpTo(tokensToBeLocked, lockingDuration, i)
    {
      var monthlyUnlock := tokensToBeLocked[i] / lockingDuration as real;
      AddMonthlyUnlock(tokensToBeUnlocked, i, lockingDuration, monthlyUnlock);
      i := i + 1;
    }
    unlocked := tokensToBeUnlocked[..];
  }

  /** The inner loop of `compute_tokens_to_be_unlocked`: add `monthlyUnlock` to the `lockingDuration` months from `start`. */
  method AddMonthlyUnlock(tokensToBeUnlocked: array<real>, start: nat, lockingDuration: int, monthlyUnlock: real)
    requires start + lockingDuration <= tokensToBeUnlocked.Length
    modifies tokensToBeUnlocked
    ensures tokensToBeUnlocked[..] == AddWindow(old(tokensToBeUnlocked[..]), start, lockingDuration, monthlyUnlock)
  {
    ghost var before := tokensToBeUnlocked[..];
    var month := 0;
    while month < lockingDuration
      invariant 0 <= month <= Max(0, lockingDuration)
      invariant tokensToBeUnlocked[..] == AddWindow(before, start, month, monthlyUnlock)
    {
      AddWindowGrow(before, start, month, monthlyUnlock);
      tokensToBeUnlocked[start + month] := tokensToBeUnlocked[start + month] + monthlyUnlock;
      month := month + 1;
    }
    if lockingDuration <= 0 {
      AddWindowEmpty(before, start, month, monthlyUnlock);
      AddWindowEmpty(before, start, lockingDuration, monthlyUnlock);
    }
  }

  /**
    The totals loop of `FinancialCalculator`: start from zeros as long as the
    first series and add each series in turn with `zip`.
   */
  method ZipTotal(series: seq<seq<real>>) returns (total: seq<real>)
    ensures total == ColumnTotals(series)
  {
    if |series| == 0 {
      return [];
    }
    total := Zeros(|series[0]|);
    var k := 0;
    while k < |series|
      invariant 0 <= k <= |series|
      invariant total == if k == 0 then Zeros(|series[0]|) else ColumnTotals(series[..k])
    {
      ZipTotalStep(series, k);
      total := ZipAdd(total, series[k]);
      k := k + 1;
    }
    assert series[..k] == series;
  }

  /**
    One round of the totals loop: adding the next series to the zeros, or to
    the totals so far, gives the totals of one more series.
   */
  lemma ZipTotalStep(series: seq<seq<real>>, k: nat)
    requires k < |series|
    ensures ZipAdd(if k == 0 then Zeros(|series[0]|) else ColumnTotals(series[..k]), series[k]) == ColumnTotals(series[..k + 1])
  {
    if k == 0 {
      ZipTotalFirst(series);
    } else {
      ZipTotalNext(series, k);
    }
  }

  /** The first round: the zeros plus the first series is that series' totals. */
  lemma ZipTotalFirst(series: seq<seq<real>>)
    requires 0 < |series|
    ensures ZipAdd(Zeros(|series[0]|), series[0]) == ColumnTotals(series[..1])
  {
    assert series[..1] == [series[0]];
    ColumnTotalsSingle(series[0]);
    assert ZipAdd(Zeros(|series[0]|), series[0]) == series[0];
  }

  /** A later round: the totals so far plus the next series. */
  lemma ZipTotalNext(series: seq<seq<real>>, k: nat)
    requires 0 < k < |series|
    ensures ZipAdd(ColumnTotals(series[..k]), series[k]) == ColumnTotals(series[..k + 1])
  {
    var next := series[..k + 1];
    assert next[..k] == series[..k] && next[k] == series[k];
    ColumnTotalsSnoc(next);
  }

  /** What the unlocking of a source needs: its tokens to lock, and a duration it can divide by. */
  predicate UnlockDefined(src: RevenueSource)
  {
    LockDefined(src) && (LockingDuration(src) != 0 || LockMonths(src) == 0)
  }

  /** A source's locked tokens spread over its locking duration. */
  function UnlockSeries(src: RevenueSource): (unlocked: seq<real>)
    requires UnlockDefined(src)
    ensures |unlocked| == Max(0, LockingDuration(src) + LockMonths(src))
  {
    Unlocked(TokensToLock(src), LockingDuration(src))
  }

  function LockSeriesOf(sources: seq<RevenueSource>): (series: seq<seq<real>>)
    requires forall i :: 0 <= i < |sources| ==> LockDefined(sources[i])
    ensures |series| == |sources| && forall i :: 0 <= i < |sources| ==> series[i] == TokensToLock(sources[i])
  {
    seq(|sources|, i requires 0 <= i < |sources| => TokensToLock(sources[i]))
  }

  function UnlockSeriesOf(sources: seq<RevenueSource>): (series: seq<seq<real>>)
    requires forall i :: 0 <= i < |sources| ==> UnlockDefined(sources[i])
    ensures |series| == |sources| && forall i :: 0 <= i < |sources| ==> series[i] == UnlockSeries(sources[i])
  {
    seq(|sources|, i requires 0 <= i < |sources| => UnlockSeries(sources[i]))
  }

  /**
    `tokens_to_be_unlocked` as a value: the unlock series of the sources, added
    with `zip`; a list still empty takes the next series whole.
   */
  function CombinedUnlocks(sources: seq<RevenueSource>): (unlocks: seq<real>)
    requires forall i :: 0 <= i < |sources| ==> UnlockDefined(sources[i])
    ensures sources == [] ==> unlocks == []
    ensures |sources| == 1 ==> unlocks == UnlockSeries(sources[0])
  {
    var series := UnlockSeriesOf(sources);
    if |sources| == 1 then ZipAllSingle(series); ZipAll(series) else ZipAll(series)
  }

  /**
    When every source unlocks something, the combined unlocks are the monthly
    totals of the sources' unlock series, cut to the shortest of them.
   */
  lemma CombinedUnlocksAreTotals(sources: seq<RevenueSource>)
    requires forall i :: 0 <= i < |sources| ==> UnlockDefined(sources[i]) && |UnlockSeries(sources[i])| > 0
    ensures CombinedUnlocks(sources) == ColumnTotals(UnlockSeriesOf(sources))
  {
    ZipAllTotals(UnlockSeriesOf(sources));
  }

  /**
    Conservation across sources: when all sources lock over the same months and
    unlock over the same positive duration, the combined unlocks run `D` months
    past the locks and release exactly the total locked.
   */
  lemma UnlockConservation(sources: seq<RevenueSource>, lockingDuration: int, months: nat)
    requires |sources| > 0 && lockingDuration >= 1
    requires forall i :: 0 <= i < |sources| ==> UnlockDefined(sources[i])
    requires forall i :: 0 <= i < |sources| ==> LockingDuration(sources[i]) == lockingDuration && LockMonths(sources[i]) == months
    ensures |CombinedUnlocks(sources)| == lockingDuration + months
    ensures Sum(CombinedUnlocks(sources)) == Sum(ColumnTotals(LockSeriesOf(sources)))
  {
    var unlocks, locks := UnlockSeriesOf(sources), LockSeriesOf(sources);
    SeriesLengths(sources, lockingDuration, months, unlocks, locks);
    CombinedUnlocksAreTotals(sources);
    ColumnTotalsSum(unlocks, lockingDuration + months);
    ColumnTotalsSum(locks, months);
    UnlockedTotals(sources, lockingDuration);
  }

  /** With a common duration and length, every source's lock and unlock lists have the same lengths. */
  lemma SeriesLengths(sources: seq<RevenueSource>, lockingDuration: int, months: nat, unlocks: seq<seq<real>>, locks: seq<seq<real>>)
    requires lockingDuration >= 1
    requires forall i :: 0 <= i < |sources| ==> UnlockDefined(sources[i])
    requires forall i :: 0 <= i < |sources| ==> LockingDuration(sources[i]) == lockingDuration && LockMonths(sources[i]) == months
    requires unlocks == UnlockSeriesOf(sources) && locks == LockSeriesOf(sources)
    ensures forall i :: 0 <= i < |sources| ==> |UnlockSeries(sources[i])| > 0
    ensures forall k :: 0 <= k < |unlocks| ==> |unlocks[k]| == lockingDuration + months
    ensures forall k :: 0 <= k < |locks| ==> |locks[k]| == months
  {
  }

  /** Source by source, what is unlocked totals what was locked. */
  lemma UnlockedTotals(sources: seq<RevenueSource>, lockingDuration: int)
    requires lockingDuration >= 1
    requires forall i :: 0 <= i < |sources| ==> UnlockDefined(sources[i]) && LockingDuration(sources[i]) == lockingDuration
    ensures Totals(UnlockSeriesOf(sources)) == Totals(LockSeriesOf(sources))
  {
    forall i | 0 <= i < |sources| ensures Totals(UnlockSeriesOf(sources))[i] == Totals(LockSeriesOf(sources))[i] {
      UnlockedSum(TokensToLock(sources[i]), lockingDuration);
    }
  }

  /** The locked balance of each month: everything locked so far less everything unlocked so far. */
  function LockedBalance(locked: seq<real>, unlocked: seq<real>): (balance: seq<real>)
    ensures |balance| == Min(|locked|, |unlocked|)
  {
    seq(Min(|locked|, |unlocked|), t requires 0 <= t < Min(|locked|, |unlocked|) =>
      Sum(locked[..t + 1]) - Sum(unlocked[..t + 1]))
  }

  /** The balance starts from nothing and moves each month by what is locked less what is unlocked. */
  lemma LockedBalanceStep(locked: seq<real>, unlocked: seq<real>, t: nat)
    requires t < Min(|locked|, |unlocked|)
    ensures t == 0 ==> LockedBalance(locked, unlocked)[0] == locked[0] - unlocked[0]
    ensures t > 0 ==> LockedBalance(locked, unlocked)[t] == LockedBalance(locked, unlocked)[t - 1] + locked[t] - unlocked[t]
  {
    SumPrefixStep(locked, t);
    SumPrefixStep(unlocked, t);
  }

  /** A cost source: its monthly costs. */
  datatype MonthlyCost = MonthlyCost(costs: seq<real>)

  /**
    The calculator of revenue.py: the revenue and cost sources in the order they
    were added, and the locked-token history of the last computation.
   */
  class FinancialCalculator {
    var revenueSources: seq<RevenueSource>
    var costSources: seq<MonthlyCost>
    var tokensLockedHistory: seq<real>

    constructor()
      ensures revenueSources == [] && costSources == [] && tokensLockedHistory == []
    {
      revenueSources, costSources, tokensLockedHistory := [], [], [];
    }

    method AddRevenueSource(source: RevenueSource)
      modifies this
      ensures revenueSources == old(revenueSources) + [source]
      ensures costSources == old(costSources) && tokensLockedHistory == old(tokensLockedHistory)
    {
      revenueSources := revenueSources + [source];
    }

    method AddCostSource(source: MonthlyCost)
      modifies this
      ensures costSources == old(costSources) + [source]
      ensures revenueSources == old(revenueSources) && tokensLockedHistory == old(tokensLockedHistory)
    {
      costSources := costSources + [source];
    }

    /** Every revenue source can compute its tokens to lock and spread them. */
    predicate Computable()
      reads this
    {
      forall i :: 0 <= i < |revenueSources| ==> UnlockDefined(revenueSources[i])
    }

    function GrossSeries(): (series: seq<seq<real>>)
      reads this
      ensures |series| == |revenueSources| && forall i :: 0 <= i < |series| ==> series[i] == Gross(revenueSources[i])
    {
      seq(|revenueSources|, i reads this requires 0 <= i < |revenueSources| => Gross(revenueSources[i]))
    }

    function ImmediateSeries(): (series: seq<seq<real>>)
      reads this
      ensures |series| == |revenueSources| && forall i :: 0 <= i < |series| ==> series[i] == Immediate(revenueSources[i])
    {
      seq(|revenueSources|, i reads this requires 0 <= i < |revenueSources| => Immediate(revenueSources[i]))
    }

    function ReserveSeries(): (series: seq<seq<real>>)
      reads this
      ensures |series| == |revenueSources| && forall i :: 0 <= i < |series| ==> series[i] == Reserve(revenueSources[i])
    {
      seq(|revenueSources|, i reads this requires 0 <= i < |revenueSources| => Reserve(revenueSources[i]))
    }

    function CostSeries(): (series: seq<seq<real>>)
      reads this
      ensures |series| == |costSources| && forall i :: 0 <= i < |series| ==> series[i] == costSources[i].costs
    {
      seq(|costSources|, i reads this requires 0 <= i < |costSources| => costSources[i].costs)
    }

    /** `total_revenues` */
    method TotalRevenues() returns (total: seq<real>)
      ensures total == ColumnTotals(GrossSeries())
    {
      total := ZipTotal(GrossSeries());
    }

    /** `total_immediate_revenues` */
    method TotalImmediateRevenues() returns (total: seq<real>)
      ensures total == ColumnTotals(ImmediateSeries())
    {
      total := ZipTotal(ImmediateSeries());
    }

    /** `total_reserve_revenues` */
    method TotalReserveRevenues() returns (total: seq<real>)
      ensures total == ColumnTotals(ReserveSeries())
    {
      total := ZipTotal(ReserveSeries());
    }

    /** `total_tokens_locked` */
    method TotalTokensLocked() returns (total: seq<real>)
      requires Computable()
      ensures total == ColumnTotals(LockSeriesOf(revenueSources))
    {
      total := ZipTotal(LockSeriesOf(revenueSources));
    }

    /** `total_costs` */
    method TotalCosts() returns (total: seq<real>)
      ensures total == ColumnTotals(CostSeries())
    {
      total := ZipTotal(CostSeries());
    }

    /** `net_earnings`: revenue less costs, month by month, as far as both go (nothing without cost sources). */
    method NetEarnings() returns (earnings: seq<real>)
      ensures |earnings| == Min(|ColumnTotals(GrossSeries())|, |ColumnTotals(CostSeries())|)
      ensures costSources == [] ==> earnings == []
      ensures forall t :: 0 <= t < |earnings| ==> earnings[t] == ColumnTotals(GrossSeries())[t] - ColumnTotals(CostSeries())[t]
    {
      var revenues := TotalRevenues();
      var costs := TotalCosts();
      earnings := seq(Min(|revenues|, |costs|), t requires 0 <= t < Min(|revenues|, |costs|) => revenues[t] - costs[t]);
    }

    /** `tokens_to_be_unlocked`: each source's locked tokens spread over its duration, added up with `zip`. */
    method TokensToBeUnlocked() returns (unlocked: seq<real>)
      requires Computable()
      ensures unlocked == CombinedUnlocks(revenueSources)
    {
      ghost var series := UnlockSeriesOf(revenueSources);
      unlocked := [];
      var k := 0;
      while k < |revenueSources|
        invariant 0 <= k <= |revenueSources|
        invariant unlocked == ZipAll(series[..k])
      {
        var source := revenueSources[k];
        var tokensUnlocked := ComputeTokensToBeUnlocked(TokensToLock(source), LockingDuration(source));
        assert tokensUnlocked == series[k];
        ZipAllNext(series, k);
        unlocked := if |unlocked| > 0 then ZipAdd(unlocked, tokensUnlocked) else tokensUnlocked;
        k := k + 1;
      }
      assert series[..k] == series;
    }

    /**
      `compute_locked_tokens_history`: the running balance of locked tokens over
      the months both totals cover, which it also stores.
     */
    method ComputeLockedTokensHistory() returns (history: seq<real>)
      requires Computable()
      modifies this
      ensures revenueSources == old(revenueSources) && costSources == old(costSources)
      ensures history == LockedBalance(ColumnTotals(LockSeriesOf(revenueSources)), CombinedUnlocks(revenueSources))
      ensures tokensLockedHistory == history
    {
      var tokensLocked := TotalTokensLocked();
      var tokensUnlocked := TokensToBeUnlocked();
      history := RunningBalance(tokensLocked, tokensUnlocked);
      tokensLockedHistory := history;
    }
  }

  /** The balance loop of `compute_locked_tokens_history`, over the months both series cover. */
  method RunningBalance(tokensLocked: seq<real>, tokensUnlocked: seq<real>) returns (history: seq<real>)
    ensures history == LockedBalance(tokensLocked, tokensUnlocked)
  {
    var balance := LockedBalance(tokensLocked, tokensUnlocked);
    history := [];
    var currentLocked := 0.0;
    var t := 0;
    while t < Min(|tokensLocked|, |tokensUnlocked|)
      invariant 0 <= t <= Min(|tokensLocked|, |tokensUnlocked|)
      invariant currentLocked == Sum(tokensLocked[..t]) - Sum(tokensUnlocked[..t])
      invariant history == balance[..t]
    {
      SumPrefixStep(tokensLocked, t);
      SumPrefixStep(tokensUnlocked, t);
      currentLocked := currentLocked + tokensLocked[t] - tokensUnlocked[t];
      history := history + [currentLocked];
      t := t + 1;
    }
  }
}
