/**
  The constant-product market of Liquidity_pool.py: a USDC reserve and a token
  reserve whose product k is kept by every trade.

  The reserves as a value (`Reserves`) carry the specification: `AfterSell`,
  `AfterBuy` and `MaintainPrice` are what the class `LiquidityPool` does to its
  fields, and the lemmas about them are the market's laws.

  `math.sqrt` is a foreign numeric routine. It enters as a parameter `sqrt` of
  which only `IsSqrt` is known: it returns the non-negative root of a
  non-negative argument.
 */
module Market {

  /** What is known of `math.sqrt` on non-negative arguments. */
  ghost predicate IsSqrt(sqrt: real -> real)
  {
    forall x :: 0.0 <= x ==> 0.0 <= sqrt(x) && sqrt(x) * sqrt(x) == x
  }

  datatype Reserves = Reserves(usdc: real, token: real)
  {
    /** k, the product every trade keeps. */
    function Product(): real { usdc * token }

    /** Both reserves strictly positive: the market's own data-model invariant. */
    predicate Positive() { usdc > 0.0 && token > 0.0 }
  }

  /** `calculate_price`: USDC per token. */
  function Price(r: Reserves): (p: real)
    requires r.token != 0.0
    ensures p * r.token == r.usdc
  {
    r.usdc / r.token
  }

  /** `sell_tokens`: the tokens enter the pool and the USDC reserve is rebalanced to keep k. */
  function AfterSell(r: Reserves, tokensSold: real): (r': Reserves)
    requires r.token + tokensSold != 0.0
    ensures r'.token == r.token + tokensSold
    ensures r'.Product() == r.Product()
  {
    var token := r.token + tokensSold;
    Reserves(r.Product() / token, token)
  }

  /** `buy_tokens`: the USDC enters the pool and the token reserve is rebalanced to keep k. */
  function AfterBuy(r: Reserves, usdcSpent: real): (r': Reserves)
    requires r.usdc + usdcSpent != 0.0
    ensures r'.usdc == r.usdc + usdcSpent
    ensures r'.Product() == r.Product()
  {
    var usdc := r.usdc + usdcSpent;
    Reserves(usdc, r.Product() / usdc)
  }

  /**
    `maintain_price`: the USDC amount whose purchase would move the price to
    `oldPrice * (1 + threshold)`. It is the square root of k times that target
    price, less the current USDC reserve; the reserves are only read.
   */
  function MaintainPriceAmount(r: Reserves, oldPrice: real, threshold: real, sqrt: real -> real): (usdcToBuy: real)
    requires IsSqrt(sqrt)
    requires r.Product() * (oldPrice * (1.0 + threshold)) >= 0.0
    ensures r.usdc + usdcToBuy >= 0.0
    ensures (r.usdc + usdcToBuy) * (r.usdc + usdcToBuy) == r.Product() * (oldPrice * (1.0 + threshold))
  {
    var targetPrice := oldPrice * (1.0 + threshold);
    var newUsdcReserve := sqrt(r.Product() * targetPrice);
    newUsdcReserve - r.usdc
  }

  /** Selling a positive amount into a positive pool keeps it positive and strictly lowers the price. */
  lemma SellLowersPrice(r: Reserves, tokensSold: real)
    requires r.Positive() && tokensSold > 0.0
    ensures AfterSell(r, tokensSold).Positive()
    ensures Price(AfterSell(r, tokensSold)) < Price(r)
  {
    var r' := AfterSell(r, tokensSold);
    var k := r.Product();
    assert k > 0.0;
    assert r'.usdc == k / r'.token;
    // both prices are k over a squared token reserve, and the reserve grew
    assert Price(r') == k / (r'.token * r'.token);
    assert Price(r) == k / (r.token * r.token);
    assert r'.token * r'.token > r.token * r.token;
    DivByLarger(k, r.token * r.token, r'.token * r'.token);
  }

  /** Buying with a positive amount in a positive pool keeps it positive and strictly raises the price. */
  lemma BuyRaisesPrice(r: Reserves, usdcSpent: real)
    requires r.Positive() && usdcSpent > 0.0
    ensures AfterBuy(r, usdcSpent).Positive()
    ensures Price(AfterBuy(r, usdcSpent)) > Price(r)
  {
    var r' := AfterBuy(r, usdcSpent);
    var k := r.Product();
    assert k > 0.0;
    assert r'.token == k / r'.usdc;
    // both prices are a squared USDC reserve over k, and the reserve grew
    assert Price(r') == (r'.usdc * r'.usdc) / k;
    assert Price(r) == (r.usdc * r.usdc) / k;
    assert r'.usdc * r'.usdc > r.usdc * r.usdc;
  }

  lemma DivByLarger(x: real, a: real, b: real)
    requires x > 0.0 && 0.0 < a < b
    ensures x / b < x / a
  {
    assert x / b * b == x;
    assert x / a * a == x;
  }

  /**
    The round trip of the mitigation: buying with the amount `MaintainPriceAmount`
    returns puts the price exactly on the target `oldPrice * (1 + threshold)`.
   */
  lemma MaintainPriceRoundTrip(r: Reserves, oldPrice: real, threshold: real, sqrt: real -> real)
    requires IsSqrt(sqrt)
    requires r.Positive() && oldPrice * (1.0 + threshold) > 0.0
    requires r.Product() * (oldPrice * (1.0 + threshold)) > 0.0
    ensures r.usdc + MaintainPriceAmount(r, oldPrice, threshold, sqrt) > 0.0
    ensures AfterBuy(r, MaintainPriceAmount(r, oldPrice, threshold, sqrt)).Positive()
    ensures Price(AfterBuy(r, MaintainPriceAmount(r, oldPrice, threshold, sqrt))) == oldPrice * (1.0 + threshold)
  {
    var target := oldPrice * (1.0 + threshold);
    var k := r.Product();
    assert k > 0.0;
    var s := r.usdc + MaintainPriceAmount(r, oldPrice, threshold, sqrt);
    assert s * s == k * target;
    assert s > 0.0 by {
      assert k * target > 0.0;
    }
    var r' := AfterBuy(r, s - r.usdc);
    assert r'.usdc == s;
    assert r'.token == k / s;
    assert r'.token > 0.0;
    calc {
      Price(r');
      s / (k / s);
      (s * s) / k;
      (k * target) / k;
      target;
    }
  }

  /**
    The pool of Liquidity_pool.py, whose trades overwrite both reserves.
    `State()` is its value as `Reserves`.
   */
  class LiquidityPool {
    var usdcReserve: real
    var tokenReserve: real

    constructor(usdcReserve: real, tokenReserve: real)
      ensures State() == Reserves(usdcReserve, tokenReserve)
    {
      this.usdcReserve := usdcReserve;
      this.tokenReserve := tokenReserve;
    }

    function State(): Reserves
      reads this
    {
      Reserves(usdcReserve, tokenReserve)
    }

    function CalculatePrice(): (price: real)
      reads this
      requires tokenReserve != 0.0
      ensures price * tokenReserve == usdcReserve
    {
      Price(State())
    }

    method SellTokens(tokensSold: real)
      requires tokenReserve + tokensSold != 0.0
      modifies this
      ensures State() == AfterSell(old(State()), tokensSold)
    {
      var k := usdcReserve * tokenReserve;
      tokenReserve := tokenReserve + tokensSold;
      usdcReserve := k / tokenReserve;
    }

    method BuyTokens(usdcSpent: real)
      requires usdcReserve + usdcSpent != 0.0
      modifies this
      ensures State() == AfterBuy(old(State()), usdcSpent)
    {
      var k := usdcReserve * tokenReserve;
      usdcReserve := usdcReserve + usdcSpent;
      tokenReserve := k / usdcReserve;
    }

    function MaintainPrice(oldPrice: real, targetThreshold: real, sqrt: real -> real): (usdcToBuy: real)
      reads this
      requires IsSqrt(sqrt)
      requires State().Product() * (oldPrice * (1.0 + targetThreshold)) >= 0.0
      ensures usdcReserve + usdcToBuy >= 0.0
      ensures (usdcReserve + usdcToBuy) * (usdcReserve + usdcToBuy) == State().Product() * (oldPrice * (1.0 + targetThreshold))
    {
      MaintainPriceAmount(State(), oldPrice, targetThreshold, sqrt)
    }
  }
}
