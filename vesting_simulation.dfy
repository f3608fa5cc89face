/**
  The monthly sell simulator of vesting_simulation.py. Each month the tokens
  released by the vesting schedules are sold into the constant-product market
  in chunks of at most one average selling order; after every chunk the price
  impact is measured and, when it exceeds the tolerated impact, the buy-back
  that would restore the tolerated price is recorded and, with mitigation on,
  carried out. The four per-month ledgers start afresh every month while the
  market's reserves carry over.

  The value-level model (`SellSubstep`, `Mitigate`, `TransactionStep`,
  `RunUpTo`) is what the class `TokenEconomySimulator` does to its ledgers and
  to its liquidity pool; the laws of the simulation are lemmas about it.
 */
module Simulation {
  import opened Wrappers
  import opened Series
  import opened Market
  import opened Vesting

  /** A sale smaller than this ends the month's selling. */
  const MinSellChunk: real := 0.000001

  /**
    The behaviour of a selling month: the USD value of one selling order, the
    tolerated relative price impact, and whether the buy-back is carried out.
   */
  datatype Params = Params(averageSellingOrder: real, maxPriceImpact: real, withMitigation: bool)
  {
    /** Orders are not negative, and the tolerated price `1 + maxPriceImpact` times the old one is positive. */
    predicate Valid() { averageSellingOrder >= 0.0 && maxPriceImpact > -1.0 }
  }

  /** The four ledgers of a month: `tokens_sold`, `token_price`, `usdc_to_buy_list`, `price_after_mitigation`. */
  datatype Ledger = Ledger(tokensSold: seq<real>, tokenPrice: seq<real>, usdcToBuy: seq<real>, priceAfterMitigation: seq<real>)
  {
    /** All four ledgers have the same number of entries. */
    predicate Even(n: nat)
    {
      |tokensSold| == n && |tokenPrice| == n && |usdcToBuy| == n && |priceAfterMitigation| == n
    }
  }

  /** `reset_state`: one zero entry per ledger, except the price ledger, which starts at the market price. */
  function FreshLedger(r: Reserves): (ledger: Ledger)
    requires r.token != 0.0
    ensures ledger.Even(1)
    ensures ledger.tokenPrice[0] * r.token == r.usdc
    ensures Sum(ledger.tokensSold) == 0.0 && Sum(ledger.usdcToBuy) == 0.0 && ledger.priceAfterMitigation[0] == 0.0
  {
    SumSingle(0.0);
    Ledger([0.0], [Price(r)], [0.0], [0.0])
  }

  /** What one selling sub-step yields: the tokens sold, the reserves after, the price impact and the price before. */
  datatype Sale = Sale(tokensToSell: real, after: Reserves, priceImpact: real, priceBefore: real)

  /**
    `compute_and_sell_token_substep`: sell whatever remains if it is worth no
    more than one order, else exactly one order's worth, and measure the
    relative change of the price.
   */
  function SellSubstep(r: Reserves, released: real, averageSellingOrder: real): (s: Sale)
    requires r.Positive() && released >= 0.0 && averageSellingOrder >= 0.0
    ensures s.priceBefore == Price(r) && s.priceBefore > 0.0
    ensures 0.0 <= s.tokensToSell <= released
    ensures s.tokensToSell == released ==> released * s.priceBefore <= averageSellingOrder
    ensures s.tokensToSell < released ==> s.tokensToSell * s.priceBefore == averageSellingOrder
    ensures s.after == AfterSell(r, s.tokensToSell) && s.after.Positive()
    ensures s.priceImpact * s.priceBefore == Price(s.after) - s.priceBefore
    ensures s.tokensToSell > 0.0 ==> s.priceImpact < 0.0
    ensures s.tokensToSell == 0.0 ==> s.after == r && s.priceImpact == 0.0
  {
    PricePositive(r);
    var priceBefore := Price(r);
    var tokensToSell := MinReal(released, averageSellingOrder / priceBefore);
    var after := AfterSell(r, tokensToSell);
    SellEffect(r, tokensToSell);
    Sale(tokensToSell, after, (Price(after) - priceBefore) / priceBefore, priceBefore)
  }

  /** Selling nothing changes nothing; selling something lowers the price; either way the reserves stay positive. */
  lemma SellEffect(r: Reserves, tokensSold: real)
    requires r.Positive() && tokensSold >= 0.0
    ensures AfterSell(r, tokensSold).Positive() && Price(AfterSell(r, tokensSold)) > 0.0
    ensures tokensSold > 0.0 ==> Price(AfterSell(r, tokensSold)) < Price(r)
    ensures tokensSold == 0.0 ==> AfterSell(r, tokensSold) == r
  {
    if tokensSold > 0.0 {
      SellLowersPrice(r, tokensSold);
    }
    PricePositive(AfterSell(r, tokensSold));
  }

  lemma PricePositive(r: Reserves)
    requires r.Positive()
    ensures Price(r) > 0.0
  {
    assert Price(r) * r.token == r.usdc;
  }

  /** What the mitigation step yields: the USDC recorded, the price after it and the reserves after it. */
  datatype Mitigation = Mitigation(usdcToBuy: real, price: real, after: Reserves)

  /**
    `compute_usdcs_to_buy_and_mitigate`: past the tolerated impact, the buy-back
    that restores the tolerated price is recorded, and carried out only with
    mitigation on; within it, nothing is recorded and nothing is bought.
   */
  function Mitigate(r: Reserves, priceImpact: real, p: Params, priceBefore: real, sqrt: real -> real): (m: Mitigation)
    requires IsSqrt(sqrt) && r.Positive() && p.Valid() && priceBefore > 0.0
    ensures m.after.Positive() && m.price == Price(m.after)
    ensures m.after.Product() == r.Product()
    ensures Abs(priceImpact) > p.maxPriceImpact ==>
              r.Product() * (priceBefore * (1.0 + p.maxPriceImpact)) >= 0.0 &&
              m.usdcToBuy == MaintainPriceAmount(r, priceBefore, p.maxPriceImpact, sqrt)
    ensures Abs(priceImpact) <= p.maxPriceImpact ==> m.usdcToBuy == 0.0
    ensures Abs(priceImpact) > p.maxPriceImpact ==> r.usdc + m.usdcToBuy > 0.0
    ensures Abs(priceImpact) > p.maxPriceImpact && p.withMitigation ==>
              m.after == AfterBuy(r, m.usdcToBuy) && m.price == priceBefore * (1.0 + p.maxPriceImpact)
    ensures !(Abs(priceImpact) > p.maxPriceImpact && p.withMitigation) ==> m.after == r
  {
    if Abs(priceImpact) > p.maxPriceImpact then
      BuyBackEffect(r, priceBefore, p.maxPriceImpact, sqrt);
      var usdcToBuy := MaintainPriceAmount(r, priceBefore, p.maxPriceImpact, sqrt);
      var after := if p.withMitigation then AfterBuy(r, usdcToBuy) else r;
      Mitigation(usdcToBuy, Price(after), after)
    else
      Mitigation(0.0, Price(r), r)
  }

  /** The buy-back of `maintain_price` keeps the reserves positive and lands on the tolerated price. */
  lemma BuyBackEffect(r: Reserves, priceBefore: real, maxPriceImpact: real, sqrt: real -> real)
    requires IsSqrt(sqrt) && r.Positive() && priceBefore > 0.0 && maxPriceImpact > -1.0
    ensures r.Product() * (priceBefore * (1.0 + maxPriceImpact)) >= 0.0
    ensures r.usdc + MaintainPriceAmount(r, priceBefore, maxPriceImpact, sqrt) > 0.0
    ensures AfterBuy(r, MaintainPriceAmount(r, priceBefore, maxPriceImpact, sqrt)).Positive()
    ensures Price(AfterBuy(r, MaintainPriceAmount(r, priceBefore, maxPriceImpact, sqrt))) == priceBefore * (1.0 + maxPriceImpact)
  {
    var target := priceBefore * (1.0 + maxPriceImpact);
    assert target > 0.0;
    assert r.Product() > 0.0;
    assert r.Product() * target > 0.0;
    MaintainPriceRoundTrip(r, priceBefore, maxPriceImpact, sqrt);
  }

  /** What a month of selling ends with: the reserves, the ledgers, and the tokens left unsold. */
  datatype Outcome = Outcome(reserves: Reserves, ledger: Ledger, remaining: real)

  /** The termination measure of the sell loop: the remainder in millionths of a token, rounded down. */
  function Measure(released: real): nat
  {
    if released <= 0.0 then 0 else (released * 1000000.0).Floor + 1
  }

  lemma MeasureDecreases(released: real, rest: real)
    requires released > 0.0 && rest <= released - MinSellChunk
    ensures Measure(rest) < Measure(released)
  {
    if rest > 0.0 {
      assert rest * 1000000.0 <= released * 1000000.0 - 1.0;
      assert (rest * 1000000.0).Floor <= (released * 1000000.0).Floor - 1;
    }
  }

  /** The ledgers with one sub-step's entries appended. */
  function Record(ledger: Ledger, s: Sale, m: Mitigation): (ledger': Ledger)
    requires s.after.token != 0.0
    ensures |ledger'.tokensSold| == |ledger.tokensSold| + 1 && |ledger'.tokenPrice| == |ledger.tokenPrice| + 1
    ensures |ledger'.usdcToBuy| == |ledger.usdcToBuy| + 1 && |ledger'.priceAfterMitigation| == |ledger.priceAfterMitigation| + 1
    ensures Last(ledger'.tokensSold) == s.tokensToSell && Last(ledger'.tokenPrice) * s.after.token == s.after.usdc
    ensures Last(ledger'.usdcToBuy) == m.usdcToBuy && Last(ledger'.priceAfterMitigation) == m.price
  {
    Ledger(ledger.tokensSold + [s.tokensToSell], ledger.tokenPrice + [Price(s.after)],
           ledger.usdcToBuy + [m.usdcToBuy], ledger.priceAfterMitigation + [m.price])
  }

  /** Each of the four ledgers of `a` is a prefix of the same ledger of `b`. */
  predicate LedgerPrefix(a: Ledger, b: Ledger)
  {
    |a.tokensSold| <= |b.tokensSold| && b.tokensSold[..|a.tokensSold|] == a.tokensSold &&
    |a.tokenPrice| <= |b.tokenPrice| && b.tokenPrice[..|a.tokenPrice|] == a.tokenPrice &&
    |a.usdcToBuy| <= |b.usdcToBuy| && b.usdcToBuy[..|a.usdcToBuy|] == a.usdcToBuy &&
    |a.priceAfterMitigation| <= |b.priceAfterMitigation| && b.priceAfterMitigation[..|a.priceAfterMitigation|] == a.priceAfterMitigation
  }

  /** Recording a sub-step keeps every earlier ledger entry where it was. */
  lemma RecordExtends(ledger: Ledger, s: Sale, m: Mitigation)
    requires s.after.token != 0.0
    ensures LedgerPrefix(ledger, Record(ledger, s, m))
  {
  }

  /**
    `execute_transaction_step`: while tokens remain, sell a chunk, record it,
    mitigate, and stop early once a chunk is smaller than `MinSellChunk`.
   */
  function TransactionStep(r: Reserves, ledger: Ledger, released: real, p: Params, sqrt: real -> real): (out: Outcome)
    requires IsSqrt(sqrt) && r.Positive() && p.Valid()
    ensures released <= 0.0 ==> out == Outcome(r, ledger, released)
    decreases Measure(released)
  {
    if released <= 0.0 then Outcome(r, ledger, released)
    else
      var s := SellSubstep(r, released, p.averageSellingOrder);
      var m := Mitigate(s.after, s.priceImpact, p, s.priceBefore, sqrt);
      var rest := released - s.tokensToSell;
      if s.tokensToSell < MinSellChunk then Outcome(m.after, Record(ledger, s, m), rest)
      else
        MeasureDecreases(released, rest);
        TransactionStep(m.after, Record(ledger, s, m), rest, p, sqrt)
  }

  /**
    Conservation of a month's selling: the tokens sold add up to the release
    less what is left, and a positive release is never oversold.
   */
  lemma {:induction false} TransactionConservation(r: Reserves, ledger: Ledger, released: real, p: Params, sqrt: real -> real)
    requires IsSqrt(sqrt) && r.Positive() && p.Valid()
    ensures Sum(TransactionStep(r, ledger, released, p, sqrt).ledger.tokensSold) ==
            Sum(ledger.tokensSold) + released - TransactionStep(r, ledger, released, p, sqrt).remaining
    ensures released > 0.0 ==> 0.0 <= TransactionStep(r, ledger, released, p, sqrt).remaining <= released
    decreases Measure(released)
  {
    if released > 0.0 {
      var s := SellSubstep(r, released, p.averageSellingOrder);
      var m := Mitigate(s.after, s.priceImpact, p, s.priceBefore, sqrt);
      var rest := released - s.tokensToSell;
      var ledger' := Record(ledger, s, m);
      SumAppend(ledger.tokensSold, [s.tokensToSell]);
      SumSingle(s.tokensToSell);
      assert Sum(ledger'.tokensSold) == Sum(ledger.tokensSold) + s.tokensToSell;
      if s.tokensToSell < MinSellChunk {
        assert TransactionStep(r, ledger, released, p, sqrt) == Outcome(m.after, ledger', rest);
      } else {
        MeasureDecreases(released, rest);
        assert TransactionStep(r, ledger, released, p, sqrt) == TransactionStep(m.after, ledger', rest, p, sqrt);
        TransactionConservation(m.after, ledger', rest, p, sqrt);
        if rest <= 0.0 {
          assert TransactionStep(m.after, ledger', rest, p, sqrt).remaining == rest;
        }
      }
    }
  }

  /**
    Every sub-step appends one entry to each of the four ledgers, and a month
    with something to sell has at least one sub-step.
   */
  lemma {:induction false} TransactionLedgers(r: Reserves, ledger: Ledger, released: real, p: Params, sqrt: real -> real, n: nat)
    requires IsSqrt(sqrt) && r.Positive() && p.Valid() && ledger.Even(n)
    ensures var out := TransactionStep(r, ledger, released, p, sqrt).ledger;
            out.Even(|out.tokensSold|) && n <= |out.tokensSold| && (released > 0.0 <==> n < |out.tokensSold|)
    decreases Measure(released)
  {
    if released > 0.0 {
      var s := SellSubstep(r, released, p.averageSellingOrder);
      var m := Mitigate(s.after, s.priceImpact, p, s.priceBefore, sqrt);
      var rest := released - s.tokensToSell;
      var ledger' := Record(ledger, s, m);
      assert ledger'.Even(n + 1);
      if s.tokensToSell < MinSellChunk {
        assert TransactionStep(r, ledger, released, p, sqrt) == Outcome(m.after, ledger', rest);
      } else {
        MeasureDecreases(released, rest);
        assert TransactionStep(r, ledger, released, p, sqrt) == TransactionStep(m.after, ledger', rest, p, sqrt);
        TransactionLedgers(m.after, ledger', rest, p, sqrt, n + 1);
      }
    }
  }

  /**
    Selling and buying both keep the product of the reserves: a month of
    trading leaves the reserves positive with the same k; without mitigation it
    never raises the price.
   */
  lemma {:induction false} TransactionKeepsProduct(r: Reserves, ledger: Ledger, released: real, p: Params, sqrt: real -> real)
    requires IsSqrt(sqrt) && r.Positive() && p.Valid()
    ensures TransactionStep(r, ledger, released, p, sqrt).reserves.Positive()
    ensures TransactionStep(r, ledger, released, p, sqrt).reserves.Product() == r.Product()
    ensures !p.withMitigation ==> Price(TransactionStep(r, ledger, released, p, sqrt).reserves) <= Price(r)
    decreases Measure(released)
  {
    if released > 0.0 {
      var s := SellSubstep(r, released, p.averageSellingOrder);
      var m := Mitigate(s.after, s.priceImpact, p, s.priceBefore, sqrt);
      var rest := released - s.tokensToSell;
      if !p.withMitigation {
        assert m.after == s.after;
        if s.tokensToSell > 0.0 {
          SellLowersPrice(r, s.tokensToSell);
        }
      }
      if s.tokensToSell >= MinSellChunk {
        MeasureDecreases(released, rest);
        TransactionKeepsProduct(m.after, Record(ledger, s, m), rest, p, sqrt);
      }
    }
  }

  /** The four figures `run_vesting_simulation` reports, one entry per month. */
  datatype Summary = Summary(tokensSold: seq<real>, tokenPrice: seq<real>, usdcsToBuy: seq<real>, priceAfterMitigation: seq<real>)

  /** The simulation after some months: the report so far, the market, and the ledgers of the last month. */
  datatype Season = Season(summary: Summary, reserves: Reserves, ledger: Ledger)

  /** One month: reset the ledgers, sell the release, and report the totals and the last prices. */
  function Month(r: Reserves, released: real, p: Params, sqrt: real -> real): (out: Outcome)
    requires IsSqrt(sqrt) && r.Positive() && p.Valid()
    ensures out.reserves.Positive() && out.ledger.tokenPrice != [] && out.ledger.priceAfterMitigation != []
  {
    TransactionKeepsProduct(r, FreshLedger(r), released, p, sqrt);
    TransactionLedgers(r, FreshLedger(r), released, p, sqrt, 1);
    TransactionStep(r, FreshLedger(r), released, p, sqrt)
  }

  function Last(s: seq<real>): real
    requires s != []
  {
    s[|s| - 1]
  }

  /** The summary with one month's report appended. */
  function Report(summary: Summary, ledger: Ledger): (summary': Summary)
    requires ledger.tokenPrice != [] && ledger.priceAfterMitigation != []
    ensures |summary'.tokensSold| == |summary.tokensSold| + 1 && |summary'.tokenPrice| == |summary.tokenPrice| + 1
    ensures |summary'.usdcsToBuy| == |summary.usdcsToBuy| + 1 && |summary'.priceAfterMitigation| == |summary.priceAfterMitigation| + 1
    ensures Last(summary'.tokensSold) == Sum(ledger.tokensSold) && Last(summary'.tokenPrice) == Last(ledger.tokenPrice)
    ensures Last(summary'.usdcsToBuy) == Sum(ledger.usdcToBuy) && Last(summary'.priceAfterMitigation) == Last(ledger.priceAfterMitigation)
  {
    Summary(summary.tokensSold + [Sum(ledger.tokensSold)], summary.tokenPrice + [Last(ledger.tokenPrice)],
            summary.usdcsToBuy + [Sum(ledger.usdcToBuy)], summary.priceAfterMitigation + [Last(ledger.priceAfterMitigation)])
  }

  /** `run_vesting_simulation` over the first `k` months of `releases`, the market carrying over from month to month. */
  function RunUpTo(r: Reserves, ledger: Ledger, releases: seq<real>, k: nat, p: Params, sqrt: real -> real): (season: Season)
    requires IsSqrt(sqrt) && r.Positive() && p.Valid() && k <= |releases|
    ensures season.reserves.Positive()
    ensures |season.summary.tokensSold| == k && |season.summary.tokenPrice| == k
    ensures |season.summary.usdcsToBuy| == k && |season.summary.priceAfterMitigation| == k
  {
    if k == 0 then Season(Summary([], [], [], []), r, ledger)
    else
      var before := RunUpTo(r, ledger, releases, k - 1, p, sqrt);
      var out := Month(before.reserves, releases[k - 1], p, sqrt);
      Season(Report(before.summary, out.ledger), out.reserves, out.ledger)
  }

  /**
    One month of selling: the market keeps its k, and a positive release is
    sold in full or in part but never oversold. A month with nothing to release
    sells nothing, buys nothing, reports the price it started with and a
    mitigated price of 0, and leaves the market as it was.
   */
  lemma MonthEffect(r: Reserves, released: real, p: Params, sqrt: real -> real)
    requires IsSqrt(sqrt) && r.Positive() && p.Valid()
    ensures var out := Month(r, released, p, sqrt);
            out.reserves.Product() == r.Product() &&
            (released > 0.0 ==> 0.0 <= Sum(out.ledger.tokensSold) <= released) &&
            (released <= 0.0 ==>
               Sum(out.ledger.tokensSold) == 0.0 && Sum(out.ledger.usdcToBuy) == 0.0 &&
               Last(out.ledger.tokenPrice) == Price(r) && Last(out.ledger.priceAfterMitigation) == 0.0 &&
               out.reserves == r)
  {
    TransactionConservation(r, FreshLedger(r), released, p, sqrt);
    TransactionKeepsProduct(r, FreshLedger(r), released, p, sqrt);
  }

  /** One more month of the run: that month's selling appended to the report. */
  lemma RunStep(r: Reserves, ledger: Ledger, releases: seq<real>, k: nat, p: Params, sqrt: real -> real)
    requires IsSqrt(sqrt) && r.Positive() && p.Valid() && k < |releases|
    ensures var before := RunUpTo(r, ledger, releases, k, p, sqrt);
            var out := Month(before.reserves, releases[k], p, sqrt);
            RunUpTo(r, ledger, releases, k + 1, p, sqrt) == Season(Report(before.summary, out.ledger), out.reserves, out.ledger)
  {
  }

  /** Month `k` of the report is that month's selling, started from the market the earlier months left. */
  lemma MonthReport(r: Reserves, ledger: Ledger, releases: seq<real>, k: nat, p: Params, sqrt: real -> real)
    requires IsSqrt(sqrt) && r.Positive() && p.Valid() && k < |releases|
    ensures var before := RunUpTo(r, ledger, releases, k, p, sqrt);
            var after := RunUpTo(r, ledger, releases, k + 1, p, sqrt);
            var out := Month(before.reserves, releases[k], p, sqrt);
            after.reserves == out.reserves && after.ledger == out.ledger &&
            after.summary.tokensSold[k] == Sum(out.ledger.tokensSold) &&
            after.summary.usdcsToBuy[k] == Sum(out.ledger.usdcToBuy) &&
            after.summary.tokenPrice[k] == Last(out.ledger.tokenPrice) &&
            after.summary.priceAfterMitigation[k] == Last(out.ledger.priceAfterMitigation)
  {
  }

  /** Each of the four report lists of `a` is a prefix of the same list of `b`. */
  predicate SummaryPrefix(a: Summary, b: Summary)
  {
    |a.tokensSold| <= |b.tokensSold| && b.tokensSold[..|a.tokensSold|] == a.tokensSold &&
    |a.tokenPrice| <= |b.tokenPrice| && b.tokenPrice[..|a.tokenPrice|] == a.tokenPrice &&
    |a.usdcsToBuy| <= |b.usdcsToBuy| && b.usdcsToBuy[..|a.usdcsToBuy|] == a.usdcsToBuy &&
    |a.priceAfterMitigation| <= |b.priceAfterMitigation| && b.priceAfterMitigation[..|a.priceAfterMitigation|] == a.priceAfterMitigation
  }

  /** Reporting a month keeps every earlier month's entries where they were. */
  lemma ReportExtends(summary: Summary, ledger: Ledger)
    requires ledger.tokenPrice != [] && ledger.priceAfterMitigation != []
    ensures SummaryPrefix(summary, Report(summary, ledger))
  {
  }

  lemma SummaryPrefixTrans(a: Summary, b: Summary, c: Summary)
    requires SummaryPrefix(a, b) && SummaryPrefix(b, c)
    ensures SummaryPrefix(a, c)
  {
    assert c.tokensSold[..|a.tokensSold|] == c.tokensSold[..|b.tokensSold|][..|a.tokensSold|];
    assert c.tokenPrice[..|a.tokenPrice|] == c.tokenPrice[..|b.tokenPrice|][..|a.tokenPrice|];
    assert c.usdcsToBuy[..|a.usdcsToBuy|] == c.usdcsToBuy[..|b.usdcsToBuy|][..|a.usdcsToBuy|];
    assert c.priceAfterMitigation[..|a.priceAfterMitigation|] == c.priceAfterMitigation[..|b.priceAfterMitigation|][..|a.priceAfterMitigation|];
  }

  /** Later months never rewrite the report of earlier ones. */
  lemma {:induction false} RunPrefix(r: Reserves, ledger: Ledger, releases: seq<real>, j: nat, k: nat, p: Params, sqrt: real -> real)
    requires IsSqrt(sqrt) && r.Positive() && p.Valid() && j <= k <= |releases|
    ensures SummaryPrefix(RunUpTo(r, ledger, releases, j, p, sqrt).summary, RunUpTo(r, ledger, releases, k, p, sqrt).summary)
    decreases k
  {
    var a := RunUpTo(r, ledger, releases, j, p, sqrt).summary;
    if j == k {
      assert a.tokensSold[..|a.tokensSold|] == a.tokensSold;
      assert a.tokenPrice[..|a.tokenPrice|] == a.tokenPrice;
      assert a.usdcsToBuy[..|a.usdcsToBuy|] == a.usdcsToBuy;
      assert a.priceAfterMitigation[..|a.priceAfterMitigation|] == a.priceAfterMitigation;
    } else {
      RunPrefix(r, ledger, releases, j, k - 1, p, sqrt);
      RunStep(r, ledger, releases, k - 1, p, sqrt);
      var before := RunUpTo(r, ledger, releases, k - 1, p, sqrt);
      var out := Month(before.reserves, releases[k - 1], p, sqrt);
      ReportExtends(before.summary, out.ledger);
      SummaryPrefixTrans(a, before.summary, RunUpTo(r, ledger, releases, k, p, sqrt).summary);
    }
  }

  /**
    `run_vesting_simulation`'s report, month by month: entry `k` of the final
    report is month `k`'s total sold, total USDC, last price and last mitigated
    price, the month starting from the market the earlier months left.
   */
  lemma RunReportAt(r: Reserves, ledger: Ledger, releases: seq<real>, k: nat, p: Params, sqrt: real -> real)
    requires IsSqrt(sqrt) && r.Positive() && p.Valid() && k < |releases|
    ensures var final := RunUpTo(r, ledger, releases, |releases|, p, sqrt).summary;
            var out := Month(RunUpTo(r, ledger, releases, k, p, sqrt).reserves, releases[k], p, sqrt);
            final.tokensSold[k] == Sum(out.ledger.tokensSold) &&
            final.usdcsToBuy[k] == Sum(out.ledger.usdcToBuy) &&
            final.tokenPrice[k] == Last(out.ledger.tokenPrice) &&
            final.priceAfterMitigation[k] == Last(out.ledger.priceAfterMitigation)
  {
    MonthReport(r, ledger, releases, k, p, sqrt);
    RunPrefix(r, ledger, releases, k + 1, |releases|, p, sqrt);
    var after := RunUpTo(r, ledger, releases, k + 1, p, sqrt).summary;
    var final := RunUpTo(r, ledger, releases, |releases|, p, sqrt).summary;
    assert final.tokensSold[..k + 1][k] == after.tokensSold[k];
    assert final.usdcsToBuy[..k + 1][k] == after.usdcsToBuy[k];
    assert final.tokenPrice[..k + 1][k] == after.tokenPrice[k];
    assert final.priceAfterMitigation[..k + 1][k] == after.priceAfterMitigation[k];
  }

  /** Over any number of months the market's reserves stay positive with the same product. */
  lemma {:induction false} RunKeepsProduct(r: Reserves, ledger: Ledger, releases: seq<real>, k: nat, p: Params, sqrt: real -> real)
    requires IsSqrt(sqrt) && r.Positive() && p.Valid() && k <= |releases|
    ensures RunUpTo(r, ledger, releases, k, p, sqrt).reserves.Product() == r.Product()
    ensures !p.withMitigation ==> Price(RunUpTo(r, ledger, releases, k, p, sqrt).reserves) <= Price(r)
  {
    if k > 0 {
      RunKeepsProduct(r, ledger, releases, k - 1, p, sqrt);
      var before := RunUpTo(r, ledger, releases, k - 1, p, sqrt);
      TransactionKeepsProduct(before.reserves, FreshLedger(before.reserves), releases[k - 1], p, sqrt);
    }
  }

  /** The columns of the table whose names are not excluded, in table order. */
  function Kept(table: seq<Column>, exclude: seq<string>): (kept: seq<Column>)
    ensures forall c :: c in kept <==> c in table && c.name !in exclude
    ensures |kept| <= |table|
  {
    if |table| == 0 then []
    else
      var last := table[|table| - 1];
      var rest := Kept(table[..|table| - 1], exclude);
      assert forall c :: c in table <==> c in table[..|table| - 1] || c == last;
      if last.name in exclude then rest else rest + [last]
  }

  function Values(cols: seq<Column>): (series: seq<seq<real>>)
    ensures |series| == |cols| && forall k :: 0 <= k < |cols| ==> series[k] == cols[k].values
  {
    seq(|cols|, k requires 0 <= k < |cols| => cols[k].values)
  }

  /** Every column of the table has `rows` entries: the shape of a DataFrame. */
  predicate Rectangular(table: seq<Column>, rows: nat)
  {
    forall k :: 0 <= k < |table| ==> |table[k].values| == rows
  }

  function RowCount(table: seq<Column>): nat
  {
    if |table| == 0 then 0 else |table[0].values|
  }

  /**
    `compute_monthly_released_tokens` as a value: per row (month), the sum over
    the columns that are not excluded; a table with nothing left sums to 0.
   */
  function ReleasedTokens(table: seq<Column>, exclude: seq<string>): (released: seq<real>)
    requires Rectangular(table, RowCount(table))
    ensures |released| == RowCount(table)
    ensures forall t :: 0 <= t < |released| ==> released[t] == Sum(MonthOf(Values(Kept(table, exclude)), t))
  {
    var kept := Kept(table, exclude);
    assert forall k :: 0 <= k < |kept| ==> kept[k] in table;
    if |kept| == 0 then
      assert forall t :: 0 <= t < RowCount(table) ==> MonthOf(Values(kept), t) == [];
      Zeros(RowCount(table))
    else
      assert forall k :: 0 <= k < |kept| ==> |Values(kept)[k]| == RowCount(table);
      ColumnTotalsSum(Values(kept), RowCount(table));
      ColumnTotals(Values(kept))
  }

  /** The released tokens of all months add up to the totals of the columns kept. */
  lemma ReleasedTokensSum(table: seq<Column>, exclude: seq<string>)
    requires Rectangular(table, RowCount(table))
    ensures Sum(ReleasedTokens(table, exclude)) == Sum(Totals(Values(Kept(table, exclude))))
  {
    var kept := Kept(table, exclude);
    assert forall k :: 0 <= k < |kept| ==> kept[k] in table;
    assert forall k :: 0 <= k < |kept| ==> |Values(kept)[k]| == RowCount(table);
    ColumnTotalsSum(Values(kept), RowCount(table));
    if |kept| == 0 {
      SumZeros(RowCount(table));
      assert Totals(Values(kept)) == [];
    }
  }

  /**
    The simulator of vesting_simulation.py: the orchestrator whose table gives
    the monthly releases, the market it sells into, the columns left out of the
    releases, and the ledgers of the current month. `monthlyReleaseTokens` is
    empty until `ComputeMonthlyReleasedTokens` fills it.
   */
  class TokenEconomySimulator {
    const orchestrator: Orchestrator
    const liquidityPool: LiquidityPool
    const columnsToExclude: seq<string>
    var tokensSold: seq<real>
    var tokenPrice: seq<real>
    var usdcToBuyList: seq<real>
    var priceAfterMitigation: seq<real>
    var monthlyReleaseTokens: seq<real>

    /** The four ledgers as a value. */
    function Ledgers(): Ledger
      reads this
    {
      Ledger(tokensSold, tokenPrice, usdcToBuyList, priceAfterMitigation)
    }

    constructor(orchestrator: Orchestrator, liquidityPool: LiquidityPool, columnsToExclude: seq<string>)
      requires liquidityPool.tokenReserve != 0.0
      ensures this.orchestrator == orchestrator && this.liquidityPool == liquidityPool
      ensures this.columnsToExclude == columnsToExclude
      ensures Ledgers() == FreshLedger(liquidityPool.State())
      ensures monthlyReleaseTokens == []
    {
      this.orchestrator := orchestrator;
      this.liquidityPool := liquidityPool;
      this.columnsToExclude := columnsToExclude;
      monthlyReleaseTokens := [];
      new;
      ResetState();
    }

    /** `reset_state`: fresh ledgers; the market is only read. */
    method ResetState()
      requires liquidityPool.tokenReserve != 0.0
      modifies this
      ensures Ledgers() == FreshLedger(liquidityPool.State())
      ensures monthlyReleaseTokens == old(monthlyReleaseTokens)
    {
      var price := liquidityPool.CalculatePrice();
      tokensSold, tokenPrice, usdcToBuyList, priceAfterMitigation := [0.0], [price], [0.0], [0.0];
    }

    /**
      `compute_monthly_released_tokens`: pad every participant's plan through the
      orchestrator, then sum each month over the columns not excluded.
     */
    method ComputeMonthlyReleasedTokens()
      requires |orchestrator.participants| > 0
      modifies this`monthlyReleaseTokens, orchestrator.participants`distributionPlan
      ensures Plans(orchestrator.participants) == Padded(old(Plans(orchestrator.participants)), MaxLength(old(Plans(orchestrator.participants))))
      ensures var table := Build(Entries(orchestrator.participants));
              Rectangular(table, RowCount(table)) &&
              monthlyReleaseTokens == ReleasedTokens(table, columnsToExclude)
      ensures Ledgers() == old(Ledgers())
    {
      ghost var plans0 := Plans(orchestrator.participants);
      var table := orchestrator.CreateParticipantsDistributionDataframe();
      ghost var entries := Entries(orchestrator.participants);
      PaddedTableShape(entries, Plans(orchestrator.participants), plans0);
      var released := ReleasedTokens(table, columnsToExclude);
      monthlyReleaseTokens := released;
      assert Entries(orchestrator.participants) == entries;
    }

    /** `compute_and_sell_token_substep`, against the market of the simulator. */
    method ComputeAndSellTokenSubstep(releasedTokens: real, averageSellingOrder: real)
      returns (tokensToSell: real, priceAfterSelling: real, priceImpact: real, priceBeforeSelling: real)
      requires liquidityPool.State().Positive() && releasedTokens >= 0.0 && averageSellingOrder >= 0.0
      modifies liquidityPool
      ensures Sale(tokensToSell, liquidityPool.State(), priceImpact, priceBeforeSelling)
              == SellSubstep(old(liquidityPool.State()), releasedTokens, averageSellingOrder)
      ensures priceAfterSelling == Price(liquidityPool.State())
    {
      PricePositive(liquidityPool.State());
      priceBeforeSelling := liquidityPool.CalculatePrice();
      tokensToSell := MinReal(releasedTokens, averageSellingOrder / priceBeforeSelling);
      SellEffect(liquidityPool.State(), tokensToSell);
      liquidityPool.SellTokens(tokensToSell);
      priceAfterSelling := liquidityPool.CalculatePrice();
      priceImpact := (priceAfterSelling - priceBeforeSelling) / priceBeforeSelling;
    }

    /** `compute_usdcs_to_buy_and_mitigate`, against the market of the simulator. */
    method ComputeUsdcsToBuyAndMitigate(priceImpact: real, p: Params, priceBeforeSelling: real, sqrt: real -> real)
      returns (usdcToBuy: real, newMitigatedPrice: real)
      requires IsSqrt(sqrt) && liquidityPool.State().Positive() && p.Valid() && priceBeforeSelling > 0.0
      modifies liquidityPool
      ensures Mitigation(usdcToBuy, newMitigatedPrice, liquidityPool.State())
              == Mitigate(old(liquidityPool.State()), priceImpact, p, priceBeforeSelling, sqrt)
    {
      if Abs(priceImpact) > p.maxPriceImpact {
        BuyBackEffect(liquidityPool.State(), priceBeforeSelling, p.maxPriceImpact, sqrt);
        usdcToBuy := liquidityPool.MaintainPrice(priceBeforeSelling, p.maxPriceImpact, sqrt);
        if p.withMitigation {
          liquidityPool.BuyTokens(usdcToBuy);
        }
        newMitigatedPrice := liquidityPool.CalculatePrice();
      } else {
        usdcToBuy := 0.0;
        newMitigatedPrice := liquidityPool.CalculatePrice();
      }
    }

    /** `execute_transaction_step`: the sell loop of one month, appending to the ledgers. */
    method ExecuteTransactionStep(releasedTokens: real, p: Params, sqrt: real -> real)
      requires IsSqrt(sqrt) && liquidityPool.State().Positive() && p.Valid()
      modifies this`tokensSold, this`tokenPrice, this`usdcToBuyList, this`priceAfterMitigation, liquidityPool
      ensures var out := TransactionStep(old(liquidityPool.State()), old(Ledgers()), releasedTokens, p, sqrt);
              liquidityPool.State() == out.reserves && Ledgers() == out.ledger
      ensures monthlyReleaseTokens == old(monthlyReleaseTokens)
    {
      ghost var goal := TransactionStep(liquidityPool.State(), Ledgers(), releasedTokens, p, sqrt);
      var released := releasedTokens;
      while released > 0.0
        invariant liquidityPool.State().Positive()
        invariant TransactionStep(liquidityPool.State(), Ledgers(), released, p, sqrt) == goal
        decreases Measure(released)
      {
        ghost var r0, ledger0, released0 := liquidityPool.State(), Ledgers(), released;
        var tokensToSell, priceAfterSelling, priceImpact, priceBeforeSelling :=
          ComputeAndSellTokenSubstep(released, p.averageSellingOrder);
        tokensSold := tokensSold + [tokensToSell];
        tokenPrice := tokenPrice + [priceAfterSelling];
        var usdcsToBuy, newMitigatedPrice := ComputeUsdcsToBuyAndMitigate(priceImpact, p, priceBeforeSelling, sqrt);
        priceAfterMitigation := priceAfterMitigation + [newMitigatedPrice];
        usdcToBuyList := usdcToBuyList + [usdcsToBuy];
        released := released - tokensToSell;
        if tokensToSell < MinSellChunk {
          assert TransactionStep(r0, ledger0, released0, p, sqrt) == Outcome(liquidityPool.State(), Ledgers(), released);
          break;
        }
        MeasureDecreases(released0, released);
      }
    }

    /**
      `run_vesting_simulation`: every month starts fresh ledgers, sells that
      month's release into the market left by the month before, and reports
      the tokens sold, the last price, the USDC recorded and the last mitigated
      price.
     */
    method RunVestingSimulation(p: Params, sqrt: real -> real) returns (result: Summary)
      requires IsSqrt(sqrt) && liquidityPool.State().Positive() && p.Valid()
      modifies this, liquidityPool
      ensures Season(result, liquidityPool.State(), Ledgers())
              == RunUpTo(old(liquidityPool.State()), old(Ledgers()), monthlyReleaseTokens, |monthlyReleaseTokens|, p, sqrt)
      ensures monthlyReleaseTokens == old(monthlyReleaseTokens)
    {
      result := Summary([], [], [], []);
      ghost var r0, ledger0 := liquidityPool.State(), Ledgers();
      var k := 0;
      while k < |monthlyReleaseTokens|
        invariant 0 <= k <= |monthlyReleaseTokens|
        invariant monthlyReleaseTokens == old(monthlyReleaseTokens)
        invariant liquidityPool.State().Positive()
        invariant Season(result, liquidityPool.State(), Ledgers()) == RunUpTo(r0, ledger0, monthlyReleaseTokens, k, p, sqrt)
      {
        ghost var start := liquidityPool.State();
        ResetState();
        ExecuteTransactionStep(monthlyReleaseTokens[k], p, sqrt);
        ghost var out := Month(start, monthlyReleaseTokens[k], p, sqrt);
        assert liquidityPool.State() == out.reserves && Ledgers() == out.ledger;
        result := Report(result, Ledgers());
        RunStep(r0, ledger0, monthlyReleaseTokens, k, p, sqrt);
        k := k + 1;
      }
    }
  }

  /** The table built from the padded plans is rectangular. */
  lemma PaddedTableShape(entries: seq<Column>, plans: seq<seq<real>>, plans0: seq<seq<real>>)
    requires |plans0| > 0 && plans == Padded(plans0, MaxLength(plans0))
    requires |entries| == |plans| && forall i :: 0 <= i < |entries| ==> entries[i].values == plans[i]
    ensures Rectangular(Build(entries), RowCount(Build(entries)))
  {
    PaddedEvenly(plans0);
    TableShape(entries, MaxLength(plans0));
  }

  /** The table built from equally long plans is rectangular, with a row per month. */
  lemma TableShape(entries: seq<Column>, rows: nat)
    requires |entries| > 0
    requires forall i :: 0 <= i < |entries| ==> |entries[i].values| == rows
    ensures Rectangular(Build(entries), RowCount(Build(entries)))
    ensures RowCount(Build(entries)) == rows
  {
    TableRows(entries, rows);
    BuildNames(entries);
    assert entries[0].name in Names(Build(entries));
  }
}
