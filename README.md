# Token-economy simulator: a Dafny model

This project models the core of a month-by-month token-economy simulator. Every
quantity is a monthly series, and the simulator has seven parts:

- **ICO vesting** (`Vesting`, ico_distribution.dfy):
  - each participant's supply, valuation, collected USD and multiplier;
  - a release plan made of a TGE tranche, a cliff of zeros and equal monthly tranches;
  - an orchestrator that pads every plan with zeros to the longest one.
- **Constant-product market** (`Market`, liquidity_pool.dfy):
  - a USDC reserve and a token reserve whose product `k` every trade keeps;
  - the buy-back amount that would move the price to a target.
- **Revenue-to-lock engine** (`Revenue`, revenue.dfy):
  - revenue sources that split gross revenue into an immediate and a reserve part;
  - the immediate part buys tokens that are locked;
  - locked tokens are released in equal slices over a locking duration;
  - a calculator that adds sources up with `zip` and keeps a running locked balance.
- **Monthly sell simulator** (`Simulation`, vesting_simulation.dfy):
  - each month's vested release is sold into the market in chunks;
  - after each chunk the price impact is measured, and a buy-back is recorded and optionally carried out.
- **Staking calculator** (`Staking`, staking.dfy):
  - net earnings become either tokens minted for stakers or tokens bought back;
  - the cumulative incentive is compounded over five passes;
  - a staking pool pays that incentive out every month.
- **Bounded pools** (`DataPool`, data_pool.dfy): pending inflows and outflows that close each month into a balance clamped to `[0, cap]`.
- **Pool-flow loop** (`PoolFlow`, pool_flow.dfy):
  - drives the Treasury, Staking and Minting pools month by month;
  - locks revenue and Minting emission;
  - releases each month's lock in twelve slices, 12 to 23 months later.

The `Series` module (series.dfy) holds what these parts share:

- sums;
- Python's `zip`, modelled as truncation to the shorter series;
- windows added to a series;
- column totals.

`Wrappers` holds `Option`.

**How the model is built**

- Python floats are `real`, so the conservation laws hold exactly:
  - `k` is kept by trades;
  - what is unlocked equals what is locked;
  - immediate plus reserve equals gross.
- Each Python class whose methods update fields is a Dafny `class`:
  - its methods are specified against a value-level function, such as `State() == AfterSell(old(State()), x)`;
  - the laws are proved as lemmas about those functions.
- Loops in the source are loops here, with invariants tying them to the same functions.

**Three behaviours of the code that are easy to misread, and that the model keeps:**

- An unlock series is `D + n` long, and its last month is always 0.
- `tokens_to_be_unlocked` combines sources with `zip`, so it stops at the shortest source series.
- `ServicesRevenue` ignores the immediate proportion it is given.

## Model

| member | source | states |
|---|---|---|
| Vesting.TgeTokens | ICO_distribution.py:33 | The TGE tranche is `tge_percent` percent of the participant's supply. |
| Vesting.MonthlyTranche | ICO_distribution.py:34-39 | The supply left after the TGE tranche, divided evenly over the distribution months; 0 when there are none. |
| Vesting.ReleaseSchedule | ICO_distribution.py:31-47 | The plan is `cliff + distribution + 1` months long. Month 0 is the TGE tranche, the cliff months are 0, and every later month is the monthly tranche. |
| Vesting.ReleaseScheduleSum | ICO_distribution.py:33-45 | The plan releases the whole supply when there are distribution months, and only the TGE tranche when there are none. |
| Vesting.ReleaseScheduleParts | ICO_distribution.py:41-45 | The plan is the TGE tranche, followed by the cliff's zeros, followed by the equal tranches. |
| Vesting.ValuationMultiplier | ICO_distribution.py:26-28 | The multiplier times the collected USD is the valuation; it is 0 when nothing was collected. |
| Vesting.MultiplierIsPriceRatio | ICO_distribution.py:22-28 | With a non-zero token price and supply, the multiplier is the listing price over the token price; with no supply, it is 0. |
| Vesting.PadTo | ICO_distribution.py:88-91 | Padding keeps the plan as its prefix, appends zeros only, and reaches `max(len, max_months)`. |
| Vesting.PadToSum | ICO_distribution.py:88-91 | Padding adds nothing to the total released, and padding twice to the same length is the same as padding once. |
| Vesting.MaxLength | ICO_distribution.py:95 | Bounds every plan's length and is reached by some plan. |
| Vesting.PutFacts | ICO_distribution.py:98 | Storing a column under an existing name replaces it in place; a new name is appended. Names stay distinct. |
| Vesting.BuildNames | ICO_distribution.py:98 | The table's column names are distinct, and every participant's description names a column. |
| Vesting.BuildFromEntries | ICO_distribution.py:98 | Every column of the table is one participant's plan under its description. |
| Vesting.BuildLastWins | ICO_distribution.py:98 | For a description listed twice, the column holds the plan of the last participant listed. |
| Vesting.PutKeepsOthers | ICO_distribution.py:98 | Storing one column keeps every column of another name. |
| Vesting.PutHasNew | ICO_distribution.py:98 | The column just stored is in the table. |
| Vesting.Participant.constructor | ICO_distribution.py:7-19 | A new participant has its terms, with the dataclass defaults when they are omitted, and zeroed figures until they are computed. |
| Vesting.Participant.Financials | ICO_distribution.py:21-29 | The supply is the participant's percent of the ICO supply, and the valuation is listing price times supply. With a token price, collected USD is price times supply and the multiplier is valuation over collected USD (0 when nothing was collected); without one, both keep their old values. The plan is the release schedule. |
| Vesting.Participant.CalculateFinancials | ICO_distribution.py:21-29 | The participant's figures become `Financials` of the old ones. |
| Vesting.Participant.DistributeWithCliff | ICO_distribution.py:31-47 | The index loop produces exactly `ReleaseSchedule`. |
| Vesting.Entries | ICO_distribution.py:98 | One entry per participant, in order: its description and its plan. |
| Vesting.Plans | ICO_distribution.py:95-98 | The participants' plans, in order. |
| Vesting.Padded | ICO_distribution.py:96-97 | Every plan is padded to the same length. |
| Vesting.PaddedAll | ICO_distribution.py:96-97 | Padding the participants one after another pads every plan. |
| Vesting.PadStep | ICO_distribution.py:96-97 | Padding one participant is one more step of the loop, even when a participant is listed twice. |
| Vesting.PaddedEvenly | ICO_distribution.py:95-97 | After padding to the longest length, every plan has that length and keeps its total. |
| Vesting.TableRows | ICO_distribution.py:98-99 | When every plan has `rows` months, so does every column of the table. |
| Vesting.Orchestrator.constructor | ICO_distribution.py:64-68 | A new orchestrator has its supply, its listing price and the participants given, or none by default. |
| Vesting.Orchestrator.AddParticipant | ICO_distribution.py:70-73 | The participant's figures are computed, and it is appended after the earlier participants. |
| Vesting.Orchestrator.ExtendDistributionPlan | ICO_distribution.py:86-91 | Only the plan changes, and it becomes `PadTo(plan, max_months)`. |
| Vesting.Orchestrator.ExtendEvery | ICO_distribution.py:96-97 | Padding `participants[i]` pads every position holding that participant. |
| Vesting.Orchestrator.CreateParticipantsDistributionDataframe | ICO_distribution.py:93-99 | Every plan is padded to the longest plan, and the table is built from the participants in insertion order. |
| Market.Price | Liquidity_pool.py:10-11 | The price times the token reserve is the USDC reserve. |
| Market.AfterSell | Liquidity_pool.py:13-16 | Selling raises the token reserve by exactly the amount sold and keeps `k`. |
| Market.AfterBuy | Liquidity_pool.py:18-21 | Buying raises the USDC reserve by exactly the amount spent and keeps `k`. |
| Market.MaintainPriceAmount | Liquidity_pool.py:23-30 | The new USDC reserve, current reserve plus the result, is non-negative and squares to `k` times the target price `old * (1 + threshold)`. |
| Market.SellLowersPrice | Liquidity_pool.py:13-16 | Selling a positive amount into a positive pool keeps it positive and strictly lowers the price. |
| Market.BuyRaisesPrice | Liquidity_pool.py:18-21 | Buying with a positive amount in a positive pool keeps it positive and strictly raises the price. |
| Market.MaintainPriceRoundTrip | Liquidity_pool.py:18-30 | Buying with the `maintain_price` amount puts the price exactly on `old * (1 + threshold)`. |
| Market.LiquidityPool.constructor | Liquidity_pool.py:5-8 | The pool holds the two reserves given. |
| Market.LiquidityPool.CalculatePrice | Liquidity_pool.py:10-11 | The price times the token reserve is the USDC reserve. |
| Market.LiquidityPool.MaintainPrice | Liquidity_pool.py:23-30 | Reads the reserves only: the USDC reserve plus the result is non-negative and squares to `k` times `old * (1 + threshold)`; `MaintainPriceRoundTrip` shows that buying it lands the price on that target. |
| Market.LiquidityPool.SellTokens | Liquidity_pool.py:13-16 | The reserves become `AfterSell` of the old ones. |
| Market.LiquidityPool.BuyTokens | Liquidity_pool.py:18-21 | The reserves become `AfterBuy` of the old ones. |
| Revenue.Base | revenue.py:157-170 | A base source keeps its units, unit price, proportion and locking duration, and its prices follow the `or` default. |
| Revenue.DefaultTokenPrice | revenue.py:169 | A given non-empty price list is kept; a missing or empty one becomes 1.0 in every month. |
| Revenue.License | revenue.py:195-208 | The margin per license is price minus yearly cost. Prices default to 1.0, and the lock lasts 12 months. |
| Revenue.DeviceCreation | revenue.py:211-225 | Device revenue uses the device price and the given prices, and locks for 36 months. |
| Revenue.Message | revenue.py:228-234 | Message revenue has nothing immediate and locks for 12 months. |
| Revenue.Services | revenue.py:237-288 | Services revenue keeps the units and prices, and has no immediate revenue whatever proportion it is given. |
| Revenue.TierRevenue | revenue.py:312-323 | Each month's tier revenue is that month's objects times the tier margin. |
| Revenue.ServiceRevenue | revenue.py:267-278 | Each month's service revenue is objects times proportion times margin, over the months both series cover. |
| Revenue.Gross | revenue.py:172-173 | A base source earns units times unit price each month. A services source earns the three service margins weighted by their proportions, over the months all four series cover. A network source earns the four tier margins, over the months all four tiers cover. (revenue.py lines 266-282 and 312-339 give the services and network formulas.) |
| Revenue.Immediate | revenue.py:175-179 | Off the services source, one entry per month of gross revenue; a services source, or a zero proportion, gives no immediate revenue. `RevenueSplit` states the values. (Lines 284-288 and 341-348 give the services and network versions.) |
| Revenue.Reserve | revenue.py:181-185 | One entry per month of gross revenue; a services source, or a zero proportion, reserves the whole gross revenue. `RevenueSplit` states the values. |
| Revenue.RevenueSplit | revenue.py:175-185 | For base and network sources, immediate plus reserve is gross every month. A services source has no immediate revenue and reserves its whole gross. (Lines 284-288 and 341-348 give the services and network splits.) |
| Revenue.LockingDuration | revenue.py:164-170 | Services and network sources lock for 12 months; a base source locks for its own duration, 12 unless another is given. (Line 310 fixes 12 for network revenue.) |
| Revenue.TokensToLock | revenue.py:187-192 | One entry per month with both an immediate revenue and a price. (Lines 350-355 for network revenue.) |
| Revenue.TokensBuyImmediate | revenue.py:187-192 | The tokens locked, times the price (and, except for network revenue, times the locking duration), are the month's immediate revenue. (Lines 350-355 for network revenue, without the duration.) |
| Revenue.NothingImmediateNothingLocked | revenue.py:228-288 | Message and services sources lock no tokens. |
| Revenue.NetworkUnitPrice | revenue.py:334-336 | The unit price is the average monthly revenue, or 0 when there are no months. |
| Revenue.Unlocked | revenue.py:138-147 | The release list is `D + n` months long; `UnlockedSum`, `UnlockedUpToAt` and `UnlockedLastIsZero` state its total and values. |
| Revenue.UnlockedUpTo | revenue.py:141-145 | The release list is `D + n` months long at every stage of the loop. |
| Revenue.UnlockedUpToSum | revenue.py:141-146 | Over a positive duration, the first `k` amounts spread add up to exactly those amounts. |
| Revenue.UnlockedStepSum | revenue.py:143-145 | Spreading one more amount adds exactly that amount to the total. |
| Revenue.UnlockedSum | revenue.py:138-146 | The unlocked list is `D + n` long and sums to the total locked. |
| Revenue.UnlockedLastIsZero | revenue.py:141-145 | The last month of the unlocked list is always 0. |
| Revenue.UnlockedUpToAt | revenue.py:142-145 | Month `j` receives `amount / D` from every amount `i` with `i <= j < i + D`, and nothing from the others. |
| Revenue.SlicesAt | revenue.py:143-145 | The slice month `j` receives from amount `i` is `amount / D` inside its window and 0 outside it. |
| Revenue.ComputeTokensToBeUnlocked | revenue.py:138-147 | The nested loop over an array produces exactly `Unlocked(tokens, D)`. |
| Revenue.AddMonthlyUnlock | revenue.py:144-145 | The inner loop adds the monthly unlock to the `D` months from `i`, and changes nothing else. |
| Revenue.ZipTotal | revenue.py:54-58 | The totals loop yields the monthly totals of all series, cut to the shortest, and `[]` for no series. |
| Revenue.ZipTotalStep | revenue.py:55-57 | Each round of the totals loop adds one more series to the totals. |
| Revenue.ZipTotalFirst | revenue.py:54-57 | The first round turns the zeros into the first series. |
| Revenue.ZipTotalNext | revenue.py:55-57 | A later round adds the next series to the totals so far. |
| Revenue.UnlockSeries | revenue.py:114-118 | A source's unlock series is `D + n` months long. |
| Revenue.LockSeriesOf | revenue.py:87-90 | The tokens-to-lock series of every source, in order. |
| Revenue.UnlockSeriesOf | revenue.py:113-118 | The unlock series of every source, in order. |
| Revenue.CombinedUnlocks | revenue.py:110-124 | No sources give no unlocks, and one source gives its own unlock series; `CombinedUnlocksAreTotals` and `UnlockConservation` state the rest. |
| Revenue.CombinedUnlocksAreTotals | revenue.py:119-123 | When every source unlocks something, the combined unlocks are the monthly totals of the sources' unlock series, cut to the shortest. |
| Revenue.UnlockConservation | revenue.py:110-146 | When all sources share a duration and a length, the combined unlocks run `D` months past the locks and release exactly the total locked. |
| Revenue.SeriesLengths | revenue.py:113-118 | With a common duration and length, every source's lock series has that length and every unlock series is `D` months longer. |
| Revenue.UnlockedTotals | revenue.py:110-146 | Source by source, the total unlocked equals the total locked. |
| Revenue.LockedBalance | revenue.py:129-133 | One balance per month that both series cover. |
| Revenue.LockedBalanceStep | revenue.py:130-133 | The balance starts at the first month's locked minus unlocked, and then moves each month by that month's locked minus unlocked. |
| Revenue.FinancialCalculator.constructor | revenue.py:36-39 | A new calculator has no sources and an empty history. |
| Revenue.FinancialCalculator.AddRevenueSource | revenue.py:41-43 | The source is appended; nothing else changes. |
| Revenue.FinancialCalculator.AddCostSource | revenue.py:45-47 | The source is appended; nothing else changes. |
| Revenue.FinancialCalculator.GrossSeries | revenue.py:55-56 | The gross series of every revenue source, in order. |
| Revenue.FinancialCalculator.ImmediateSeries | revenue.py:66-67 | The immediate series of every revenue source, in order. |
| Revenue.FinancialCalculator.ReserveSeries | revenue.py:77-78 | The reserve series of every revenue source, in order. |
| Revenue.FinancialCalculator.CostSeries | revenue.py:99-100 | The cost series of every cost source, in order. (Lines 153-154 give a cost source's series.) |
| Revenue.FinancialCalculator.TotalRevenues | revenue.py:49-58 | The monthly totals of the gross series, cut to the shortest, and `[]` without sources. |
| Revenue.FinancialCalculator.TotalImmediateRevenues | revenue.py:60-69 | The monthly totals of the immediate series, cut to the shortest, and `[]` without sources. |
| Revenue.FinancialCalculator.TotalReserveRevenues | revenue.py:71-80 | The monthly totals of the reserve series, cut to the shortest, and `[]` without sources. |
| Revenue.FinancialCalculator.TotalTokensLocked | revenue.py:82-91 | The monthly totals of the tokens-to-lock series, cut to the shortest, and `[]` without sources. |
| Revenue.FinancialCalculator.TotalCosts | revenue.py:93-102 | The monthly totals of the cost series, cut to the shortest, and `[]` without sources. |
| Revenue.FinancialCalculator.NetEarnings | revenue.py:104-108 | Revenue minus costs, month by month, over the months both cover; `[]` without cost sources. |
| Revenue.FinancialCalculator.TokensToBeUnlocked | revenue.py:110-124 | The loop adds the sources' unlock series with `zip`, and an empty list takes the next series whole. |
| Revenue.FinancialCalculator.ComputeLockedTokensHistory | revenue.py:126-135 | Returns and stores the running locked balance of total locked against combined unlocks; the sources are unchanged. |
| Revenue.RunningBalance | revenue.py:129-133 | The balance loop produces exactly `LockedBalance`. |
| Series.ZipAdd | revenue.py:57 | A `zip` sum adds month by month and is as long as the shorter series. |
| Series.ColumnTotals | revenue.py:54-57 | No series give `[]`. Otherwise each month's total is the sum over all series, up to the shortest series. |
| Series.ZipAllTotals | revenue.py:119-123 | Folding non-empty series with `zip` gives their column totals. |
| Series.ColumnTotalsSum | revenue.py:54-57 | For series of equal length, the grand total of the monthly totals is the sum of the series' totals. |
| Series.SpreadSum | revenue.py:143-145 | Spreading `total / width` over a window that lies inside the list adds exactly `total`. |
| Series.SumAddWindow | streamlit_ioty.py:58-62 | Adding `v` to a window adds `v` once for each month of the window that the list holds. |
| Simulation.FreshLedger | vesting_simulation.py:20-25 | The four ledgers restart with one entry each. The price ledger starts at the market price, and the others start at 0. |
| Simulation.SellSubstep | vesting_simulation.py:34-48 | The step sells what remains if that is worth at most one order, and otherwise exactly one order's worth. It never sells more than remains. It keeps `k`, lowers the price whenever it sells, and measures the impact relative to the price before. |
| Simulation.SellEffect | Liquidity_pool.py:13-16 | Selling nothing changes nothing, selling something lowers the price, and the reserves stay positive. |
| Simulation.Mitigate | vesting_simulation.py:50-67 | Past the tolerated impact, the `maintain_price` amount is recorded. It is bought in only with mitigation on, which puts the price on the tolerated price. Within the tolerance, 0 is recorded and the market is untouched. |
| Simulation.BuyBackEffect | vesting_simulation.py:58-63 | The buy-back keeps the reserves positive and lands exactly on `price_before * (1 + max_price_impact)`. |
| Simulation.MeasureDecreases | vesting_simulation.py:90-92 | A chunk of at least `1e-6` decreases the loop's measure, so the sell loop terminates. |
| Simulation.Record | vesting_simulation.py:83-89 | Each of the four ledgers gains exactly one entry, appended last: the tokens sold, the price after selling (times the new token reserve it gives the USDC reserve), the USDC to buy and the mitigated price. `RecordExtends` states that the earlier entries are kept. |
| Simulation.RecordExtends | vesting_simulation.py:83-89 | Recording a sub-step keeps every earlier entry of the four ledgers in place. |
| Simulation.TransactionStep | vesting_simulation.py:69-92 | Nothing to sell leaves the market and the ledgers as they were; `TransactionConservation`, `TransactionLedgers` and `TransactionKeepsProduct` state the rest. |
| Simulation.TransactionConservation | vesting_simulation.py:77-92 | The tokens sold add up to the release minus what is left, and a positive release is never oversold. |
| Simulation.TransactionLedgers | vesting_simulation.py:83-89 | Each sub-step appends one entry to each of the four ledgers, and a positive release has at least one sub-step. |
| Simulation.TransactionKeepsProduct | vesting_simulation.py:77-92 | A month of trading leaves the reserves positive with the same `k`; without mitigation it never raises the price. |
| Simulation.Month | vesting_simulation.py:117-123 | A month keeps the reserves positive and leaves both price ledgers non-empty. |
| Simulation.RunUpTo | vesting_simulation.py:110-131 | After `k` months, each of the four report lists has exactly `k` entries. |
| Simulation.MonthEffect | vesting_simulation.py:20-130 | A month keeps `k` and never oversells. A month releasing nothing reports 0 sold, 0 USDC, the starting price and a mitigated price of 0, and leaves the market unchanged. |
| Simulation.RunStep | vesting_simulation.py:116-130 | Each further month appends that month's report, starting from the market the earlier months left. |
| Simulation.Report | vesting_simulation.py:124-130 | Each of the four report lists gains exactly one entry, appended last: the month's sums of tokens sold and of USDC, and its last price and last mitigated price (the ledgers as `get_transaction_summary`, lines 94-101, returns them). `ReportExtends` states that the earlier months are kept. |
| Simulation.ReportExtends | vesting_simulation.py:124-130 | Reporting a month keeps every earlier month's entries of the four report lists in place. |
| Simulation.MonthReport | vesting_simulation.py:124-130 | Month `k` reports the sum sold, the sum of USDC, the last price and the last mitigated price of that month's ledgers. |
| Simulation.RunPrefix | vesting_simulation.py:116-130 | Later months never rewrite the report of earlier months: the report after `j` months is a prefix of the report after `k >= j` months. |
| Simulation.RunReportAt | vesting_simulation.py:116-130 | Entry `k` of the final report is month `k`'s total sold, total USDC, last price and last mitigated price, that month starting from the market the earlier months left. |
| Simulation.RunKeepsProduct | vesting_simulation.py:116-123 | Over any number of months, the reserves carry over and keep `k`; without mitigation the price never rises. |
| Simulation.Kept | vesting_simulation.py:30-31 | A column is kept exactly when it is in the table and its name is not excluded. |
| Simulation.Values | vesting_simulation.py:30-32 | The values of the columns, in order. |
| Simulation.ReleasedTokens | vesting_simulation.py:27-32 | One entry per row: the sum across the kept columns of that month. |
| Simulation.ReleasedTokensSum | vesting_simulation.py:27-32 | The releases of all months add up to the totals of the kept columns. |
| Simulation.TokenEconomySimulator.constructor | vesting_simulation.py:8-18 | Stores its parts and starts with fresh ledgers and no monthly releases yet. |
| Simulation.TokenEconomySimulator.ResetState | vesting_simulation.py:20-25 | The ledgers become `FreshLedger` of the market, which is only read. |
| Simulation.TokenEconomySimulator.ComputeMonthlyReleasedTokens | vesting_simulation.py:27-32 | The plans are padded, the table is rectangular, the releases are `ReleasedTokens` of the table, and the ledgers are unchanged. |
| Simulation.TokenEconomySimulator.ComputeAndSellTokenSubstep | vesting_simulation.py:34-48 | The outputs and the new market are `SellSubstep` of the old market. |
| Simulation.TokenEconomySimulator.ComputeUsdcsToBuyAndMitigate | vesting_simulation.py:50-67 | The outputs and the new market are `Mitigate` of the old market. |
| Simulation.TokenEconomySimulator.ExecuteTransactionStep | vesting_simulation.py:69-92 | The loop leaves the market and the ledgers as `TransactionStep` describes. |
| Simulation.TokenEconomySimulator.RunVestingSimulation | vesting_simulation.py:94-131 | The report, the market and the ledgers end as `RunUpTo` over every month describes. |
| Simulation.PaddedTableShape | ICO_distribution.py:95-99 | The table built from padded plans is rectangular. |
| Simulation.TableShape | ICO_distribution.py:98-99 | The table built from equally long plans is rectangular, with one row per month. |
| Staking.Accumulate | staking.py:35-37 | Entry `t` of the running total is the sum of the first `t + 1` entries. |
| Staking.StakingPool | staking.py:45-48 | The pool has one balance per month. |
| Staking.StakingCalculator.TokensToBuy | staking.py:16-18 | The tokens to buy, times the price, are debt minus revenue, over the months all three inputs cover. |
| Staking.StakingCalculator.ComputeTokensToBeStaked | staking.py:15-26 | A deficit mints a share for stakers and a surplus buys a share back. Each month has one or the other, and minted minus bought back is the share of the tokens to buy. |
| Staking.StakingCalculator.BaseIncentive | staking.py:31-37 | One base incentive per month that the inputs cover. |
| Staking.BaseIncentiveIsMintedSoFar | staking.py:31-37 | Month `t`'s base incentive is the monthly APR (`apr / 12`) times all tokens minted for stakers in months 0 to `t`. |
| Staking.StakingCalculator.StakingTable | staking.py:28-55 | The closed form of the staking table; `StakingTableShape`, `GeomSumIsColumnSum`, `StakedShareIsIncentive`, `StakingTablePool` and `StakingPoolNonIncreasing` state its properties. |
| Staking.ComputeIncentiveForStakers | staking.py:28-55 | The method produces exactly the closed-form `StakingTable`. |
| Staking.Compound | staking.py:40-44 | After the five passes, column `i` is the base times `m^i`, and column 0 is the base times `1 + m + ... + m^5`. |
| Staking.CompoundStep | staking.py:41-44 | One pass keeps the closed form. |
| Staking.DrawDown | staking.py:45-48 | The pool loop produces exactly `StakingPool`. |
| Staking.StakingPoolStep | staking.py:45-48 | The pool starts at the initial pool minus the first incentive, then drops by each month's incentive; it is never clamped. |
| Staking.StakingPoolNonIncreasing | staking.py:45-48 | With a non-negative proportion and APR, the pool never grows. |
| Staking.StakingTablePool | staking.py:45-54 | The pool column is the initial pool drawn down by the compounded incentive. |
| Staking.BaseIncentiveNonNegative | staking.py:19-37 | With a non-negative proportion and APR, the base incentive is never negative. |
| Staking.GeomSumNonNegative | staking.py:40-44 | With a non-negative APR, every power is non-negative and the compounding factor is at least 1. |
| Staking.StakingTableShape | staking.py:16-54 | There are six incentive columns. Every column runs over the months all three inputs cover. |
| Staking.StakedShareIsIncentive | staking.py:49-52 | The percent staked, times the supply and the APR, is the compounded incentive. |
| Staking.StakedShareAt | staking.py:49-52 | The same law for one month. |
| Staking.GeomSumIsColumnSum | staking.py:40-44 | The compounding factor is the sum of the column factors `m^0` to `m^5`. |
| DataPool.PoolState.Current | data_pool.py:31-32 | The latest closed balance, or 0 for an empty history. |
| DataPool.Clamp | data_pool.py:26 | With a non-negative cap (or none), the result lies in `[0, cap]` and equals the input exactly when the input already lies there. With a negative cap the result is the cap itself, since `min` is applied last. |
| DataPool.InitialState | data_pool.py:8-16 | The history holds only the initial tokens. There is one pending slot of each kind, or two when the pool starts non-empty. |
| DataPool.AddIn | data_pool.py:18-19 | Only the last pending inflow grows, by the amount. |
| DataPool.AddOut | data_pool.py:21-22 | Only the last pending outflow grows, by the amount. |
| DataPool.Close | data_pool.py:24-29 | The history grows by one clamped balance and keeps its earlier entries. Fresh zero pending slots open, and a bounded history stays bounded. |
| DataPool.ComputeIncentiveEmission | data_pool.py:42-49 | An empty pool emits nothing; `IncentiveEmissionProportional` states the proportional law and its bounds. |
| DataPool.IncentiveEmissionProportional | data_pool.py:42-49 | The emission is `locked * rate * tokens / max`. A full pool emits `locked * rate`, and a pool between empty and full emits between nothing and that. |
| DataPool.Pool.constructor | data_pool.py:5-16 | The pool starts in `InitialState` with its name and cap; the cap defaults to none and the initial tokens to 0.0. |
| DataPool.Pool.GetCurrentTokens | data_pool.py:31-32 | The last balance recorded, or 0.0 for an empty history. |
| DataPool.Pool.AddTokens | data_pool.py:18-19 | The pool becomes `AddIn` of its old state. |
| DataPool.Pool.SubtractTokens | data_pool.py:21-22 | The pool becomes `AddOut` of its old state. |
| DataPool.Pool.UpdateHistory | data_pool.py:24-29 | The pool becomes `Close` of its old state under its own cap. |
| DataPool.PoolStates | data_pool.py:35-39 | Keyed by exactly the pools' names. The per-pool values are read through `DistributeTokensToPools` and `UpdateHistories`. |
| DataPool.Handed | data_pool.py:38-39 | Keeps the same names and every pool valid. What each pool receives is stated by `HandOneMore` and `DistributeAt`. |
| DataPool.Distribute | data_pool.py:35-39 | Every pool is still present and valid after distribution. |
| DataPool.HandOneMore | data_pool.py:38-39 | Handing one more pool its share changes that pool alone. |
| DataPool.DistributeEffect | data_pool.py:35-39 | A pool's history and outflows are unchanged. Its pending inflow grows by `amount * ratio` when it is named in `ratios`, and by nothing otherwise. |
| DataPool.DistributeAt | data_pool.py:35-39 | Each pool after distribution is handed its share exactly when it has a ratio. |
| DataPool.SubtractTokensFrom | data_pool.py:21-22 | Subtracting from one pool of the map changes that pool alone. |
| DataPool.AddTokensTo | data_pool.py:18-19 | Adding to one pool of the map changes that pool alone. |
| DataPool.UpdateHistoryOf | data_pool.py:24-29 | Closing one pool of the map changes that pool alone. |
| DataPool.Caps | data_pool.py:16 | Keyed by exactly the pools' names; `UpdateHistories` closes each pool under its own cap. |
| DataPool.ClosedUpTo | streamlit_ioty.py:64-65 | Keeps the same names and every pool valid. Which pools are closed is stated by `ClosedAt` and `CloseOneMore`. |
| DataPool.ClosedAt | streamlit_ioty.py:64-65 | One pool is closed exactly when it is among those closed so far. |
| DataPool.ClosedAll | streamlit_ioty.py:64-65 | Once every pool has closed, each holds its own closed month. |
| DataPool.CloseOneMore | streamlit_ioty.py:64-65 | Closing one more pool changes that pool alone. |
| DataPool.UpdateHistories | streamlit_ioty.py:64-65 | Every pool of the map closes the month under its own cap. |
| DataPool.DistributeTokensToPools | data_pool.py:35-39 | Each pool named in `ratios` gets `amount * ratio` more pending inflow, and every other pool is unchanged. |
| PoolFlow.LockedFromRevenue | streamlit_ioty.py:43 | The tokens locked from revenue times the month's token price are the month's revenue. |
| PoolFlow.MintingEmission | streamlit_ioty.py:45-51 | An empty Minting pool emits nothing, and the emission times the initial Minting size is the revenue lock times the rate times the pool's balance. |
| PoolFlow.InitialPools | streamlit_ioty.py:30-38 | The three pools start valid. |
| PoolFlow.HandedShare | streamlit_ioty.py:63 | Handing a pool its share keeps it valid. |
| PoolFlow.PoolMonth | streamlit_ioty.py:45-65 | A pool's month keeps it valid. |
| PoolFlow.MonthPools | streamlit_ioty.py:45-65 | The month keeps all three pools valid. |
| PoolFlow.MonthStep | streamlit_ioty.py:43-65 | A month keeps the pools valid and both lists at their length. |
| PoolFlow.ScenarioUpTo | streamlit_ioty.py:39-65 | Both lists are `simulation_length + 12` months long at every stage. |
| PoolFlow.ScenarioInvariant | streamlit_ioty.py:39-65 | Between months, after `k` months: no pending flows and `k + 1` balances per pool. No release is due in the first 12 months, and nothing is locked for month `k` or later. When the Minting cap is non-negative, every closed balance lies in `[0, cap]`. |
| PoolFlow.ScenarioStarts | streamlit_ioty.py:30-41 | The invariant holds before the first month. |
| PoolFlow.ScenarioStep | streamlit_ioty.py:42-65 | Each month keeps the invariant. |
| PoolFlow.PoolMonthCloses | streamlit_ioty.py:64-65 | A pool's month closes one more balance, keeps the earlier ones and leaves nothing pending. |
| PoolFlow.MonthStepUnfold | streamlit_ioty.py:43-57 | The month's emission uses the Minting balance at the start of the month, and the lock is the revenue's tokens plus the emission. |
| PoolFlow.MonthStepReleases | streamlit_ioty.py:58-62 | Releases due before month `m + 12` are unchanged by month `m`. |
| PoolFlow.MonthStepLocks | streamlit_ioty.py:44-57 | Only month `m`'s lock changes. |
| PoolFlow.MonthStepBetween | streamlit_ioty.py:42-65 | A month keeps the between-months invariant. |
| PoolFlow.MonthPoolsGet | streamlit_ioty.py:45-65 | Each pool goes through its own month. |
| PoolFlow.PoolMonthBalance | data_pool.py:24-29 | The new balance is the old balance plus the pool's share of the release, minus its payout, clamped under its cap. |
| PoolFlow.PoolMonthBounded | data_pool.py:26 | Balances in `[0, cap]` stay there through the month. |
| PoolFlow.MonthBalance | streamlit_ioty.py:43-65 | Each month obeys the balance law: the Minting payout is its emission, the Staking payout is the staking incentive, and the lock is the revenue's tokens plus the emission. |
| PoolFlow.MonthStepPool | streamlit_ioty.py:45-65 | Within a month, each pool goes through its own month. |
| PoolFlow.MonthStepWindow | streamlit_ioty.py:58-62 | Month `m`'s lock adds a twelfth to each of months `m + 12` to `m + 23` that the list holds, and nothing elsewhere. |
| PoolFlow.MonthStepReleasesLockInFull | streamlit_ioty.py:58-62 | When the list holds all twelve of its release months, month `m`'s lock is released in full. |
| PoolFlow.MonthStepUnlocked | streamlit_ioty.py:58-62 | The release list after month `m` is the old one with the month's lock spread over months `m + 12` to `m + 23`. |
| PoolFlow.WindowTotal | streamlit_ioty.py:58-62 | Spreading in twelfths adds one twelfth for each window month the list holds, so nothing is written out of bounds. |
| PoolFlow.WindowTotalInside | streamlit_ioty.py:58-62 | A window inside the list spreads the whole amount. |
| PoolFlow.MonthStepKeepsHistory | streamlit_ioty.py:64-65 | A month keeps every earlier balance of every pool. |
| PoolFlow.MonthStepBounded | streamlit_ioty.py:64-65 | A month keeps a pool's balances in `[0, cap]`. |
| PoolFlow.ScenarioHistoryLengths | streamlit_ioty.py:42-65 | After `k` months, each pool has `k + 1` balances and nothing pending. |
| PoolFlow.ScenarioMonth | streamlit_ioty.py:43-65 | Every month of the loop obeys the balance law. |
| PoolFlow.NothingReleasedEarly | streamlit_ioty.py:40-63 | In the first 12 months nothing is due, so nothing is shared out. |
| PoolFlow.ScenarioReleasesLock | streamlit_ioty.py:57-62 | A month whose twelve release months fall inside the simulation has its whole lock released. |
| PoolFlow.ScenarioKeepsHistory | streamlit_ioty.py:64-65 | No month rewrites a pool's earlier balances. |
| PoolFlow.MonthStepAllBounded | streamlit_ioty.py:64-65 | A month keeps all three pools' balances in `[0, cap]`. |
| PoolFlow.ScenarioBounded | streamlit_ioty.py:30-65 | With a non-negative Minting cap, every closed balance lies in `[0, cap]`. The Minting pool never exceeds its initial size, and no pool goes below 0. |
| PoolFlow.MonthStepPools | streamlit_ioty.py:45-65 | The pools after a month are the loop body's. |
| PoolFlow.MonthStepLists | streamlit_ioty.py:43-62 | The two lists after a month are the loop body's. |
| PoolFlow.MonthStepRelease | streamlit_ioty.py:58-63 | The release due this month is not changed by this month's lock. |
| PoolFlow.PoolMapFacts | streamlit_ioty.py:30-38 | The map has exactly the three names, each for a different pool. |
| PoolFlow.MonthStepAssembled | streamlit_ioty.py:43-65 | The loop body's pools and lists together are `MonthStep`. |
| PoolFlow.MonthPoolsAre | streamlit_ioty.py:52-65 | Paying out, handing the shares and closing give `MonthPools`. |
| PoolFlow.PoolMonthSteps | streamlit_ioty.py:52-65 | For one pool, paying out, handing its share and closing give `PoolMonth`. |
| PoolFlow.SpreadLock | streamlit_ioty.py:58-62 | The inner loop adds a twelfth of the month's lock to each of months `m + 12` to `m + 23` that the list holds, and nothing else. |
| PoolFlow.LockAndPayOut | streamlit_ioty.py:43-57 | The method locks the revenue's tokens and emits from Minting in proportion to its start-of-month balance. It subtracts the emission from Minting and the staking incentive from Staking, then adds the emission to the month's lock. |
| PoolFlow.HandOut | streamlit_ioty.py:63 | Each pool is handed its share of the release due this month. |
| PoolFlow.CloseMonth | streamlit_ioty.py:64-65 | Every pool closes the month under its cap. |
| PoolFlow.LockMonth | streamlit_ioty.py:43-62 | The first half of the loop body: lock, pay out and spread the lock. |
| PoolFlow.RunMonth | streamlit_ioty.py:43-65 | The loop body takes the pools and lists through `MonthStep`. |
| PoolFlow.NextMonth | streamlit_ioty.py:42-65 | Month `m` takes the state after `m` months to the state after `m + 1`. |
| PoolFlow.StartLists | streamlit_ioty.py:39-41 | Both lists start at zero, `simulation_length + 12` months long. |
| PoolFlow.RunMonths | streamlit_ioty.py:39-65 | The loop takes the initial pools to `ScenarioUpTo` after the last month. |
| PoolFlow.CreatePools | streamlit_ioty.py:30-38 | Three fresh pools under their names. Only Minting is capped, at its initial size. |
| PoolFlow.ComputeDistributionScenario | streamlit_ioty.py:27-66 | Returns the three pools under their names, each with its cap, ending as `ScenarioUpTo` after the last month. |
| PoolFlow.ScenarioUpToNext | streamlit_ioty.py:42-65 | One more month is one more `MonthStep`. |
| PoolFlow.PoolMapLabels | streamlit_ioty.py:30-38 | Each pool is stored under its own label, with its own cap. |

## Left out

**Not modelled: display, I/O and outside data**

- The Streamlit dashboard outside `compute_distribution_scenario` is not part of this model: widgets, charts, session state, file upload and plots.
  - The session-state series become fields of `PoolFlow.Inputs`: revenue, token price and the staking incentive series `incentive_for_stakers_0`.
  - The globals become fields of `PoolFlow.Inputs` too: the initial pool sizes.
- The staking incentive used by the pool flow is an input series. It is not recomputed from `Staking`, because the dashboard reads it from session state.
  - The dashboard always reads the optimistic scenario's incentive, whatever `scenario` it is given (streamlit_ioty.py:53-55).
  - `PoolFlow.Inputs.stakingIncentive` accepts any series, so the model is more general than that call site.
- `ICOParticipant.to_dataframe` and `ICOOrchestrator.create_participants_financial_dataframe` are not modelled, because they only build display tables.
  - The distribution table is a sequence of named columns (`Vesting.Column`).
  - Staking's DataFrame is the `Staking.StakingData` datatype.
- `get_transaction_summary` has no member of its own: it is read inside `RunVestingSimulation` through `Simulation.Report`.

**Not modelled: numeric behaviour**

- IEEE floating point is not modelled: there is no rounding, `inf` or `NaN`.
- The `float("inf")` default cap is `None`.
- `math.sqrt` is a parameter `sqrt` of which only `IsSqrt` is known: it gives the non-negative root of a non-negative argument.
- Divisions by zero on Python floats, and the indexing errors, raise exceptions in the source. The model makes them preconditions. They arise from:
  - a zero token price or a zero reserve;
  - a zero locking duration or a zero Minting cap;
  - a staking incentive shorter than the simulation.
- Simulation.SellSubstep: requires strictly positive reserves, and so do `Simulation.TransactionStep`, `Simulation.TokenEconomySimulator.ComputeUsdcsToBuyAndMitigate` and the members that drive them. A zero reserve raises in the source. A negative one raises nothing, and the dashboard's initial reserve input has no lower bound (streamlit_ioty.py:222-226). The model does not cover non-positive reserves.
- Staking.StakingCalculator.StakingTable: requires a non-zero APR and a non-zero total supply, and so does `Staking.ComputeIncentiveForStakers`. In the source these two divisions (staking.py:49-52) are on pandas columns, so they raise nothing. They fill the `tokens_to_be_staked_inflationary` and `percent_staked` columns with `inf` or `NaN`, which `real` cannot represent.
- Integer counts (`cliff_months`, `distribution_months`, indices) are `nat`, so negative counts are not modelled.

**Object state before it is assigned**

- Vesting.Participant.constructor: sets `total_supply`, `valuation` and `distribution_plan` to 0.0, 0.0 and `[]`.
  - In the source these are `field(init=False)` without a default (ICO_distribution.py:15-19), so reading them before `calculate_financials` raises `AttributeError`.
  - Dafny fields always hold a value, so that error is not modelled.
  - The argument defaults (price 0.0, TGE 0, cliff 0, distribution 0) are kept.
- Simulation.TokenEconomySimulator.constructor: sets `monthlyReleaseTokens` to `[]`.
  - The source's `__init__` never sets `monthly_release_tokens`.
  - So calling `run_vesting_simulation` before `compute_monthly_released_tokens` raises `AttributeError` at vesting_simulation.py:116.
  - There the model reports an empty season instead.

**Structure replaced by something simpler**

- The abstract `RevenueSource` and `CostSource` classes are closed datatypes:
  - License, DeviceCreation and Message only fix `BaseRevenue`'s arguments, and are functions building a `BaseRevenue`;
  - `MonthlyCost` is a datatype holding its cost list.
- Dictionary iteration order in `distribute_tokens_to_pools` and in the `update_history` loop is not modelled:
  - the loops pick pool names from a set;
  - each pool's update touches only that pool, so the order does not change the result.
- The dashboard's pool names are the datatype `PoolFlow.PoolName`, so the ratios can only name existing pools. The `KeyError` for an unknown ratio name is then excluded by `DataPool.DistributeTokensToPools`'s requirement `ratios.Keys <= pools.Keys`.

**Preconditions that exclude behaviour the source allows**

- Vesting.MaxLength: requires at least one plan, because Python's `max` raises on an empty participant list.
- Vesting.Orchestrator.CreateParticipantsDistributionDataframe: requires at least one participant, for the same reason.
- Staking.ComputeIncentiveForStakers: requires at least one month, because the source indexes row 0 of the incentive column.
- DataPool.DistributeTokensToPools: requires that distinct names hold distinct `Pool` objects, and so do `DataPool.UpdateHistories`, `DataPool.AddTokensTo`, `DataPool.SubtractTokensFrom` and `DataPool.UpdateHistoryOf`. A Python dict may map two names to one `Pool`; that pool would then receive both shares, or close twice. The dashboard's three pools are distinct objects (streamlit_ioty.py:30-38), so aliased pools are not covered.
- Simulation.SellSubstep: requires a non-negative average selling order.
  - A negative order would make the source sell a negative amount once and then stop.
  - `Simulation.Params.Valid` also asks for a tolerated impact above -1, so that the target price `price * (1 + impact)` is positive and has a real square root.
