# ETF platform: backtest, execution, capping, allocation, funding and rate limiting

This project models six parts of the ETF platform in Dafny and proves what each of them keeps over whole runs.

**Backtest ledger.** `MarketData` holds bars and corporate actions and what of them is known on a day. `FillSimulator`,
`CostTax` and `Ledger` say what one fill, sell, dividend or split does to cash, positions and FIFO tax lots. `Backtest`
states a run day by day on values. `CostTax.CostTaxEngine`, `Portfolios.Portfolio` and `BacktestEngine.BacktestEngine`
are the mutable classes, with the observed-bar pointers, the bisected history slice, the last-price cache and the rebuilt
queue, and are proved to compute exactly that. A strategy is any deterministic function of everything it was shown so
far, so it may remember. `Fifo`, `GainsTax`, `Causality`, `Attribution`, `OrderAccounting`, `OrderFate` and `LateFills`
prove what a run means: the per-unit queue and the tax on it, no look-ahead over two runs, the profit-and-loss identity,
the fate and the timing of every order. `DayData` says what a day finds in the data, `RunLedger` when a run fails and where
its lots and gains come from.
`Tolerance` bounds what remains of the exact results at any tolerances and any split ratios; `BacktestRuns` holds two runs
in which something goes wrong.

**Execution protocol.** `Lifecycle` is the order table and its transitive closure, `PaperBrokers` the simulated broker,
`ExecutionStore` the durable table, `Orchestrator` one call of `process_order` with every point where it can be cut
short, `Reconciliation` the service that settles records against the broker. `Execution` puts them together as a
transition system: a durable table, a volatile in-memory record per order, a long-lived broker and an operator, with
crashes, failed saves, lost answers, interrupted reconciliations and purges as steps. `ExecutionInvariant` proves the
invariant of all steps; `ExecutionOutcomes` says what each call, pass and answer makes of a record; `ExecutionSafety`,
`ExecutionPurge`, `ExecutionAccounting` and `PortfolioReconciliation` draw the results from it. These allow any purge and an operator who knows what the broker accepted. `ExecutionSight` replaces that
knowledge by two rules that read only the table and the broker: the operator answers VERIFIED or FAILED when the broker holds
no order matching the record, and a purge spares every order that matches a record without a broker number. Runs within
these rules are shown to be runs of the first kind, so every result above holds for them. `ExecutionSizing` sends a whole
allocation through the system; `ExecutionRuns` gives short runs in which a safeguard is skipped and the guarantee is lost.

**Hard caps.** `HardCaps` states the water-filling rounds and the final clamps; `HardCapsLoops` proves the nested loops;
`HardCapsTotals` says what becomes of the total weight, and when the rounds converge.

**Allocation.** `Sizing`, `Allocator` and `Verification` are the buy-only greedy allocator and the checks its orders meet.

**Funding.** `Funding` is the monthly workflow with its save-before-send order and crash points, `FundingRuns` its runs.

**Rate limiter.** `RateLimiter` is the pair of token buckets, with clock readings as inputs.

Numbers are exact reals; order quantities are whole units. The tolerances are kept: `Ledger.SOURCE_TOLERANCES`,
`HardCaps.LOOP_TOLERANCE`, `HardCaps.CLAMP_TOLERANCE`, `Allocator.GAP_TOLERANCE`. Exact ledger results hold for
tolerances that cannot be felt (`Ledger.Unfelt`): both zero with any split ratio, or both below one unit with whole
quantities and whole split ratios, which includes the code's own constants. With any tolerance and any fraction they
hold up to what slips: per sell exactly (`Fifo.SellConservesUnits`, `Fifo.SellConservesMoney`, `Ledger.FillConservesValue`)
and per run as bounds (`Tolerance.DriftBounded`, `Tolerance.ProfitAttributionWithin`).

Where the code falls short of what one might expect, the model keeps the code and the project proves exactly when:

- The sell guard (1e-6) is wider than the lot tolerance (1e-9): a sell can pass the guard and still raise
  `InsufficientLotsError`, in a run that starts from cash alone (`Ledger.GuardedSellShortIff`,
  `BacktestRuns.GuardedRunFindsLotsShort`).
- Expiry is looked at only after a fill was tried. No fill is late if the symbol has a bar on the expiry date and orders live
  a day or more (`LateFills.FilledByExpiry`); otherwise an order fills late on the first processed day past its expiry
  exactly when that day fills it (`LateFills.LateFillIff`), as in `BacktestRuns.FilledAfterExpiry`.
- Reconcile-then-purge forgets the terminal order of a record escalated to AMBIGUOUS. The report for such records tells the
  operator to answer VERIFIED when nothing is found at the broker
  (`src/etf_platform/execution_manager/ambiguous_report.py:113-114`), which then releases a second order
  (`ExecutionRuns.UnseenFillIsBoughtTwice`). That advice is safe exactly as long as purges spare the orders that match a
  record without a number (`ExecutionSight.AtMostOnce`, `ExecutionSight.PurgeKeepsViewIff`,
  `ExecutionSight.PurgeReleasesDuplicateIff`); `purge_terminal_orders` does not check this. An operator who knows better and
  answers FILLED with the purged number makes an orphan (`ExecutionPurge.OrphanFreeIff`,
  `ExecutionRuns.ReopeningPurgedMakesOrphan`).
- A stale in-memory record can be polled and saved over RECONCILED, or take a row out of AMBIGUOUS without the operator
  (`ExecutionSafety.StatusChangeIff`, `ExecutionSafety.AmbiguousLeftIff`, `ExecutionRuns.StaleRecordReopens`).
- Confirming a funding cycle names no month: a confirmation that arrives after the next month was entered marks that
  month done (`FundingRuns.ConfirmsRightMonthIff`, `FundingRuns.LateConfirmationSkipsMonth`,
  `FundingRuns.LateConfirmationHappens`).
- Commands are polled before the first save: a DISCONTINUE received by a run that dies in between is lost, and this is
  the only way to lose one (`FundingRuns.StoppingIsSaved`).
- Commands polled before anything was ever saved create the month's state, so that the first month then gets no notice
  (`FundingRuns.SendsIff`).
- A bucket whose capacity is below one token goes into debt: `calls_per_minute` below 1
  (`RateLimiter.NeverNegativeIff`).

Where code and documentation disagree the model follows the code. The lifecycle table's comment
(`src/etf_platform/execution_manager/models.py:52-55`) describes the SUBMITTED to VERIFIED edge as reconciliation's retry;
no code takes that edge any more, reconciliation escalates to AMBIGUOUS. `confirm_cycle_outcome` calls itself
idempotent; a confirmation repeated after the month changed completes the new month.

## Model

| member | source | states |
|---|---|---|
| CostTax.CostMonotone | src/etf_platform/cost_tax_engine/cost_tax_engine.py:93-118 | no cost is negative and a larger trade never costs less, for any nonnegative rates |
| CostTax.CostRates | src/etf_platform/cost_tax_engine/cost_tax_engine.py:93-118 | a trade costs one rate on its value plus the flat fee: GST on brokerage, exchange charge and SEBI fee alone, stamp duty on buys alone |
| CostTax.CostTaxEngine.RecordBuy | src/etf_platform/cost_tax_engine/cost_tax_engine.py:120-123 | the new lot goes to the back of its symbol's queue; other symbols untouched |
| CostTax.CostTaxEngine.MatchSell | src/etf_platform/cost_tax_engine/cost_tax_engine.py:125-171 | the popping and trimming loop refines recursive FIFO matching; a failing sell has emptied the queue |
| CostTax.CostTaxEngine.ApplySplit | src/etf_platform/cost_tax_engine/cost_tax_engine.py:179-206 | rescales every open lot of one symbol; a ratio that is not positive is refused before anything changes |
| CostTax.CostTaxEngine.TotalOpenQuantity | src/etf_platform/cost_tax_engine/cost_tax_engine.py:176-177 | the loop's sum is the recursive total of the queue |
| Fifo.SellConservesUnits | src/etf_platform/cost_tax_engine/cost_tax_engine.py:132-171 | with any tolerance and any fractions a sell succeeds if and only if the lots cover it up to the tolerance; what it realizes, leaves and lets slip add up to what was open and asked |
| Fifo.SellConservesMoney | src/etf_platform/cost_tax_engine/cost_tax_engine.py:143-169 | with any tolerance total gross gain is the proceeds of what was matched less the cost basis released, a dropped residue at cost apart |
| Fifo.SlipIsSmall | src/etf_platform/cost_tax_engine/cost_tax_engine.py:136-169 | unmatched units and dropped residue of one sell together are at most one tolerance, and nothing slips from a sell of nothing |
| Fifo.SellIsExact | src/etf_platform/cost_tax_engine/cost_tax_engine.py:125-171 | where the tolerance cannot be felt units and money are exact and the lots left are of the same kind |
| Fifo.SellTakesOldestUnits | src/etf_platform/cost_tax_engine/cost_tax_engine.py:125-171 | over whole units, matching is taking the first q elements of the flattened per-unit queue, and the lots left are the rest of it; it succeeds if and only if the queue holds that many units |
| Fifo.LongTermSoldFirst | src/etf_platform/cost_tax_engine/cost_tax_engine.py:145-151 | with any tolerance the LONG_TERM quantity is exactly the smaller of the units matched and the open quantity held beyond the threshold |
| Fifo.SellKeepsOldestFirst | src/etf_platform/cost_tax_engine/cost_tax_engine.py:162-169 | lots stay sorted by buy date through any sell |
| Fifo.SellFailsIff | src/etf_platform/cost_tax_engine/cost_tax_engine.py:136-142 | with any tolerance a sell fails if and only if it exceeds the open quantity by more than the tolerance |
| Fifo.SellDrift | src/etf_platform/cost_tax_engine/cost_tax_engine.py:136-169 | with any tolerance a sell removes its quantity from the lots up to one tolerance |
| Fifo.SplitPreservesLot | src/etf_platform/cost_tax_engine/cost_tax_engine.py:179-206 | a split keeps each lot's cost basis, buy date and place |
| Fifo.SplitPreserves | src/etf_platform/cost_tax_engine/cost_tax_engine.py:179-206 | a split keeps the symbol's cost basis and the order of its lots and scales its quantity |
| Fifo.SplitCommutesWithSell | src/etf_platform/cost_tax_engine/cost_tax_engine.py:125-206 | split then sell equals sell then split, lot by lot: same gross gains, gain types, tax and lots |
| GainsTax.GainsTaxedRight | src/etf_platform/cost_tax_engine/cost_tax_engine.py:145-160 | with any tolerance every gain of a sell comes from one of the lots, counts its days from that lot, is LONG_TERM if and only if they exceed the threshold, and owes the rate of its type on a positive gain and nothing on a loss |
| GainsTax.SellOwes | src/etf_platform/cost_tax_engine/cost_tax_engine.py:143-160 | the estimated tax of a sell of q whole units is the long-term rate on what the long-term units among the q oldest gain plus the short-term rate on what the others gain, losses offsetting nothing |
| FillSimulator.FillSound | src/etf_platform/backtesting/fill_simulator.py:51-115 | a fill is positive, at most what was asked, within the volume share, never worse than the limit and inside the bar |
| FillSimulator.UnfilledIff | src/etf_platform/backtesting/fill_simulator.py:66-79 | an order goes unfilled if and only if its limit is out of reach or not one whole unit fits the volume share |
| FillSimulator.FillExact | src/etf_platform/backtesting/fill_simulator.py:51-115 | a market order pays the open, a limit order the better of limit and open; a fill takes the most whole units of the order that the volume share holds |
| Ledger.FillKeepsAgreement | src/etf_platform/backtesting/portfolio.py:59-83 | at tolerances that cannot be felt a booked fill keeps every position equal to its open lots, and a sell that passes the guard never finds the lots short |
| Ledger.FillConservesValue | src/etf_platform/backtesting/portfolio.py:59-83 | with any tolerance a booked fill changes cash plus cost basis by realized gross gains less transaction cost and what slips, and by nothing else |
| Ledger.ActionsConserveValue | src/etf_platform/backtesting/portfolio.py:85-122 | a dividend adds exactly its credit to book value, a split adds nothing |
| Ledger.SplitKeepsAgreement | src/etf_platform/backtesting/portfolio.py:105-117 | at tolerances that cannot be felt a split keeps position and lots in agreement |
| Ledger.ValuationAgrees | src/etf_platform/backtesting/portfolio.py:124-143 | at tolerances that cannot be felt the market value of the positions equals the value read off the open lots: no held symbol is skipped or unpriced |
| Ledger.GuardedSellShortIff | src/etf_platform/backtesting/portfolio.py:56-78 | with any tolerances, a guarded sell raises if and only if it exceeds the open lots by more than the lot tolerance |
| Ledger.FillDrift | src/etf_platform/backtesting/portfolio.py:67-81 | with any tolerances, one booked fill moves the gap between position and lots by at most the lot tolerance, a buy not at all |
| Ledger.SplitScalesDrift | src/etf_platform/backtesting/portfolio.py:105-117 | a split scales the gap between position and lots by its ratio and touches no other symbol |
| Ledger.GuardWiderThanLots | src/etf_platform/backtesting/portfolio.py:56-78 | an account holding 0.9999995 units for which the guard passes a sell of 1 that the lots refuse |
| BacktestRuns.GuardedRunFindsLotsShort | src/etf_platform/backtesting/portfolio.py:56-83 | a whole run from cash alone, at the default costs and tolerances, that ends in InsufficientLotsError after a split by 0.9999995 |
| Portfolios.Portfolio.ApplyFill | src/etf_platform/backtesting/portfolio.py:59-83 | the mutating method computes the ledger step; a refused fill changes nothing |
| Portfolios.Portfolio.ApplyDividend | src/etf_platform/backtesting/portfolio.py:85-103 | credits the held quantity times the amount, or nothing for an unheld symbol |
| Portfolios.Portfolio.ApplySplit | src/etf_platform/backtesting/portfolio.py:105-122 | rescales position and lots; a bad ratio is noticed only after the position changed, with cash and lots unchanged |
| Portfolios.Portfolio.MarketValue | src/etf_platform/backtesting/portfolio.py:129-143 | the valuation loop computes the sum over positions whatever the dictionary order |
| MarketData.SortSound | src/etf_platform/backtesting/engine.py:117 | sorting is chronological and a permutation |
| MarketData.SortStable | src/etf_platform/backtesting/engine.py:117 | bars of one date keep the order in which they were supplied |
| MarketData.BisectLeft | src/etf_platform/backtesting/engine.py:393 | the binary search splits the observed dates exactly at the cutoff |
| MarketData.SliceIsWindow | src/etf_platform/backtesting/engine.py:378-394 | the slice from bisected start to pointer is the plain date filter over all bars |
| MarketData.UptoSort | src/etf_platform/backtesting/engine.py:117-143 | what is observed by a day does not depend on later bars, sorted or not |
| Causality.NoLookAhead | src/etf_platform/backtesting/engine.py:117-188 | two runs on data agreeing through T process the same dates and have identical accounts, trades, rejections, queue, equity, receipts and strategy memory after each |
| Causality.SameDates | src/etf_platform/backtesting/engine.py:122-124 | the dates processed through T depend only on data through T |
| Backtest.RemembersCalls | src/etf_platform/portfolio_optimizer/proposal_builder.py:56-67 | a strategy object that keeps a state between calls is a strategy of the model: its orders and next state at every call are those of the object |
| DayData.ExecutionBarIs | src/etf_platform/backtesting/engine.py:119 | a symbol has an execution bar on a date if and only if one was supplied for it, and of several it is the last supplied |
| DayData.PriceIsLatestClose | src/etf_platform/backtesting/engine.py:139-143 | the price of a symbol on a day is the close of its latest bar dated on or before the day |
| DayData.PricedIffTraded | src/etf_platform/backtesting/engine.py:139-143 | a symbol has a price on a day if and only if it has a bar dated on or before it |
| DayData.HistoryIsWindow | src/etf_platform/backtesting/engine.py:371-395 | the strategy is shown exactly the bars dated from the lookback days before the day to the day, in order |
| DayData.AllDueIff | src/etf_platform/backtesting/engine.py:113-116 | the actions of a day are exactly the supplied ones with that ex-date |
| DayData.AllDueConcat | src/etf_platform/backtesting/engine.py:148-149 | they act symbol by symbol, in the order supplied |
| DayData.ActionsOfDay | src/etf_platform/backtesting/engine.py:147-165 | a day's actions scale each holding by its splits so far, credit every dividend with the units held at its turn times the amount per unit, one receipt each, and fail if and only if a held symbol meets a ratio that is not positive |
| RunLedger.RunFailsIff | src/etf_platform/backtesting/engine.py:91-216 | at tolerances that cannot be felt a run fails if and only if a bar is invalid, or on a processed day a held symbol is due for a split by a ratio that is not positive |
| RunLedger.AlwaysTraced | src/etf_platform/backtesting/portfolio.py:59-117 | in every reachable state each open lot was bought by a trade of its date, and each realized gain is of the symbol sold, dates back to a trade that bought it and is classified and taxed by the rules |
| Attribution.ProfitAttribution | src/etf_platform/backtesting/engine.py:137-188 | at tolerances that cannot be felt, at every equity point total value is capital plus realized gains plus unrealized gain less costs plus dividends, with every held symbol priced |
| Attribution.LedgerAgreement | src/etf_platform/backtesting/portfolio.py:56-83 | at tolerances that cannot be felt, in every reachable state each position is the sum of its lots; a run can fail only on a split with a ratio that is not positive |
| Tolerance.DriftBounded | src/etf_platform/backtesting/portfolio.py:56-117 | at any tolerances and any split ratios no position ever drifts from its lots by more than one lot tolerance per trade, magnified by the splits; every held symbol has a price |
| Tolerance.ProfitAttributionWithin | src/etf_platform/backtesting/engine.py:137-188 | at any tolerances and any split ratios the attribution identity holds up to one lot tolerance of units per trade at the highest price so far, magnified by the splits |
| Attribution.EquityGrows | src/etf_platform/backtesting/engine.py:145-174 | each processed day from the start date adds exactly one equity point, earlier days none |
| OrderAccounting.EveryOrderAccounted | src/etf_platform/backtesting/engine.py:284-409 | at the end every emitted intent is fully filled with no rejection or not fully filled with exactly one; nothing waits |
| OrderAccounting.AlwaysAccounted | src/etf_platform/backtesting/engine.py:284-369 | on every day, filled plus still queued equals the emitted quantity along the whole re-queue chain, until rejected once |
| OrderAccounting.AlwaysOnTime | src/etf_platform/backtesting/engine.py:294-409 | no order queued on an earlier day has outlived its expiry; every fill is strictly after its decision and at latest on the first processed date past expiry, whatever the expiry setting |
| OrderFate.FateOfOrder | src/etf_platform/backtesting/engine.py:284-369 | on every day of every run each waiting order is refused for a reason if and only if the day's bar, its expiry and the cash and holdings it meets give that reason, is otherwise executed for exactly the units they allow, and what is left waits on unchanged but for quantity and date |
| OrderFate.WaitsForBar | src/etf_platform/backtesting/engine.py:298-306 | an order whose symbol has no bar stays queued as it is, with nothing filled or refused, until its expiry has passed |
| OrderFate.OrdersOfDay | src/etf_platform/backtesting/engine.py:172-188 | each day from the start the strategy is shown the account as the day leaves it, and each of its orders is logged and queued for the next day with the configured life |
| OrderFate.RefusedAtEnd | src/etf_platform/backtesting/engine.py:404-409 | when the data ends exactly the orders still waiting are refused for that reason |
| LateFills.FilledByExpiry | src/etf_platform/backtesting/engine.py:298-369 | if orders live a day or more, an order whose symbol has a bar on its expiry date never fills later, in any run |
| LateFills.ExpiryDayTakesOrder | src/etf_platform/backtesting/engine.py:298-369 | a bar on the expiry date, or any later date, takes an order out of the queue whatever happens to it |
| LateFills.LateFillIff | src/etf_platform/backtesting/engine.py:298-330 | an order still queued on the first processed day past its expiry fills that day if and only if its symbol trades, the bar reaches it and the cash or holdings it meets bear the fill |
| BacktestRuns.FilledAfterExpiry | src/etf_platform/backtesting/engine.py:298-330 | a run in which an order fills three days after its expiry |
| BacktestEngine.BacktestEngine.Run | src/etf_platform/backtesting/engine.py:91-216 | the event loop computes the day-by-day result over exactly the trading dates, or its error |
| BacktestEngine.BacktestEngine.CollectDates | src/etf_platform/backtesting/engine.py:122-124 | every date up to the end with a bar of some symbol, increasing and once each |
| BacktestEngine.BacktestEngine.Advance | src/etf_platform/backtesting/engine.py:138-143 | pointers stand exactly past the day and cached prices are the last observed closes |
| BacktestEngine.BacktestEngine.BuildHistory | src/etf_platform/backtesting/engine.py:371-395 | each symbol's view is the plain filter from cutoff to today |
| BacktestEngine.BacktestEngine.ApplyActions | src/etf_platform/backtesting/engine.py:148-165 | the day's actions act on the portfolio in order, unhandled kinds change nothing |
| BacktestEngine.BacktestEngine.MeetOrder | src/etf_platform/backtesting/engine.py:293-369 | one queued order is kept, refused, filled or split into fill and remainder as the value model says |
| BacktestEngine.BacktestEngine.ProcessPending | src/etf_platform/backtesting/engine.py:284-369 | the queue is rebuilt in order, each order meeting the portfolio its predecessors left |
| BacktestEngine.BacktestEngine.CloseDay | src/etf_platform/backtesting/engine.py:172-188 | the day is valued, the strategy is shown exactly the past and its orders are queued |
| BacktestEngine.BacktestEngine.QueueOrders | src/etf_platform/backtesting/engine.py:186-188 | new orders are queued for the next date at the earliest, with expiry counted from the decision |
| BacktestEngine.BacktestEngine.RejectUnfilled | src/etf_platform/backtesting/engine.py:404-409 | every order still queued at the end gets one rejection, in order |
| BacktestEngine.PricesCached | src/etf_platform/backtesting/engine.py:139-143 | the incrementally maintained price cache is the table of latest closes by date |
| Sizing.MaxAffordableIsMaximum | src/etf_platform/strategy_engine/strategy.py:342-359 | a quantity is affordable with costs if and only if it is at most the one returned |
| Sizing.AffordableQuantity | src/etf_platform/strategy_engine/strategy.py:342-359 | the countdown loop returns that maximum |
| Allocator.PrioritizeByGap | src/etf_platform/strategy_engine/priority.py:39-54 | every underweight symbol once, by gap descending then symbol |
| Allocator.PriorityListUnique | src/etf_platform/strategy_engine/priority.py:46-54 | that order is unique, whatever order the dictionary was walked in |
| Allocator.BuildBuyOrders | src/etf_platform/strategy_engine/strategy.py:296-340 | the allocation loop computes the greedy proposal over the priority list |
| Allocator.SpendWithinCapital | src/etf_platform/strategy_engine/strategy.py:304-337 | total spend with costs never exceeds the available capital |
| Allocator.OrdersFollowRanking | src/etf_platform/strategy_engine/strategy.py:307-340 | ordered symbols are a selection of the ranked ones, in rank order |
| Allocator.OrdersByShortfall | src/etf_platform/strategy_engine/priority.py:39-54 | orders come by how far their symbol is below target, the largest first, then by symbol |
| Allocator.NoOvershootNoWaste | src/etf_platform/strategy_engine/strategy.py:307-337 | what is bought of a symbol fits its gap; one unit more would exceed the gap or the cash left at the end |
| Allocator.ProposalSound | src/etf_platform/strategy_engine/strategy.py:296-340 | capital kept, no symbol above its target share of the portfolio, no money wasted |
| Allocator.SizedOrdersVerify | src/etf_platform/execution_manager/verification.py:93-125 | orders sized for capital no larger than broker cash are each approved in full in rank order and cash stays nonnegative |
| ExecutionSizing.SizedOrdersExecute | src/etf_platform/paper_trading_operations/session.py:268-299 | in any interleaving of their verification, submission and polls, with any course of fills, every sized order that is called is approved in full, and broker cash never falls below what sizing left |
| Verification.VerdictMeaning | src/etf_platform/execution_manager/verification.py:61-114 | approved in full if and only if well formed, allowed and affordable; reduced if and only if part of it is, and then to the maximum |
| Verification.RefusalMeaning | src/etf_platform/execution_manager/verification.py:61-114 | a refusal names a reason if and only if that is the first check to fail: form, compliance, quote, spread, cash for one unit |
| Verification.AffordableUpToIsMinimum | src/etf_platform/execution_manager/verification.py:116-125 | the capped countdown is the smaller of the proposal and the affordable maximum |
| Verification.AffordableQuantity | src/etf_platform/execution_manager/verification.py:116-125 | the loop computes that quantity |
| Lifecycle.ReachesIff | src/etf_platform/execution_manager/models.py:47-85 | the transitive closure of the lifecycle table is exactly the closed form given |
| PaperBrokers.PollKeepsSound | src/etf_platform/execution_manager/paper_broker.py:157-251 | polling a tracked order never raises, never undoes an execution, keeps executed at most quantity and equal on FILLED, and spends exactly what it executed |
| PaperBrokers.CancelKeepsSound | src/etf_platform/execution_manager/paper_broker.py:253-262 | cancelling makes an order terminal and leaves what it executed |
| PaperBrokers.PollingTerminates | src/etf_platform/execution_manager/paper_broker.py:162-204 | a fresh order is terminal after n polls if and only if n reaches its scenario's number, at most max(2, delay + 1), filled in full unless cancelled; a partial fill first executes quantity times ratio in whole units, and at least one |
| PaperBrokers.PaperBroker.SubmitOrder | src/etf_platform/execution_manager/paper_broker.py:89-155 | a refusing scenario leaves no trace; otherwise one PENDING order is tracked under a new number |
| PaperBrokers.PaperBroker.GetOrderStatus | src/etf_platform/execution_manager/paper_broker.py:157-227 | the status call advances the order and the cash as the value model says, or raises |
| PaperBrokers.PaperBroker.RequestCancel | src/etf_platform/execution_manager/paper_broker.py:253-262 | cancels an open order, leaves a terminal one, refuses an unknown number |
| PaperBrokers.PaperBroker.PurgeTerminalOrders | src/etf_platform/execution_manager/paper_broker.py:273-304 | removes exactly the terminal orders past the retention window and counts them |
| PaperBrokers.PaperBroker.ListPurgeable | src/etf_platform/execution_manager/paper_broker.py:291-300 | lists exactly those orders, in submission order |
| ExecutionStore.SaveThenLoad | src/etf_platform/execution_manager/persistence.py:206-244 | a save changes one row, keeps its identity columns, loads back as saved if they agree, and is idempotent |
| ExecutionStore.ExecutionStateStore.SaveExecutionRecord | src/etf_platform/execution_manager/persistence.py:206-237 | a working save upserts, a failing one changes nothing |
| ExecutionStore.ExecutionStateStore.LoadWhere | src/etf_platform/execution_manager/persistence.py:253-269 | exactly the unresolved, or exactly the reconciled, records, once each |
| ExecutionStore.ExecutionRecord.TransitionTo | src/etf_platform/execution_manager/models.py:176-178 | a transition outside the table raises and changes nothing |
| Orchestrator.SubmissionOrchestrator.ProcessOrder | src/etf_platform/execution_manager/orchestrator.py:59-89 | one call changes record, table and broker as the value model says, wherever it is cut short |
| Orchestrator.SubmissionOrchestrator.Verify | src/etf_platform/execution_manager/orchestrator.py:91-110 | the verdict is recorded and saved, or raised if the save fails |
| Orchestrator.SubmissionOrchestrator.SubmitIntent | src/etf_platform/execution_manager/orchestrator.py:112-146 | SUBMITTED is durable before the broker is called; PENDING only after its answer arrived |
| Orchestrator.SubmissionOrchestrator.Poll | src/etf_platform/execution_manager/orchestrator.py:148-165 | news from the broker is adopted and saved, no news changes no record |
| ExecutionOutcomes.VerificationOutcome | src/etf_platform/execution_manager/orchestrator.py:91-110 | in every reachable world a proposal in hand becomes VERIFIED if and only if the market allows it and one unit is affordable, and keeps the most of the proposal that the cash buys with its costs; otherwise it becomes FAILED |
| ExecutionOutcomes.SubmissionOutcome | src/etf_platform/execution_manager/orchestrator.py:112-146 | a VERIFIED record gets one order at the broker, for the quantity kept, if and only if its intent was saved, the process lived and the broker did not refuse; it learns the number if and only if the answer arrives; the table holds SUBMITTED before the broker hears |
| ExecutionOutcomes.SentAsVerified | src/etf_platform/execution_manager/orchestrator.py:91-146 | whatever happens between verification and submission, the order the broker receives is for the most of the proposal that the cash bought at verification |
| Reconciliation.FirstMatch | src/etf_platform/execution_manager/reconciliation.py:128-132 | the first open order with the record's reference and symbol, or none exists |
| Reconciliation.ReconciliationService.ReconcileOne | src/etf_platform/execution_manager/reconciliation.py:107-228 | one record is settled, and its discrepancy classified, as the value model says |
| Reconciliation.ReconciliationService.ReconcileAll | src/etf_platform/execution_manager/reconciliation.py:66-105 | the loop settles every relevant record once against one snapshot of open orders, and reports of each what there was to report at the start |
| Reconciliation.ReconciliationService.ResolveAmbiguousExecution | src/etf_platform/execution_manager/reconciliation.py:247-289 | acts only on an AMBIGUOUS record, with notes, for a state the table allows |
| Reconciliation.ReconcilePointwise | src/etf_platform/execution_manager/reconciliation.py:66-228 | visiting order is irrelevant; no broker order's state, execution or number and no cash changes |
| Reconciliation.ReconcileIdempotent | src/etf_platform/execution_manager/reconciliation.py:66-228 | a second pass, later and in any order, changes no record |
| Reconciliation.ReconcileSettles | src/etf_platform/execution_manager/reconciliation.py:174-228 | after a pass an unresolved numbered record has an open order or one the broker does not know |
| ExecutionOutcomes.PassOutcome | src/etf_platform/execution_manager/reconciliation.py:107-216 | a completed pass in a reachable world leaves no record SUBMITTED: each adopts the number, state and fill of the open order with its reference and symbol, or is AMBIGUOUS if there is none; a numbered record whose order is terminal ends RECONCILED with that order's fill, a rejected one RECONCILED, all others as they were |
| ExecutionOutcomes.FindingIff | src/etf_platform/execution_manager/reconciliation.py:107-228 | what the pass reports of each record, told from the broker's orders |
| ExecutionOutcomes.OperatorOutcome | src/etf_platform/execution_manager/reconciliation.py:247-289 | an operator's answer is taken if and only if the record is AMBIGUOUS, notes are given and the state is one the table offers; the record then says exactly what was answered and nothing else changes |
| ExecutionInvariant.NextKeeps | src/etf_platform/execution_manager/orchestrator.py:59-165 | every step, cut short anywhere, keeps the invariant coupling table, memory and broker |
| ExecutionInvariant.RunKeeps | src/etf_platform/execution_manager/orchestrator.py:59-165 | so does every run |
| ExecutionInvariant.StatusFollows | src/etf_platform/execution_manager/models.py:60-66 | a record not ahead of its order can follow it by a table edge |
| ExecutionInvariant.MatchIsOwn | src/etf_platform/execution_manager/reconciliation.py:122-143 | the open order reconciliation adopts for a record was sent for that record |
| ExecutionSight.AtMostOnce | src/etf_platform/execution_manager/orchestrator.py:112-146 | in every run with an operator who releases a retry whenever the broker holds no such order, and purges sparing orders that match a record without a number, the broker accepts at most one order per record, on its terms and within its proposal; its row is never PROPOSAL, VERIFIED or FAILED |
| ExecutionSight.AtMostOnceWithoutPurges | src/etf_platform/execution_manager/orchestrator.py:112-146 | the same for every run without purges, with no condition but the operator reading the broker |
| ExecutionSight.SightedIsReachable | src/etf_platform/execution_manager/reconciliation.py:247-289 | answering from what the broker shows is, in such runs, answering the truth |
| ExecutionSight.PurgeKeepsViewIff | src/etf_platform/execution_manager/paper_broker.py:273-304 | a purge keeps what the broker shows of every record without a number true if and only if it spares the orders matching one |
| ExecutionSight.AbsentIsNeverAcceptedIff | src/etf_platform/execution_manager/reconciliation.py:247-289 | for a record without a number, no matching order at the broker means none was ever accepted, and conversely |
| ExecutionSight.RetryDuplicatesIff | src/etf_platform/execution_manager/reconciliation.py:247-289 | a retry released from AMBIGUOUS buys twice if and only if the broker holds a matching order |
| ExecutionSight.PurgeReleasesDuplicateIff | src/etf_platform/execution_manager/paper_broker.py:273-304 | a retry released after a purge buys twice if and only if the purge took a matching order |
| ExecutionSafety.AtMostOnceIfTruthful | src/etf_platform/execution_manager/orchestrator.py:112-146 | with arbitrary purges, at most one order per record if the operator knows from contract notes what the broker accepted |
| ExecutionSafety.PollRaisesIff | src/etf_platform/execution_manager/orchestrator.py:148-155 | a poll raises if and only if the order was purged or a needed save fails, never on the lifecycle table |
| ExecutionSafety.StatusChangeIff | src/etf_platform/execution_manager/reconciliation.py:121-228 | a durable status change lies in the closure of the table if and only if no stale record is saved over RECONCILED |
| ExecutionSafety.AmbiguousLeftIff | src/etf_platform/execution_manager/reconciliation.py:247-289 | AMBIGUOUS is left if and only if the operator resolves it or a stale record in hand is saved |
| ExecutionSafety.FreshRecordsAreSafe | src/etf_platform/execution_manager/models.py:87-94 | a process working on freshly loaded records meets neither exception |
| ExecutionPurge.OrphanFreeIff | src/etf_platform/execution_manager/paper_broker.py:273-304 | a step makes an orphan if and only if it is a bare purge meeting a purgeable order of an unresolved record, or the operator reopens a purged order |
| ExecutionPurge.ReconcileBeforePurge | src/etf_platform/execution_manager/reconciliation.py:181-208 | if every purge follows a completed pass or meets no purgeable order of an unresolved record, and no purged order is reopened, BROKER_HAS_NO_RECORD never occurs |
| ExecutionPurge.AlarmIff | src/etf_platform/execution_manager/reconciliation.py:181-191 | BROKER_HAS_NO_RECORD is reported if and only if the record is an orphan |
| ExecutionSight.SightedOrphanFreeIff | src/etf_platform/execution_manager/paper_broker.py:273-304 | with an operator who answers by sight only a bare purge of a purgeable order of an unresolved record makes an orphan |
| ExecutionRuns.UnseenFillIsBoughtTwice | src/etf_platform/execution_manager/paper_broker.py:273-304 | a run of reconcile-then-purge after which answering VERIFIED for an absent order buys twice |
| ExecutionRuns.ReopeningPurgedMakesOrphan | src/etf_platform/execution_manager/reconciliation.py:274-283 | a run in which a truthful FILLED answer makes an orphan |
| ExecutionRuns.PurgingAloneMakesOrphan | src/etf_platform/execution_manager/paper_broker.py:273-304 | a run in which a purge without reconciliation makes an orphan |
| ExecutionRuns.StaleRecordReopens | src/etf_platform/execution_manager/orchestrator.py:148-155 | a run in which a stale record takes a row out of RECONCILED |
| ExecutionRuns.StaleRecordLeavesAmbiguous | src/etf_platform/execution_manager/orchestrator.py:139-155 | a run in which a record whose last save failed takes a row out of AMBIGUOUS without the operator |
| ExecutionAccounting.CashConserved | src/etf_platform/execution_manager/paper_broker.py:229-251 | over every run, cash plus executed quantities at limit prices over all orders ever accepted is constant |
| ExecutionAccounting.PortfolioMatchesCash | src/etf_platform/portfolio/portfolio_reconciliation.py:23-66 | once all records are RECONCILED the cash spent equals the invested value of the rebuilt portfolio |
| PortfolioReconciliation.BuildPortfolio | src/etf_platform/portfolio/portfolio_reconciliation.py:23-66 | each holding's units and money are those of its symbol's reconciled records, by summation independent of the running average, and its current price is that of the last of them |
| PortfolioReconciliation.InvestedIsPaid | src/etf_platform/portfolio/portfolio_manager.py:34-35 | total invested value is what the reconciled records paid, in whatever order they were read |
| PortfolioReconciliation.MergeKeepsCost | src/etf_platform/portfolio/portfolio_reconciliation.py:53-64 | the running weighted average loses no cost |
| HardCaps.HardCapsHold | src/etf_platform/portfolio_optimizer/optimizer.py:181-276 | converged or not: both caps hold up to 1e-6, total at most raw, positive exactly where raw was, every reduced symbol noted |
| HardCaps.RoundRestsIff | src/etf_platform/portfolio_optimizer/optimizer.py:185-250 | a round reports no change if and only if both caps already hold, and then moves nothing |
| HardCaps.ConvergedIsFixed | src/etf_platform/portfolio_optimizer/optimizer.py:249-276 | on convergence the clamps do nothing and capping again changes and notes nothing |
| HardCaps.UntouchedWhenWithin | src/etf_platform/portfolio_optimizer/optimizer.py:181-250 | raw weights within both caps come back as they are |
| HardCaps.SpreadAccounts | src/etf_platform/portfolio_optimizer/optimizer.py:200-247 | redistribution never gives out more than was taken, never shrinks a weight and never feeds a zero one |
| HardCapsTotals.SpreadExact | src/etf_platform/portfolio_optimizer/optimizer.py:200-208 | where there is an amount to share and weight to take it, spreading adds exactly the amount and keeps the ratios of those that take it; otherwise it changes nothing |
| HardCapsTotals.RoundKeepsTotalIff | src/etf_platform/portfolio_optimizer/optimizer.py:185-247 | a round keeps the total weight if and only if, wherever it takes weight off, some weight has room to take it |
| HardCapsTotals.CappingKeepsTotalIff | src/etf_platform/portfolio_optimizer/optimizer.py:181-276 | capping leaves weight to cash if and only if some round finds no room or the rounds end with a cap exceeded and a clamp acts |
| HardCapsTotals.ConvergesWithoutClasses | src/etf_platform/portfolio_optimizer/optimizer.py:184-250 | raw weights that in all fit a class cap always converge within the loop's rounds |
| HardCapsTotals.KeptWhenRoomy | src/etf_platform/portfolio_optimizer/optimizer.py:181-250 | if no class can bind, no positive weight is below the tolerance and the positive ones can hold the raw total, all of it stays invested |
| HardCapsTotals.LostWhenFull | src/etf_platform/portfolio_optimizer/optimizer.py:253-261 | a raw total above what the positive symbols may hold is left to cash in part |
| HardCapsTotals.NotedIff | src/etf_platform/portfolio_optimizer/optimizer.py:189-276 | a symbol gets a note if and only if some round or clamp cut it |
| HardCaps.ClassBroughtDown | src/etf_platform/portfolio_optimizer/optimizer.py:211-233 | scaling brings a class over its cap exactly to the cap and leaves the others |
| HardCaps.ReserveCompletes | src/etf_platform/portfolio_optimizer/optimizer.py:136-148 | investments and cash reserve make exactly 1 whenever the raw total is at most 1 |
| HardCaps.HeldLosesLittle | src/etf_platform/portfolio_optimizer/optimizer.py:136-138 | the weights dropped as too small are worth at most the tolerance each, and the others are kept as they are |
| HardCapsLoops.ApplyHardCaps | src/etf_platform/portfolio_optimizer/optimizer.py:161-276 | the nested loops compute the stated rounds and clamps, in any dictionary order |
| HardCapsLoops.CapRound | src/etf_platform/portfolio_optimizer/optimizer.py:185-250 | one turn of the outer loop is one stated round |
| HardCapsLoops.ClipEach | src/etf_platform/portfolio_optimizer/optimizer.py:188-198 | clipping, with the excess and the noted symbols |
| HardCapsLoops.SpreadInto | src/etf_platform/portfolio_optimizer/optimizer.py:200-209 | proportional redistribution into the symbols with room |
| HardCapsLoops.TotalsByClass | src/etf_platform/portfolio_optimizer/optimizer.py:213-217 | the accumulated class totals are the sums over the members |
| HardCapsLoops.ScaleOver | src/etf_platform/portfolio_optimizer/optimizer.py:219-233 | every class over its cap is scaled once; the amount taken is the drop of the total |
| HardCapsLoops.Propose | src/etf_platform/portfolio_optimizer/optimizer.py:134-148 | targets above the threshold and the reserve they leave |
| Funding.RecurringMonthlyPolicy.RunCycle | src/etf_platform/strategy_engine/execution_policy/recurring_monthly.py:41-89 | the policy's decision: state, pool, reminder and notice |
| Funding.StrategyEngine.ApplyPendingCommands | src/etf_platform/strategy_engine/strategy.py:266-291 | commands act in order, creating a state where there is none |
| Funding.StrategyEngine.RunDailyCycle | src/etf_platform/strategy_engine/strategy.py:127-243 | saved state, messages and result wherever the run dies; the save comes before every message |
| Funding.StrategyEngine.ConfirmCycleOutcome | src/etf_platform/strategy_engine/strategy.py:245-264 | completes the saved month, whatever it is, or nothing without a state |
| FundingRuns.MessagesOnce | src/etf_platform/strategy_engine/strategy.py:163-190 | with dates that never go back, at most one notice and one reminder per month over any crashes |
| FundingRuns.RunKeeps | src/etf_platform/strategy_engine/strategy.py:172-190 | every message sent is backed by the saved state, wherever a run dies |
| FundingRuns.OrdersAreSaved | src/etf_platform/strategy_engine/strategy.py:192-223 | orders returned imply EXECUTING saved for the month naming the cycle |
| FundingRuns.RerunRepeats | src/etf_platform/strategy_engine/strategy.py:172-243 | after a death past the first save, a rerun gives the same orders and cycle, sends nothing and saves nothing new |
| FundingRuns.OncePerMonth | src/etf_platform/strategy_engine/execution_policy/recurring_monthly.py:65-102 | after a successful confirmation no pool is returned that month unless a failed one intervenes |
| FundingRuns.SendsIff | src/etf_platform/strategy_engine/execution_policy/recurring_monthly.py:49-87 | a run sends the month's notice if and only if the month is new, and the reminder if and only if it looks at the funds, finds none, the reminder day has come and none was saved as sent; a run that dies sends what it reached |
| FundingRuns.InvestsIff | src/etf_platform/strategy_engine/strategy.py:192-243 | a run that returns invests if and only if it is neither paused nor discontinued, the month is not done and there are funds; its orders are their allocation on a trading day and none on another |
| FundingRuns.OrdersWithinFunds | src/etf_platform/strategy_engine/strategy.py:192-243 | what a run returns costs no more than the funds that came in, and buys of each underweight symbol what fits its target share of the pool as far as the funds go |
| FundingRuns.ProgressSaved | src/etf_platform/strategy_engine/strategy.py:172-240 | the progress each run saves for the month, wherever it dies |
| FundingRuns.ConfirmationIff | src/etf_platform/strategy_engine/strategy.py:245-264 | a confirmed month is looked at again if and only if nothing was submitted |
| FundingRuns.ConfirmsRightMonthIff | src/etf_platform/strategy_engine/strategy.py:245-264 | a confirmation completes the proposal's month if and only if no run of another month was saved in between |
| FundingRuns.LateConfirmationSkipsMonth | src/etf_platform/strategy_engine/strategy.py:245-264 | a confirmation arriving in the next month leaves that month uninvested |
| FundingRuns.LateConfirmationHappens | src/etf_platform/strategy_engine/strategy.py:245-264 | a run from an empty store in which a late confirmation keeps the next month, which would have been invested, from being invested |
| FundingRuns.StoppingIsSaved | src/etf_platform/strategy_engine/strategy.py:159-181 | wherever a run dies, the saved state is discontinued afterwards if and only if it was before, or DISCONTINUE was polled and the run did not die before its first save |
| FundingRuns.StoppedForever | src/etf_platform/strategy_engine/execution_policy/recurring_monthly.py:47-60 | a saved DISCONTINUE yields no pool and no reminder ever again, across months, commands, crashes and confirmations |
| RateLimiter.TokenBucket.TimeUntilAvailable | src/etf_platform/data_engine/rate_limiter.py:49-54 | refills and returns the wait for the missing tokens |
| RateLimiter.TokenBucket.Consume | src/etf_platform/data_engine/rate_limiter.py:56-58 | refills and takes the cost |
| RateLimiter.RateLimiter.Acquire | src/etf_platform/data_engine/rate_limiter.py:69-84 | sleeps the larger wait and uses both buckets |
| RateLimiter.NoWaitIff | src/etf_platform/data_engine/rate_limiter.py:76-82 | the wait is 0 if and only if both buckets hold a token |
| RateLimiter.WaitIsLeast | src/etf_platform/data_engine/rate_limiter.py:69-82 | both buckets hold a token after a wait if and only if it is at least the one computed and both can hold a token at all |
| RateLimiter.StartsFull | src/etf_platform/data_engine/rate_limiter.py:32-33 | a new limiter lets the first calls through without waiting, up to a minute's worth and a second's, or one |
| RateLimiter.NeverNegativeIff | src/etf_platform/data_engine/rate_limiter.py:43-58 | after any number of calls a bucket is nonnegative if and only if its capacity is at least 1 |
| RateLimiter.BudgetsHold | src/etf_platform/data_engine/rate_limiter.py:64-84 | any n consecutive calls over a span T satisfy n <= max(1, cps) + cps*T and n <= max(1, cpm) + cpm/60*T |

## Left out

- Ledger.FillKeepsAgreement: equality of position and lots is stated at tolerances that cannot be felt; with fractions at the code's tolerances it is false, and `Tolerance.DriftBounded` bounds the difference.
- Ledger.SplitKeepsAgreement: the same; with any tolerances `Ledger.SplitScalesDrift` says exactly what a split does to the difference.
- Ledger.ValuationAgrees: the same; with any tolerances the positions' own market value is used (`Tolerance.ProfitAttributionWithin`).
- Attribution.LedgerAgreement: the same; see `Tolerance.DriftBounded`.
- Attribution.ProfitAttribution: exact at tolerances that cannot be felt; with fractions at the code's tolerances the identity is off by what slips, bounded by `Tolerance.ProfitAttributionWithin`.
- ExecutionSafety.AtMostOnceIfTruthful: rests on an operator who knows what the broker accepted; `ExecutionSight.AtMostOnce` needs only what the broker shows.
- Fractional order quantities: orders are for whole units, as the strategies emit them; positions and lots may become fractional through splits.
- Floating-point rounding: amounts are exact reals.
- The intent tag on queued orders, trades and rejections, and the `emitted` log, are additions that let a fill or rejection be traced to the intent it came from; no decision reads them.
- Warning texts, stale-price warnings, rationale strings, record notes, cap-note wording, events and logging: no decision depends on them.
- The look-ahead check inside `_build_history_view`: it cannot fire, since pointers never pass the day.
- A corporate action whose ex-date has no bar of any symbol is never visited; the model follows the code and claims nothing about it.
- Paper orders, execution records and funding states are handed around as values inside the classes; the aliasing of one Python object by broker and caller is not captured. Each caller copies the fields it needs, as the code does.
- Broker order ids are numbers in submission order instead of random strings; clock readings, scenarios, market conditions and save failures are inputs of each step.
- One copy in memory per record: two processes working on one record at the same time are excluded by the cycle claim, which is not modelled. Each (cycle, symbol) pair has one record.
- Reconcile's saves always work inside `ReconcileAll`; a pass interrupted by a failing save is the step that visits fewer records, followed by a poll from elsewhere.
- The real broker adapter, Telegram, HTTP, SQL text, quote and compliance providers: replaced by what they deliver.
- `load_records_for_cycle`, the cash ledger, the investment queue and integrity checks of the store.
- The rounding of the limit price: any function from the last close; results that need a positive price say so.
- The minimum-history filter, the allocation methods and the risk engine in front of the capping procedure: raw weights are inputs.
- The order of weights is not claimed: that a symbol with the larger raw weight also ends with the larger one.
- Nonnegative paper-broker cash is not claimed beyond `ExecutionSizing.SizedOrdersExecute`: verification reads cash and reserves nothing.
- The lump-sum policy and the backtest entry point of the strategy engine: the same steps with fewer branches.
- Return, drawdown and risk statistics, reporting and dashboards.
