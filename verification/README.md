# A verified model of the paper-trading bot

The bot watches five-minute "Bitcoin up or down" markets. Streams write prices, order books, trades and
resolutions into a hub; every five seconds a signal loop settles what has been resolved, turns the hub's contents
into a decision, sizes a bet with the Kelly criterion, opens a paper position and files it in a trades table. A
drawdown breaker halts trading for a while after losses. This project models that core in Dafny and proves what it
promises, over every input and every interleaving of its goroutines.

Amounts, prices and probabilities are `real`; times are integer nanoseconds.

| Files | What they hold |
|---|---|
| `Prelude` | options, time, powers, sums over maps |
| `Ring`, `PriceBuf`, `TradeBuf`, `Book` | the circular buffers over arrays, the order book, and their queries |
| `Regression` | the least-squares slope and the variance as mathematics |
| `Hub` | the central store: market lifecycle, resolutions, queries |
| `Signal`, `SignalLaws`, `Mirror` | evaluators and engine; what the default constants imply; the Up/Down symmetry |
| `Kelly`, `Sizing` | the sizing formula, its optimality, and what the caps leave of it |
| `Risk`, `RiskManager` | the account as a value with its operations, and the manager that changes its fields in place |
| `Ledger`, `OrderFree`, `WorstOrder`, `PeakOrder` | conservation, breaker, halts of one operation; what map order can and cannot change, and exactly when |
| `Pass` | what a settlement pass achieves for account and table |
| `Bot`, `BotLaws`, `Solvency` | the interleaved process as a state machine, what holds in every state of every run, and when the bankroll survives |
| `Rotation`, `Gates` | on every run, what the market API is asked about, and what may be bought when |
| `Store`, `Stats`, `Filing`, `Readback` | the trades table, the one-pass statistics, the table's agreement with the ledger, and what is read back from it |
| `Loop` | one tick of the signal loop and one rotation's settlement as executed, shown to be runs of the state machine |
| `Example`, `Ruin` | a climb on which the default bot does trade, and runs in which the defaults end below zero or file a loss twice |

Two layers meet throughout. Objects that the program updates in place (`PriceBuffer`, `TradeBuffer`, `Orderbook`,
`MarketState`, `Hub`, `Manager`, `TradeStore`, `Clock`) are classes whose methods are proved to compute a function of
their old state; the theorems are about those functions. `Loop.SignalTick` and `Loop.SettleExpired` tie the two:
executing one of them on the objects, with no other writer at work in the meantime, is a run of the state machine. In
the state machine itself every other writer may come between any two steps.

## What was found

* `KellyFraction` is optimal for every record of wins and losses that has a loss. On a record without one the model
  probability is 1 and the guard bets nothing, although betting everything is then at least as good
  (`Kelly.KellyIsOptimal`, `Kelly.NoLossMeansNoBet`).
* A settlement pass walks a Go map. Bankroll, profit, counters and remaining positions do not depend on the order.
  The breaker can, and so can the peak, already with two small bets that every default limit allows
  (`OrderFree.BreakerDependsOnOrder`, `OrderFree.PeakDependsOnOrder`). No order trips the breaker if and only if the
  losses due fit the allowance (`WorstOrder.NoOrderTripsIffLossesFit`), and every order leaves the same peak if and
  only if nothing due loses or the gains alone do not lift the bankroll above the old peak
  (`PeakOrder.PeakIsOrderFreeIff`).
* In every state of every run the breaker's promise holds exactly when the account is halted or its peak is positive
  (`BotLaws.BreakerHoldsThroughout`), and no order is ever under way outside the drawdown limit
  (`BotLaws.OrdersStayWithinDrawdown`). A restart of the peak at a negative bankroll disarms the breaker while both
  stay negative (`Ledger.NegativePeakNeverTrips`), and a run of the defaults gets there (`Ruin.DefaultsCanDisarm`).
  With one position open at a time the breaker sets a floor for any given time (`Solvency.BreakerLimitsLoss`).
* The bankroll is not debited when a position opens. It survives every way of settling exactly when it exceeds the
  exposure (`Solvency.SolventWhateverHappensIff`). The defaults do not guarantee that: twenty-five windows bought while
  no resolution arrives, and then lost, end below zero (`Ruin.DefaultsCanOverreach`, `Ruin.DefaultsCanGoUnder`). The
  missing guard is that an order costs less than bankroll less exposure: on every run the bankroll exceeds the exposure
  in every state if and only if each purchase meets it (`Solvency.CoveredIffAffordable`). Two disciplines on the number
  of open positions, which the program does not enforce either, also keep every run solvent
  (`Solvency.RunsStaySolvent`, `Solvency.RunsStayAboveFloor`).
* `RecentSince` stops at the first trade that is too old. That is exact for every window if and only if trades arrived
  in time order (`TradeBuf.EarlyExitIsExact`).
* The maximum drawdown is documented as the worst peak-to-trough loss (docs/ARCHITECTURE.md:397). The program divides
  the largest fall by 100 plus the final peak. That never overstates the worst loss, and is exact precisely when the
  curve never fell, or was once ahead and a worst loss started from its highest point
  (`Stats.ReportedNeverOverstates`); gaining 10, losing 20 and gaining 200 reports 20/290 for a loss of 20/110
  (`Stats.LaterGainsHideLosses`), and an account that never was ahead reports none (`Stats.ReportedIffEverAhead`).
* In every run, on whatever table an earlier process left, a settlement updates exactly one row if and only if its
  slug had no unsettled row at the start (`Filing.EachSettlementUpdatesOneRow`); otherwise its profit is filed more
  than once (`Store.FiledOnceIffOneRow`). Two processes of the default configuration, one after the other within one
  window, do that (`Ruin.DefaultsCanFileTwice`).
* The bankroll read back on a restart is the one the process had, whichever latest row the query picks, exactly when
  all settlements at the last clock reading left the same profits (`Readback.RestartResumesIff`).
* The documentation gives the time, confidence and edge gates as strict inequalities and the momentum limit as a gate
  (docs/ARCHITECTURE.md:282-290). In the code both ends of the ranges pass and momentum is capped, not rejected; the
  model follows the code (`SignalLaws.TradesIffGatesOpen`).
* The documentation says that positions always settle (docs/ARCHITECTURE.md:358). What holds is that a pass settles
  every position whose market was resolved when it began (`BotLaws.PassMissesNothing`).

## Model

| member | source | states |
|---|---|---|
| Kelly.KellyIsOptimal | internal/risk/kelly.go:3-22 | for any price and record of wins and losses, the fraction at the record's win rate is the one and only wealth-maximising fraction if and only if the record has a loss |
| Kelly.NoLossMeansNoBet | internal/risk/kelly.go:13-16 | a certain win is not bet on, though staking everything would do at least as well |
| Kelly.GrowsUpToKelly | internal/risk/kelly.go:3-22 | from zero up to the fraction, more stake means strictly more wealth and never less than none |
| Kelly.CloserToKellyIsRicher | internal/risk/kelly.go:3-22 | moving towards the fraction from either side strictly raises the wealth |
| Kelly.MeanBoundsProduct | internal/risk/kelly.go:3-11 | the weighted mean inequality with whole-number weights behind the optimality |
| Sizing.QuoteWithinLimits | internal/risk/manager.go:184-234 | every order has a price in the entry band below its model probability, a Kelly fraction strictly between 0 and 1, cost equal to price times size, and respects minimum bet, position cap, exposure cap and Kelly stake |
| Sizing.OrderedExactlyWhen | internal/risk/manager.go:141-235 | there is an order if and only if the decision is to trade a market not held, the price asked lies in the entry band below the probability, and Kelly stake, position cap and exposure room all reach the minimum bet; it then costs the least of those three and buys what was asked |
| Sizing.BetIsLeast | internal/risk/manager.go:204-223 | both caps and the minimum bet together: the bet is the least of three bounds, placed if and only if that reaches the minimum |
| Sizing.KellySign | internal/risk/kelly.go:13-22 | the fraction is positive if and only if the price lies below the probability and both strictly inside 0 and 1, and is the edge over the odds there |
| Sizing.StakeBelowKelly | internal/risk/manager.go:204-223 | both caps leave a positive cost of at most the Kelly fraction of the bankroll |
| Sizing.PlayOutIsWealth | internal/risk/manager.go:267-279 | settling repeated bets as the manager does multiplies the bankroll by the wealth function of the counts, in any order |
| Sizing.CapsStayFavourable | internal/risk/manager.go:199-223 | replaying an order at the model's win rate strictly grows the bankroll, however the caps cut it |
| Regression.NumeratorIsPairSum | internal/hub/pricebuf.go:70-84 | the numerator of the slope is the sum over all pairs of their distance times their price difference |
| Regression.DenominatorClosed | internal/hub/pricebuf.go:80-83 | the divisor is n²(n²-1)/12, positive from two prices on |
| Regression.SlopeWithinTicks | internal/hub/pricebuf.go:65-85 | the slope lies between the smallest and the largest change per tick in the window |
| Regression.SlopeIsLeastSquares | internal/hub/pricebuf.go:63-85 | slope and mean give the one line with the least sum of squared residuals over all lines |
| Regression.SpreadAboutMean | internal/hub/pricebuf.go:88-100 | the two-pass sum of squared deviations is the sum of squares less n times the squared mean |
| Ring.AdvanceAppends | internal/hub/pricebuf.go:26-32 | overwriting at the head appends an entry and drops the oldest of a full ring |
| Ring.CellOfAge | internal/hub/pricebuf.go:45-48 | the index arithmetic reaches exactly the i-th newest entry |
| Ring.RetainAgain | internal/hub/metrics.go:31-37 | keeping the newest entries step by step is keeping the newest of the whole history |
| PriceBuf.PriceBuffer.constructor | internal/hub/pricebuf.go:19-24 | a new buffer of the capacity, with no history |
| PriceBuf.PriceBuffer.Add | internal/hub/pricebuf.go:26-32 | the history grows by the price and the ring holds its newest entries |
| PriceBuf.PriceBuffer.At | internal/hub/pricebuf.go:45-48 | entry i is the i-th newest price ever added |
| PriceBuf.PriceBuffer.Latest | internal/hub/pricebuf.go:36-42 | the last price added, if any |
| PriceBuf.PriceBuffer.SMA | internal/hub/pricebuf.go:51-61 | the mean of the newest min(window, capacity, count) prices; nothing for an empty window, zero for a negative one |
| PriceBuf.PriceBuffer.Slope | internal/hub/pricebuf.go:65-85 | the regression slope of that window, none below two prices |
| PriceBuf.PriceBuffer.StdDev | internal/hub/pricebuf.go:88-100 | the value of the square root at the sample variance of that window, so the standard deviation wherever the function takes roots |
| PriceBuf.VarianceNotNegative | internal/hub/pricebuf.go:88-100 | the sample variance is never negative, so there is a root to take |
| PriceBuf.VarianceIsOverDegrees | internal/hub/pricebuf.go:88-100 | the variance times one less than the number of prices is the sum of squares less n times the squared mean |
| PriceBuf.SlopeKnown | internal/hub/pricebuf.go:65-84 | the zero-divisor branch is dead: a window of two prices always has a slope, within its ticks |
| PriceBuf.WindowOfHistory | internal/hub/pricebuf.go:50-61 | a window over the ring is a window over the whole history |
| TradeBuf.EarlyExitIsExact | internal/hub/metrics.go:42-52 | scanning newest to oldest until one is too old equals filtering, for every window, if and only if trades arrived in time order |
| TradeBuf.FilterSelects | internal/hub/metrics.go:42-52 | filtering keeps every trade no older than the bound as often as it occurs, and no other |
| TradeBuf.WindowReachesBack | internal/hub/metrics.go:84-86 | a window reaches back to the trades whose second had not ended its whole seconds before now; the rest of the window is cut off |
| TradeBuf.SideSumsItsTrades | internal/hub/metrics.go:88-94 | the volume of a side is the size of the trades whose side spells it in letters of either case |
| TradeBuf.SidesAddUp | internal/hub/metrics.go:88-94 | when every trade is a buy or a sell the two volumes add up to what was traded |
| TradeBuf.VwapWithinSpan | internal/hub/metrics.go:55-70 | for non-negative sizes the average price exists when there is volume, and lies between the least and greatest price |
| TradeBuf.VwapBalances | internal/hub/metrics.go:55-70 | the average price is the one price that the sizes above and below it balance at |
| TradeBuf.TradeBuffer.constructor | internal/hub/metrics.go:24-29 | a new buffer of the capacity, with no history |
| TradeBuf.TradeBuffer.Add | internal/hub/metrics.go:31-37 | the history grows by the trade and the ring holds its newest entries |
| TradeBuf.TradeBuffer.RecentSince | internal/hub/metrics.go:42-52 | the early-exit scan over the retained trades |
| TradeBuf.TradeBuffer.VWAP | internal/hub/metrics.go:55-70 | the size-weighted mean price of the trades in the window |
| TradeBuf.TradeBuffer.BuySellVolume | internal/hub/metrics.go:84-96 | the sizes in the window, summed by side |
| Book.SortLevels | internal/hub/orderbook.go:18-24 | a sorted permutation of the levels |
| Book.BestLevelsAreExtreme | internal/hub/orderbook.go:18-38 | after any snapshot the best bid is the highest bid and the best ask the lowest ask |
| Book.MidHalvesSpread | internal/hub/orderbook.go:40-47 | the mid price lies as far above the best bid as below the best ask |
| Book.Orderbook.Update | internal/hub/orderbook.go:18-24 | the whole book is replaced by the sorted levels |
| Book.Orderbook.BestBid | internal/hub/orderbook.go:26-31 | the first bid, if any |
| Book.Orderbook.BestAsk | internal/hub/orderbook.go:33-38 | the first ask, if any |
| Book.Orderbook.MidPrice | internal/hub/orderbook.go:40-47 | half way between them, if there are both |
| Hub.ApplyExtends | internal/hub/hub.go:41-102 | whatever is written, known markets keep their identity, resolved ones stay resolved, and registering again changes nothing |
| Hub.SnapshotIsShown | internal/hub/hub.go:41-50 | after a snapshot of a token the highest bid and lowest ask of it are read back, and half way between them, and no other token's mid price changes |
| Hub.NewestIsKept | internal/hub/hub.go:52-67 | a price or a trade becomes the newest entry of its list, after the newest before it up to the capacity |
| Hub.OutcomeChangesIff | internal/hub/hub.go:78-102 | a write changes a known market's outcome if and only if it is a stream message landing on it with another outcome, resolved or not, or an API answer with another outcome for a market not resolved yet |
| Hub.SlugFindsMarket | internal/hub/hub.go:78-94 | a message with a known slug resolves that market with its outcome and time, whatever token it names, and no other |
| Hub.TokenFindsMarket | internal/hub/hub.go:82-94 | a message without a known slug resolves the one market that holds its token on either side, with its outcome and time, and no other |
| Hub.MarketState.Resolve | internal/hub/hub.go:90-94 | status, outcome and time change, the identity does not |
| Hub.Hub.constructor | internal/hub/hub.go:27-35 | an empty hub |
| Hub.Hub.OnOrderbook | internal/hub/hub.go:41-50 | replaces one token's book and nothing else |
| Hub.Hub.OnTrade | internal/hub/hub.go:52-61 | appends to one token's trades and nothing else |
| Hub.Hub.OnBTCPrice | internal/hub/hub.go:63-67 | appends one price and nothing else |
| Hub.Hub.FindResolved | internal/hub/hub.go:82-89 | the market named by the slug, else any one holding the winning token, else none |
| Hub.Hub.OnMarketResolved | internal/hub/hub.go:78-102 | exactly that market becomes resolved with the reported outcome |
| Hub.Hub.ForceResolve | internal/hub/hub.go:226-234 | resolves a known market that is not resolved yet, and nothing else |
| Hub.Hub.RegisterMarket | internal/hub/hub.go:197-204 | adds an unknown market and never overwrites a known one |
| Hub.Hub.CurrentMarket | internal/hub/hub.go:206-216 | any live market; none only if none is live |
| Hub.Hub.GetMarketBySlug | internal/hub/hub.go:218-222 | the market of that slug, none exactly when unknown |
| Hub.Hub.GetOrderbook | internal/hub/hub.go:117-121 | the token's book, none exactly when unknown |
| Hub.Hub.BTCPrice | internal/hub/hub.go:123-127 | the latest price, if any |
| Hub.Hub.BTCPriceCount | internal/hub/hub.go:129-133 | the number of retained prices |
| Hub.Hub.BTCPriceSlope | internal/hub/hub.go:141-145 | the slope over the retained prices |
| Hub.Hub.BTCPriceStdDev | internal/hub/hub.go:177-181 | the deviation over the retained prices, a root of their variance wherever the function takes roots |
| Hub.Hub.ImpliedProbability | internal/hub/hub.go:167-175 | the mid price of the Up token's book |
| Hub.Hub.TradeBuySellVolume | internal/hub/hub.go:183-191 | a token's recent volumes by side |
| Signal.Evaluator.MomentumValue | internal/signal/momentum.go:24-34 | the squashed and clamped slope of the hub's prices |
| Signal.Evaluator.EdgeValue | internal/signal/edge.go:27-47 | model probability less market probability, clamped; 0 when either is unknown |
| Signal.Evaluator.ModelProb | internal/signal/edge.go:51-59 | the capped sigmoid of the slope |
| Signal.Evaluator.TradeFlowValue | internal/signal/tradeflow.go:20-37 | twice the excess of the Up share of the volume, negated: the surplus of Down over Up as a share of the volume |
| Signal.FlowIsSurplus | internal/signal/tradeflow.go:31-36 | the score is positive if and only if Down traded more, and -1 or 1 if and only if only Up or only Down traded |
| SignalLaws.VolumeIsTraded | internal/signal/tradeflow.go:24-29 | when only buys and sells are retained, the volume compared is the size of all trades the window reaches |
| SignalLaws.MomentumRisesWithTrend | internal/signal/momentum.go:24-34 | one momentum score is below another if and only if its slope times its sensitivity is |
| SignalLaws.ModelRisesWithTrend | internal/signal/edge.go:51-59 | one model probability is below another if and only if its slope times its sensitivity is and neither is held back by a cap |
| SignalLaws.EdgeIsDisagreement | internal/signal/edge.go:27-47 | the edge signal is as large as model and market disagree, and points to the side the model thinks too cheap |
| Signal.Engine.EarlyGates | internal/signal/engine.go:82-118 | the first refusal among the gates on time, data, hour and volatility |
| SignalLaws.HourOfDay | internal/signal/engine.go:102-106 | the hour gate reads the hour of the day |
| SignalLaws.VolatilityBoundsVariance | internal/signal/engine.go:108-118 | for a function that takes roots, the volatility gate is open if and only if the variance is at most the square of the allowed share of the latest price |
| Signal.Engine.ScoreSignals | internal/signal/engine.go:120-131 | every score with momentum capped, the weighted sum and the total weight |
| SignalLaws.ConfidenceWithinScores | internal/signal/engine.go:120-139 | with weights that are not negative, the signed confidence lies between any bounds of the scores |
| Signal.Engine.Gate | internal/signal/engine.go:138-179 | direction, model probability, edge and verdict from the composite score |
| Signal.Engine.Evaluate | internal/signal/engine.go:70-180 | the decision from one reading of the hub, for some live market or none |
| SignalLaws.TradesIffGatesOpen | internal/signal/engine.go:82-177 | a decision is tradeable if and only if every gate is open, in whatever order they are tried |
| SignalLaws.ConfirmedIsReported | internal/signal/engine.go:160-177 | the reason is "signal confirmed" if and only if the decision is to trade, which then has a direction and carries the volatility |
| SignalLaws.TradeableMeansGated | internal/signal/engine.go:133-177 | what a tradeable decision carries: direction of the composite, confidence, model probability and edge |
| SignalLaws.TradesFollowTrend | internal/signal/engine.go:24-62 | under the defaults every trade follows the slope: Up needs a rising slope, capped momentum of at least 7/60 and a model probability above one half, Down the opposite, and confidence never exceeds 0.43 |
| SignalLaws.OrdersAreSmall | internal/risk/manager.go:183-223 | under the defaults and fair books an order has a Kelly fraction of at most 2/9 and costs at most an eighteenth of the bankroll, so it needs nine dollars |
| Example.TradesDoHappen | internal/signal/engine.go:24-62 | the default gates and limits can all be met at once: for all lawful curves that are right at the one slope and variance asked, there is a hub on which a fresh account gets an order |
| Example.SomeCurvesAreRight | internal/signal/edge.go:61-63 | there are such curves |
| SignalLaws.LawsAreConsistent | internal/signal/edge.go:61-63 | the laws assumed of tanh and sigmoid have a model |
| Mirror.DecisionMirrored | internal/signal/engine.go:110-177 | reflected prices and swapped tokens give the opposite direction with the same confidence, edge, volatility and verdict |
| Mirror.OrderMirrored | internal/risk/manager.go:141-235 | and an order for the other token at the same price, size and cost, or none in both |
| Mirror.SlopeMirrored | internal/hub/pricebuf.go:65-85 | reflecting the prices negates the slope |
| Mirror.VolumeMirrored | internal/hub/hub.go:183-191 | swapping the tokens swaps their recent volumes |
| RiskManager.Manager.constructor | internal/risk/manager.go:116-124 | bankroll and peak from the configuration, everything else empty |
| RiskManager.Manager.RestoreBankroll | internal/risk/manager.go:128-136 | bankroll and peak replaced, nothing else |
| RiskManager.Manager.CurrentExposure | internal/risk/manager.go:339-345 | the sum of the costs, whatever order the map gives them in |
| RiskManager.Manager.CheckCooldown | internal/risk/manager.go:349-363 | ends a halt whose cooldown is over and restarts the peak |
| RiskManager.Manager.Evaluate | internal/risk/manager.go:141-235 | the new account and the order, or the reason for none, as functions of the old account and the hub |
| RiskManager.Manager.Sized | internal/risk/manager.go:199-234 | Kelly stake, position cap, exposure cap and minimum bet in this order |
| RiskManager.Manager.OpenPosition | internal/risk/manager.go:238-253 | the position is added under its slug, nothing else changes |
| RiskManager.Manager.Settle | internal/risk/manager.go:267-324 | ledger, callback and breaker of one settlement; the callback reports a win if and only if the outcome names the side bought |
| RiskManager.Manager.SettleResolved | internal/risk/manager.go:257-326 | settles exactly the positions whose markets are resolved, each once, in some order, with one callback each |
| RiskManager.Manager.CollectExpired | internal/risk/manager.go:417-431 | exactly the open positions of known markets that still trade although their windows ended over thirty seconds ago |
| RiskManager.Manager.ResolveExpired | internal/risk/manager.go:433-450 | each listed slug is asked about at most once; exactly the listed markets that still trade and have an answer change: they resolve with that answer, at a clock reading since |
| RiskManager.AnswersForce | internal/risk/manager.go:439-449 | answers given in turn resolve exactly the markets they name that still trade, each with its answer |
| RiskManager.Manager.ForceOne | internal/risk/manager.go:439-449 | one answer resolves its market at one later clock reading and changes nothing else |
| RiskManager.Manager.Status | internal/risk/manager.go:384-404 | all eight figures, with a win rate of 0 before any settlement and wins over settlements after |
| Ledger.EquityOfSettlement | internal/risk/manager.go:267-293 | settling raises bankroll less exposure by exactly the payout |
| Ledger.EquityOfOpening | internal/risk/manager.go:238-253 | opening lowers it by exactly the cost |
| Ledger.EquityOfPass | internal/risk/manager.go:257-326 | over a pass it rises by the sum of the payouts |
| Ledger.OneSidePays | internal/risk/manager.go:328-337 | of equal positions on both sides, one pays on an outcome that names its side, the other not; neither pays on any other outcome |
| Risk.WinsIffNamed | internal/risk/manager.go:328-337 | a position wins if and only if the outcome is "up" or "yes", or "down" or "no" for the other side, each letter in either case; no outcome names both sides |
| Ledger.SettlementPays | internal/risk/manager.go:267-279 | settling takes the cost of a position and pays its size if the outcome names its side |
| Ledger.SettleBalances | internal/risk/manager.go:267-293 | profit, bankroll, counters and settlements stay in balance |
| Ledger.OpenBalances | internal/risk/manager.go:238-253 | so do purchases, open and settled positions |
| Ledger.RestoreBalances | internal/risk/manager.go:128-136 | the account balances on a base after restoring if and only if that base moved by as much as the bankroll |
| Ledger.SettleKeepsBreaker | internal/risk/manager.go:278-324 | a settlement leaves the peak over the bankroll and the drawdown within its limit unless halted if and only if the account was halted, or has a positive peak before or a positive bankroll after, or falls below a peak of zero |
| Ledger.CooldownKeepsBreaker | internal/risk/manager.go:349-363 | ending a halt keeps that promise if and only if the bankroll is positive |
| Ledger.RestoreKeepsBreaker | internal/risk/manager.go:128-136 | restoring keeps it if and only if the new bankroll is positive or the account is halted |
| Ledger.NegativePeakNeverTrips | internal/risk/manager.go:310-314 | from a negative peak, no settlement that leaves the bankroll negative trips the breaker |
| Ledger.HaltsAreSpaced | internal/risk/manager.go:145-150 | halts are at most one more than the cooldowns that fit the time, and at most one without a cooldown |
| Ledger.SettleKeepsPace | internal/risk/manager.go:310-314 | a settlement keeps the halts a cooldown apart |
| Ledger.CooldownKeepsPace | internal/risk/manager.go:349-356 | so does the cooldown check |
| OrderFree.PassTotals | internal/risk/manager.go:261-293 | bankroll, profit, counters and positions after a pass depend only on the set of slugs settled |
| OrderFree.PassPeak | internal/risk/manager.go:278-282 | the peak lies between what the result forces and what taking the gains first would reach |
| OrderFree.PassTripsOnce | internal/risk/manager.go:310-314 | a pass trips the breaker at most once, and only an account not halted before |
| OrderFree.OrderDoesNotMatter | internal/risk/manager.go:261-325 | two passes in any two orders agree on all but peak and breaker |
| OrderFree.BreakerDependsOnOrder | internal/risk/manager.go:261-325 | an account with two bets within every default limit, the Kelly stake included, one order of whose pass trips the breaker and one does not |
| OrderFree.PeakDependsOnOrder | internal/risk/manager.go:278-282 | the same for the peak |
| PeakOrder.PeakBoundsAreReached | internal/risk/manager.go:278-282 | both ends of the peak's range are reached, by two orders every other order lies between |
| PeakOrder.PeakIsOrderFreeIff | internal/risk/manager.go:261-325 | all orders of a pass leave the same peak if and only if nothing due loses or the gains due do not lift the bankroll above the old peak |
| WorstOrder.DropIsBounded | internal/risk/manager.go:278-282 | however a pass is ordered, the distance below the peak grows by at most its losses |
| WorstOrder.NoOrderTripsIffLossesFit | internal/risk/manager.go:261-325 | no order of a pass trips the breaker if and only if the losses due fit what is left of the drawdown allowance |
| WorstOrder.EveryOrderTripsIfResultBreaches | internal/risk/manager.go:310-314 | if the final bankroll alone breaches the old peak, every order of the pass leaves the account halted |
| Pass.PassAchieves | internal/risk/manager.go:257-326 | a pass in any order settles exactly the positions whose markets were resolved, each with one settlement that pays if the outcome names its side, and fills in every unsettled row of theirs and no other |
| Solvency.RunsStaySolvent | internal/risk/manager.go:204-282 | with at most quarter Kelly, and no order under way while anything but the latest purchase is open, the bankroll is positive in every state of every interleaving, inside passes too |
| Solvency.RunsStayAboveFloor | internal/risk/manager.go:204-282 | with no order under way while anything is open, n settlements keep at least start times (1 - fraction)^n on every run |
| Solvency.TotalLossLeavesEquity | internal/risk/manager.go:267-282 | losing every open position leaves exactly bankroll less exposure |
| Solvency.SolventWhateverHappensIff | internal/risk/manager.go:257-326 | with any number of positions the bankroll survives every way of settling some of them if and only if it exceeds the exposure |
| Solvency.CoveredIffAffordable | internal/risk/manager.go:204-252 | on every run the bankroll exceeds the exposure in every state if and only if every purchase cost less than bankroll less exposure when it was recorded |
| Solvency.AffordableRunsStaySolvent | internal/risk/manager.go:204-252 | under that guard the bankroll is positive in every state of every run, with any number of open positions |
| Solvency.BreakerLimitsLoss | internal/risk/manager.go:310-363 | with no order under way while anything is open, a run keeps at least start times ((1 - limit)(1 - fraction)) to the number of halts plus one, and so a floor for the time that has passed |
| Ruin.DefaultsCanOverreach | internal/risk/manager.go:204-252 | under the default engine and manager, and all curves that are right on the climb, a run from a positive bankroll gets open positions that cost more than there is |
| Ruin.DefaultsCanGoUnder | internal/risk/manager.go:257-326 | and one that ends with a negative bankroll |
| Ruin.DefaultsCanDisarm | internal/risk/manager.go:349-356 | and one on which the cooldown then lifts the halt with a negative peak |
| Ruin.DefaultsCanFileTwice | cmd/bot/main.go:136-144 | and two default processes on one table, the second started on the rows the first left, after which the second's one loss is on file twice |
| Bot.StepExtendsHub | internal/hub/hub.go:78-95 | every step of the process keeps market identities and resolutions, and time |
| Bot.BackgroundKeepsBooks | cmd/bot/main.go:219-270 | streams and rotation never touch account, table or signal loop |
| BotLaws.NeverTwice | cmd/bot/main.go:329-344 | in every interleaving each slug is bought at most once and settled at most once, and every purchase is either open or settled |
| BotLaws.PassMissesNothing | internal/risk/manager.go:257-326 | when a pass is over, every position whose market was resolved at its beginning is settled |
| BotLaws.ExposureIsBounded | internal/risk/manager.go:204-252 | on every run exposure stays within its limit though it is checked and used under separate locks, each position is within its limits, and there are at most limit over minimum bet of them |
| BotLaws.LedgerIsConserved | internal/risk/manager.go:267-293 | on every run the bankroll is its start plus the settled profits, wins, losses, settlements and purchases agree, and every open position will be settled at payout less cost |
| BotLaws.BreakerHoldsThroughout | internal/risk/manager.go:310-324 | in every state of every run the peak covers the bankroll, and the drawdown is within its limit unless halted if and only if the account is halted or its peak is positive |
| BotLaws.OrdersStayWithinDrawdown | internal/risk/manager.go:141-150 | given a positive minimum bet and a Kelly factor that is not negative, on every run, whenever an order is under way the account is not halted, its peak is positive and its drawdown is within the limit |
| BotLaws.NoOrderBeforeCooldown | internal/risk/manager.go:145-150 | on every run no order is under way before the cooldown since every halt has elapsed; without a cooldown none after a halt |
| BotLaws.HaltLastsForCooldown | internal/risk/manager.go:349-363 | on every run a sizing ends a halt if and only if the cooldown since the last trip is over, and then restarts the peak; otherwise it changes nothing and orders nothing |
| BotLaws.HaltsAreRare | internal/risk/manager.go:349-356 | on every run consecutive halts are a cooldown apart, so their number is bounded by the time |
| BotLaws.RunsStaySound | cmd/bot/main.go:320-390 | the joint invariant is kept by every event in every state |
| Rotation.CollectsTheLate | internal/risk/manager.go:417-431 | a collection finds exactly the open positions of known markets that still trade thirty seconds after their windows ended |
| Rotation.OnlyTheLateAreAsked | internal/risk/manager.go:433-450 | on every run the API is only asked about known markets whose windows ended over thirty seconds before, never about a live one |
| Gates.OnlyThePassedIsBought | cmd/bot/main.go:331-384 | on every run an order under way was decided within its market's window, at the allowed distance from its end and at a traded hour, and each row added is scored and priced within the gates and no earlier than its window |
| Gates.AveragesStayWithinGates | internal/stats/stats.go:72-105 | so the average edge and confidence reported for any period lie within the gates, if every row found was scored within them |
| Store.UpdateMovesRows | internal/store/store.go:145-156 | an update moves exactly the touched rows to the settled side and leaves none of the slug unsettled |
| Store.UpdateAddsPnl | internal/store/store.go:145-156 | the profits on file rise once per touched row |
| Store.FiledOnceIffOneRow | internal/store/store.go:145-156 | so a settlement is filed correctly if and only if one unsettled row carries its slug |
| Store.RestartFilesTwice | internal/store/store.go:145-156 | two rows left by a restart file one profit twice |
| Store.TradeStore.LogTrade | internal/store/store.go:132-143 | appends one unsettled row |
| Store.TradeStore.SettleTrade | internal/store/store.go:145-156 | fills in every unsettled row of the slug and no other |
| Store.TradeStore.SettledTradesSince | internal/store/store.go:216-243 | exactly the rows settled since then, ordered by settlement time |
| Store.TradeStore.AllSettledTrades | internal/store/store.go:245-247 | the same from the zero time on |
| Store.TradeStore.LastBankroll | internal/store/store.go:251-261 | the bankroll of a latest settled row, none when there is none |
| Stats.ComputeSummary | internal/stats/stats.go:62-113 | totals, rates and averages of the trades, and the drawdown from the scan's peak and fall |
| Stats.FactorShowsProfit | internal/stats/stats.go:75-103 | when no lost trade gained, the profit is gross wins less gross losses, the profit factor exceeds 1 if and only if there is a profit, and the win rate is wins over trades |
| Stats.AveragesAtLeast | internal/stats/stats.go:81-105 | the averages are no lower than the lowest edge and the lowest confidence |
| Stats.ScanFindsPeak | internal/stats/stats.go:84-87 | the running peak is the maximum of the profit curve, start included |
| Stats.ScanFindsDrawdown | internal/stats/stats.go:84-92 | the scan finds the largest fall from any point of the curve to any later one |
| Stats.ReportedIffEverAhead | internal/stats/stats.go:106-108 | a positive drawdown is reported if and only if the curve fell and was once above its start |
| Stats.ReportedNeverOverstates | internal/stats/stats.go:84-108 | for an account that stays above zero the reported drawdown is at most the worst peak-to-trough loss, and equal if and only if the curve never fell, or was once ahead and a worst loss started from its highest point |
| Stats.LaterGainsHideLosses | internal/stats/stats.go:106-108 | an input on which it is less |
| Stats.LossScanFindsWorst | internal/stats/stats.go:84-92 | dividing each fall by its own running peak would find the worst loss in one pass |
| Stats.ComputeStreaks | internal/stats/stats.go:258-284 | the longest unbroken runs of wins and of losses, and the signed length of the final run |
| Filing.TableMirrorsPositions | cmd/bot/main.go:342-384 | between ticks, on whatever table the process started, each open position has exactly one unsettled row among those added since, which describes it; older rows are kept, and unsettled ones stay so until their slug is settled |
| Filing.EachSettlementUpdatesOneRow | cmd/bot/main.go:140-144 | on every run and table a settlement updates one row more than its slug had unsettled at the start, so one if and only if it had none |
| Readback.RestartReads | internal/store/store.go:251-261 | on every run and table the bankrolls a restart may read back are exactly those that settlements at the last clock reading led to; before any settlement, what could be read back before |
| Readback.RestartResumesIff | cmd/bot/main.go:136-138 | a restart may always resume with the bankroll the process had, and is sure to if and only if every settlement at the last clock reading left the same profits |
| Readback.StatisticsAgree | internal/stats/stats.go:72-113 | if nothing bought had an unsettled row at the start, the rows settled since give the account's own counts and profit |
| Readback.ListIsLedgerIff | internal/store/store.go:216-243 | then every list the query may return is the ledger in order if and only if no two settlements share a clock reading |
| Readback.StatisticsFollowBankroll | internal/stats/stats.go:84-92 | and in that case the curve scanned for the drawdown is the bankroll's |
| Filing.RunsStayFiled | cmd/bot/main.go:320-390 | table and account mirror each other after every event of every run, on every table |
| Loop.SignalTick | cmd/bot/main.go:320-390 | one tick settles each position whose market was resolved when it began with one settlement, fills in its rows, and then opens and logs exactly the order its decision on some live market gets, if any; with no other writer at work, executing it is a run of the state machine |
| Loop.SettleAndFile | cmd/bot/main.go:140-144 | the settlement pass of everything resolved with its callbacks, as a run of visits |
| Loop.DecideAndTrade | cmd/bot/main.go:331-384 | the second half is a decision on some live market, an evaluation, an opening and a logging, as far as they go |
| Loop.DecidingTrades | cmd/bot/main.go:331-384 | a decision to trade that an unhalted account can fill adds one position and one row, those of an order that fills it; otherwise nothing is bought or logged |
| Loop.SettleExpired | internal/risk/manager.go:416-451 | executing collection and resolution resolves exactly the markets of open positions that still traded thirty seconds after their windows and that an answer was given for, with that answer, and is a run of the state machine that leaves account, table and signal loop alone |
| Loop.PassIsRun | internal/risk/manager.go:257-326 | a whole pass under one lock equals its visits one after the other |

## Left out

- Rounding, overflow, NaN and infinities of floating point: arithmetic is exact; only the breaker's division by a zero peak is modelled with its infinite and undefined results.
- SignalLaws.LawsAreConsistent: shows that the laws assumed of `tanh` and `sigmoid` (range, strict growth, symmetry) have some model; the exponential itself is not part of this model.
- PriceBuf.PriceBuffer.StdDev: the square root is a parameter, so that the value is a standard deviation is stated for functions that take roots.
- Hub.Hub.BTCPriceStdDev: the same.
- Signal.Engine.Evaluate: reads the hub at one moment, where the program takes the lock anew for each query; a hub that changes between two queries of one evaluation is not modelled.
- RiskManager.Manager.Evaluate: likewise reads market and book at one moment.
- Data races on the pointers that the hub hands out.
- One settlement takes one clock reading: settledAt, haltedAt and the settled_at column, three readings in the program, coincide.
- Resolution and discovery answers of the market API are arbitrary inputs; its failures are missing answers.
- Loop.SignalTick: is executed with no other writer at work; the interleavings are those of the state machine, of which it is shown to be a run.
- Loop.SettleExpired: the same, and its answers are given beforehand.
- Collecting expired positions and API answers may also fall between two settlements of a pass, which the manager's lock forbids: the state machine has more runs than the program.
- Store.TradeStore.LogTrade: a row leaves out the columns for signal values, Bitcoin price, volatility and bot version. Failed writes and the snapshots table are left out.
- Readback.StatisticsFollowBankroll: is stated without shared clock readings, because ties may be listed in any order (Readback.ListIsLedgerIff is exact about that, and Readback.StatisticsAgree holds with ties).
- Book.SortLevels: keeps the order of levels of equal price, which the program's sort leaves open; no statement depends on it.
- Solvency.RunsStaySolvent: its hypothesis, no order while anything but the latest purchase is open, is not enforced by the program; Ruin.DefaultsCanGoUnder shows that something of the kind is needed, Solvency.CoveredIffAffordable what exactly.
- BotLaws.PassMissesNothing: does not claim that a market is ever resolved, so no position is claimed to settle eventually.
- Stats.ComputeSummary: leaves out the Sharpe ratio and the Brier score. Calibration and the hour, edge, signal and time buckets of the statistics, and formatting, are left out.
- Order book depth, spread and the imbalance signal, which the engine does not use; trade velocity and the VWAP query of the hub.
- Network streams, reconnecting, the HTTP API, alerts, logging, configuration, schema migration.
