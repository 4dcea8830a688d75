# Trading core: a verified model

The repository is an automatic stock-trading service. This project models the part of it that
handles money, shares and shared state, and proves what that part promises:

- **Orders and sessions.** Every order is a row of the order history, fed by two channels:
  notifications carry the quantity of one fill, polls carry cumulative quantities. Every recorded
  execution moves the position of a trading session. `OrderLedger`, `Position` and `TradingDesk`
  say what a call does to a row, to a session and to both ledgers together; `OrderService`,
  `SessionEntity` and `TradingService` are the classes that change these objects in place, each
  method proved to be that step. `Conservation` and `Budget` are the results about whole runs,
  `CycleHistory` reads the fields of a session off the moves of its run,
  `TwoChannels` holds a row against what the broker really filled, `SellLock` splits the automatic
  sell at its awaits, `LiveSells` and `SellCover` say when two sells of a session are out at once and
  when the shares of one are still held, `SellRefinement` ties the split sell to the whole one, and `ExitLadder` is the decision to sell.
- **The scheduled scan.** `ScanLock` is the lock row shared by all instances, `Diversification` the
  greedy filter over candidates, `WeightedSplit` and `Allocation` the distribution of the budget.
- **One-minute candles.** `Candles` holds the incremental tracker and the plain grouping by minute
  it must agree with, `CandleTracker` the mutable form, `Scalping` the decision read off it.
- **Limiters and the token client.** `TokenBucket` and `RateLimiters` for the two rate limiters,
  `TossClient` for the shared token, its single request in flight and its circuit breaker.
- **Signals and the gateway.** `Indicators` and `DayTrading` for the loops over candles,
  `SignalMeaning` for what the signals say, `Gateway`
  for the reference counts of upstream subscriptions.

`Numbers` and `Clock` hold what the others share: optional values, rounding, sums, times of day.
Prices and percentages are exact reals, quantities, won amounts and times are integers.
Replies of the broker, failing lookups, clocks and prices are parameters, so every result holds for
all of them. `dafny verify dfyconfig.toml` checks the project.

Where the code does less than one would expect, the project says exactly when:

- An execution whose price, order price and average are all missing advances its row and not its
  session. The two ledgers agree through a run exactly when this never happens
  (`Conservation.SharesAreConservedIff`; a share bought by hand at the market and notified without a
  price is such a case, `Conservation.UnpricedFillPartsTheLedgers`).
- A row fed by both channels holds what the broker filled, all along, exactly when no message told of
  a fill before the row was written and no notification reaches it out of turn while it is open
  (`TwoChannels.RowIsRightIff`, `TwoChannels.EarlyNotificationIsLost`); with notifications in order
  the latter is one that comes after a report which included its fill
  (`TwoChannels.LateNotificationsOnlyIff`, `TwoChannels.MixedChannelsCountTwice`).
- A poll prices the new shares at the average of the whole order. The amount booked is then the
  broker's total less the drift of that average (`TwoChannels.PolledAmountIff`,
  `TwoChannels.PolledAmountFallsShort`).
- A session has at most one automatic sell at the broker all along exactly when none is sent after a
  history write failed, a reply was lost or a row was closed too early, and before the broker ended
  that order (`LiveSells.NeverTwoSellsIff`). Of two sells one after the other the second goes through
  exactly when the first had no good reply, or was taken, not written down and does not pause its
  session (`LiveSells.SecondSellGoesThroughIff`); one that pauses blocks the session until it is armed
  again (`LiveSells.RearmedSessionSellsAgain`).
- The quantity of an automatic sell is taken before its first await. Its shares are still held
  exactly when what was open then, or was placed since, sold on balance no more than the sell leaves,
  where shares by which a fill was larger than the holding do not count; without buys in between
  those make no difference (`SellCover.SellIsCoveredIff`, `SellCover.SellByHandInBetweenOversells`).
- A scan request can be claimed exactly while it is the last one acquired and was neither claimed nor
  released, however long ago it expired (`ScanLock.ClaimSucceedsIff`, `ScanLock.LateClaimSucceeds`).
- A time that goes back begins a new day only if there is a current candle (`Candles.NewDayIff`,
  `Candles.EarlyTickAfterHaltIsIgnored`).
- A configured rate between 0 and 1 passes as positive and is rounded to 0: requests then wait for
  ever (`TokenBucket.ServesIff`, `TokenBucket.RefillsGrantIff`).
- A request starts two token requests exactly when its first ask has to make one and, after a 401 on
  its first attempt, so has its second; the 401 of the token endpoint itself counts
  (`TossClient.TwoTokenRequestsIff`, `TossClient.RefusedCredentialsCountTwice`).
- After a golden cross and no dead one since, there is another exactly when the averages were equal
  the day before and the short one is above again (`DayTrading.CrossesAlternateUnlessTheyTouch`,
  `DayTrading.TouchGivesTwoGoldenCrosses`).
- The reference counts equal the clients that hold each key exactly when no connection replaced an
  entry that held something (`Gateway.CountsAgreeIff`). The socket library hands each socket over
  once, so this rests on it; were it to happen, the keys would stay counted (`Gateway.StraysStay`).
- Upstream calls follow the counts all along exactly when every key that an event takes to zero comes
  from a stock code without a colon (`Gateway.AlwaysInStepIff`, `Gateway.KeyIsPlainIff`); with one it
  stays subscribed (`Gateway.TakenBackIff`).
- Positions of two or three shares are never scaled out (`ExitLadder.FirstTargetLeavesNoDust`).

## Model

| member | source | states |
|---|---|---|
| `Conservation.SharesAreConservedIff` | apps/backend/src/auto-trading/auto-trading.service.ts:2576-2676 | For every run of orders by signal and by hand, notifications, polls, rejections and evaluated prices: all along each holding is bought minus sold shares of the session's orders, filled buys and sells are counted once, and no open sell exceeds the holding, exactly when every execution of a session order resolves to a price |
| `Conservation.StepKeepsBooksIff` | apps/backend/src/auto-trading/auto-trading.service.ts:2576-2726 | One service call keeps the two ledgers in agreement exactly when the execution it records, if any, has a price for its session |
| `Conservation.LostFillBreaksBooks` | apps/backend/src/auto-trading/auto-trading.service.ts:2593-2605 | An execution without any price moves the row and not the holding, so the ledgers part |
| `Conservation.UnpricedFillIsLost` | apps/backend/src/auto-trading/auto-trading.service.ts:2593-2605 | A fill notified without a price, of an order without one, for a session that holds nothing: the row has it, the session has not |
| `Conservation.UnpricedFillPartsTheLedgers` | apps/backend/src/auto-trading/auto-trading.service.ts:2593-2605 | Such a run from an empty desk: one share bought by hand at the market and notified without a price is in the row and not in the session |
| `Conservation.FillKeepsBooks` | apps/backend/src/auto-trading/auto-trading.service.ts:2606-2676 | A fill with a price moves row, holding and counters together, whatever other orders and sessions there are |
| `Conservation.RejectKeepsBooks` | apps/backend/src/auto-trading/auto-trading.service.ts:2693-2726 | A rejection keeps the ledgers in agreement, fails its row, and clears the pending flag of the session exactly when the order was to pause it; nothing else changes |
| `Conservation.PlacingKeepsBooks` | apps/backend/src/auto-trading/auto-trading.service.ts:2185-2328 | Placing an order of any kind keeps the ledgers in agreement and every open sell covered |
| `Conservation.FlatDeskAgrees` | apps/backend/src/auto-trading/entities/auto-trading-session.entity.ts:45-218 | Flat sessions without orders start in agreement |
| `Budget.BudgetIsSafe` | apps/backend/src/auto-trading/auto-trading.service.ts:2213-2265 | Through partial fills, add-ons, partial sells and re-entries, held shares at cost plus the open buy at its limit stay within the invested amount and add-ons within their limit, for a session that buys by signal at or below its limit, with risk sizing on or off |
| `Budget.StepKeepsBudget` | apps/backend/src/auto-trading/auto-trading.service.ts:2153-2328 | One service call keeps a session within budget and add-on limit |
| `Budget.SignalBuyFits` | apps/backend/src/auto-trading/auto-trading.service.ts:2213-2328 | A row of no more than an automatic buy asks for, at its price, fits into the budget beside what is held |
| `Budget.BuyFillFits` | apps/backend/src/auto-trading/auto-trading.service.ts:2609-2640 | A buy fill at or below the limit moves no more money into the position than the order had set aside, and where shares are held counts one add-on with the first fill of an order and none with the others |
| `Budget.SellFillFits` | apps/backend/src/auto-trading/auto-trading.service.ts:2641-2666 | A sell fill never takes a session over its budget |
| `Budget.FlatSessionWithinBudget` | apps/backend/src/auto-trading/entities/auto-trading-session.entity.ts:45-218 | A flat session without orders is within any budget that is not negative |
| `Trading.AutoBuyFitsBudget` | apps/backend/src/auto-trading/auto-trading.service.ts:2213-2265 | What an automatic buy asks for fits beside the held shares at its limit price, and an add-on only when another is allowed |
| `Trading.FlatSessionBuys` | apps/backend/src/auto-trading/auto-trading.service.ts:2230-2255 | A flat session whose first entry reaches the price asks for at least one share |
| `Trading.AutoBuyIsMost` | apps/backend/src/auto-trading/auto-trading.service.ts:2213-2255 | Unless a first entry is sized by risk, a request is the most shares that both the planned part and what is left of the invested amount pay for: a share more would cost more than the smaller of the two |
| `Trading.RequestIsAsked` | apps/backend/src/auto-trading/auto-trading.service.ts:2213-2255 | The guards of an automatic buy and its arithmetic ask for one and the same quantity at every price |
| `Trading.BlockedBuysNothing` | apps/backend/src/auto-trading/auto-trading.service.ts:2213-2250 | A session that may not add on, or has used up its budget, asks for nothing |
| `Trading.RiskSizedIsMost` | libs/strategies/src/utils/position-sizing.ts:15-48 | A first entry sized by risk is the most shares whose loss at the stop fits into the risk budget and whose price fits into the whole one |
| `Trading.ImmediateBuyIsMost` | apps/backend/src/auto-trading/auto-trading.service.ts:2364-2373 | A buy at once is the most shares that the first part of the invested amount pays for, and with risk sizing that the risk budget bears |
| `Trading.AutoBuySendsIff` | apps/backend/src/auto-trading/auto-trading.service.ts:2153-2328 | Exactly when an automatic buy is sent, and the whole row it leaves |
| `Trading.ImmediateBuySendsIff` | apps/backend/src/auto-trading/auto-trading.service.ts:2334-2456 | Exactly when a buy at once is sent, and the whole row it leaves |
| `Trading.AutoSellSendsIff` | apps/backend/src/auto-trading/auto-trading.service.ts:2459-2574 | Exactly when an automatic sell is sent, with which quantity and limit, the whole row it leaves, and what becomes of the pending flag |
| `Trading.ManualOrderIs` | apps/backend/src/auto-trading/auto-trading.service.ts:3480-3604 | Which error an order by hand ends with, a stopped session and every conflict in the order of the checks, and otherwise the whole row it leaves |
| `Trading.RiskSizedEntryIff` | libs/strategies/src/utils/position-sizing.ts:15-48 | With risk sizing a flat session buys exactly when one share's loss at the stop is within the risk budget and its price within the whole budget |
| `Trading.AutoBuyRow` | apps/backend/src/auto-trading/auto-trading.service.ts:2255-2328 | An automatic buy writes at most one row: a limit buy of no more than was asked for and no more than the broker allows |
| `TradeMeta.PolicyFitsBudget` | libs/strategies/src/trade-meta.ts:16-103 | Every strategy's first entry plus all its add-ons never plan to spend more than the whole budget |
| `TradingDesk.PlacingAddsOneRow` | apps/backend/src/auto-trading/auto-trading.service.ts:658-687 | Every placing call adds nothing or one row; a row of a session joins only while nothing of its user and stock is open, and a sell never exceeds the holding |
| `TradingDesk.PlacingKeepsSessions` | apps/backend/src/auto-trading/auto-trading.service.ts:2459-2574 | Placing an order changes nothing in any session but the pending flag |
| `TradingDesk.PlacingIs` | apps/backend/src/auto-trading/auto-trading.service.ts:2153-2574 | A call on a session is the order of that session and nothing else: one row may join, a sell may raise its own flag, and a stopped session keeps its settings |
| `TradingDesk.RowStepKeepsStructure` | apps/backend/src/kis/kis-order.service.ts:145-340 | An order event keeps rows well-formed and at most one open row per user and stock among session orders |
| `TradingDesk.ExecutionReachesSession` | apps/backend/src/auto-trading/auto-trading.service.ts:2576-2691 | The row moves, and the session of the row takes exactly the shares the row gained, at the price recorded or that of the order, as a first fill exactly when the row had none; nothing else in either ledger moves |
| `TradingDesk.HearingIs` | apps/backend/src/auto-trading/auto-trading.service.ts:2693-2726 | A rejection ends the order, an execution of at least one share and every poll reach the history, anything else is ignored |
| `Position.CashIdentity` | apps/backend/src/auto-trading/auto-trading.service.ts:2609-2666 | Over any run of fills, oversized sells included, realized profit differs from proceeds minus cost plus book value by at most half a won per sell fill |
| `Position.CashStep` | apps/backend/src/auto-trading/auto-trading.service.ts:2609-2666 | One fill changes realized profit by its cash and the change of book value, exactly for a buy and within half a won for a sell |
| `Position.AverageFacts` | apps/backend/src/auto-trading/auto-trading.service.ts:2609-2625 | Averaging conserves cost, and the new average lies between the old one and the price paid |
| `Position.CycleIsTracked` | apps/backend/src/auto-trading/auto-trading.service.ts:392-433 | While shares are held, the average lies between the lowest and highest price paid in this cycle and the peak is the largest price paid or evaluated in it; a flat session has neither |
| `CycleHistory.CycleIsRecalled` | apps/backend/src/auto-trading/auto-trading.service.ts:2609-2676 | Over every run from an opened session, read off the moves: the holding is what was bought less what was sold, the add-on count is the number of buys whose first fill of the cycle met shares already held, the entry time is that of the fill that began it, quantity and stage of scaling out follow the last buy and the sells since, each order is counted once, and fills leave the pending flag alone |
| `CycleHistory.MarkIsRecalled` | apps/backend/src/auto-trading/auto-trading.service.ts:2630-2664 | In every such run unrealized profit is what the shares were worth above their cost at the price known with the last fill that came with one |
| `CycleHistory.ProfitIsCashPlusMarketValue` | apps/backend/src/auto-trading/auto-trading.service.ts:2609-2676 | After a fill that comes with the latest price, realized and unrealized profit together are proceeds minus cost plus the shares at that price, within half a won per sell fill and one more |
| `Position.PeakCoversAverage` | apps/backend/src/auto-trading/auto-trading.service.ts:2983-2992 | The peak is never below the average price, in any run from flat |
| `Position.RunKeepsSound` | apps/backend/src/auto-trading/auto-trading.service.ts:2576-2676 | In every run no shares means no average and no peak, and shares mean both are positive |
| `Position.SplitBuyIsWhole` | apps/backend/src/auto-trading/auto-trading.service.ts:2609-2640 | A buy that fills in two parts at one price leaves the session exactly as one fill would |
| `Position.SplitSellIsWhole` | apps/backend/src/auto-trading/auto-trading.service.ts:2641-2666 | A sell in two parts differs from one fill in realized profit alone, by at most one won |
| `SessionEntity.AutoTradingSession.constructor` | apps/backend/src/auto-trading/entities/auto-trading-session.entity.ts:45-218 | A new session is flat and sound |
| `SessionEntity.AutoTradingSession.ApplyConfirmedOrderExecution` | apps/backend/src/auto-trading/auto-trading.service.ts:2576-2676 | The fields after a confirmed execution are those of the specified fill |
| `SessionEntity.AutoTradingSession.BookBuyFill` | apps/backend/src/auto-trading/auto-trading.service.ts:2609-2640 | Field by field, a buy fill: average, holding, entry time, add-on count, peak, stages, unrealized profit |
| `SessionEntity.AutoTradingSession.BookSellFill` | apps/backend/src/auto-trading/auto-trading.service.ts:2638-2666 | Field by field, a sell fill: profit, holding, counters, stage, and the end of the cycle |
| `SessionEntity.AutoTradingSession.ClosePosition` | apps/backend/src/auto-trading/auto-trading.service.ts:2647-2654 | At zero shares the whole cycle is forgotten |
| `SessionEntity.AutoTradingSession.MarkPositionRiskOnBuy` | apps/backend/src/auto-trading/auto-trading.service.ts:398-416 | A buy sets or raises the peak and starts the scale-out stages anew |
| `SessionEntity.AutoTradingSession.ResetPositionRisk` | apps/backend/src/auto-trading/auto-trading.service.ts:392-396 | Peak, stage and initial quantity are cleared, nothing else |
| `SessionEntity.AutoTradingSession.UpdateHighestPriceAfterEntry` | apps/backend/src/auto-trading/auto-trading.service.ts:418-433 | The peak follows an evaluated price upwards, and the result says whether it moved |
| `SessionEntity.AutoTradingSession.EvaluatePrice` | apps/backend/src/auto-trading/auto-trading.service.ts:2971-2983 | A price is looked at only for an unpaused session with shares and an average |
| `OrderLedger.RunKeepsOrder` | apps/backend/src/kis/kis-order.service.ts:145-340 | Under any order and repetition of notifications, polls and rejections a row stays well-formed, its terms unchanged, and executed quantity and amount are the sums of what the calls returned |
| `OrderLedger.StepKeepsOrder` | apps/backend/src/kis/kis-order.service.ts:271-310 | One event: status and quantity agree, nothing is taken back or exceeds the order, and what is booked is what is reported |
| `OrderLedger.ClosedIsFinal` | apps/backend/src/kis/kis-order.service.ts:145-177 | Closed rows are absorbing |
| `OrderLedger.ReportClosesIff` | apps/backend/src/kis/kis-order.service.ts:197-269 | Exactly when a poll closes an open row as executed, as failed, and as successful with a part, from the reported quantities alone |
| `OrderLedger.RecordedPrice` | apps/backend/src/kis/kis-order.service.ts:164-205 | A notification with a price is recorded at that price, and at the order price only when it has none; a report at its average, and without one at the price at which its quantity comes to its amount |
| `OrderLedger.PlacingWritesIff` | apps/backend/src/kis/kis-order.service.ts:40-142 | Exactly when a row is written, every field of it, and exactly when the caller hears that the order was taken |
| `OrderLedger.PollsAloneAreExact` | apps/backend/src/kis/kis-order.service.ts:177-269 | Polled alone, an open row holds the largest quantity any report carried |
| `OrderLedger.ReplayedReportIsNoOp` | apps/backend/src/kis/kis-order.service.ts:177-269 | Hearing the same report twice changes and reports nothing |
| `OrderLedger.NotificationsAloneAddUp` | apps/backend/src/kis/kis-order.service.ts:145-174 | Notified alone, a row holds the sum of the notified quantities, capped at its quantity |
| `TwoChannels.RowIsRightIff` | apps/backend/src/kis/kis-order.service.ts:145-269 | For every sequence of truthful messages of both channels, in any order and however often, before the row is written and after: from then on it holds what the broker had filled when last heard of, all along, exactly when no message told of a fill before and no notification reaches it out of turn while it is open |
| `TwoChannels.LateNotificationsOnlyIff` | apps/backend/src/kis/kis-order.service.ts:145-269 | With notifications in order, exactly when no message told of a fill before the row was there and no notification reaches it, while open, after a report that included its fill |
| `TwoChannels.EarlyNotificationIsLost` | apps/backend/src/kis/kis-order.service.ts:148-162 | A fill notified before its row is written is dropped: the row stays open with 7 of 10 when nothing is left |
| `TwoChannels.MixedChannelsCountTwice` | apps/backend/src/kis/kis-order.service.ts:164-166 | A fill that was polled is counted again by its late notification, and a later report hides it |
| `TwoChannels.AmountIsWorth` | apps/backend/src/kis/kis-order.service.ts:271-310 | In every run of both channels the row books what its executions are worth at their recorded prices within half a won each, and exactly that where each is a whole number of won |
| `TwoChannels.NotifiedAmount` | apps/backend/src/kis/kis-order.service.ts:145-174 | Notified alone, a row books the sum of price times applied quantity, read from the notifications, within half a won for each execution |
| `TwoChannels.WorthIsDrifted` | apps/backend/src/kis/kis-order.service.ts:202-205 | That worth is all shares at the last recorded price, less what the price moved on the shares recorded before |
| `TwoChannels.PolledAmountIff` | apps/backend/src/kis/kis-order.service.ts:197-269 | After any run and a report that adds shares, the quantity is the reported one and the amount the reported total less the drift of the prices: without rounding it is the total exactly when the drift is zero |
| `TwoChannels.PolledAmountFallsShort` | apps/backend/src/kis/kis-order.service.ts:249-254 | Polled at 3 shares for 300 won and at 6 for 660, a row books 630 |
| `OrderLedger.FindOpen` | apps/backend/src/kis/kis-order.service.ts:148-162 | The newest open row with an order number, or none if there is none |
| `OrderService.TradeHistory.ApplyExecutionToHistory` | apps/backend/src/kis/kis-order.service.ts:271-310 | The row object after an execution, and what is returned, are the specified ones |
| `OrderService.TradeHistory.ApplyPolledOrder` | apps/backend/src/kis/kis-order.service.ts:197-269 | The row object after a report, branch by branch |
| `OrderService.KisOrderService.FindOpenRow` | apps/backend/src/kis/kis-order.service.ts:148-162 | The loop finds the newest open row with an order number |
| `OrderService.KisOrderService.OrderCash` | apps/backend/src/kis/kis-order.service.ts:40-142 | One row is written whatever the broker answers, none if that write fails, which changes no answer, and none for a request the service rejects itself or cannot prepare |
| `OrderService.KisOrderService.SaveHistory` | apps/backend/src/kis/kis-order.service.ts:482-522 | The history after a write: one row more, or as before if it fails |
| `OrderService.KisOrderService.RecordExecutionNotification` | apps/backend/src/kis/kis-order.service.ts:145-174 | The whole history after a notification: one row changed, or none |
| `OrderService.KisOrderService.RecordPolledOrderExecution` | apps/backend/src/kis/kis-order.service.ts:177-269 | The whole history after a poll: one row changed, or none |
| `OrderService.KisOrderService.MarkOrderRejected` | apps/backend/src/kis/kis-order.service.ts:313-340 | The whole history after a rejection, and which row it was |
| `OrderService.TradeHistory.constructor` | apps/backend/src/kis/entities/trade-history.entity.ts:23-108 | A new row has no fill |
| `TradingService.AutoTradingService.FindOpenOrder` | apps/backend/src/auto-trading/auto-trading.service.ts:658-671 | True exactly when a row of this user and stock is open |
| `TradingService.AutoTradingService.RequestedBuyQty` | apps/backend/src/auto-trading/auto-trading.service.ts:2213-2255 | Guards and budget arithmetic of an automatic buy, on the session object |
| `TradingService.AutoTradingService.ExecuteBuy` | apps/backend/src/auto-trading/auto-trading.service.ts:2185-2328 | The history after an automatic buy, with every reason not to buy |
| `TradingService.AutoTradingService.SubmitBuy` | apps/backend/src/auto-trading/auto-trading.service.ts:2255-2328 | The limit buy sent, of no more than the broker allows |
| `TradingService.AutoTradingService.ExecuteImmediateBuy` | apps/backend/src/auto-trading/auto-trading.service.ts:2334-2456 | The history after an immediate market buy |
| `TradingService.AutoTradingService.ExecuteSell` | apps/backend/src/auto-trading/auto-trading.service.ts:2459-2574 | Session and history after an automatic sell; the in-flight lock is as before, and a session that holds it sells nothing |
| `TradingService.AutoTradingService.SubmitSell` | apps/backend/src/auto-trading/auto-trading.service.ts:2507-2570 | The sell order sent and the pending flag raised exactly when the broker takes it |
| `TradingService.AutoTradingService.ExecuteManualOrder` | apps/backend/src/auto-trading/auto-trading.service.ts:3480-3604 | The history and the error after an order by hand, for each conflict |
| `TradingService.AutoTradingService.CheckManualOrder` | apps/backend/src/auto-trading/auto-trading.service.ts:3487-3524 | Which conflict forbids an order by hand |
| `TradingService.AutoTradingService.SubmitWithinBroker` | apps/backend/src/auto-trading/auto-trading.service.ts:3526-3604 | The history and the error after the checks: a buy cut to what the broker allows, a sell as it is |
| `TradingService.AutoTradingService.ApplyConfirmedOrderExecution` | apps/backend/src/auto-trading/auto-trading.service.ts:2576-2691 | A recorded execution changes its session and no other |
| `TradingService.AutoTradingService.HandleOrderNotification` | apps/backend/src/auto-trading/auto-trading.service.ts:2693-2726 | Both ledgers after a notification of a rejection or an execution |
| `TradingService.AutoTradingService.RejectOrder` | apps/backend/src/auto-trading/auto-trading.service.ts:2693-2712 | A rejected sell is closed and its session may sell again |
| `TradingService.AutoTradingService.PollOrderExecution` | apps/backend/src/auto-trading/auto-trading.service.ts:779-859 | Both ledgers after a poll |
| `TradingService.AutoTradingService.EvaluateAndExecuteSell` | apps/backend/src/auto-trading/auto-trading.service.ts:2971-3141 | Session and history after a price is evaluated: the peak follows, and at most one exit is taken |
| `TradingService.AutoTradingService.DecideExit` | apps/backend/src/auto-trading/auto-trading.service.ts:2974-2992 | Which exit is due, against the peak that already counts this price |
| `TradingService.AutoTradingService.ChooseExit` | apps/backend/src/auto-trading/auto-trading.service.ts:2994-3141 | The exit ladder, branch by branch |
| `ExitLadder.ProtectionIsClosedDownward` | apps/backend/src/auto-trading/auto-trading.service.ts:2994-3128 | A price at which stop loss, break-even or trailing stop acts: at every lower price one of them acts, too, though the peak may differ |
| `ExitLadder.ProfitIsClosedUpward` | apps/backend/src/auto-trading/auto-trading.service.ts:3018-3077 | A price at which profit is taken: at every higher price it is taken, too |
| `ExitLadder.StopLossIsNeverDeferred` | apps/backend/src/auto-trading/auto-trading.service.ts:1110-1138 | Only the first target, break-even and trailing stops are put off while trading is interrupted; stop losses never |
| `ExitLadder.ExitsSellAllOrAPart` | apps/backend/src/auto-trading/auto-trading.service.ts:3036-3062 | Every exit sells the whole holding, or a first part that leaves at least two shares, and pauses the session exactly when it sells all |
| `ExitLadder.FirstTargetLeavesNoDust` | libs/strategies/src/utils/scale-out.ts:74-89 | The first scale-out sells the whole shares in 33 percent of the holding, nothing exactly at two or three shares, and never leaves one |
| `ExitLadder.EvaluationIsDeskSteps` | apps/backend/src/auto-trading/auto-trading.service.ts:2971-3141 | An evaluation is one look at the price and at most one automatic sell, so the results about runs cover it |
| `ExitLadder.DecisionIs` | apps/backend/src/auto-trading/auto-trading.service.ts:2971-3141 | Every decision at a price is the first exit that is due, each written out without percentages: stop loss, first target, profit, break-even after a peak, trailing stop, holding time; with its way to leave, a limit for an interrupted stop loss included |
| `SellLock.RunKeepsSafe` | apps/backend/src/auto-trading/auto-trading.service.ts:2459-2574 | Lock, calls and rows agree after every interleaving |
| `SellLock.OneCallPerLock` | apps/backend/src/auto-trading/auto-trading.service.ts:2478-2489 | With any number of callers interleaved at every await: one call per session between lock and release, and no lock without its call |
| `SellLock.HoldingFollows` | apps/backend/src/auto-trading/auto-trading.service.ts:2606-2666 | At every step the holding of a session moves only by an execution recorded for it, by what is left of the order at most and down to zero at most, or by a synchronisation while the session is not locked |
| `SellLock.FlagFollows` | apps/backend/src/auto-trading/auto-trading.service.ts:2536-2570 | At every step the pending flag of a session is raised only by its own taken order that pauses it, or from outside, and cleared only from outside |
| `SellRefinement.LoneSellIsInOnePiece` | apps/backend/src/auto-trading/auto-trading.service.ts:2459-2574 | Left alone, the sell split at its awaits ends in the same rows, holdings and flags as the sell in one piece, whatever is answered and whether or not the row is written |
| `SellRefinement.FillIsExecution` | apps/backend/src/auto-trading/auto-trading.service.ts:2576-2666 | A fill of the split model moves row and holding as an execution moves those of the history and the session |
| `LiveSells.NeverTwoSellsIff` | apps/backend/src/auto-trading/auto-trading.service.ts:2459-2574 | In every interleaving a session has at most one automatic sell at the broker all along exactly when none is sent while an order is live of which a step lost sight: a failed history write, a lost reply, or its row closed early |
| `LiveSells.OneLiveIffNoStray` | apps/backend/src/auto-trading/auto-trading.service.ts:2492-2501 | The same, seen from the state: at most one live sell all along exactly when none is sent past a live order that neither an open row nor a running call shows |
| `LiveSells.SendIsAloneIff` | apps/backend/src/auto-trading/auto-trading.service.ts:2507-2533 | A sell that is sent is the only live one of its session exactly when there is no such order |
| `LiveSells.AllButOneAreStrays` | apps/backend/src/auto-trading/auto-trading.service.ts:2459-2574 | In every interleaving, of all live sells of a session at most one is shown by a row or a call |
| `LiveSells.BecomesStrayIff` | apps/backend/src/kis/kis-order.service.ts:78-141 | Exactly which steps make a live sell invisible |
| `LiveSells.StrayIff` | apps/backend/src/kis/kis-order.service.ts:78-141 | In every run an order is live and invisible exactly when such a step met it and the broker has not ended it |
| `LiveSells.LiveUntilEnded` | apps/backend/src/auto-trading/auto-trading.service.ts:2507-2533 | In every run a sell is live from when it is sent until the broker ends it, read off the events |
| `LiveSells.LoneSell` | apps/backend/src/auto-trading/auto-trading.service.ts:2465-2573 | The whole state after a sell left alone: one order more, its row, open after a good reply and failed without one, or none if the write fails, and the pending flag raised exactly by a good reply to a sell that pauses |
| `LiveSells.SecondSellGoesThroughIff` | apps/backend/src/auto-trading/auto-trading.service.ts:2465-2573 | Of two sells one after the other both are live exactly when the first had no good reply, or was taken, not written down and does not pause its session |
| `LiveSells.RearmedSessionSellsAgain` | apps/backend/src/auto-trading/auto-trading.service.ts:1810-1825 | A whole sell that was taken and not written down raises the flag; armed again, the session sells the same shares a second time |
| `SellCover.SellIsCoveredIff` | apps/backend/src/auto-trading/auto-trading.service.ts:2465-2489 | At every moment of a call, its lookup and its request among them: the session still holds its quantity exactly when what rows open at its entry, or placed since, sold, less what they bought and less the shares by which a fill was larger than the holding, is no more than the sell leaves; without buys, exactly when they sold no more than that |
| `SellCover.WholeSellIsCoveredIff` | apps/backend/src/auto-trading/auto-trading.service.ts:2465-2489 | A sell of everything, while nothing is bought: exactly when no sell row of the session that was open then, or was placed since, has filled |
| `SellCover.UndisturbedSellIsCovered` | apps/backend/src/auto-trading/auto-trading.service.ts:2465-2489 | With no row of the session open at entry and none placed since, the shares are held |
| `SellCover.EnteringTakesFromHolding` | apps/backend/src/auto-trading/auto-trading.service.ts:2465-2478 | A call that enters asks for shares the session holds, by default for all of them |
| `SellCover.SellByHandInBetweenOversells` | apps/backend/src/auto-trading/auto-trading.service.ts:2465-2501 | A sell by hand that fills between entry and lookup leaves an automatic sell of shares no longer held |
| `ScanLock.ClaimedAtMostOnce` | apps/backend/src/auto-trading/scheduled-scanner.service.ts:606-645 | However often and to whomever a result is delivered, each request is claimed at most once |
| `ScanLock.ClaimIsForLastAcquire` | apps/backend/src/auto-trading/scheduled-scanner.service.ts:606-645 | A successful claim is for the most recently acquired request |
| `ScanLock.ReleasedIsNeverClaimed` | apps/backend/src/auto-trading/scheduled-scanner.service.ts:1151-1173 | A released request can never be claimed |
| `ScanLock.SupersededReleaseIsNoOp` | apps/backend/src/auto-trading/scheduled-scanner.service.ts:1151-1173 | A release for a request that a later acquire replaced changes nothing |
| `ScanLock.AcquiresAreApart` | apps/backend/src/auto-trading/scheduled-scanner.service.ts:1135-1149 | Two acquires within the lock time need a release in between |
| `ScanLock.RowNamesLastAcquire` | apps/backend/src/auto-trading/scheduled-scanner.service.ts:1135-1173 | The row always names the request of the last successful acquire |
| `ScanLock.SucceedsIff` | apps/backend/src/auto-trading/scheduled-scanner.service.ts:1135-1173 | In every run an acquire succeeds exactly when nothing was ever locked or the time of the lock has come, and a release exactly when it names the owner, both read off the events before |
| `ScanLock.ClaimSucceedsIff` | apps/backend/src/auto-trading/scheduled-scanner.service.ts:606-645 | In every run a claim succeeds exactly when it is for the last request acquired and no claim or release of it succeeded since; time plays no part |
| `ScanLock.LateClaimSucceeds` | apps/backend/src/auto-trading/scheduled-scanner.service.ts:606-645 | Such a run: a request claimed after it expired |
| `Diversification.FilterCandidates` | apps/backend/src/auto-trading/scheduled-scanner.service.ts:743-779 | The loop with its running counts keeps exactly the candidates of the specification that counts anew |
| `Diversification.KeepsOrder` | apps/backend/src/auto-trading/scheduled-scanner.service.ts:743-779 | The result is a subsequence in the original order without active stocks |
| `Diversification.CapsHold` | apps/backend/src/auto-trading/scheduled-scanner.service.ts:743-779 | Slots, sectors and clusters stay within their caps, or within what the active sessions already use |
| `Diversification.NothingMoreFits` | apps/backend/src/auto-trading/scheduled-scanner.service.ts:743-779 | Any candidate left out that is not active breaks a cap even when appended at the end |
| `Diversification.LeftOutBecause` | apps/backend/src/auto-trading/scheduled-scanner.service.ts:743-779 | A candidate left out that is not active: active and kept have reached the holdings allowed, or its sector has reached four with the active ones, or, with the gate on, its cluster has reached its cap |
| `Diversification.EarlierWins` | apps/backend/src/auto-trading/scheduled-scanner.service.ts:743-779 | Further candidates never displace one that was kept |
| `WeightedSplit.Weights` | apps/backend/src/auto-trading/scheduled-scanner.service.ts:1035-1054 | Every weight lies between 0.5 and 2 and is the clamped inverse volatility over the mean |
| `WeightedSplit.WeightIs` | apps/backend/src/auto-trading/scheduled-scanner.service.ts:1035-1054 | A weight strictly between its bounds times its volatility times the sum of the inverses is the number of candidates n; it is 2 exactly when n is at least twice that product, and 0.5 exactly when it is at most half of it |
| `WeightedSplit.CalmerWeighsMore` | apps/backend/src/auto-trading/scheduled-scanner.service.ts:1035-1054 | Of two candidates whose weights are strictly between the bounds the calmer weighs strictly more, in inverse proportion |
| `WeightedSplit.VolatilityIs` | apps/backend/src/auto-trading/scheduled-scanner.service.ts:1035-1046 | An unknown volatility counts as three percent, one below a half as a half, any other as it is |
| `WeightedSplit.AmountsAreExact` | apps/backend/src/auto-trading/scheduled-scanner.service.ts:1056-1067 | The amounts add up to the whole won of the budget |
| `WeightedSplit.LastTakesRemainder` | apps/backend/src/auto-trading/scheduled-scanner.service.ts:1056-1067 | The last amount is at least its share and at most n - 1 won more |
| `WeightedSplit.AmountIsShare` | apps/backend/src/auto-trading/scheduled-scanner.service.ts:1056-1067 | Everyone but the last gets the whole won in the part of the budget that its weight is of all weights |
| `WeightedSplit.AmountsAreNonNegative` | apps/backend/src/auto-trading/scheduled-scanner.service.ts:1056-1067 | No amount is negative, for any fraction of a won in the budget |
| `WeightedSplit.EveryoneGetsAPart` | apps/backend/src/auto-trading/scheduled-scanner.service.ts:1028-1068 | Everyone gets at least one part in 4n - 3 of the budget |
| `WeightedSplit.CalmerGetsNoLess` | apps/backend/src/auto-trading/scheduled-scanner.service.ts:1028-1068 | Among all but the last, lower volatility never gets less |
| `Allocation.ComputeWeights` | apps/backend/src/auto-trading/scheduled-scanner.service.ts:1035-1054 | The loop computes the specified weights |
| `Allocation.SpreadByWeights` | apps/backend/src/auto-trading/scheduled-scanner.service.ts:1056-1067 | The loop with its running remainder fills the map with the specified amounts |
| `Allocation.ComputeVolatilityWeightedInvestments` | apps/backend/src/auto-trading/scheduled-scanner.service.ts:1028-1068 | Each code gets its amount; nobody gets anything without a budget |
| `Allocation.ReserveMinimums` | apps/backend/src/auto-trading/scheduled-scanner.service.ts:1082-1108 | The first pass selects, skips and reserves as specified |
| `Allocation.ComputeAffordableInvestments` | apps/backend/src/auto-trading/scheduled-scanner.service.ts:1074-1133 | Selection, skipped codes and the map of investments |
| `Allocation.InvestmentsAreInTheMap` | apps/backend/src/auto-trading/scheduled-scanner.service.ts:1112-1132 | With distinct codes the map holds exactly each selected candidate's reservation plus its part of the rest |
| `Allocation.SkippedDoNotFit` | apps/backend/src/auto-trading/scheduled-scanner.service.ts:1082-1108 | No skipped candidate fits into what is left after the reservations |
| `Allocation.MinimumIsLeast` | apps/backend/src/auto-trading/scheduled-scanner.service.ts:1074-1108 | The minimum is the least that buys: with risk sizing off, the automatic buy of a session opened with an amount asks for a share exactly from the minimum on |
| `Allocation.NoPriceNoMinimum` | apps/backend/src/auto-trading/scheduled-scanner.service.ts:1074-1108 | Without a known price nothing is reserved |
| `Allocation.ReserveServesInOrder` | apps/backend/src/auto-trading/scheduled-scanner.service.ts:1082-1108 | Candidates are served in order while their minimum fits into what the ones before left; the others are skipped and take nothing |
| `Allocation.ExtraIsAmount` | apps/backend/src/auto-trading/scheduled-scanner.service.ts:1110-1132 | Each selected candidate gets its reservation plus its amount of the rest, split by weight |
| `Allocation.AllocationIsExact` | apps/backend/src/auto-trading/scheduled-scanner.service.ts:1082-1132 | With anyone selected, the investments of the selected list use up the budget to the won and cover every reservation |
| `Allocation.AllocationBuysOneShare` | apps/backend/src/auto-trading/scheduled-scanner.service.ts:1074-1133 | Each selected candidate with a known price gets enough for the automatic buy from a flat session to ask for a share |
| `Candles.TrackerAgreesWithGrouping` | apps/backend/src/auto-trading/intraday-scalping.ts:93-155 | For every sequence of ticks of a stock, completed candles and the current one are the last maxCandles + 1 per-minute groups (first, highest, lowest, last, total volume) of the regular ticks since the last day reset |
| `Candles.LatestIsLastKept` | apps/backend/src/auto-trading/intraday-scalping.ts:109-155 | For every sequence of ticks the latest tick and its time of receipt are those of the last one that counted, halted ones included |
| `Candles.AlwaysOrdered` | apps/backend/src/auto-trading/intraday-scalping.ts:109-154 | In every reachable state completed minutes strictly increase below the current one, which is never after the last time seen |
| `Candles.LateMinuteIsUnreachable` | apps/backend/src/auto-trading/intraday-scalping.ts:140-147 | The branch for a minute before the current one is never reached |
| `Candles.CompletedIsNeverRepainted` | apps/backend/src/auto-trading/intraday-scalping.ts:134-139 | A completed candle stays as it is and leaves only at the front or by a day reset |
| `Candles.NewDayIff` | apps/backend/src/auto-trading/intraday-scalping.ts:111-123 | Exactly when a time that goes back begins a new day |
| `Candles.EarlyTickAfterHaltIsIgnored` | apps/backend/src/auto-trading/intraday-scalping.ts:109-132 | Such a day: after a halted tick at 15:00 a regular one at 09:00 changes nothing |
| `Candles.UpdateSummarizes` | apps/backend/src/auto-trading/intraday-scalping.ts:283-293 | An updated candle summarizes one more tick of its minute |
| `Candles.CreateSummarizes` | apps/backend/src/auto-trading/intraday-scalping.ts:267-281 | A new candle summarizes its one tick |
| `Clock.TextOrderIsTimeOrder` | apps/backend/src/auto-trading/intraday-scalping.ts:111-115 | Comparing two readable times as strings compares the times |
| `Clock.ReadTimeIff` | apps/backend/src/auto-trading/intraday-scalping.ts:295-315 | Exactly which texts are times, six digits with an hour below 24 and minutes and seconds below 60, and which time each is |
| `Clock.BeforeIff` | apps/backend/src/auto-trading/intraday-scalping.ts:111-115 | Strings compare by their first difference |
| `CandleTracker.IntradayScalpingTracker.Record` | apps/backend/src/auto-trading/intraday-scalping.ts:93-155 | The states of all stocks after an execution: one changed as specified, or none |
| `CandleTracker.IntradayStockState.Take` | apps/backend/src/auto-trading/intraday-scalping.ts:109-154 | The state object after an execution, changed in place |
| `CandleTracker.IntradayStockState.Rewind` | apps/backend/src/auto-trading/intraday-scalping.ts:109-123 | Which executions are late, and the day reset |
| `CandleTracker.IntradayScalpingTracker.ClearStock` | apps/backend/src/auto-trading/intraday-scalping.ts:254-256 | One stock is forgotten, no other |
| `CandleTracker.IntradayScalpingTracker.ClearAll` | apps/backend/src/auto-trading/intraday-scalping.ts:258-260 | All stocks are forgotten |
| `CandleTracker.IntradayScalpingTracker.GetCompletedCandles` | apps/backend/src/auto-trading/intraday-scalping.ts:262-264 | The completed candles of a stock; none if it is unknown |
| `CandleTracker.StocksAreIndependent` | apps/backend/src/auto-trading/intraday-scalping.ts:105-107 | In a stream of many stocks each one ends as with its own ticks alone |
| `Scalping.HaltStopsBuying` | apps/backend/src/auto-trading/intraday-scalping.ts:125-132 | A halted or off-session tick stops buying at once, unless it is late and changes nothing |
| `Scalping.DecidesByFirstReason` | apps/backend/src/auto-trading/intraday-scalping.ts:157-252 | It buys exactly when nothing speaks against it, spread, premium, averages, closes and volume compared without a division, and otherwise refuses for the first thing that does |
| `Scalping.EntryReports` | apps/backend/src/auto-trading/intraday-scalping.ts:157-252 | What a decision to buy reports: averages, volume ratio, spread, premium and the number of confirmations of the candles it looked at |
| `Scalping.EnteringNeedsFinishedMinutes` | apps/backend/src/auto-trading/intraday-scalping.ts:157-184 | Buying needs the full number of finished minutes since the day reset besides the current one; a tracker that keeps fewer never buys |
| `Scalping.CompletedCount` | apps/backend/src/auto-trading/intraday-scalping.ts:134-139 | How many candles are completed after any sequence of ticks |
| `Scalping.SpreadPct` | apps/backend/src/auto-trading/intraday-scalping.ts:192-201 | The spread is between 0 and 200 percent |
| `TokenBucket.RunKeepsSane` | apps/backend/src/kis/kis-rate-limiter.service.ts:37-78 | In every run tokens stay between 0 and capacity, nobody waits beside a token, grants are in request order, and after a shutdown each request was settled exactly once |
| `TokenBucket.WindowBound` | apps/backend/src/kis/kis-rate-limiter.service.ts:63-78 | Any window of a run with k refills grants at most the tokens held plus k times the rate, hence capacity plus that |
| `TokenBucket.WindowInsideRun` | apps/backend/src/kis/kis-rate-limiter.service.ts:37-78 | Inside any run from a full bucket, a window with k refills grants at most the capacity plus k times the rate |
| `TokenBucket.WaitIsBounded` | apps/backend/src/kis/kis-rate-limiter.service.ts:63-78 | The j-th waiter is granted within ceil(j / min(capacity, rate)) refills, whatever comes in between |
| `TokenBucket.WaitersAreServed` | apps/backend/src/kis/kis-rate-limiter.service.ts:63-78 | Each refill grants min(capacity, rate) more of those waiting, or all |
| `TokenBucket.StepGrants` | apps/backend/src/kis/kis-rate-limiter.service.ts:37-78 | One step of an open limiter grants as many of those wanting as there are tokens, after a refill up to the capacity, and uses one token for each |
| `TokenBucket.Starvation` | apps/backend/src/kis/kis-rate-limiter.service.ts:63-78 | With a rate or capacity of 0 who waits waits for ever |
| `TokenBucket.RefillsGrantIff` | apps/backend/src/kis/kis-rate-limiter.service.ts:63-78 | Refills ever grant the first waiter exactly when rate and capacity are positive |
| `TokenBucket.ServesIff` | apps/backend/src/kis/kis-rate-limiter.service.ts:80-89 | The configured limiter serves its waiters exactly when neither setting is a number between 0 and 1 |
| `TokenBucket.FastPathIsSlowPath` | apps/backend/src/kis/kis-rate-limiter.service.ts:42-50 | Granting at once is what queueing would have done |
| `TokenBucket.ClosedStaysClosed` | apps/backend/src/kis/kis-rate-limiter.service.ts:53-61 | After a shutdown nothing is granted, nobody waits and no token is used |
| `RateLimiters.KisRateLimiterService.constructor` | apps/backend/src/kis/kis-rate-limiter.service.ts:20-29 | A new limiter is full, with the configured rate and capacity |
| `RateLimiters.KisRateLimiterService.Acquire` | apps/backend/src/kis/kis-rate-limiter.service.ts:37-51 | The whole state after a request |
| `RateLimiters.KisRateLimiterService.OnModuleDestroy` | apps/backend/src/kis/kis-rate-limiter.service.ts:53-61 | The whole state after a shutdown: everyone waiting is rejected in order |
| `RateLimiters.KisRateLimiterService.RefillTokens` | apps/backend/src/kis/kis-rate-limiter.service.ts:63-70 | The whole state after a refill |
| `RateLimiters.KisRateLimiterService.DrainQueue` | apps/backend/src/kis/kis-rate-limiter.service.ts:72-78 | The loop grants as many waiters as there are tokens |
| `RateLimiters.GroupIsOneBucket` | apps/backend/src/kis/toss-rate-limiter.service.ts:65-117 | Each group behaves as a limiter of its own whose refills fill it up, whenever its bucket was made |
| `RateLimiters.ServiceIsSane` | apps/backend/src/kis/toss-rate-limiter.service.ts:65-117 | In every run each group keeps the range, the order and the single settlement of its requests |
| `RateLimiters.GroupWindowBound` | apps/backend/src/kis/toss-rate-limiter.service.ts:65-117 | A window with k refills grants a group at most (k + 1) times its limit |
| `RateLimiters.TossRateLimiterService.GetBucket` | apps/backend/src/kis/toss-rate-limiter.service.ts:94-102 | A bucket made on demand is full; no other group changes |
| `RateLimiters.TossRateLimiterService.Acquire` | apps/backend/src/kis/toss-rate-limiter.service.ts:65-80 | Every group's bucket after a request for one group |
| `RateLimiters.TossRateLimiterService.RefillAll` | apps/backend/src/kis/toss-rate-limiter.service.ts:104-110 | Every group's bucket after the refill loop |
| `RateLimiters.TossRateLimiterService.OnModuleDestroy` | apps/backend/src/kis/toss-rate-limiter.service.ts:82-92 | Every group's bucket after the shutdown loop |
| `RateLimiters.TossBucket.Take` | apps/backend/src/kis/toss-rate-limiter.service.ts:70-79 | One bucket object after a request |
| `RateLimiters.TossBucket.Drain` | apps/backend/src/kis/toss-rate-limiter.service.ts:112-117 | The drain loop of one bucket object |
| `TossClient.OneTokenRequestAtATime` | apps/backend/src/kis/toss.service.ts:101-123 | In every interleaving at most one token request is outstanding |
| `TossClient.DroppedOnlyByItsOwn401` | apps/backend/src/kis/toss.service.ts:181-227 | A cached token is dropped exactly by the first 401 on a data request that used this very token |
| `TossClient.ReplacedOnlyByAnIssue` | apps/backend/src/kis/toss.service.ts:125-150 | A cached token is replaced only by a token request that succeeds |
| `TossClient.TokensAreIssued` | apps/backend/src/kis/toss.service.ts:101-216 | In every interleaving the cached token and every token a request holds or used was issued by a token request |
| `TossClient.SucceedsOnlyByData` | apps/backend/src/kis/toss.service.ts:181-216 | A request succeeds exactly when its data request is answered with data |
| `TossClient.AtMostTwoDataRequests` | apps/backend/src/kis/toss.service.ts:181-216 | Every request makes at most two data requests, in every interleaving |
| `TossClient.CallFollows` | apps/backend/src/kis/toss.service.ts:101-216 | Through every step each call goes its own way: only its own answers, the token request it waits for and the cache at the time it asks move it, a 401 of a first attempt asks again, and only a get adds a call |
| `TossClient.IssueFollows` | apps/backend/src/kis/toss.service.ts:101-175 | Through every step a token request ends at most once and as its answer says, stays in flight from its start until it is given up after that, and none starts while one is in flight |
| `TossClient.GetAsks` | apps/backend/src/kis/toss.service.ts:181-204 | A get adds one call, which asks for a token at once: it holds the one cached, waits for the request in flight or its own, or fails |
| `TossClient.TimeFollows` | apps/backend/src/kis/toss.service.ts:101-123 | Only waiting passes time |
| `TossClient.TokenIsUsedFor` | apps/backend/src/kis/toss.service.ts:101-152 | A token is used exactly from its issue until a minute before it expires, and never if it is empty |
| `TossClient.BreakerSpacesTokenRequests` | apps/backend/src/kis/toss.service.ts:101-175 | In every interleaving the breaker counts the failures since the last success and is open for a minute after each from the third on, and only then; so every token request from the third failure on starts at least a minute after the failure before it |
| `TossClient.StepStartsIff` | apps/backend/src/kis/toss.service.ts:101-123 | A step starts a token request for a call exactly when that call asks, for the first time or after a 401, and nothing is cached, in flight or shut off |
| `TossClient.TwoTokenRequestsIff` | apps/backend/src/kis/toss.service.ts:181-216 | In every interleaving a call starts at most two token requests, and two exactly when its first ask and its ask after a 401 both have to make one |
| `TossClient.RefusedCredentialsCountTwice` | apps/backend/src/kis/toss.service.ts:205-213 | Such a run: one call with refused credentials makes two token requests and counts two failures |
| `TossClient.TossService.GetAccessToken` | apps/backend/src/kis/toss.service.ts:101-123 | The fields and the answer of asking for a token, up to its first await |
| `TossClient.TossService.KeepToken` | apps/backend/src/kis/toss.service.ts:143-152 | The fields after a token was issued |
| `TossClient.TossService.RecordAuthFailure` | apps/backend/src/kis/toss.service.ts:164-175 | The fields after a failure; the third opens the breaker |
| `TossClient.TossService.InvalidateToken` | apps/backend/src/kis/toss.service.ts:222-227 | Only the token that is still cached is cleared |
| `Indicators.CalculateSMA` | libs/strategies/src/indicators/technical-indicators.ts:4-18 | Every entry is the average of its window, none before the first full window, not a number for a period of 0 |
| `Indicators.SmaIsBetween` | libs/strategies/src/indicators/technical-indicators.ts:4-18 | An average lies between the lowest and highest value of its window |
| `Indicators.SmaIs` | libs/strategies/src/indicators/technical-indicators.ts:4-18 | An average times its period is the sum of the last so many values, from the first full window on and not before |
| `Indicators.SmaPrefix` | libs/strategies/src/indicators/technical-indicators.ts:4-18 | An average looks at nothing after its entry |
| `Indicators.CalculateRSI` | libs/strategies/src/indicators/technical-indicators.ts:21-62 | Every entry is the share of gains in all movement of its window; none in the short case |
| `Indicators.StrengthOfWindow` | libs/strategies/src/indicators/technical-indicators.ts:36-58 | One entry from its window; not a number for a period of 0 |
| `Indicators.RelativeStrength` | libs/strategies/src/indicators/technical-indicators.ts:43-58 | Averages and their ratio give the share of the gains |
| `Indicators.RsiRange` | libs/strategies/src/indicators/technical-indicators.ts:43-58 | Relative strength is within 0 and 100, 100 exactly without a loss, 0 exactly with losses only |
| `Indicators.RsiIs` | libs/strategies/src/indicators/technical-indicators.ts:21-62 | Relative strength is what the prices of the window rose by in percent of all they moved, 100 if they never fell, from the first full window on and not before |
| `Indicators.RsiPrefix` | libs/strategies/src/indicators/technical-indicators.ts:21-62 | Relative strength looks at nothing after its entry, even when the prefix is too short to have any |
| `Indicators.CalculateAvgVolume` | libs/strategies/src/indicators/technical-indicators.ts:133-135 | Average volumes are averages of their windows |
| `Indicators.CountConsecutiveUpCandles` | libs/strategies/src/indicators/technical-indicators.ts:138-148 | The count is the length of the run of rising candles that ends at an entry |
| `Indicators.UpRunIsUnique` | libs/strategies/src/indicators/technical-indicators.ts:138-148 | No other number is the length of that run |
| `DayTrading.NoLookAhead` | libs/strategies/src/strategies/day-trading.strategy.ts:51-262 | For each variant, every list of candles and every prefix: the prefix alone emits exactly what the whole list emits at entries inside it |
| `DayTrading.SignalIsStable` | libs/strategies/src/strategies/day-trading.strategy.ts:51-262 | What is emitted at an entry does not change when candles are added |
| `SignalMeaning.OneCandleMore` | libs/strategies/src/strategies/day-trading.strategy.ts:51-262 | One candle more adds the signal found at it and nothing else |
| `SignalMeaning.NothingBeforeItIsFull` | libs/strategies/src/strategies/day-trading.strategy.ts:51-262 | No variant finds anything before its lookback or window is full |
| `SignalMeaning.BreakoutIff` | libs/strategies/src/strategies/day-trading.strategy.ts:61-110 | A breakout exactly when the close leaves the opening price by k ranges of the day looked back to, and that range is between half a percent and ten percent of the close; upwards it is a buy, otherwise a sale |
| `SignalMeaning.BreakoutStrengthIs` | libs/strategies/src/strategies/day-trading.strategy.ts:76-109 | A breakout is a half strong on its level, one from half a range beyond it on, and in proportion between |
| `SignalMeaning.CrossStrengthIs` | libs/strategies/src/strategies/day-trading.strategy.ts:150-190 | A cross is as strong as the averages are apart in percent of the long one, at most one |
| `SignalMeaning.CrossReports` | libs/strategies/src/strategies/day-trading.strategy.ts:150-190 | What a cross reports besides its direction |
| `SignalMeaning.SurgeIff` | libs/strategies/src/strategies/day-trading.strategy.ts:219-262 | A surge exactly when the volume reaches its multiple of the average volume, enough candles have risen in a row and the relative strength, if there is one, is below its limit; compared without a division |
| `SignalMeaning.SurgeStrengthIs` | libs/strategies/src/strategies/day-trading.strategy.ts:219-262 | A surge is as strong as half its ratio over the multiple, at most one |
| `SignalMeaning.SurgeReports` | libs/strategies/src/strategies/day-trading.strategy.ts:219-262 | What a surge reports: ratio, run and relative strength |
| `DayTrading.AnalyzeBreakout` | libs/strategies/src/strategies/day-trading.strategy.ts:51-111 | The signals of the breakout loop |
| `DayTrading.FindBreakout` | libs/strategies/src/strategies/day-trading.strategy.ts:61-110 | One turn of the breakout loop |
| `DayTrading.AnalyzeCrossover` | libs/strategies/src/strategies/day-trading.strategy.ts:138-191 | The signals of the crossover loop over two columns of averages |
| `DayTrading.AnalyzeVolumeSurge` | libs/strategies/src/strategies/day-trading.strategy.ts:219-262 | The signals of the volume loop over averages, relative strength and runs |
| `DayTrading.BreakoutStrength` | libs/strategies/src/strategies/day-trading.strategy.ts:76-109 | A breakout has a strength between a half and one |
| `DayTrading.SignalOfCross` | libs/strategies/src/strategies/day-trading.strategy.ts:150-190 | A buy is a golden cross and a sale a dead cross of the two averages |
| `DayTrading.CrossesAlternateUnlessTheyTouch` | libs/strategies/src/strategies/day-trading.strategy.ts:150-190 | After a golden cross and no dead one since, there is another exactly when the averages were equal the day before and the short one is above again |
| `DayTrading.TouchGivesTwoGoldenCrosses` | libs/strategies/src/strategies/day-trading.strategy.ts:150-190 | Five closing prices that give two golden crosses in a row |
| `Gateway.CountsAgreeIff` | apps/backend/src/kis/kis-websocket.gateway.ts:44-154 | After any run each key is counted once per client that holds it, and a key nobody holds is absent, exactly when no connection replaced an entry that held something |
| `Gateway.EveryCount` | apps/backend/src/kis/kis-websocket.gateway.ts:44-154 | After any run at all each count is the clients that hold the key plus the entries with it that a connection replaced |
| `Gateway.StraysStay` | apps/backend/src/kis/kis-websocket.gateway.ts:44-154 | What a replaced entry leaves counted never goes away |
| `Gateway.AlwaysInStepIff` | apps/backend/src/kis/kis-websocket.gateway.ts:44-154 | Over any run at all: upstream calls leave exactly the counted keys subscribed and none is idle, all along, exactly when every key that an event takes to zero is one that is taken apart as it was put together |
| `Gateway.StepInStepIff` | apps/backend/src/kis/kis-websocket.gateway.ts:49-154 | The same for one event, a disconnect that gives up many keys included |
| `Gateway.OtherKeysStay` | apps/backend/src/kis/kis-websocket.gateway.ts:145-154 | A key that is not taken apart so stays subscribed whatever is counted down |
| `Gateway.UpstreamFollowsTheCounts` | apps/backend/src/kis/kis-websocket.gateway.ts:67-154 | With stock codes without a colon this is so in every run: calls fall exactly on 0 to 1 and 1 to 0 |
| `Gateway.HoldersFollow` | apps/backend/src/kis/kis-websocket.gateway.ts:44-143 | What each event makes of the keys each client holds, by kind and environment: one it subscribes to joins, one it takes back goes, a disconnect ends all, and other clients are not touched |
| `Gateway.StepAgreesIff` | apps/backend/src/kis/kis-websocket.gateway.ts:44-154 | One event keeps the counts right exactly when it is not a connection that replaces an entry which holds something |
| `Gateway.KeyIsPlainIff` | apps/backend/src/kis/kis-websocket.gateway.ts:145-154 | A key is taken apart as it was put together exactly when the stock code has no colon |
| `Gateway.TakenBackIff` | apps/backend/src/kis/kis-websocket.gateway.ts:124-154 | A subscription taken back leaves nothing upstream exactly when its stock code has no colon |
| `Gateway.KisWebSocketGateway.HandleConnection` | apps/backend/src/kis/kis-websocket.gateway.ts:44-47 | The maps after a connection |
| `Gateway.KisWebSocketGateway.HandleDisconnect` | apps/backend/src/kis/kis-websocket.gateway.ts:49-60 | The maps and the upstream calls after a disconnect, in the order of the subscriptions |
| `Gateway.KisWebSocketGateway.HandleSubscribe` | apps/backend/src/kis/kis-websocket.gateway.ts:67-91 | The maps and the upstream call after a subscription |
| `Gateway.KisWebSocketGateway.HandleUnsubscribe` | apps/backend/src/kis/kis-websocket.gateway.ts:124-143 | The maps and the upstream call after one is taken back |
| `Gateway.KisWebSocketGateway.DecrementRef` | apps/backend/src/kis/kis-websocket.gateway.ts:145-154 | The count and the upstream call after one reference less |

## Left out

- Balance synchronisation: it overwrites the position of a session; the results about whole desks are about runs without it. The interleaved sell has it as an event that sets the holding of a session that is not locked.
- Buys at once and by hand in the budget result: the first may slip, the second is not checked against the budget; both are part of the conservation result.
- Budget.BudgetIsSafe: a change of strategy that lowers the add-on limit of a running session is outside the claim; the invested amount is fixed.
- The reconcile that clears a session waiting to be paused: it may overwrite its holding during a sell and is no event of the interleaved sell.
- An order whose history write failed: its fills find no row, so the results about whole desks say nothing about its shares.
- Allocation.AllocationBuysOneShare: with risk sizing switched off, as configured by default; RiskSizedEntryIff says when a risk-sized entry buys.
- The narrower bounds of the weights under risk sizing: a constant of the program switches them off.
- Allocation.AllocationIsExact: about the list of selected candidates; the map merges repeated codes, as the program's does, and holds that list for distinct ones.
- Rows in the interleaved sell and the scan lock row are values: identity of ORM objects, flushes and transactions are not modelled.
- Creation and deletion of sessions: sessions are given; an execution for a session that no longer exists changes the row alone.
- Pausing of a session after it sold everything: modelled as an arbitrary change of its life and pending flag.
- Interruption of trading in a stock: one flag in the decision to buy and to sell; how it is detected is not modelled, nor is the routing to a second exchange.
- Monitoring that stops and clears the sell lock: it happens when the program ends.
- Order numbers are compared as they are; padding of numbers in the order inquiry is not modelled.
- TossClient.TossService.KeepToken: the answer carries a token; an answer without one is not modelled.
- Token requests and data requests are events of the model; HTTP, headers and parameters are not.
- Current signals, summaries and indicator reports of the strategies: only the list of signals is modelled.
- Forwarding of messages to browser clients by the gateway.
- Rounding of floating-point numbers: all arithmetic is exact; values that are not finite are optional values where the program checks for them.
- Conversion of time zones and trading calendars: the age of a position is a flag.
- The identity of candle objects: a candle is a value, and that a completed one is never modified is stated as its value staying the same.
- Choice of strategies, scoring, notifications, controllers, the frontend and persistence: no hard property.
