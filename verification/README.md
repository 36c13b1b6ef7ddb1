# A Dafny model of the trading system's ledger, backtest and indicators

The system is a set of agents that trade crypto pairs. A decision agent proposes, a risk agent approves
and reserves capital, an execution agent fills orders at a (paper) broker and reports back, and a
stop-loss monitor closes positions on its own. Beside it stands a backtest that replays the same
strategy over history, a walk-forward model retrained on past bars, and the indicator code both share.
This project models the code that decides money and time, and proves what it promises over every run.

* **Ledger protocol.** `Money`, `Trading`, `RecentIds` hold rounding, the trade records and the bounded
  memories. `PaperBroker` and `BrokerRuns` are the broker and its runs, and `BrokerFills` what an order costs
  and a close pays; `Ledger`, `RiskAgent` and `RiskRuns` are the risk side, and `RiskLimits` its verdicts and
  sizes; `ExecutionAgent` is the routing between them. `Protocol` joins both replicas of the portfolio by two
  FIFO channels and proves that they agree; `OverlapCounterexample` shows that the scheduling hypothesis is
  needed and `OverlapExact` which overlapping approvals are harmless. `Mt5Bridge` is the command and result
  protocol with the terminal, and `Mt5Endings` how each wait ends.
* **Backtest.** `Engine`, `EngineRuns`, `EngineTrades` and `EngineCosts` are the replay loop, its accounting
  and causality, its trades and its costs; `Labels`, `WalkForward`, `WalkForwardTraining` and
  `WalkForwardRuns` the retrained model, what it learns from, and the proof that it never looks ahead;
  `Metrics` the drawdown loop.
* **Indicators and features.** `Series`, `FeatureIndicators` and `NumpyIndicators` are the two
  implementations of EMA, MACD and ATR with their NaN prefixes; `Features` and `FeatureTables` the thirty
  columns, the training matrix and the live vector. `IndicatorMeanings`, `FeatureColumns` and `EmaCrossings`
  say what indicators, columns and the crossover signal measure.
* **Market data.** `Market`, `CandleBuffer` and `Normalizer` carry candles from a poll to the buffer;
  `PublishedCandles` says which of them are published.

Objects whose methods update fields are classes; each method is proved against a specification function
of the old state, and the results over runs are lemmas about those functions. Where a specification
function decides an amount, a class or a verdict, a lemma states it again without that function, in prices,
sizes, labels and events. To verify the project, use `dafny verify dfyconfig.toml`.

Money is an exact `real` number of dollars with the quantisations written out (`Down8`, `DownCents`,
`HalfEven`), so the results cover inputs with any number of digits. Prices, equity and indicators of the
backtest are reals. Uuids, clocks, random draws, prices, XGBoost, calibration, square root, logarithm
and sine are parameters: any deterministic function, any value.

## What the hypotheses are

The replicas agree under these scheduling hypotheses (`Protocol.Scheduled`): the channels are FIFO and
lose nothing; a broker mutation and the publication of its result are one step; nothing restarts;
proposal ids are new; and a symbol is approved only while it is settled, that is, while every assessment
of it still unresolved is for the side the ledger shows. So a flat symbol is opened only when nothing of
it is under way, a held one may be closed while its own opening is, and proposals that are vetoed may
repeat at any time. The monitor may close any position at any moment and any price, an override may halt
the risk agent at any time, and a result may be delivered again while fewer than 1,000 new ones have been.

Two of these are shown to matter. `OverlapBreaksAgreement` is a run with one unsettled approval that ends
with a position only the ledger has, and `ApprovalHarmlessIff` says of every approval exactly when it leaves
agreement safe whatever execution and the monitor do next; `CloseHarmlessIff` and `ReservationHarmlessIff`
spell that out for closes and for a symbol with nothing in flight. `SkipHarmlessIff` says exactly which
assessments a halted execution agent may drop, and `DroppedReservationDiverges` drops another one.

## Where the code and its documentation differ

* The broker's docstring (agents/execution/paper_broker.py:22-24) says realised PnL is net of both fees.
  That holds exactly for longs and for shorts of less than 10 USD, whose fee truncates to zero; any other
  short is net of the exit fee only, because the cost basis returned contains the entry fee
  (`RealizedIsNetOf`). The audit fold of the fills therefore equals the cash change exactly when no short of
  10 USD or more was opened (`AuditMatchesCash`). `ShortRoundTripDiffers` is a round trip with both gaps.
* The minimum-order rejection of the risk agent cannot be reached (`NeverTooSmall`), and the minimum order
  can exceed the per-position cap (`PositionCapExceededIff`), as it does for any new portfolio of less than
  500 USD under the default limits (`SmallPortfolioExceedsCap`).
* Cancelling the coroutine that waits for an MT5 command leaves its future in the table until the terminal
  answers (`TableIsUnresolvedIff`, `CancelLeaks`); a command that timed out is still delivered later
  (`TimeoutsRecallNothing`, `TimedOutIsDelivered`).
* The drawdown loop returns the largest peak-to-trough pair on equity that is never negative, and otherwise
  exactly when every negative bar is outweighed by a fall from a running maximum (`PairwiseIff`).
* The gap check's docstring (agents/market_data/normalizer.py:223-224) says two intervals; the code counts a
  gap from one and a half (`GapsAreCounted`).
* The live vector equals the training row up to the buffer's 500 bars and not beyond
  (`TrainServeAgreement`, `SkewBeyondCapacity`).

## Model

| member | source | states |
|---|---|---|
| Money.RoundCentsError | agents/execution/paper_broker.py:501 | rounding realised PnL half-even to cents moves it by at most half a cent |
| Money.RoundCentsIsNearest | agents/execution/paper_broker.py:501 | the result is a whole number of cents, the nearest one, and of two equally near the even one |
| Money.Down8Monotone | agents/execution/paper_broker.py:320 | truncation to eight decimals never reverses the order of two amounts |
| Money.Down8Truncates | agents/execution/paper_broker.py:320 | the result is a whole number of hundred-millionths, less than one of them nearer zero |
| Money.SpreadIsAdverse | agents/execution/paper_broker.py:316-320 | truncated slippage is adverse: buys fill at or above what sells fill at |
| Money.FeeNonnegative | agents/execution/paper_broker.py:347-349 | the truncated taker fee of a non-negative notional is never negative |
| Money.FeeTruncates | agents/execution/paper_broker.py:347-349 | the fee is a thousandth of the notional cut to whole cents |
| RecentIds.PushIsNewest | agents/risk/agent.py:192-197 | evicting the oldest entry keeps the memory equal to the newest 1,000 of the whole history |
| RecentIds.PushAges | agents/execution/paper_broker.py:243-246 | each new entry ages the others by one and the entry that reaches 1,000 is forgotten |
| RecentIds.AmongNewest | agents/risk/agent.py:192-197 | an id is remembered exactly while fewer than 1,000 were added after it |
| PaperBroker.OpenOrderShape | agents/execution/paper_broker.py:316-391 | an order that opens fills a positive quantity at the slipped price and changes cash, positions and cache as one position costing notional plus fee |
| PaperBroker.PlaceOrderKeepsValid | agents/execution/paper_broker.py:252-402 | every order keeps positions positive and costed at notional plus fee, and the cache distinct and within 1,000 |
| PaperBroker.ClosePositionKeepsValid | agents/execution/paper_broker.py:451-466 | so does every close, with or without a price, with or without a position |
| PaperBroker.RememberedEntries | agents/execution/paper_broker.py:243-246 | the cache after remembering is the old one with the new entry, less the oldest entry past the capacity |
| PaperBroker.SumCosts | agents/execution/paper_broker.py:436 | the loop over the positions sums to the same total in whatever order the dictionary yields them |
| PaperBroker.PaperBroker.constructor | agents/execution/paper_broker.py:111-124 | starts with the given cash, no position and an empty cache |
| PaperBroker.PaperBroker.RememberFill | agents/execution/paper_broker.py:243-246 | updating the ordered dictionary in place is the specified bounded cache |
| PaperBroker.PaperBroker.CloseOpen | agents/execution/paper_broker.py:468-529 | pops the position, returns the cash it realises and reports it; without a position changes nothing |
| PaperBroker.PaperBroker.ClosePositionAt | agents/execution/paper_broker.py:451-466 | closes at the given positive price, else at the entry price, else is a no-op |
| PaperBroker.PaperBroker.SimulateFill | agents/execution/paper_broker.py:331-344 | fills a positive quantity of at most the request, strictly less when partial; a draw that truncates to zero fills in full |
| PaperBroker.PaperBroker.OpenFor | agents/execution/paper_broker.py:315-402 | opens a position or raises with the state untouched |
| PaperBroker.PaperBroker.PlaceOrderFor | agents/execution/paper_broker.py:252-402 | the whole order path refines its specification; a call that raises leaves cash, positions and cache as they were |
| PaperBroker.PaperBroker.Balance | agents/execution/paper_broker.py:428-441 | reports free cash, the sum of open costs, and equity as their total |
| BrokerFills.OpeningSpends | agents/execution/paper_broker.py:315-391 | an accepted order spends the approved size, or the requested one when none or zero was approved, whatever the decision: quantity, price 0.05% against it, fee 0.1%, cash, position and result in terms of that size and the reference |
| BrokerFills.RefusedIff | agents/execution/paper_broker.py:271-370 | an order raises exactly without a positive reference, on a held same-side symbol, for a size that buys nothing, or for a cost above the cash |
| BrokerFills.PartialFillShare | agents/execution/paper_broker.py:331-344 | a partial fill is the drawn share of the request truncated; a share that truncates to nothing fills all |
| BrokerFills.ClosingPays | agents/execution/paper_broker.py:451-529 | a close, long or short, pays the reference slipped 0.05% against it less 0.1%, a short gets cost plus move back, and the PnL reported is the cash returned less the cost, to the cent |
| BrokerFills.OppositeOrderCloses | agents/execution/paper_broker.py:293-313 | an order against the position does to cash and positions what the monitor's close at its reference does |
| BrokerFills.ReservationCoversNotional | agents/risk/agent.py:360-368 | an opening approved at a positive size reserves that size, and executes with a notional of at most it, within a hundred-millionth of a unit if filled in full |
| BrokerRuns.EffectOf | agents/execution/paper_broker.py:252-402 | every event leaves the portfolio alone, opens one position at the slipped reference or closes one, and publishes fills accordingly |
| BrokerRuns.CloseLosesAtConstantPrice | agents/execution/paper_broker.py:480-502 | closing at the opening reference or at the entry price returns at most what the position reserved, long or short |
| BrokerRuns.NoFreeLunch | agents/execution/paper_broker.py:316-502 | with one constant reference price per symbol, no sequence of opens, partial fills, closes, rejections and duplicates raises equity |
| BrokerRuns.RealizedIsNetOf | agents/execution/paper_broker.py:480-501 | realised PnL is net of both fees exactly for longs and for shorts of less than 10 USD; any short is net of its exit fee |
| BrokerRuns.ShortRoundTripDiffers | agents/execution/paper_broker.py:480-501 | a short of one unit at 1,000 realises -2.00 where gross less both fees is -2.99, and the audit fold shows -2.99 for a cash change of -2.00 |
| BrokerRuns.AuditStep | core/db/repositories/trade_repo.py:198-206 | per event the audit row equals the cash change, less the entry fee of a short it opens, corrected for the shorts still open |
| BrokerRuns.AuditOverRun | core/db/repositories/trade_repo.py:181-213 | the same over any run, from any state |
| BrokerRuns.AuditMatchesCash | core/db/repositories/trade_repo.py:181-213 | flat at both ends, sells minus buys minus fees is the cash change less the short entry fees, and the cash change itself exactly when no step opened a short of 10 USD or more |
| BrokerRuns.LongOnlyAuditIsCash | core/db/repositories/trade_repo.py:181-213 | when sell orders only ever close, the audit fold is exactly the cash change |
| BrokerRuns.BuyOrdersNeverShort | agents/execution/paper_broker.py:288-320 | in particular when no order of the run sells, whatever the monitor closes |
| Money.FeeIsZeroIff | agents/execution/paper_broker.py:347-349 | the truncated fee is zero exactly below a notional of 10 USD |
| BrokerRuns.AgesByStep | agents/execution/paper_broker.py:243-269 | one event ages a cached result by the fills it remembers and forgets it at 1,000 |
| BrokerRuns.AgesOverRun | agents/execution/paper_broker.py:243-269 | not presented again, a result stays cached exactly while fewer than 1,000 fills were remembered after it |
| BrokerRuns.StaysCached | agents/execution/paper_broker.py:243-269 | presented any number of times, a result stays cached and answers every presentation while fewer than 1,000 other fills are remembered |
| BrokerRuns.FilledAtMostOnce | agents/execution/paper_broker.py:263-269 | every presentation of a filled proposal in a run, however many, returns the first result, fills nothing and changes nothing while fewer than 1,000 other fills intervene |
| BrokerRuns.ForgottenIff | agents/execution/paper_broker.py:243-246 | not presented again, the proposal is forgotten exactly from the 1,000th other fill on |
| Ledger.OpenKeepsValue | agents/risk/drawdown_monitor.py:141-151 | reserving for a symbol that is not open keeps cash plus costs |
| Ledger.AdjustKeepsValue | agents/risk/drawdown_monitor.py:153-164 | reconciling to the filled cost keeps cash plus costs |
| Ledger.CloseAddsPnl | agents/risk/drawdown_monitor.py:166-178 | closing changes cash plus costs by exactly the PnL |
| Ledger.DrawdownMonitor.constructor | agents/risk/drawdown_monitor.py:102-116 | starts with the balance as initial, daily-start and current cash |
| Ledger.DrawdownMonitor.PortfolioValue | agents/risk/drawdown_monitor.py:54-58 | the loop over open positions computes cash plus all costs, in any dictionary order |
| Ledger.DrawdownMonitor.OpenPosition | agents/risk/drawdown_monitor.py:141-151 | deducts the size and records cost and side |
| Ledger.DrawdownMonitor.AdjustPositionCost | agents/risk/drawdown_monitor.py:153-164 | replaces the reserved cost, cash absorbing the difference; no-op for an unknown symbol |
| Ledger.DrawdownMonitor.ClosePosition | agents/risk/drawdown_monitor.py:166-178 | returns cost plus PnL to cash and drops symbol and side |
| Ledger.DrawdownMonitor.MaybeResetDaily | agents/risk/drawdown_monitor.py:184-190 | on a new day the daily start becomes the current value and daily PnL zero |
| Ledger.DrawdownMonitor.DailyLossLimitBreached | agents/risk/drawdown_monitor.py:122-125 | resets the day first, then answers whether the day's loss is at or past the limit |
| Ledger.DrawdownMonitor.TotalDrawdownLimitBreached | agents/risk/drawdown_monitor.py:127-129 | answers whether the loss since the start is at or past the limit |
| RiskAgent.StopPriority | agents/risk/position_sizer.py:90-116 | an ATR decides the stop whatever is suggested, a suggestion decides it without one, and nothing else is read; the default is 2% |
| RiskAgent.CircuitBreaker.TripFor | agents/risk/circuit_breaker.py:52-65 | trips, keeping the first reason |
| RiskAgent.CircuitBreaker.Reset | agents/risk/circuit_breaker.py:67-76 | clears the breaker and its reason |
| RiskAgent.RiskAgent.constructor | agents/risk/agent.py:95-111 | starts with a fresh ledger, an untripped breaker and no seen results |
| RiskAgent.RiskAgent.ApplyExecutionResult | agents/risk/agent.py:181-223 | the in-place reconciliation refines its specification: duplicate, released, ignored, closed, reconciled or adopted |
| RiskAgent.RiskAgent.EvaluateProposal | agents/risk/agent.py:229-382 | the ten checks in order refine their specification, with state, verdict and size |
| RiskAgent.RiskAgent.Halt | agents/base.py:369-393 | an override raises the halt flag and changes nothing else |
| RiskRuns.SettleConserves | agents/risk/agent.py:199-223 | of the outcomes of a result only a close changes the portfolio value, by its PnL |
| RiskRuns.EvaluateShape | agents/risk/agent.py:229-382 | an evaluation does nothing, resets the day, or also reserves for a symbol that was flat while a slot was free |
| RiskRuns.EvaluateConserves | agents/risk/agent.py:229-382 | an evaluation, approving or not, keeps the value and the balance of the books |
| RiskRuns.RunConserves | agents/risk/agent.py:181-382 | over any run the value moves by exactly the applied PnL |
| RiskRuns.Conservation | agents/risk/drawdown_monitor.py:141-190 | after any interleaving, cash plus open costs is initial balance plus applied PnL and also daily start plus daily PnL across resets; open symbols and sides have the same keys |
| RiskRuns.ApprovalIsWithinLimits | agents/risk/agent.py:241-382 | every approval is issued with breaker, halt, daily loss, drawdown and staleness within limits; closes take the open cost, openings the request cut to the caps and need a free slot |
| RiskRuns.PositionCapExceededIff | agents/risk/position_sizer.py:82-88 | an opening exceeds the per-position cap exactly when request and minimum order both do |
| RiskRuns.SmallPortfolioExceedsCap | agents/risk/position_sizer.py:82-88 | under the default limits any new portfolio of less than 500 USD has 10 USD approved, above its cap |
| RiskRuns.NeverTooSmall | agents/risk/agent.py:348-358 | the minimum-order rejection is unreachable |
| RiskRuns.BreakerLatches | agents/risk/circuit_breaker.py:52-65 | once tripped, the breaker and its reason stay through any run |
| RiskRuns.NoApprovalAfterBreach | agents/risk/agent.py:241-297 | in any run no evaluation from a breach on approves |
| RiskLimits.VetoedIff | agents/risk/agent.py:241-382 | the verdict is the first failed check, the loss limits stated as realised loss against today's opening value and total loss against the initial balance; exactly they trip the breaker, each for its reason |
| RiskLimits.LossEndsApprovals | agents/risk/agent.py:253-297 | in any run, from the first evaluation that finds a loss at its limit in those terms, nothing is approved |
| RiskLimits.DayIsOpened | agents/risk/drawdown_monitor.py:184-190 | the first evaluation of a day opens it at the present value with nothing realised, later ones keep both |
| RiskLimits.OpeningIsLargestAllowed | agents/risk/position_sizer.py:61-88 | an opening is the largest size within the request that risks at most 1% of the value at its stop and respects both caps, or the minimum order |
| RiskLimits.CloseIsApprovedAtCost | agents/risk/agent.py:321-329 | a close is approved for the whole cost of the position |
| RiskRuns.OpenCountStep | agents/risk/agent.py:331-341 | no event but an adopted fill takes the open count past the limit |
| RiskRuns.OpenCountBounded | agents/risk/agent.py:331-341 | without adopted fills the open count stays within the limit over any run |
| RiskRuns.SeenIsNewest | agents/risk/agent.py:192-197 | after timely redeliveries the memory is the newest 1,000 distinct results |
| RiskRuns.SkippedIffRecent | agents/risk/agent.py:192-197 | a result is skipped, unchanged, exactly when fewer than 1,000 others were applied after it |
| RiskRuns.DeduplicatedIds | agents/risk/agent.py:192-197 | dropping redeliveries keeps the order of first deliveries |
| RiskRuns.ExactlyOnce | agents/risk/agent.py:181-223 | a run whose redeliveries come within 1,000 new results ends in the state of the run without them |
| ExecutionAgent.ExecutionAgent.constructor | agents/execution/agent.py:71-82 | starts unhalted with nothing published |
| ExecutionAgent.ExecutionAgent.HandleAssessment | agents/execution/agent.py:140-234 | one turn of the loop: drop while halted, skip a rejection, else order and publish the fill or a rejected result |
| ExecutionAgent.ExecutionAgent.CheckAndMaybeClose | agents/execution/agent.py:328-376 | closes and publishes exactly when the move in the position's favour is past a threshold |
| ExecutionAgent.BreachesIff | agents/execution/agent.py:336-348 | a long closes at or below entry less the stop fraction or at or above entry plus the target fraction, a short the other way round, and neither on a price or entry that is not positive |
| Protocol.CoherentAppend | agents/risk/agent.py:199-223 | a proper result at the end of the channel moves the replayed ledger view to the new broker view |
| Protocol.NeverOpposite | agents/risk/agent.py:199-223 | with every answer in flight on one side, delivering the channel never leaves the ledger on the other, whatever the monitor closed |
| Protocol.ProposeKeeps | agents/risk/agent.py:308-368 | a veto at any time, and an approval of a settled symbol, keep the invariant |
| Protocol.ExecuteView | agents/execution/paper_broker.py:252-402 | executing an assessment rejects, opens its side from flat at exactly the reported cost or closes the other side, and moves equity apart from the published PnL by at most half a cent |
| Protocol.ExecuteKeeps | agents/execution/agent.py:168-184 | executing and publishing keeps the invariant |
| Protocol.MonitorKeeps | agents/execution/agent.py:366-370 | so does a stop-loss close at any moment and price |
| Protocol.DeliverKeeps | agents/risk/agent.py:163-223 | so does delivering the oldest result |
| Protocol.RedeliverIsInert | agents/risk/agent.py:192-197 | delivering a result again while fewer than 1,000 new ones came after it changes nothing |
| Protocol.OverrideKeeps | agents/base.py:369-393 | halting the risk agent at any time keeps the invariant |
| Protocol.SkipHarmlessIff | agents/execution/agent.py:147-153 | dropping an assessment while halted keeps the invariant exactly when it had reserved nothing |
| Protocol.StepKeeps | agents/execution/agent.py:140-230 | every scheduled step keeps the invariant of the joint system |
| Protocol.ReplicaAgreement | agents/risk/agent.py:181-223 | at every moment of every scheduled run, overrides and timely redeliveries included, for a symbol with no assessment pending, replaying the in-flight results on the ledger gives the broker's position, side and exact cost |
| Protocol.QuiescentAgreement | agents/risk/drawdown_monitor.py:153-178 | at quiescence both hold the same symbols, sides and equal costs, and cash differs by at most 0.005 per closing fill |
| OverlapCounterexample.StaleCloseDiverges | agents/execution/paper_broker.py:293-402 | a stale close opens a short on a flat broker, the ledger books it as closing the new long, and the new order is adopted |
| OverlapCounterexample.OverlapBreaksAgreement | agents/risk/agent.py:308-329 | with one approval of an unsettled symbol the ledger can end quiescent with a position the broker lacks |
| OverlapCounterexample.DroppedReservationDiverges | agents/execution/agent.py:147-153 | a reserved order dropped while halted leaves a position only the ledger has |
| OverlapExact.AgreesIffSafe | agents/execution/agent.py:140-230 | however a queue is worked off, with any outcomes and monitor closes, the replicas end equal if and only if the queue is safe |
| OverlapExact.ReachableSurvives | agents/risk/agent.py:181-223 | in every state the invariant allows, agreement survives all that is under way |
| OverlapExact.ApprovalHarmlessIff | agents/risk/agent.py:308-368 | approving any proposal is harmless if and only if the queue it joins is safe for the ledger it leaves, with the results in flight delivered |
| OverlapExact.InFlightDecides | agents/risk/agent.py:199-223 | a rejection of its own side in flight leaves a reservation safe, the fill of a stale short does not |
| OverlapExact.CloseHarmlessIff | agents/risk/agent.py:308-329 | approving a close is harmless exactly when the broker is not yet on the closing side and no earlier close waits |
| OverlapExact.ReservationHarmlessIff | agents/risk/agent.py:360-368 | approving a flat symbol with nothing in flight is harmless exactly when no assessment of it waits |
| Mt5Bridge.StepKeeps | agents/execution/mt5_bridge.py:366-431 | enqueue, poll, result, timeout and cancellation keep the protocol invariant and never change a past ending |
| Mt5Bridge.RoundTrip | agents/execution/mt5_bridge.py:366-431 | in every interleaving the commands handed out followed by those queued are exactly those enqueued, in order and each once; a caller gets only a body with its own id; exactly the unresolved waits are waiting |
| Mt5Bridge.EndsOnce | agents/execution/mt5_bridge.py:397-400 | a wait keeps its first ending however the run goes on |
| Mt5Endings.EndedByFirst | agents/execution/mt5_bridge.py:388-431 | in every run a caller is answered with a body, timed out or cancelled if and only if that result, timeout or cancellation is the first for its command after the enqueue, and waits exactly until then |
| Mt5Endings.ResultReachesCaller | agents/execution/mt5_bridge.py:396-400 | a result posted while its caller waits reaches it with its body unchanged and removes its future |
| Mt5Endings.PollsDrain | agents/execution/mt5_bridge.py:366-386 | n polls hand out the n oldest queued commands, in order |
| Mt5Bridge.LateResultIsInert | agents/execution/mt5_bridge.py:396-404 | a late, repeated or unknown result changes nothing; after a cancellation it only removes the dead future |
| Mt5Bridge.TableIsUnresolvedIff | agents/execution/mt5_bridge.py:397-431 | the table is the set of unresolved waits exactly when every outside cancellation was followed by a result for its command |
| Mt5Bridge.TableIsUnresolvedWithoutCancels | agents/execution/mt5_bridge.py:366-431 | over every interleaving of enqueue, poll, result and timeout the table is exactly the set of unresolved waits |
| Mt5Bridge.CancelLeaks | agents/execution/mt5_bridge.py:425-431 | enqueue then cancel leaves a future nobody waits on |
| Mt5Bridge.TimeoutsRecallNothing | agents/execution/mt5_bridge.py:423-431 | what the terminal is handed depends on enqueues and polls alone |
| Mt5Bridge.TimedOutIsDelivered | agents/execution/mt5_bridge.py:423-431 | enqueue, timeout, poll hands out the command its caller was told had failed |
| Mt5Bridge.MT5Bridge.constructor | agents/execution/mt5_bridge.py:80-112 | starts with an empty queue and table |
| Mt5Bridge.MT5Bridge.EnqueueCommand | agents/execution/mt5_bridge.py:416-423 | registers a future and queues the command |
| Mt5Bridge.MT5Bridge.HandleCommand | agents/execution/mt5_bridge.py:366-386 | hands out the oldest command or nothing |
| Mt5Bridge.MT5Bridge.HandleResult | agents/execution/mt5_bridge.py:388-404 | pops and resolves the future if somebody waits; refuses an unreadable body without effect |
| Mt5Bridge.MT5Bridge.ExpireWait | agents/execution/mt5_bridge.py:427-431 | a timeout removes the future and leaves the queue |
| Mt5Bridge.MT5Bridge.CancelWait | agents/execution/mt5_bridge.py:425-431 | an outer cancellation leaves future and queue |
| CandleBuffer.BufferIsLastOfGreedy | agents/technical_analysis/candle_buffer.py:69-87 | for any stream the buffer is the last of the greedily filtered subsequence, up to its capacity, and strictly ascending |
| CandleBuffer.GreedyKeepsAscending | agents/technical_analysis/candle_buffer.py:77-87 | a stream that already ascends loses nothing |
| CandleBuffer.RegistryRoutes | agents/technical_analysis/candle_buffer.py:207-221 | each pair's buffer exists exactly when it had a candle and depends on that pair's candles alone |
| CandleBuffer.CandleBuffer.Add | agents/technical_analysis/candle_buffer.py:69-87 | appends a newer candle dropping the oldest past capacity, rejects any other |
| CandleBuffer.CandleBufferRegistry.Add | agents/technical_analysis/candle_buffer.py:207-221 | creates the pair's buffer object if needed, adds the candle in place and returns that object; every other buffer keeps its identity and contents |
| Normalizer.ClosedCandles | agents/market_data/normalizer.py:64-79 | keeps in order exactly the candles that have closed or whose timeframe is unknown |
| Normalizer.SortByTimeSorts | agents/market_data/normalizer.py:131 | the batch comes out in time order |
| Normalizer.SortByTimePermutes | agents/market_data/normalizer.py:131 | and is a permutation of what came in |
| Normalizer.SortByTimeStable | agents/market_data/normalizer.py:131 | that keeps the order of candles with equal timestamps |
| Normalizer.BatchAscends | agents/market_data/normalizer.py:102-167 | each batch's output is strictly ascending in time |
| Normalizer.BatchIsCounted | agents/market_data/normalizer.py:132-155 | received is duplicates plus published |
| Normalizer.PollsAccept | agents/market_data/normalizer.py:134-155 | over all polls the output is what a memory of the last 200 timestamps accepts of the sorted candles |
| Normalizer.AscendsIffWellTimed | agents/market_data/normalizer.py:210-212 | the accepted stream ascends exactly when every candle is among the last 200 accepted or newer than all of them |
| Normalizer.PipelineIsLossless | agents/market_data/normalizer.py:102-167 | exactly then the whole output ascends, and the buffer drops none of it but its oldest past 500 |
| PublishedCandles.ClosedIff | agents/market_data/normalizer.py:41-79 | a candle is kept exactly when it has ended, with the seconds of each timeframe written out |
| PublishedCandles.PublishedHasEnded | agents/market_data/agent.py:173-176 | over all polls only candles that had ended when polled are published, and for each of these one of its timestamp is |
| PublishedCandles.GapsAreCounted | agents/market_data/normalizer.py:234-241 | the gaps counted over all polls are the published candles that open more than one and a half intervals after the one before |
| Normalizer.OHLCVNormaliser.OfferCandle | agents/market_data/normalizer.py:135-155 | one candle: skipped and counted, or checked for a gap, remembered and emitted; other pairs untouched |
| Normalizer.OHLCVNormaliser.OfferAll | agents/market_data/normalizer.py:134-155 | the loop over the sorted batch is the fold of single candles |
| Normalizer.OHLCVNormaliser.Process | agents/market_data/normalizer.py:102-167 | a batch changes the feed of its own pair as specified and no other; an empty one changes nothing |
| Engine.Replay.constructor | backtest/engine.py:109-114 | starts flat, with the initial balance and nothing pending |
| Engine.Replay.CloseAt | backtest/engine.py:116-145 | closes with adverse slippage and both fees, appends the trade and realises its net PnL |
| Engine.Replay.FillPendingOrder | backtest/engine.py:162-170 | fills the pending order at the open: enter, reverse, or ignore the same side |
| Engine.Replay.ApplyBrackets | backtest/engine.py:172-192 | checks the adverse level first, on either side |
| Engine.Replay.MarkToMarket | backtest/engine.py:194-205 | appends the bar's equity point |
| Engine.Replay.ReplayBar | backtest/engine.py:157-205 | one bar is fill, then brackets, then mark |
| Engine.Replay.Finish | backtest/engine.py:211-216 | closes what is left at the last close and rewrites the last point |
| Engine.DecideBar | backtest/engine.py:157-209 | one iteration adds the candle to its buffer object, replays the bar and asks for the next decision except on the last bar |
| Engine.RunWithDecider | backtest/engine.py:92-218 | the loop with its candle buffers and callback is the recursive run |
| EngineRuns.BooksAfter | backtest/engine.py:156-216 | at every bar realised equity is the initial balance plus trade PnL, trades are in order, and bars in the market match bars held |
| EngineRuns.EngineAccounting | backtest/engine.py:116-216 | equity at a bar is initial balance plus closed PnL plus unrealised PnL; final equity is initial balance plus all PnL; trades never overlap; points in the market total the bars held |
| EngineTrades.TradesAreExplained | backtest/engine.py:116-216 | every trade of a run: entry at a slipped open for the share of realised equity, clamped; exit at a slipped open, touched stop, touched target or last close; PnL the move on its quantity less the fee on both notionals |
| EngineTrades.EquityIsMarked | backtest/engine.py:194-205 | each point before the last is initial balance plus closed PnL plus the move of the open position from its entry to that bar's close |
| EngineRuns.FillsFollowDecisions | backtest/engine.py:156-216 | every trade enters at the open after its decision and leaves at the open after an opposite one, at a bracket its bar touched with the stop first, or at the last close |
| EngineRuns.ClosedByThen | backtest/engine.py:156-216 | the trades closed before a bar are those of the bars before it |
| EngineRuns.EngineCausality | backtest/engine.py:156-218 | series sharing m candles, with decisions agreeing up to there, have equal points 0..m-1 and the same trades closed by then |
| EngineRuns.BufferStrategyCausality | backtest/engine.py:156-218 | the same for any strategy that sees the rolling buffer and the bar number |
| EngineCosts.AdverseExitLoses | backtest/engine.py:116-128 | an exit on the wrong side of the entry has a net PnL of at most zero, long or short |
| EngineCosts.StopsNeverGain | backtest/engine.py:172-192 | no trade of any run that its stop closed makes money, whatever the market does |
| EngineCosts.StillMarketNeverGains | backtest/engine.py:116-216 | where every price is the same, equity never exceeds the initial balance at any bar, for any decisions |
| Metrics.MaxDrawdown | backtest/metrics.py:41-62 | the loop returns the deepest fall from the running maximum and the longest run strictly below it |
| Metrics.PairwiseIff | backtest/metrics.py:41-62 | the loop's value is the maximum over all pairs i <= j if and only if every negative bar after a positive one is outweighed by a fall from a running maximum |
| Metrics.DeepestIsPairwise | backtest/metrics.py:41-62 | so it is on equity that is never negative |
| Metrics.NegativeEquityGoesBothWays | backtest/metrics.py:60 | with negative equity both cases occur: 10 to -5 meets the pairwise definition, 1 over 10 to -5 does not |
| FeatureIndicators.EmaLoop | agents/technical_analysis/ml/feature_engineer.py:51-61 | the array loop is the recurrence seeded with the mean, NaN before |
| FeatureIndicators.RsiLoop | agents/technical_analysis/ml/feature_engineer.py:64-88 | the array loop is Wilder's recurrence on gains and losses with its zero-loss cases |
| FeatureIndicators.SignalLoop | agents/technical_analysis/ml/feature_engineer.py:99-112 | the signal line seeds on the valid part of a NaN-prefixed line |
| FeatureIndicators.MacdLoop | agents/technical_analysis/ml/feature_engineer.py:91-114 | line, signal and histogram are those of the definitions |
| FeatureIndicators.AtrLoop | agents/technical_analysis/ml/feature_engineer.py:117-132 | the array loop is Wilder's recurrence on true ranges |
| FeatureIndicators.BollingerLoop | agents/technical_analysis/ml/feature_engineer.py:135-151 | the three arrays are mean and mean plus or minus the width times the population deviation of each window |
| FeatureIndicators.EmaStable | agents/technical_analysis/ml/feature_engineer.py:51-61 | truncating the history after a bar does not change the EMA at it |
| FeatureIndicators.RsiStable | agents/technical_analysis/ml/feature_engineer.py:64-88 | nor the RSI |
| FeatureIndicators.HistogramStable | agents/technical_analysis/ml/feature_engineer.py:91-114 | nor the MACD histogram, despite its NaN-seeded signal line |
| FeatureIndicators.AtrStable | agents/technical_analysis/ml/feature_engineer.py:117-132 | nor the ATR |
| FeatureIndicators.BandsStable | agents/technical_analysis/ml/feature_engineer.py:135-151 | nor the bands |
| IndicatorMeanings.RsiIsShareOfGains | agents/technical_analysis/ml/feature_engineer.py:64-88 | the RSI is the share of the average gain in the average movement out of 100, within 0 and 100; without movement 50, on the first bar 0 |
| IndicatorMeanings.RsiExtremes | agents/technical_analysis/ml/feature_engineer.py:64-88 | it is 100 on strictly rising and 0 on strictly falling closes |
| IndicatorMeanings.WilderIsSmoothing | agents/technical_analysis/ml/feature_engineer.py:79-82 | a Wilder step is exponential smoothing with weight one over the period |
| IndicatorMeanings.TrueRangeOfBar | agents/technical_analysis/ml/feature_engineer.py:122-128 | the true range is the bar's range stretched to the close before |
| IndicatorMeanings.VarianceIsMeanOfSquares | agents/technical_analysis/ml/feature_engineer.py:147 | the population variance is the mean square less the squared mean, and never negative |
| IndicatorMeanings.BandsAreSymmetric | agents/technical_analysis/ml/feature_engineer.py:144-150 | the bands lie the given number of deviations either side of the mean of the last closes |
| IndicatorMeanings.HistogramStarts | agents/technical_analysis/ml/feature_engineer.py:91-114 | the histogram has numbers exactly from bar slow + signal - 2 on |
| NumpyIndicators.EmaNumpy | agents/technical_analysis/indicators.py:588-616 | the NaN-aware loop is its definition on any series |
| NumpyIndicators.MacdNumpy | agents/technical_analysis/indicators.py:641-653 | line, signal and histogram of the second implementation |
| NumpyIndicators.AtrNumpy | agents/technical_analysis/indicators.py:675-692 | the second ATR is the feature engineer's |
| NumpyIndicators.EmaAgrees | agents/technical_analysis/indicators.py:588-616 | on NaN-free input both EMAs are equal, NaN positions included |
| NumpyIndicators.SignalAgrees | agents/technical_analysis/indicators.py:588-616 | on any NaN-prefixed line both signal lines are equal |
| NumpyIndicators.MacdAgrees | agents/technical_analysis/indicators.py:641-653 | on NaN-free closes both MACDs are equal, NaN positions included |
| NumpyIndicators.ShortAboveLong | agents/technical_analysis/indicators.py:588-616 | on strictly rising prices the short EMA is above the long one wherever both exist, despite their different seeds |
| NumpyIndicators.RisingPricesNeverCross | agents/technical_analysis/indicators.py:410-467 | there the crossover signal never crosses and only buys or stays neutral, and the MACD line is positive |
| EmaCrossings.ShortBelowLong | agents/technical_analysis/indicators.py:588-616 | on strictly falling prices the short EMA is below the long one wherever both exist |
| EmaCrossings.FallingPricesNeverCross | agents/technical_analysis/indicators.py:410-467 | there the signal never crosses, is a sell exactly when the EMAs are more than 0.3% apart, and the MACD line is negative |
| EmaCrossings.CrossSignalIff | agents/technical_analysis/indicators.py:433-481 | on any closes: strong buy exactly on crossing up, strong sell exactly on crossing down, else the side of the short EMA when more than 0.3% apart; refused exactly when an EMA is missing |
| Features.PrecomputeAll | agents/technical_analysis/ml/feature_engineer.py:303-312 | the eight series are computed by the loops |
| Features.ReadingStable | agents/technical_analysis/ml/feature_engineer.py:391-549 | a row reads candles up to its bar and indicators at its bar and the three before |
| Features.RowStable | agents/technical_analysis/ml/feature_engineer.py:391-549 | the row of a bar reads nothing after it, over the whole history |
| Features.RowsAgree | agents/technical_analysis/ml/feature_engineer.py:266-345 | histories sharing their first m candles have the same rows before bar m |
| FeatureColumns.ReturnColumns | agents/technical_analysis/ml/feature_engineer.py:421-432 | the five returns take the closes 1, 3, 5, 10 and 20 bars back to this one; zero where that close is zero |
| FeatureColumns.LogReturnColumn | agents/technical_analysis/ml/feature_engineer.py:434-435 | the logarithm of the last price ratio where both are positive |
| FeatureColumns.CandleColumns | agents/technical_analysis/ml/feature_engineer.py:437-499 | range, place of the close, body and wicks as parts of the range, which add up to one |
| FeatureColumns.VolumeColumns | agents/technical_analysis/ml/feature_engineer.py:441-449 | the volume against the 5 and the 20 bars before, its own excluded, and against 5 bars back |
| FeatureColumns.RsiColumns | agents/technical_analysis/ml/feature_engineer.py:451-457 | the RSI columns map 0 to 100 to -1 to 1 and stay within |
| FeatureColumns.MacdColumns | agents/technical_analysis/ml/feature_engineer.py:459-473 | the histogram per close, and one exactly when it changed sign within the last three steps |
| FeatureColumns.VolatilityColumns | agents/technical_analysis/ml/feature_engineer.py:475-483 | ATR per close, four deviations per mean, and the place of the close between the bands |
| FeatureColumns.TrendColumns | agents/technical_analysis/ml/feature_engineer.py:485-493 | distances from the three EMAs, which fast EMA is above, and the absolute first distance |
| FeatureColumns.TimeColumns | agents/technical_analysis/ml/feature_engineer.py:501-510 | sine and cosine of hour and weekday as parts of a full turn |
| FeatureColumns.CalendarOf | agents/technical_analysis/ml/feature_engineer.py:505-506 | hour of the day and day of the week, Monday first, of any time |
| FeatureTables.RowFromPrecomputed | agents/technical_analysis/ml/feature_engineer.py:391-549 | one row, or none during warm-up |
| FeatureTables.BuildFeatureMatrix | agents/technical_analysis/ml/feature_engineer.py:266-345 | the loop builds the rows of bars 59 onwards, or none for a short history |
| FeatureTables.BuildFeatures | agents/technical_analysis/ml/feature_engineer.py:231-260 | the vector of the buffer's last bar, or none below 60 candles |
| FeatureTables.RowsAt | agents/technical_analysis/ml/feature_engineer.py:314-337 | row r of the matrix belongs to bar r + 59 |
| FeatureTables.EngineerIsStable | agents/technical_analysis/ml/feature_engineer.py:266-345 | the engineer's row function is prefix-stable |
| FeatureTables.TrainServeAgreement | agents/technical_analysis/ml/feature_engineer.py:231-345 | for 60 to 500 bars the live vector after bar i is row i - 59 of the matrix over the whole history |
| FeatureTables.SkewBeyondCapacity | agents/technical_analysis/candle_buffer.py:63-87 | for every longer history there are candles for which they differ |
| Labels.LabelGenerator.Create | agents/technical_analysis/ml/label_generator.py:41-47 | a horizon below one or a threshold that is not positive is refused |
| Labels.LabelGenerator.Generate | agents/technical_analysis/ml/label_generator.py:53-78 | the masked array assignments produce the label of each bar and NaN for the tail |
| Labels.LabelMeaning | agents/technical_analysis/ml/label_generator.py:53-78 | a bar is labelled exactly when its horizon closes in the series; buy and sell are strict moves past the threshold from a positive price |
| Labels.LabelsAgree | agents/technical_analysis/ml/label_generator.py:66-78 | labels whose horizon ends within a shared prefix are the same |
| Labels.CutoffIsTight | backtest/walkforward.py:99-100 | one bar later would leak: a shared prefix one bar short does not determine the label |
| WalkForward.WalkForwardModel.constructor | backtest/walkforward.py:68-88 | starts without a model |
| WalkForward.WalkForwardModel.RowForBar | backtest/walkforward.py:90-94 | a bar has a row exactly from bar 59 to the end |
| WalkForward.WalkForwardModel.MaybeRetrain | backtest/walkforward.py:96-139 | keeps the model while fresh, else trains on the closed labels if there are enough of two classes; a fit that raises changes nothing and propagates, a calibration that raises keeps the plain model |
| WalkForward.WalkForwardModel.Decide | backtest/walkforward.py:141-158 | retrains if due, then emits the likely direction of the bar's row |
| WalkForward.Replayed | backtest/walkforward.py:161-169 | the engine's loop with the stateful callback is the run of the decisions as a function of the bar, or ends with the fit that raised |
| WalkForward.RunWalkForward | backtest/walkforward.py:161-179 | the run and retrain count over data built from the full series; raises exactly for invalid label parameters or a fit that raises |
| WalkForwardRuns.SameTrainingSet | backtest/walkforward.py:99-106 | data sets that agree on rows before m and labels closed before m give the same training set at any earlier bar |
| WalkForwardRuns.SameTraining | backtest/walkforward.py:96-139 | and the same model and retrain history |
| WalkForwardRuns.DataIsShared | backtest/walkforward.py:68-85 | data built over two full series that share m candles agree in that sense |
| WalkForwardRuns.NoLookahead | backtest/walkforward.py:68-158 | series sharing bars 0..i give the same decision at bar i and the same models and retrains up to it |
| WalkForwardRuns.WalkForwardCausality | backtest/walkforward.py:161-179 | whole walk-forward backtests over series sharing m candles have equal points 0..m-1 and the same trades closed by then |
| WalkForwardRuns.TrainsOnThePast | backtest/walkforward.py:99-107 | in the data of any backtest the rows learnt from at bar i are those of bars 59 to i - horizon, each label had closed by then, and the NaN mask drops none |
| WalkForwardTraining.TrainsOnReturns | backtest/walkforward.py:34-111 | in the data of any backtest a bar is trained as class 2 exactly when its close rises by more than the threshold over the horizon, as class 0 exactly when it falls by more, else as class 1 |
| WalkForwardTraining.ReadyIff | backtest/walkforward.py:99-112 | a model can be trained exactly when enough bars have closed their horizon and not all moved alike |
| WalkForwardTraining.FittedOnSamples | backtest/walkforward.py:114-135 | the fit gets all samples with balancing weights; the calibration, from 200 samples on, a fit on the oldest four fifths and the newest fifth, and is dropped if it raises |
| WalkForwardTraining.PredictsFromRow | backtest/walkforward.py:141-158 | at every bar the decision is a buy exactly when class 2 is strictly likeliest and likely enough, a sell when class 0 is at least as likely as the others, on the row of that bar; none without a model or row |
| WalkForwardRuns.ReadyStays | backtest/walkforward.py:106-111 | what could be trained once can be trained ever after |
| WalkForwardRuns.RetrainSchedule | backtest/walkforward.py:96-139 | the model used at bar i was trained at the last bar not after i of first, first + every, ..., on that bar's samples; none is used before; a run that ended early stopped at the first of these bars whose fit raises |
| WalkForwardRuns.RaisesIffScheduledFitFails | backtest/walkforward.py:96-139 | the first k decisions raise if and only if the fit of some bar of the schedule before k does |
| WalkForwardRuns.PredictsFromLiveVector | backtest/walkforward.py:147-158 | within the buffer's capacity the decision is a buy or a sell exactly when the probabilities of the live agent's own vector at that bar say so |
| WalkForwardRuns.BalancedWeights | backtest/walkforward.py:115-117 | the inverse-frequency weights give every class present a third of the sample count |

## Left out

- Redis, Postgres, HTTP, exchange and terminal I/O, settings, logging, dashboards and reports: plumbing; channels are sequences and the audit table is the list of fills.
- Restarts and restoring the portfolio: the ledger restarts empty, and agreement does not survive that.
- A broker mutation whose publication fails: mutation and publication are one step of the protocol.
- Halt-latch delivery between processes: the halt is a flag; timing of its delivery is not modelled.
- Binary floating point and 28-digit decimal contexts: all arithmetic is exact, with the explicit quantisations kept; the final pass that turns NaN and infinities of the feature matrix into zero has nothing to do in exact arithmetic.
- Money.DownCents, Money.Down8: a price that truncates to zero makes the division raise; it is modelled as one more error of the order path.
- BrokerRuns.AuditMatchesCash: taken over unrounded results and including monitor closes, which the code does not persist, and for a day window that covers the run.
- OverlapExact.AgreesIffSafe: an execution may end in any way the broker's contract allows, without asking whether this assessment's own cash and price allow it.
- Protocol.MonitorKeeps: a close at any moment and price over-approximates the monitor's thresholds, which are checked in the execution agent.
- Normalizer.OHLCVNormaliser.Process: the pair of a batch is read from its first candle, as the code does; candles of other pairs in one batch are not told apart.
- Engine.RunWithDecider: a trade records bar indices instead of timestamps, and the symbol is that of the configuration.
- WalkForward.RunWalkForward: XGBoost and the isotonic calibrator are any deterministic functions that return a model or raise; a prediction does not raise, and the rolling buffer, which this decider ignores, is not passed.
- FeatureTables.RowFromPrecomputed: the open prices are always given, and the guards for lags before the first bar are dropped because no row is built there.
- The NumPy RSI and its difference from the feature engineer's (first index, zero-loss case), the NumPy Bollinger bands (the same loop), and the TA-Lib paths.
- Indicator threshold tables, signal aggregation, proposal text, Sharpe and the other summary metrics: single expressions.
- Range claims about the ATR stop: the metadata is a percentage read as a fraction, so the stop is taken as any positive number.
- MT5 volume and stop arithmetic: not part of this model.
