# A model of the paper trader, its audit trail and its dashboard

The repository trades perpetual futures on paper: each pass of its loop fetches
market snapshots, marks the open positions and fires their stops, and applies
the decisions of a background agent through sizing, leverage, cost and risk
gates. Every open is written to an append-only audit store, shown on a board,
and anchored on a chain by a worker thread; a browser dashboard reads the chain
back. This project models that behaviour and proves what it keeps.

Run `dafny verify dfyconfig.toml` to check everything.

## How the modules fit together

* **Account.** `Ledger` says what each executor call does to an account value;
  `Executor` is the same on mutable objects, proved to leave exactly that
  account. `LedgerLaws` says in terms of marks and levels when stops fire and
  what funding and opens come to. `Attribution` keeps a journal from snapshots and call outcomes only
  and shows that it explains equity and balance over every run. `RoundTrip`
  compares what a trade costs with what `CostModel` predicted.
* **Sizing.** `Indicators` (loops and their specifications), `IndicatorLaws`,
  `Regimes`, `Stops`, `Leverage`, `Sizing`, `RiskBudget`, and `PriceUnit`, which
  shows that the choice of price unit does not matter. `TrendLaws` and `VolLaws`
  say what the indicators measure, `EntryLaws` which entries go through. `Aggregate` rolls
  five-minute candles into hourly ones; `DeskUnits` puts these together for the
  whole pipeline in front of an open.
* **Decision loop.** `DecisionLoop` is one pass as a function of the desk: the
  account, the sized trade remembered per asset, the board, the audit rows, the
  submissions and the recent fills. `DeskLaws`, `DeskTrail`, `PassLaws` and
  `WriteAhead` prove what every pass and every run keeps; `Runner` is the loop on mutable objects, proved to
  compute it.
* **Audit and anchoring.** `Utf8`, `Json` and `Audit` cover the canonical bytes
  of a record, the preimage of its hash and the store; `Feed` and `Snapshots`
  the board and its start-up from the store; `Anchoring` interleaves the trading
  thread and the worker, whose own code is `AnchorWorker`.
* **Chain description.** `Description` holds the printer, the call encoding and
  the dashboard's decoder and parser; `DescriptionLaws` shows that they undo
  each other.
* **Two concurrency machines.** `MetaCache` is the double-checked cache;
  `AgentMachine` and `Agent` are the scheduler and the asynchronous agent.

## Conventions

Floats are reals, and 1e-12 is a real constant. `sqrt` and `log` are parameters
of which nothing is assumed, except where a law is about them: a true root in
`Slippage.SquareRootLaw` and `VolLaws.RealizedVolSquared` and what follows from
them, a true logarithm in `VolLaws.ReturnsTelescope`, a non-negative root in the
last part of `DeskTrail.TakeLabelIff`. Timestamps are integer microseconds.
Integers are unbounded, as they are in Python. An exception is a value
(`Fault`), and a call returns the account it leaves behind together with its outcome, because a call that raises
may already have moved the account. `dict` iteration order is arbitrary: the
results hold for every order. The id and the reasoning the agent writes are
sequences of code points, as Python strings are, and may hold lone surrogates;
all other text is taken to be encodable.

Assumptions that come from outside: audit ids are fresh and not empty, as UUIDs
are; snapshots are filed under their own asset and have non-negative marks, and
forecasts are filed under their own asset, for the no-exception result only;
an anchor result reaches the board in one step, because the board has no lock.

## Where code and documentation differ

The model follows the code.

* agent/audit.py:3-7 promises that a record is stored before any external
  effect. For the paper fill this fails at every open: the fill comes before the
  append (cli/run.py:692 and cli/run.py:744, `WriteAhead.FillBeforeRow`). The
  row follows exactly when the text the agent wrote, cut to 2048 characters, has
  an encoding and the database takes the row (`DeskLaws.StoredIff`). The agent's
  text is not checked (core/synthesis.py:292-310), so a lone surrogate in it
  makes the append raise after the fill (`WriteAhead.LoneSurrogateStrands`), and
  nothing catches that. For the anchor the promise holds
  (`Anchoring.AnchoredAfterStored`).
* agent/anchor_worker.py:12-14 presents the second row as the record with its
  transaction filled in. That row hashes to something else than the value on
  chain (`Audit.AnchoredRowCommitsIff`); the first row is the committed one.
* agent/on_chain.py:16 and agent/on_chain.py:158 give the description as
  `agora:<id>:0x<hash>`; the code prints the sentence of
  agent/on_chain.py:347-402.
* agent/snapshot.py:258-265 speaks of every prior decision; the query selects
  the EXECUTE rows.
* The inference of "take" at cli/run.py:960-970 looks at the slipped exit price,
  so a take inside the slippage of its level is labelled "stop"
  (`DeskTrail.TakeLabelIff`, `DeskTrail.TakeLabelledStop`).
* `CostModel` takes its side from the forecast and the executor from the
  decision (core/cost.py:75, cli/run.py:679). At a constant market the predicted
  cost is the realized one exactly when the two sides agree or the funding leg
  is zero (`RoundTrip.PredictedEqualsRealised`).
* core/regime.py:163-164 says that a crowded BTC bumps a coin's funding one
  bucket; the code takes BTC's extreme over as it is, so even an uncrowded coin
  is stood down at once (`EntryLaws.BtcCrowdStopsEntry`).
* Leverage is not monotone in the stop distance (`Leverage.WiderStopMonotoneIff`
  says when a wider stop gets more), although core/leverage.py:105-126 lowers a
  cap as the stop widens.
* Two closes of one asset at the same bar time share a feed id, and the feed
  keeps only the later (`Feed.ClosesCollapseIff`).

## Model

| member | source | states |
|---|---|---|
| `Executor.Portfolio.EquityUsd` | core/contracts.py:246-255 | walking the open positions in any order returns the balance plus every position's marked P&L and accrued funding |
| `Executor.Portfolio.ExposureUsd` | core/contracts.py:257-259 | walking the open positions in any order returns the total mark-priced notional |
| `Executor.SimExecutor.Open` | core/execute.py:46-107 | the in-place open leaves exactly the account and outcome of the value-level open, exceptions included |
| `Executor.SimExecutor.OpenSized` | core/execute.py:109-182 | the same for a sized open, with its three refusals in order |
| `Executor.SimExecutor.AccrueFunding` | core/execute.py:307-329 | updates mark, funding and clock of one position object and nothing else |
| `Executor.SimExecutor.Close` | core/execute.py:184-246 | the in-place close accrues first, so a failing slippage call leaves the position accrued but open |
| `Executor.SimExecutor.Tick` | core/execute.py:248-263 | marks and accrues the position of the snapshot's own asset; no other object changes |
| `Executor.SimExecutor.CheckStops` | core/execute.py:265-303 | fires the stop before the take and closes through the close call, as the value-level check does |
| `LedgerLaws.StillHeldIff` | core/execute.py:265-303 | unless the check raises, a long or short position is still held exactly when the mark lies strictly between the levels that are set, and the account is then untouched; otherwise it is gone with a fill and nothing else moved |
| `PassLaws.CheckRaisesIff` | core/execute.py:265-303 | the check raises exactly when a level is reached at a negative mark against a known depth |
| `LedgerLaws.OnePeriodPaysRate` | core/execute.py:307-329 | a tick one funding period after the last settlement moves the funding by exactly the rate on the marked notional, paid by longs and received by shorts |
| `LedgerLaws.OpenSpendsNotional` | core/execute.py:46-107 | an unsized open spends exactly its notional at a price moved against it by the slippage, and pays the fee on it |
| `LedgerLaws.SizedOpenTakesTerms` | core/execute.py:109-182 | a sized open buys its own quantity at such a price and takes over its levels and plan |
| `Slippage.SlippageDefined` | core/execute.py:331-341 | the square-root impact is defined for every non-negative notional, whatever the depth |
| `Slippage.SquareRootLaw` | core/execute.py:331-341 | with a true root, the squared impact times the depth is proportional to the notional; without a known depth the impact is flat |
| `Slippage.QuadrupleDoubles` | core/execute.py:331-341 | four times the notional costs twice the basis points, and so does a quarter of the depth |
| `Ledger.SumReplace` | core/contracts.py:253-259 | replacing one position changes a sum over the book by exactly that position's share |
| `Attribution.EntryValue` | core/execute.py:151-182 | a fresh position is worth minus its entry slippage on the marked notional |
| `Attribution.ExitValue` | core/execute.py:218-246 | a close realizes the open value less the taker fee on the proceeds and the slippage on the marked notional |
| `Attribution.TickExplained` | core/execute.py:248-263 | a journal kept from snapshots alone still explains the account after any tick |
| `Attribution.CloseExplained` | core/execute.py:184-246 | the same after any close, including one that raises after accruing |
| `Attribution.StepExplained` | core/execute.py:46-303 | the same after any executor call, successful or not |
| `Attribution.EveryRunExplained` | core/execute.py:46-329 | over every run on any assets, equity is start plus marked P&L plus funding less itemised fees and slippage, and balance is start less opening fees plus realized closing P&L |
| `RoundTrip.TicksTelescope` | core/execute.py:248-263 | over any ticks the marked P&L telescopes to the whole move and the funding is the sum of its parts |
| `RoundTrip.BeforeClose` | core/execute.py:109-263 | the account after an open and any ticks, in terms of the snapshots alone |
| `RoundTrip.TradeResult` | core/execute.py:109-246 | what a whole trade does to equity for any marks: move on the units held, both fees, both impacts, funding |
| `RoundTrip.TradeCost` | core/execute.py:109-246 | the cost of a trade at a constant mark, leg by leg |
| `RoundTrip.RealisedOnOwnSide` | core/execute.py:109-246 | at a constant market the trade costs the two fees, the two slippages and the funding of the side actually traded |
| `RoundTrip.PredictedEqualsRealised` | core/cost.py:43-135 | at constant mark, depth and rate, open, any ticks and close move equity by exactly the predicted round trip, plus (long) or minus (short) the fee on the slipped part, exactly when forecast and trade are on the same side or the funding leg is zero |
| `RoundTrip.OtherSideCosts` | core/cost.py:75-93 | one trade where they differ: a short at a positive rate priced for a rising forecast |
| `RoundTrip.QuoteAdds` | core/cost.py:75-135 | the edge is the move promised on the favoured side less the round trip, the round trip is the sum of its legs, and tradeable means an edge above epsilon |
| `RoundTrip.QuoteMirrorsIff` | core/cost.py:75-135 | a falling market with the opposite funding is quoted as the rising one exactly when the forecast tells the sides apart or promises nothing at no funding, and at the same edge exactly when it does or promises just the funding of a long |
| `RoundTrip.EdgeRealised` | core/cost.py:75-135 | a trade on the forecast's side whose mark moves as forecast, at the same rate and slippage, earns its quoted edge less the cost of leaving on the added value, plus (long) or minus (short) the exit fee on the slipped part |
| `Leverage.ChooseLeverage` | core/leverage.py:56-128 | the reduction loop terminates and returns the specified leverage and caps, with the three refusals |
| `Leverage.ReduceIsGeometric` | core/leverage.py:119-125 | the loop multiplies by 0.8 the least number of times that stops it |
| `Leverage.ChosenIsLeastReduction` | core/leverage.py:117-128 | the result is max(1, start x 0.8^k) for the least such k, and meets the drag ceiling or is exactly 1 |
| `Leverage.ChosenNonIncreasing` | core/leverage.py:119-126 | more absolute funding or a longer hold never raises the leverage |
| `Leverage.RespectsCapsIff` | core/leverage.py:102-128 | the leverage respects all three caps exactly when each cap is at least 1 |
| `Leverage.LiquidationBeyondStop` | core/leverage.py:105-128 | with those caps the reciprocal of the leverage covers four stop distances plus half the reciprocal of the venue cap |
| `Leverage.DefaultCapsRespectedIff` | core/leverage.py:102-128 | with the default caps per tier the leverage respects all three caps exactly when the liquidation cap is at least 1 |
| `Leverage.WiderStopMonotoneIff` | core/leverage.py:105-126 | no wider stop gets more leverage exactly when, at the caps of this stop, no reduction is needed, no leverage above 1 meets the ceiling, or the reduction ends exactly at it |
| `Leverage.WiderStopRaisesLeverage` | core/leverage.py:117-125 | one pair of stops of which the wider gets more |
| `Indicators.ComputeEma` | core/indicators.py:34-52 | the running-value loop computes the recursive average, with its refusals |
| `Indicators.ComputeAtr` | core/indicators.py:88-107 | the two loops compute the Wilder mean of the true ranges |
| `Indicators.ComputeRsi` | core/indicators.py:110-132 | the paired running averages compute the specified index, with the zero-loss branch |
| `Indicators.Smooth` | core/indicators.py:163-167 | the appended list holds the Wilder sum at every index |
| `Indicators.ComputeAdx` | core/indicators.py:135-184 | the loops compute the specified index and directional pair, skipping low-range steps |
| `IndicatorLaws.EmaConvex` | core/indicators.py:34-52 | the average is a convex combination of all closes and lies between their least and greatest |
| `TrendLaws.EmaLag` | core/indicators.py:34-52 | on closes along a straight line the average trails the last close by (n - 1) / 2 steps, whatever the number of candles |
| `IndicatorLaws.WilderFormsAgree` | core/indicators.py:96-107 | at every length the running sum is n times the running mean of the same series |
| `IndicatorLaws.SmoothedTrueRangeIsAtr` | core/indicators.py:163-169 | so the last smoothed true range inside adx is n times the ATR |
| `IndicatorLaws.AdxBounds` | core/indicators.py:149-184 | on well-formed candles both directional indicators are non-negative, sum to at most 100, and the index is in 0..100 whichever steps are skipped |
| `IndicatorLaws.AtrWithinRanges` | core/indicators.py:88-107 | the ATR lies between any bounds on the true ranges it smooths |
| `TrendLaws.TrueRangeSpans` | core/indicators.py:88-107 | the true range is the span of the candle and the close before it |
| `TrendLaws.AtrMovesOneNth` | core/indicators.py:88-107 | a further candle moves the ATR one n-th of the way to its own range |
| `TrendLaws.ClimbingIsFull` | core/indicators.py:135-184 | on candles whose lows hold and whose highs rise, by more than epsilon percent of the range, the index is 100 and all the pressure is upwards |
| `TrendLaws.SteadyClimb` | core/indicators.py:135-184 | with a constant step and range the upward pressure is the step in percent of the range |
| `TrendLaws.AdxMovesOneNth` | core/indicators.py:135-184 | a further candle whose smoothed range vanishes changes nothing; any other moves the index one n-th of the way to its own step, or by one n-th of it before the first n steps |
| `TrendLaws.AdxMirrors` | core/indicators.py:135-184 | turning the prices upside down swaps the two pressures and leaves the index and the refusals alone, on any candles |
| `TrendLaws.DescendingIsFull` | core/indicators.py:135-184 | on falling candles the index is 100 and all the pressure is downwards |
| `IndicatorLaws.RsiBounds` | core/indicators.py:110-132 | the index lies in 0..100 on any candles and never divides by zero |
| `TrendLaws.RsiIsShare` | core/indicators.py:110-132 | unless the losses vanish, the index is the gains in percent of all moves |
| `TrendLaws.RsiMirrorsIff` | core/indicators.py:110-132 | upside down the index reads 100 less, exactly when neither average is a trace below epsilon and not both vanish |
| `TrendLaws.NeverFallingReads100` | core/indicators.py:110-132 | closes that never fall read 100 |
| `TrendLaws.TagIs` | core/regime.py:112-127 | the tag is up or down exactly with an index of 25 and averages half a percent apart, that way |
| `TrendLaws.OneSidedTag` | core/regime.py:112-127 | on climbing or descending candles the averages alone decide the tag: up from half a percent apart, down from half a percent the other way |
| `TrendLaws.StraightClimbIsUp` | core/regime.py:112-127 | climbing candles that close on a straight line are tagged up exactly when 15 steps are half a percent of the slow average, 24.5 steps behind the last close |
| `TrendLaws.SteadyRise` | core/regime.py:112-127 | 51 candles rising from 100 by one have an index of 100 and are tagged up |
| `VolLaws.VolBands` | core/regime.py:129-141 | the volatility tag is the band the short ATR falls in, in terms of the long one |
| `VolLaws.FundingLeans` | core/regime.py:143-152 | the funding tag leans with the sign of the rate, turns round with it, and never cools as the rate or the tier heats up |
| `VolLaws.LogReturnsOkIff` | core/indicators.py:70-85 | the log returns of a window exist exactly when its closes have one sign |
| `VolLaws.ReturnsTelescope` | core/indicators.py:70-85 | they add up to the logarithm of the whole growth |
| `VolLaws.RealizedVolOkIff` | core/indicators.py:70-85 | realized volatility exists exactly when the closes of its window have one sign |
| `VolLaws.RealizedVolSquared` | core/indicators.py:70-85 | its square times n (n - 1) is n times the squared returns less the square of the whole growth |
| `PriceUnit.AtrScales` | core/indicators.py:88-107 | requoting prices c times higher scales the ATR by c and keeps its refusals |
| `PriceUnit.AdxInvariant` | core/indicators.py:135-184 | requoting leaves adx and both directional indicators alone when the epsilon guards fall the same way |
| `PriceUnit.RealizedVolInvariant` | core/indicators.py:70-85 | requoting leaves realized volatility alone |
| `PriceUnit.RegimeInvariant` | core/regime.py:92-153 | requoting leaves the regime tag alone |
| `PriceUnit.SizeInvariant` | core/sizing.py:104-244 | requoting leaves notional, leverage, caps and margin alone, divides the quantity by c and multiplies stop and take by c |
| `Regimes.PlaybookMultiplier` | core/regime.py:187-197 | every playbook share lies between 0 and 1.3 |
| `Regimes.PlaybookMirrorsIff` | core/regime.py:187-197 | the playbook treats both directions alike, except for the probe into a compressed uncrowded trend |
| `Stops.AtrMultiplier` | core/stops.py:42-90 | every stop multiple lies between 1.5 and 3.5 ATRs |
| `Stops.RMultiple` | core/stops.py:93-112 | every reward multiple lies between 1.5 and 3 |
| `Sizing.TierRiskMultiplier` | core/sizing.py:132-134 | every tier share lies between 0.2 and 1 |
| `EntryLaws.TiersAreOrdered` | core/sizing.py:42-47 | a later tier risks less on a stop no tighter, wilder volatility never tightens the stop, and the first two tiers are those the venue allows 25 and 20 times |
| `EntryLaws.RewardsAgree` | core/stops.py:93-127 | trends aim further than ranges, furthest where the playbook risks most, alike upside down; soft stops go with the widest stops, limit stops with the first two tiers |
| `RiskBudget.SizedShape` | core/sizing.py:123-200 | a sized trade keeps its candidate, tier and regime, has a known side, the stop one plan distance against it and the take its R-multiple of that with it, and the budgeted quantity |
| `RiskBudget.QuantityRisksBudget` | core/sizing.py:155-167 | quantity times stop distance is the budget exactly when the stop exceeds epsilon, and the quantity is zero otherwise |
| `RiskBudget.RiskTargetsVolatility` | core/sizing.py:128-167 | the risk of a stop-out times the annual volatility is the base risk, scaled by tier and playbook, times the target; where the market is too calm the cap replaces the scale |
| `RiskBudget.WilderMarketNoLarger` | core/sizing.py:141-149 | at the same stop distance a more volatile market never gets a larger quantity |
| `EntryLaws.AnnualVolSquared` | core/sizing.py:141-149 | the annual volatility over the last 720 returns at most: its square in terms of squared returns, whole growth and 8760 hours |
| `RiskBudget.DragCoversFunding` | core/leverage.py:112-126 | whatever leverage above 1 is chosen, the funding the executor charges over the expected hold at that rate and mark stays within the drag ceiling of the margin |
| `RiskBudget.BudgetBounded` | core/sizing.py:128-152 | the budget is at most 1.3 times the volatility cap times the base risk of a non-negative equity |
| `RiskBudget.DefaultBudgetBounded` | core/sizing.py:128-152 | with the default configuration that is 3.25 times the base risk |
| `RiskBudget.NoEquityNoQuantity` | core/sizing.py:128-167 | an account without positive equity is never given a quantity |
| `RiskBudget.StopOutLosesBudget` | core/execute.py:265-299 | a sized position whose mark reaches its stop loses exactly its budget, plus the gap past the stop, plus itemised fees and slippage, less funding |
| `RiskBudget.TakeOutEarnsMultiple` | core/execute.py:265-299 | one whose mark reaches its take gains its R-multiple of that risk, plus the gap past the take, less the same costs |
| `Aggregate.AggregateTo1h` | cli/run.py:538-572 | bucketing, sorting and rolling up computes the specified hourly candles |
| `AggregateLaws.HourlyExact` | cli/run.py:550-572 | hour stamps strictly increase and each candle has its hour's first open, last close, highest high, lowest low and volume |
| `AggregateLaws.HourlyKeepsIff` | cli/run.py:550-572 | a candle is stamped with an hour exactly when that hour has a candle and is full or followed by a later one |
| `AggregateLaws.OnePassAgrees` | cli/run.py:550-572 | on time-ordered candles bucketing equals one pass over them |
| `AggregateLaws.VolumeConserved` | cli/run.py:558-572 | volume is conserved except for a dropped last hour of fewer than twelve candles |
| `AggregateLaws.SplitsAtHour` | cli/run.py:558-572 | at an hour boundary followed by candles, the roll-up of the whole is the kept roll-up of the first part and the roll-up of the second |
| `AggregateLaws.HourlyWellFormed` | cli/run.py:561-571 | rolling up keeps candles well-formed |
| `AggregateLaws.AdxBoundsOnHourly` | cli/run.py:538-572 | so the directional bounds hold on the candles the classifier sees |
| `AggregateLaws.HourlyRequotes` | cli/run.py:538-572 | rolling up commutes with requoting, so price-unit invariance reaches the raw candles |
| `DeskUnits.PlanUnitFree` | cli/run.py:629-690 | from the raw candles through roll-up, regime, override, sizer and gates, another price unit gives the same verdict with the same reason, and the same trade when it goes through |
| `DeskUnits.BtcRegimeUnitFree` | cli/run.py:575-596 | the BTC tag is the same in any price unit |
| `DeskLaws.TickKeepsTerms` | core/execute.py:248-263 | marking never changes a position's asset, side, size, entry, stop, take or plan |
| `DeskLaws.CloseSucceeds` | core/execute.py:210-246 | a position of positive size closes without an exception at any non-negative mark |
| `DeskLaws.CloseRaisesIff` | core/execute.py:210-216 | a held position's close raises exactly when the mark is negative and the book depth is known |
| `DeskLaws.GatePassed` | cli/run.py:669-690 | the last gates pass exactly the trades with a size, a promised move that clears their own round trip by the floor, and room under every limit; the uncaught cost exception happens exactly on an asset mismatch |
| `RiskGate.FirstObjectionVetoes` | core/risk.py:56-99 | the verdict is that of the first rule that objects |
| `EntryLaws.ClassifyOkIff` | core/regime.py:92-141 | a regime can be told exactly from 51 candles on |
| `EntryLaws.SizeOkIff` | core/sizing.py:123-200 | the sizer refuses exactly a missing side, a mark, range or window of closes that is not positive, too few candles, and a negative hold for a trade with a size |
| `EntryLaws.EntryGoesIff` | cli/run.py:629-690 | exactly which entries go through: side, quote, 51 sizable hourly candles, positive size, edge after own cost, free slot, notional and exposure; nothing else can stop one |
| `EntryLaws.CrisisStopsEntry` | cli/run.py:575-676 | no coin is entered while its short range is 1.8 times its long one, nor while that is so of BTC, nor, unless it falls itself, while BTC falls in expanded volatility |
| `EntryLaws.BtcCrowdStopsEntry` | core/regime.py:155-184 | a crowded BTC stops entries with its crowd on every uncrowded coin in a normal trend |
| `EntryLaws.BtcIsItsOwn` | cli/run.py:650-653 | BTC itself is never overridden |
| `DeskLaws.PlanPassed` | cli/run.py:629-690 | what a trade that goes through has passed, the mark strictly between its levels included, and that the pipeline raises only on a forecast for another asset |
| `DeskLaws.StoredIff` | cli/run.py:698-744 | a row is stored exactly when the agent text that is kept can be encoded and the database takes it; otherwise the append raises |
| `DeskLaws.FulfilSound` | cli/run.py:692-787 | a fill keeps account, remembered trades and links in step exactly when its row can be stored; otherwise the position is left open and remembered with no row, link or submission |
| `DeskLaws.ExposureAdds` | core/contracts.py:257-259 | an open raises exposure by exactly its sized notional |
| `DeskLaws.EnterSound` | cli/run.py:602-789 | an entry raises exactly when it opens a position whose row cannot be stored, and strands that position; otherwise the three books stay equal, a veto leaves the desk untouched, and any open is within the exposure cap |
| `DeskLaws.NoEquityNoOpen` | cli/run.py:663-676 | without equity an entry changes nothing |
| `DeskLaws.CloseHeldSound` | cli/run.py:824-848 | a decision to close never raises, keeps the books equal and leaves the asset flat |
| `DeskLaws.TickAssetSound` | cli/run.py:934-982 | marking and firing stops never raises and keeps the books equal |
| `DeskLaws.ApplySound` | cli/run.py:792-886 | a decision, however malformed or stale, raises exactly when it opens a position whose row cannot be stored; in every other case the books stay equal |
| `DeskLaws.EveryRunSound` | cli/run.py:891-1048 | over every run no exception of executor or cost model is reachable; while nothing is raised at most max_positions positions are open, each of positive size and capped entry notional, and positions, remembered trades and links agree on assets, side, size, entry, stop and take; the one exception that can end a run is that of the append, and it strands one position |
| `DeskLaws.StorableRunSound` | cli/run.py:891-1048 | a run whose decisions can all be stored never raises and always keeps the books equal |
| `PassLaws.PassAccount` | cli/run.py:934-982 | whatever the order of the walk, the positions left are those whose mark lies inside their levels, each rolled to its own snapshot, and the balance has moved by what the others closed at |
| `PassLaws.OrderDoesNotMatter` | cli/run.py:934-982 | two orders of the walk leave the same account |
| `PassLaws.PassBrackets` | cli/run.py:930-1022 | after any pass, decisions and exceptions included, every held asset with a snapshot has its mark strictly between its stop and its take |
| `PassLaws.DrainSplits` | cli/run.py:1000-1022 | two batches of decisions are drained one after the other, with the replies in their order |
| `PassLaws.DecisionAnswered` | cli/run.py:1000-1022 | without a snapshot a decision is vetoed for that and nothing moves; with one it touches no other asset, and a kept entry is held |
| `DeskTrail.EveryDeskRunExplained` | cli/run.py:891-1048 | over every run of the loop, even one ended by an exception, equity and balance are fully attributed and the recent fills are the last twenty of the executor |
| `DeskTrail.EveryRunPapered` | cli/run.py:696-787 | over every run, also one ended by an exception, each submitted record was stored, each link has a stored decision for its asset and side, and the feed keeps distinct ids and its bound |
| `WriteAhead.FillBeforeRow` | cli/run.py:692-744 | no open is written ahead: when the fill is booked the position is held while log, board and submissions are those of before; its row follows exactly when it can be stored |
| `WriteAhead.TrailIsThreeSteps` | cli/run.py:744-787 | the paper trail of an open is the composition of the trading thread's atomic store, show and submit |
| `WriteAhead.LoneSurrogateStrands` | cli/run.py:692-744 | one input, a reasoning of a single lone surrogate, for which the fill stands and nothing of the open is written down |
| `WriteAhead.EveryRunBacked` | cli/run.py:692-744 | over every run that raised nothing, with auditing on, each open position of the account has a stored decision for its asset, side and size; an exception leaves at most one without |
| `WriteAhead.StoredRowTells` | cli/run.py:698-744 | the stored row of an open: the agent's own words cut to 2048, and a trade that waits for outcome and anchor |
| `WriteAhead.OpenIsTold` | cli/run.py:745-785 | link and newest feed entry tell the trade that was sized and the position that was bought, and wait for its anchor |
| `WriteAhead.RestartShowsDecision` | agent/snapshot.py:286-323 | the entry a restart rebuilds from the stored row is the one the open showed, with the regime spelled out and without entry price and edge |
| `WriteAhead.RestartShowsAnchor` | agent/snapshot.py:286-323 | once the worker's row is stored, a restart shows the anchor its report put on the board |
| `DeskTrail.CloseIsTold` | cli/run.py:824-883 | a decided close tops the trade history with what the link said, the gain of the account, times, duration, percentage and reason |
| `DeskTrail.LevelCloseIsTold` | cli/run.py:951-982 | so does a close by a level, under the label of its slipped price |
| `DeskTrail.DecidedCloseIsTold` | cli/run.py:824-886 | a cut or flip is told under its own name, whatever becomes of the entry after a flip |
| `DeskTrail.TakeLabelIff` | cli/run.py:957-970 | an automatic close is labelled take exactly when the mark, moved by the slippage of the exit, still clears the take level, and then the mark really reached it |
| `DeskTrail.TakeLabelledStop` | cli/run.py:960-970 | a concrete take that one basis point of slippage turns into a stop label |
| `DeskTrail.ApplyOutcome` | cli/run.py:792-886 | what each action leaves held, that a vetoed flip leaves the asset flat, and that no other asset is touched |
| `Runner.TradingLoop.PlanEntry` | cli/run.py:629-690 | the in-place pipeline reads the account and returns the specified plan |
| `Runner.TradingLoop.LeaveTrail` | cli/run.py:698-787 | audit row, board and submission change exactly as specified behind their three switches; an exception of the append leaves the other two undone |
| `Runner.TradingLoop.EnterSized` | cli/run.py:602-789 | the method leaves exactly the specified desk and reply |
| `Runner.TradingLoop.CloseHeld` | cli/run.py:824-848 | the same for a decided close |
| `Runner.TradingLoop.Apply` | cli/run.py:792-886 | the same for every action, flips included |
| `Runner.TradingLoop.FireStops` | cli/run.py:951-982 | the same for the stop check, its label and its booking |
| `Runner.TradingLoop.TickAsset` | cli/run.py:934-982 | the same for marking and then firing one asset |
| `Runner.TradingLoop.TickAll` | cli/run.py:934-982 | the same for all open positions, visited once each in some order |
| `Runner.TradingLoop.BtcRegime` | cli/run.py:575-596 | the BTC tag is the classification of its hourly candles, or absent |
| `Runner.TradingLoop.Drain` | cli/run.py:1000-1022 | the decisions of a completed call are applied in order, missing snapshots vetoed |
| `Runner.TradingLoop.Step` | cli/run.py:930-1022 | one pass leaves exactly the specified desk, replies and exception |
| `Feed.RecordKeepsFeed` | agent/snapshot.py:235-247 | recording moves to the front, keeps ids distinct and the feed within thirty |
| `Feed.ClosesCollapseIff` | agent/snapshot.py:210-233 | after two closes the first is still on the feed exactly when asset or exit time differ; the trade history keeps both |
| `Feed.WindowCommutes` | agent/snapshot.py:235-247 | removing an id before or after cutting to the bound shows the same first entries |
| `Feed.ReplayShowsHistory` | agent/snapshot.py:272-323 | the bounded feed is the newest part of the unbounded history, whatever fell off in between |
| `Feed.LatestIs` | agent/snapshot.py:274-285 | a row no later row supersedes is picked by the query |
| `Feed.LatestIdempotent` | agent/snapshot.py:274-285 | picking the newest row of each id from picked rows changes nothing |
| `Feed.HydrationEqualsReplay` | agent/snapshot.py:253-323 | hydrating from the newest row of each id equals replaying every row: newest state of each record, latest first, cut to thirty, distinct ids |
| `Snapshots.SnapshotState.RecordEquity` | agent/snapshot.py:74-81 | a full equity curve drops its oldest sample |
| `Snapshots.SnapshotState.RecordOpen` | agent/snapshot.py:83-115 | the link of the asset is replaced and waits for its anchor |
| `Snapshots.SnapshotState.UpdateAnchor` | agent/snapshot.py:117-142 | the link of the asset, if it has the audit id, and every feed entry with that id are stamped in place, as the value-level update does |
| `Snapshots.SnapshotState.RecordDecision` | agent/snapshot.py:235-247 | the loop over a copy with in-place removal is the move-to-front function |
| `Snapshots.SnapshotState.RecordClose` | agent/snapshot.py:144-233 | the link leaves the map and its data arrives in trade history and feed |
| `Snapshots.HydrateFromAuditStore` | agent/snapshot.py:253-323 | start-up from stored text leaves the feed that replaying every trading row gives |
| `Snapshots.LatestRows` | agent/snapshot.py:274-291 | the grouped query picks the rows of the newest trading state of each id, in row order |
| `Utf8.DecodeEncode` | agent/audit.py:185-190 | decoding undoes UTF-8 encoding for every string |
| `Utf8.EncodeDecode` | dashboard/app.js:82 | only encodings decode: overlong forms, surrogates and stray bytes are refused |
| `Utf8.EncodeInjective` | agent/audit.py:185-190 | different strings have different bytes |
| `Utf8.EncodesIff` | agent/audit.py:185-190 | strict encoding fails exactly on text with a lone surrogate, and otherwise gives the bytes of its characters |
| `Json.SortKeysSorts` | agent/audit.py:185-190 | keys are printed in strictly increasing code-point order, none left out |
| `Json.QuoteLiteral` | agent/audit.py:185-190 | reading an escaped string literal gives the string back |
| `Json.ReadPrinted` | agent/audit.py:185-190 | reading a printed value returns it and leaves what followed |
| `Json.LoadsPrint` | agent/audit.py:352-355 | parsing the canonical text of any nested value gives the value back |
| `Audit.FromDictAsDict` | agent/audit.py:352-355 | keyword construction from a record's dictionary gives the record |
| `Audit.RecordRoundTrip` | agent/audit.py:352-355 | reading the canonical text of a record gives the record, for nested blocks and any text |
| `Audit.PreimageInjective` | agent/audit.py:193-204 | equal preimages come from equal records, so the anchor hash commits to every field |
| `Audit.AnchoredRowCommitsIff` | agent/anchor_worker.py:121-129 | the row written after anchoring has the committed preimage exactly when it adds no anchor field |
| `Audit.AuditStore.Append` | agent/audit.py:259-291 | the record is encoded first and inserted second; a failure of either raises and leaves the store as it was, otherwise one row is added at the end |
| `Audit.SealedReopened` | agent/audit.py:185-190 | a record that was stored can always be encoded again, to the same record |
| `Audit.AuditStore.Latest` | agent/audit.py:293-306 | the newest row of an id, read back from its text, is its latest state |
| `Audit.AuditStore.ListPending` | agent/audit.py:308-333 | the waiting trades in row order, with the age floor applied to the parsed records |
| `Audit.WaitingIs` | agent/audit.py:308-333 | the query keeps exactly the pending trades that are old enough |
| `Audit.AnchoringKeepsWaiting` | agent/audit.py:308-333 | an anchored state is listed beside the one it was made of |
| `Audit.AuditStore.Count` | agent/audit.py:335-340 | the number of states stored |
| `Audit.LastOfIs` | agent/audit.py:293-306 | the latest state is the last one carrying the id, and exists exactly when one does |
| `Anchoring.StepMovesWork` | agent/anchor_worker.py:72-144 | each atomic step moves work from the queue's back to its front, the worker's hand, and the processed |
| `Anchoring.EveryInterleaving` | agent/anchor_worker.py:72-144 | under every interleaving: write-ahead, first-in first-out accounting, draining discipline, and every link and feed entry carries the last stamp of its own id |
| `Anchoring.ReportReaches` | agent/snapshot.py:117-142 | on the board itself: a transaction completes the link of its record and every feed entry of it, a failure without one marks them, anything else leaves the board alone |
| `Anchoring.CloseCarriesAnchor` | agent/snapshot.py:168-233 | the closed trade and its feed entry keep the anchor the link carried |
| `Anchoring.AnchoredAfterStored` | agent/anchor_worker.py:121 | the chain client is only given records that are already stored |
| `Anchoring.LatestIsSubmitted` | agent/audit.py:293-306 | the latest state of a submitted record, with its anchor fields cleared, is the submitted record |
| `Anchoring.LatestAfterAppend` | agent/anchor_worker.py:123-129 | the worker's row becomes the latest state of its own record and of no other; a failed append changes nothing |
| `Anchoring.StaleResultHarmless` | agent/snapshot.py:132-142 | a result never stamps the link or feed entry of another record, such as a newer open on the same asset |
| `Anchoring.HaltedMeansDrained` | agent/anchor_worker.py:95-115 | an accepted pill means everything accepted was processed at the halt; otherwise exactly the queued work is left |
| `Anchoring.DrainEnds` | agent/anchor_worker.py:105-115 | after an accepted pill only worker steps remain and each brings the halt closer |
| `Anchoring.WorkerNeverStuck` | agent/anchor_worker.py:105-115 | until it has halted the worker always has a step |
| `AnchorWorker.JobIsThreeSteps` | agent/anchor_worker.py:117-144 | the code for one job is the composition of its atomic steps |
| `AnchorWorker.Worker.Submit` | agent/anchor_worker.py:72-90 | a full queue drops the job and nothing else changes |
| `AnchorWorker.Worker.Close` | agent/anchor_worker.py:95-101 | a pill goes behind the queued work, or the stop flag is set when there is no room |
| `AnchorWorker.Worker.AnchorOne` | agent/anchor_worker.py:117-144 | appends the anchored state only on success and reports complete, error or nothing |
| `AnchorWorker.Worker.Run` | agent/anchor_worker.py:105-115 | the loop serves the queue in order up to the pill and stops exactly when it meets one |
| `Description.DecodeCreateJobDescription` | dashboard/app.js:68-83 | the byte-filling loop decodes the description in call data, or nothing when the layout does not fit |
| `DescriptionLaws.DecodeEncodeCall` | dashboard/app.js:54-83 | the decoder finds the description in the call that carries it, for every other argument |
| `DescriptionLaws.HashSplit` | dashboard/app.js:105-106 | no hash match straddles a space |
| `DescriptionLaws.AuditSplit` | dashboard/app.js:122-124 | no audit-id match straddles the space after the asset |
| `DescriptionLaws.DescriptionShape` | agent/on_chain.py:364-402 | every printed description is header, asset, text that starts no match, and the ending |
| `DescriptionLaws.ParsePrinted` | dashboard/app.js:102-126 | the parser finds what the asset name offers first, otherwise the record's own short id and hash |
| `DescriptionLaws.DashboardReadsChain` | agent/on_chain.py:347-402 | through encoding, decoding and parsing, short id and hash come back exactly when the asset name holds no other id or hash |
| `DescriptionLaws.DescriptionSpeaks` | agent/on_chain.py:347-402 | the description of a stored open says asset, side, quantity, leverage, notional, stop before take, tier, regime, short id and hash of that very trade, in this order |
| `DescriptionLaws.JoinSplits` | agent/on_chain.py:402 | between two parts stands exactly one separator |
| `DescriptionLaws.CodesTellApart` | agent/on_chain.py:405-414 | the regime codes tell every regime apart |
| `DescriptionLaws.LoopRecordsRegular` | cli/run.py:698-743 | every record the loop writes has the labels that result needs |
| `DescriptionLaws.PlainSymbol` | dashboard/app.js:102-126 | a symbol without white space and shorter than a hash never misleads the parser |
| `DescriptionLaws.MisleadingAsset` | dashboard/app.js:122-124 | an asset name that spells out an audit id takes the place of the record's |
| `MetaCache.EveryInterleaving` | core/data.py:292-312 | for any number of threads: one at a time in the locked region, stamps never go back, a cached payload is younger than the TTL at the caller's own reading, and any other is the caller's own fetch of that call |
| `MetaCache.ReturnedWasFetched` | core/data.py:292-312 | every returned payload was fetched by some thread |
| `MetaCache.LookHitsIff` | core/data.py:292-310 | a look serves the cache exactly when it holds something younger than a positive TTL |
| `MetaCache.OnePost` | core/data.py:300-312 | at most one fetch is in flight |
| `MetaCache.NoTtlNoHits` | core/data.py:294-299 | without a TTL nothing is served from the cache |
| `MetaCache.ColdBurst` | core/data.py:292-312 | when second looks fall within the TTL a cold burst makes at most one successful fetch, and exactly one once a payload was returned |
| `AgentMachine.EveryInterleaving` | cli/run.py:1000-1039 | at most one call is pending, launches are a period apart, results are applied once and in launch order, and lost only when finishing between the poll and the check of the relaunching pass |
| `AgentMachine.LaunchTakes` | cli/run.py:273-277 | a launch is never refused by the second in-flight test |
| `AgentMachine.LostIffRelaunched` | cli/run.py:1000-1039 | a result that finished between the poll and the check is lost exactly when that check finds the next call due and worth making; otherwise the only steps left lead to the poll that applies it |
| `AgentMachine.LossHappens` | cli/run.py:270-292 | whatever the period, a run reaches that window and loses the result |
| `Agent.AgentScheduler.ShouldCall` | cli/run.py:218-221 | due exactly when never started or a period has passed |
| `Agent.AsyncAgent.InFlight` | cli/run.py:270-271 | busy exactly while the call in the slot is pending |
| `Agent.AsyncAgent.Start` | cli/run.py:273-277 | submits unless one is in flight, overwriting a finished call |
| `Agent.AsyncAgent.Poll` | cli/run.py:279-292 | hands over a finished result once |
| `Agent.Pass` | cli/run.py:1000-1039 | the drain-then-launch part of a pass performs the specified machine actions |

## Left out

- Network and process I/O: market data sources, HTTP, encryption and polling, git pushes, file writes. Responses are parameters of the steps they arrive in.
- sqlite: the store is a sequence of rows, its queries are the functions and methods of `Audit` and `Snapshots`, and whether an insert is taken is an input.
- Asset names and the wallet address come from the command line and the environment and are taken to be encodable text; printing the agent's text to the terminal.
- Keccak and the function selector: a constant and the preimage; digests of inputs are parameters.
- The language model, the rule synthesizer, forecasts and their logistic: decisions, forecasts and their quality are arbitrary inputs.
- `allocate`, the agent's read-only tools, terminal rendering, the snapshot file and the dashboard's drawing: views that add only easy members. `have_signal` is a parameter of the agent machine.
- Floating-point rounding, NaN and infinities.
- The sizing audit dictionary and the skipped Kelly step of the sizer; the unused simple average and rate of change.
- ISO timestamps: clock readings are strings supplied from outside, bar times are integers, and a close is keyed by asset and time rather than by their concatenation.
- Sharing of dictionaries between the board's lists: entries are values, and a stamp replaces the entry.
- Lone surrogates and surrogate pairs in JSON escapes, and the replacement characters of a non-fatal text decoder: the readers return nothing there. The printer never produces either.
- Malformed hexadecimal in call data: the decoder returns nothing where `parseInt` would read a prefix.
- The summary that the dashboard's parser cuts out of the description for display.
- Lists and objects inside the regime labels of a stored record: hydration shows a question mark for them.
- Thread time-outs: the drain is shown to end, not to end within the time the caller waits; `qsize` and errors raised inside the callback.
- The loop around the passes: equity sampling, the tick counter and the status text at the end of a pass are modelled as calls of the board object, not as part of a pass.
