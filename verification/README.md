# Verified model of the XAU/USD trading bot

This Dafny project models the parts of the bot whose correctness is hard to see from any single
function, and proves what they promise over whole runs. `dafny verify dfyconfig.toml` checks it.

Prices, volumes and equity are exact reals, the paper account counts whole cents, and times are
integer minutes. A component that works by changing state in place is a class whose methods are
proved equal to functions on values; the theorems are about those functions, so they hold of the
methods. The broker, the strategy, the clock and the operator are parameters: the theorems hold for
everything they could do, within the assumptions that each theorem names.

## The components

**Order submission under lost confirmations** (`ExecutionStore`, `BrokerTags`, `ExecutionProtocol`,
`ExecutionSafety`, `ExecutionEngine`, `MockBroker`, `EngineOnMock`). The broker may fill and reply,
fill and lose the reply, not fill and lose the reply, or refuse. A ghost log of what it really
filled stands beside the engine's records. Two assumptions are explicit: a definite reply tells the
truth, and a crash does not fall between the broker's answer and the write of the record; a critical
audit write may raise after it. The repository's mock broker, faults included, is proved to keep the
first, and the engine's results are then proved of runs against it.

**Position management** (`PositionModel`, `PositionSafety`, `PositionMirror`, `PositionMonitor`,
`Reconciliation`, `TradingLoop`, `TradingSession`). One ticket is a slot: the broker's position, the
stored record, membership in the monitor's in-memory sets, and the truth about applied actions,
which only the reader knows. Every broker call ends done, refused or lost, and a lost one may have
happened. A session is any sequence of cycles, changes made outside the loop, resolutions and
restarts.

**Walk-forward backtest** (`Resampling`, `Costs`, `TradeHistory`, `Guards`, `Sizing`, `Gates`,
`Backtest`, `BacktestRuns`, `BacktestRules`, `BacktestLimits`, `BacktestStreaks`, `PositionLife`,
`BacktestEngine`). The strategy is any function of the closed candles it is shown; guards, sizing,
costs, resampling and position management are concrete.

**Paper ledger** (`PaperLedger`, `PaperMoney`, `PaperLaws`, `PaperAccount`, `PaperAdapter`,
`PaperSession`, `PaperRuntime`, `PaperPartials`, `PaperExcursions`, `ExitAgreement`). Account, order
adapter and the per-candle driver, with a comparison of its exits and the backtest's.

`Common` and `CheckTable` hold shared vocabulary.

## What the proofs found

Some natural claims are false of the code. Each has a lemma showing that it fails and the exact
condition under which it holds.

- A submission can store FILLED and still return no position, because the last audit write raises:
  a position is returned exactly when FILLED was stored and that write succeeded.
- Two order ids share a broker comment exactly when both are too long with equal checksums, or one
  is the digest of the other. A lost short order can then be resolved by a long order's position.
- Clearing a pending action truthfully is not enough for a single partial exit. While only the pending
  entry knows that the exit happened, a force-close that is lost without effect overwrites it, and the
  fraction is taken again exactly when the price triggers it, it is less than what is left, and no lost
  breakeven move comes first. The discipline that keeps the memory is exact step by step, and a whole
  run shows the second exit. A second breakeven move needs more: somebody has to pull the stop back.
- With volatility data one evaluation may move the stop to breakeven and then back, exactly when both
  proposals are made and the trailing stop is the looser one; the trading loop passes no such data, so
  its stops never loosen.
- A refused force-close of a ticket the monitor has never seen leaves it open and untracked.
- The broker's grid is anchored at the minimum volume and the gates' at zero: the broker accepts a size
  that both gates accept exactly when the minimum is itself a whole number of steps, up to the broker's
  tolerance, and a capped size exactly when the distance between the limits is.
- Off the 15-minute grid a closed candle can change later: one more candle takes it back or changes it
  exactly when it belongs to the newest period, that period was already returned, and the candle ends
  before the period's end or shows in the aggregate (a new extreme, another close, volume, or a spread
  off the mean).
- Closing a paper position with a swap amount would break the balance law; the adapter passes zero.
- The paper runtime never tells the monitor that a partial exit was taken, so every candle sells another
  part exactly when its closing price reaches the trigger and the part is less than what is left; a
  session's count is given exactly, and a session from a new account makes two.
- The excursions of a paper position mix units: quotes are counted in money, candles in price. The
  favourable one is the best price move exactly when no quote's profit is a larger number, and the
  adverse one the worst exactly when no quote's loss is.
- Closing a paper position overwrites its partial results, so the account's realized total is the
  closed positions' results plus all partial exits, not the closed positions' results alone.
- `app/positions/reconciliation.py:4-12` documents stops, targets and volumes, and line 27 has a kind
  for changed targets, but the code never compares a target; the model follows the code.
- `app/mt5/mock_client.py:498-508` documents that a second order with a seen id is refused; it is
  filled again exactly when a queued unknown result says that the broker filled it and the quote is
  usable, because that path does not look the id up.

## Model

| member | source | states |
|---|---|---|
| ExecutionStore.ExecutionStateStore.Put | app/execution/state_store.py:125-132 | An upsert by id that keeps every other record; which creation time wins depends on the kind of store |
| ExecutionSafety.PutsAgree | app/execution/state_store.py:185-209 | For every record the engine writes, the dictionary store and the table store end in the same records |
| BrokerTags.Tag | app/execution/engine.py:566-584 | Every broker comment has at most 31 characters, for every id and checksum |
| BrokerTags.TagsCollideIff | app/execution/engine.py:566-584 | Exactly which pairs of ids share a comment |
| BrokerTags.ShortIdsAreInjective | app/execution/engine.py:566-584 | Ids of at most 26 characters never share a comment |
| BrokerTags.HexInjective | app/execution/engine.py:566-584 | The zero-padded hexadecimal digest loses nothing of the checksum |
| ExecutionEngine.Engine.SubmitMarketOrder | app/execution/engine.py:248-505 | The records and fills after a submission for every broker reply; a position is returned exactly when this call stored FILLED with that ticket and the last audit write succeeded; it raises exactly when the broker was reached and the audit failed |
| ExecutionEngine.Engine.AdmittedExactly | app/execution/engine.py:300-345 | Exactly when an order gets to the broker: the account, the symbol, the kill switch, the side, the stop and the volume |
| ExecutionEngine.Engine.ReconcileUnknown | app/execution/engine.py:593-672 | A pass that no audit ends early resolves exactly the UNKNOWN orders whose comment is listed and reports each with its stored ticket; it reports exactly the other UNKNOWN orders as still unknown, and nothing else; a failed listing changes nothing |
| ExecutionEngine.Engine.ResolveUnknownExecution | app/execution/engine.py:674-819 | Only an UNKNOWN record can be resolved, by recognised evidence; every other call is an error that changes nothing. Evidence that claims a fill ends RESOLVED_FILLED and evidence that claims none RESOLVED_NOT_FOUND, each with the given ticket; any other keeps UNKNOWN and its ticket |
| ExecutionProtocol.ResolutionFollowsEvidence | app/execution/engine.py:708-807 | The stored status, ticket and note for every explicit status, and without one for every combination of confirmation, ticket and note; nothing else changes |
| ExecutionEngine.Engine.Reconcile | app/execution/engine.py:945-995 | The notes name exactly the known tickets no longer open and the open tickets not known, and give the number of UNKNOWN records exactly when it is not zero |
| ExecutionSafety.ReconcileOnlyAdopts | app/execution/engine.py:593-672 | A reconciliation pass, early ended or not, only turns UNKNOWN records into RESOLVED_FILLED, each with the ticket of a listed position carrying its comment |
| ExecutionSafety.SweepComplete | app/execution/engine.py:593-672 | A pass not ended early leaves no UNKNOWN order whose comment is listed, and resolves no other |
| ExecutionSafety.StepsMoveLegally | app/execution/state_store.py:53-76 | The status order: only a submission follows "never seen" or RESOLVED_NOT_FOUND, only UNKNOWN can be resolved, and the creation time never changes |
| ExecutionSafety.FilledIsForever | app/execution/state_store.py:53-76 | FILLED and RESOLVED_FILLED are absorbing over every run |
| ExecutionSafety.AtMostOneFill | app/execution/engine.py:248-505 | Over every run of submissions, lost replies, reconciliations, resolutions, raising audits and restarts, no id is filled twice, if definite replies and "not found" resolutions are truthful |
| ExecutionSafety.UntruthfulNotFoundFillsTwice | app/execution/engine.py:700-807 | The hypothesis on "not found" is needed: an untruthful one leads to a second fill |
| ExecutionSafety.ForgetfulRestartFillsTwice | app/execution/state_store.py:125-132 | A store that forgets on restart allows a second fill of the same id |
| ExecutionSafety.BlockedUntilNotFound | app/execution/engine.py:700-807 | Once an id is filled or unknown, every run without a "not found" decision about it keeps it refused and never fills it again |
| ExecutionSafety.FilledExactly | app/execution/engine.py:593-672 | With truthful listings and statements and injective comments, over every run the ids called FILLED or RESOLVED_FILLED have been filled exactly once, and the ids without a record or RESOLVED_NOT_FOUND never |
| ExecutionSafety.SharedTagResolvesWrongly | app/execution/engine.py:593-672 | Without injective comments an order that was never filled is resolved as filled |
| MockBroker.MockClient.PopFault | app/mt5/mock_client.py:172-176 | Takes the oldest queued fault for the call and leaves the others in order |
| MockBroker.MockClient.SubmitOrder | app/mt5/mock_client.py:492-643 | The new state, the reply and the hidden truth for every request, fault and market condition |
| MockBroker.MockClient.ClosePosition | app/mt5/mock_client.py:645-686 | The position is gone exactly when the reply is definite success; no close happens unseen |
| MockBroker.MockClient.ClosePositionPartial | app/mt5/mock_client.py:688-718 | The volume shrinks by the amount asked for, and stays positive, exactly when the reply is definite success |
| MockBroker.MockClient.ModifyPosition | app/mt5/mock_client.py:720-749 | Given levels replace the old ones and missing ones leave them, exactly when the reply is definite success |
| MockBroker.MockIsHonest | app/mt5/mock_client.py:492-643 | A clean failure opened nothing; a success names the one position it opened, under a new ticket with the request's comment; no other position changes |
| MockBroker.FillsExactly | app/mt5/mock_client.py:551-643 | Without a queued fault, exactly when a new order is filled, at the ask plus slippage for a BUY and the bid less slippage otherwise, and what is then held |
| MockBroker.SeenIdIsRefilledExactly | app/mt5/mock_client.py:500-549 | Exactly when an id seen before is filled again |
| MockBroker.MockFillsOnce | app/mt5/mock_client.py:492-643 | Apart from that gap no id is filled twice, over every sequence of orders, queued faults and closes |
| EngineOnMock.EngineOnMockFillsOnce | app/execution/engine.py:248-505 | Over every run of the engine on the mock broker, with queued faults, closes, reconciliations, resolutions and restarts, no id is filled twice, although the engine sends no order id (lines 392-396) and the mock's duplicate check therefore plays no part |
| EngineOnMock.EngineOnMockKnowsItsFills | app/execution/engine.py:593-672 | On such runs, with the mock's own listings and a truthful operator, the ids called FILLED or RESOLVED_FILLED were filled exactly once and the ids without a record or RESOLVED_NOT_FOUND never |
| Gates.EvaluateExecutionGate | app/execution/execution_safety_gate.py:81-134 | Approves exactly the submittable orders; the table holds the outcome of every check on this order, and the reasons are its failed checks in order |
| Gates.EvaluateSafetyGate | app/safety/gate.py:114-231 | Approves exactly the safe orders; the table holds the outcome of every check on this order, those of missing levels left out, and the reasons are its failed checks in order |
| Gates.SafeIsSubmittable | app/execution/execution_safety_gate.py:81-134 | An order that passed the first gate fails the second only through the facts that the second reads anew: the duplicate flag, the kill switch, the permissions and the freshness of the data |
| Gates.LevelsExactly | app/safety/gate.py:170-208 | The levels of an order pass exactly when the stop is below a BUY's entry, or above a SELL's, by at least the broker's distance, and a given target lies on the other side |
| Sizing.RiskIsBounded | app/risk/position_sizing.py:60-92 | For a stop on either side, lots times distance times tick value is at most the configured share of equity times the tick size; the lots are whole steps, none or the maximum; and unless clamped, one more step would lose more |
| Sizing.SizedExactly | app/risk/position_sizing.py:46-72 | A size exists exactly for positive equity, a stop away from the entry, and positive tick size, step and tick value; which error is returned otherwise |
| Sizing.SizeMirrors | app/risk/position_sizing.py:60-72 | A stop above the entry is sized like its mirror image below |
| Sizing.TradableIffAffordable | app/risk/position_sizing.py:74-92 | The size is tradable exactly when some whole number of steps reaches the minimum volume and loses no more at the stop than the configured risk |
| Sizing.TradablePassesGates | app/safety/gate.py:211-228 | Every tradable size is within the limits and passes the separately written step check, unless it was capped at a maximum volume that fails that check itself |
| Sizing.BrokerAcceptsExactly | app/mt5/mock_client.py:571-583 | The broker's grid check, anchored at the minimum, accepts a tradable size exactly when the minimum lies on the step grid up to the tolerance, and a capped size exactly when the distance of the limits does |
| Sizing.TradablePassesBroker | app/mt5/mock_client.py:571-583 | So with limits that are whole steps it accepts every tradable size |
| Sizing.OffGridMinimumIsRefused | app/mt5/mock_client.py:571-583 | A concrete minimum off the grid on which the gates accept a size and the broker refuses it |
| PositionMonitor.Monitor.constructor | app/positions/monitor.py:97-116 | A new monitor's in-memory sets are those of a restart, for every ticket |
| PositionMonitor.Monitor.EvaluatePosition | app/positions/monitor.py:144-235 | The proposals in order, and no effect but a record for a ticket seen for the first time |
| PositionMonitor.Monitor.MarkBreakevenApplied | app/positions/monitor.py:239-270 | The whole new state of the ticket in store and mirror; no other ticket changes |
| PositionMonitor.Monitor.MarkPartialTaken | app/positions/monitor.py:239-270 | As above, with the confirmed volumes added up |
| PositionMonitor.Monitor.RecordPendingAction | app/positions/monitor.py:274-292 | The ticket waits for this action; nothing else changes |
| PositionMonitor.Monitor.ClearPendingAction | app/positions/monitor.py:294-305 | Only a pending action is cleared, and nothing else changes |
| PositionMonitor.Monitor.ForgetTicket | app/positions/monitor.py:310-322 | The ticket leaves both sets and its record is closed |
| PositionSafety.AtMostOnce | app/runtime/loop.py:424-503 | Over the whole life of a position, with lost replies, restarts, changes by hand and operator marks, the broker applies at most one breakeven move and at most one partial exit, each if, while only the pending entry knows that it happened, that entry is not cleared, marked as the other kind or overwritten by a force-close that was lost without effect |
| PositionSafety.MemoryIsKeptExactly | app/runtime/loop.py:424-548 | The discipline asks for no more: once the action was applied, a step keeps the memory of it exactly when it is disciplined |
| PositionSafety.BreakevenMovesOnce | app/positions/monitor.py:168-190 | The breakeven half without any discipline: unless a moved stop is pulled back by hand, it is moved at most once and stays at or beyond the breakeven level, however pending actions are cleared, marked or overwritten |
| PositionSafety.NextPassMovesStop | app/runtime/loop.py:424-456 | A pass moves the stop at the broker exactly when the trigger is reached, no move is remembered and the stop is behind the breakeven level |
| PositionSafety.TwoMovesHappen | app/runtime/loop.py:424-548 | A stop pulled back by hand is moved again in a concrete run of five events from a newly opened position |
| PositionSafety.ForceCloseForgetsPartial | app/runtime/loop.py:505-548 | After a lost force-close without effect and a truthful clear, exactly when a second partial exit follows, for any slot in which a partial exit happened and its reply was lost |
| PositionSafety.TwoPartialsHappen | app/runtime/loop.py:424-548 | It is reached from a newly opened position: a concrete run of four events sells two quarters |
| PositionSafety.RestartIsTransparent | app/positions/monitor.py:107-116 | Over every run the sets equal what a new monitor rebuilds, so decisions are the same before and after a restart at any point |
| PositionSafety.MarkAfterCloseIsLost | app/positions/monitor.py:239-270 | A breakeven or partial mark keeps the mirror exactly when the ticket is not closed; a trailing mark always does |
| PositionSafety.WaitingTicketStaysPut | app/runtime/loop.py:341-360 | A ticket that waits for a lost reply stays exactly as it is, at the broker and in the store, over any number of passes and restarts |
| PositionSafety.RiskNeverRaised | app/runtime/loop.py:333-422 | Over every run without changes by hand at the broker, the stop never loosens, the volume never grows and a closed position stays closed |
| PositionMirror.LeavesExactly | app/runtime/loop.py:361-422 | A pass whose other replies are definite takes the position off the broker exactly when the bid (for a BUY) or the ask (for a SELL) has reached the stop, or the target with the kill switch off, and the close happens |
| PositionMirror.ManagedSellMirrorsBuy | app/runtime/loop.py:333-548 | Over every run a managed SELL is its managed BUY in the mirror: same volumes, marks and pending actions at the same steps, mirrored stops and targets |
| PositionMirror.EvaluateMirrors | app/positions/monitor.py:144-235 | The proposals for a mirrored position are the mirrored proposals, with volatility data or without |
| PositionMirror.MovesToBreakevenExactly | app/positions/monitor.py:168-190 | The R multiple times the distance to the stop is the gain at bid or ask; exactly when a breakeven stop is proposed, and where, for each side |
| PositionMirror.SellsPartExactly | app/positions/monitor.py:185-210 | Exactly when a partial exit is proposed, and of how much |
| PositionMirror.TrailsExactly | app/positions/monitor.py:212-233 | Exactly when a trailing stop is proposed, and where, for each side |
| PositionSafety.TrailAfterBreakeven | app/positions/monitor.py:168-233 | With volatility data, the exact inputs (pending, triggers, settings, present stop, last trailing stop) on which a breakeven stop is followed by a looser trailing stop |
| PositionSafety.TrailLoosensBrokerStop | app/runtime/loop.py:424-456 | Applied in order and accepted, the proposals leave the broker's stop looser than it was during the same pass on exactly those inputs |
| PositionSafety.TrailCanLoosen | app/positions/monitor.py:168-233 | It happens with the default settings |
| Reconciliation.ReconcilePositions | app/positions/reconciliation.py:39-102 | Reports exactly the pending, missing, untracked, stop-drifted and volume-drifted tickets |
| Reconciliation.HandChangeReported | app/positions/reconciliation.py:62-92 | A change by hand of a ticket in agreement is reported exactly when the stop moved by more than the tolerance, or the volume did once a partial exit is on record |
| Reconciliation.RecoverState | app/positions/reconciliation.py:105-131 | An unreadable store yields no records and one warning; otherwise the full report |
| Reconciliation.ManagedReportsNothing | app/runtime/loop.py:333-422 | A management pass with definite replies leaves record and broker position of its ticket in agreement, so that no kind of discrepancy holds of it |
| Reconciliation.ForceClosedReport | app/runtime/loop.py:505-548 | After a definite force-close, exactly when nothing is reported |
| TradingLoop.Loop.constructor | app/runtime/loop.py:146-165 | Startup reports exactly the discrepancies between the stored records and the broker's positions, or none of them if the listing failed, and starts from the restarted monitor |
| TradingLoop.Loop.ManagePosition | app/runtime/loop.py:333-422 | One ticket's slot after a pass for every combination of replies; other tickets untouched, all calls about this one |
| TradingLoop.Loop.ManageAll | app/runtime/loop.py:269-274 | Every listed ticket gets one pass or one force-close; stops only tighten and volumes only shrink; a waiting ticket gets no call except a force-close |
| TradingLoop.PassExactly | app/runtime/loop.py:246-274 | Positions are closed by force exactly when the kill switch is on and asks for it; otherwise they are managed |
| TradingLoop.Loop.SubmitEntry | app/runtime/loop.py:624-651 | The entry through the execution engine: records and fills are those of one submission, and the broker opens a position exactly when the order was sent and filled, whatever became of the reply |
| TradingLoop.Loop.RunOnce | app/runtime/loop.py:229-282 | Every slot after a cycle; from at most one open position at most one remains; while the kill switch is on none is added; a new position is the fill of this cycle's one submission |
| TradingSession.Operate | app/runtime/loop.py:229-282 | Over every sequence of cycles, closes and changes at the broker, operator marks, resolutions, reconciliations and restarts: at most one open position; every slot is the ticket's life; no id opens two positions if replies and "not found" are truthful; under the kill switch no position appears, no stop loosens and no volume grows except by hand; a restart after a completed cycle reports of calm tickets only the one that cycle opened |
| TradingSession.PositionLivesARun | app/runtime/loop.py:741-747 | From its opening on, a position under a new ticket lives a run of the single-position model, so all results about such runs hold in the session |
| TradingSession.SessionMovesAtMostOnce | app/runtime/loop.py:424-503 | In a session, too, a position gets at most one breakeven move and one partial exit, each under the discipline for its kind, and the breakeven move under none if its stop is not pulled back by hand |
| TradingSession.SessionNeverRaisesRisk | app/runtime/loop.py:229-282 | Over a session without changes by hand a stop never loosens, a volume never grows and a closed position stays closed |
| TradingSession.OnlyNewReported | app/positions/reconciliation.py:105-131 | After calm cycles with definite replies, the last one completed, a restart's comparison finds nothing about any ticket except an untracked one that this cycle opened |
| Resampling.AppendIsStableExactly | app/backtesting/resampling.py:21-46 | On any data, one more candle leaves the returned candles alone exactly when it is not of a newest period already returned, or ends no earlier than that period and leaves its extremes, close, volume and mean spread as they are |
| Resampling.ClosedBarsAreStable | app/backtesting/resampling.py:21-46 | On spaced data the output for a window is a prefix of the output for every longer window with the same start |
| Resampling.HourlyAndFourHourlyBarsAreStable | app/backtesting/resampling.py:15-46 | On data at 15-minute marks this holds for H1 and for H4 |
| Resampling.ReturnedPeriodsHaveEnded | app/backtesting/resampling.py:36-46 | Every returned period ends by the end of the window |
| Resampling.OnlyTheOpenPeriodIsHeldBack | app/backtesting/resampling.py:36-46 | Every period with data that has ended is returned |
| Resampling.ReturnedBarsAreComplete | app/backtesting/resampling.py:31-46 | Every returned candle but the first aggregates all data of its period, data outside the window included |
| Resampling.AggregateSummarizes | app/backtesting/resampling.py:21-34 | A higher candle has the first open and the last close of its data, extremes that bound every candle and are attained, the total volume and the mean spread |
| Resampling.HoursDivide | app/backtesting/resampling.py:15-18 | Hours divide time without overlap, so the results hold for H1 |
| Resampling.FourHoursDivide | app/backtesting/resampling.py:15-18 | Four-hour periods divide time without overlap, so the results hold for H4 |
| Resampling.OffGridIsRevised | app/backtesting/resampling.py:36-46 | Three concrete candles off the grid on which a returned candle changes |
| TradeHistory.InMemoryTradeHistory.Record | app/risk/history.py:42-44 | Appending and sorting is a stable insertion that keeps the list ordered by closing time |
| TradeHistory.InsertKeepsAll | app/risk/history.py:42-44 | No record is lost or duplicated |
| Guards.ConsecutiveLosses | app/risk/guards.py:42-51 | The counting loop returns the trailing run of losses |
| Guards.TrailingIsABlock | app/risk/guards.py:42-51 | That run is a block of losses at the end, and no longer one exists |
| Guards.CheckGuards | app/risk/guards.py:58-132 | Passes exactly when every guard holds; the table holds the outcome of every guard on this input, and the reasons are the failed ones in order |
| Guards.LossWithin | app/risk/guards.py:85-101 | The loss guards hold exactly when equity is at least that share of the baseline |
| Guards.WindowShowsStreak | app/backtesting/engine.py:508-510 | A window of the last trades shows the losing streak up to its own length, so 20 are enough for a limit of at most 20 |
| Guards.MaxConsecutiveLosses | app/backtesting/metrics.py:65-73 | The one-pass counter equals the longest losing run |
| Guards.LongestRunIsLongest | app/backtesting/metrics.py:65-73 | That number is the length of some block of losses and no block is longer |
| Costs.CostsExplainTheFill | app/backtesting/costs.py:30-51 | On either side, spread and slippage account exactly for the difference between the costed and the raw move |
| Costs.ValueMultiplied | app/backtesting/engine.py:440-441 | What a move is worth, times the tick size, is the move times the tick value times the lots |
| BacktestEngine.Run | app/backtesting/engine.py:158-292 | The loop over mutable state computes the result that the theorems below are about |
| BacktestEngine.OpenPosition.UpdateAndMaybeExit | app/backtesting/engine.py:303-426 | The position, the trade list, the history and the handed-back results after one candle, for every mix of breakeven, trailing, partial exit and exit |
| BacktestEngine.Simulation.Candle | app/backtesting/engine.py:200-247 | One iteration of the loop is one step of the model, in this order of phases |
| BacktestRules.ManagedExactly | app/backtesting/engine.py:323-381 | For either side, the stop after a candle in terms of prices and the initial risk, exactly when a part is sold, how much, and at which raw price |
| BacktestRules.ExitExactly | app/backtesting/engine.py:383-412 | For either side, where and why a position is left on a candle, gaps included |
| BacktestRules.TradeRecords | app/backtesting/engine.py:428-465 | What a trade records of its position; its R multiple times the money at risk is its result |
| BacktestRules.EntryFill | app/backtesting/engine.py:213-230 | The price, the initial risk and the start of a filled entry |
| BacktestRules.ApprovedExactly | app/risk/validator.py:93-190 | Exactly when a signal becomes an entry, on equity, losses, counted trades, the last twenty trades, spread, news, score, ratio and size |
| BacktestRules.DecidesOnSchedule | app/backtesting/engine.py:241-245 | A decision is made while flat, after the warm-up, on every step-th candle, and only then |
| BacktestRules.CurvePoint | app/backtesting/engine.py:246-261 | A point of the curve is realized equity plus the held position's result at the close, multiplied out |
| BacktestRules.EndsAtLastClose | app/backtesting/engine.py:248-261 | A run uses no more than the configured candles; what is held then is closed at the last raw close, and the curve ends with the final equity |
| BacktestRuns.StrategySeesClosedCandles | app/backtesting/engine.py:467-483 | On grid data every H1 and H4 candle the strategy is shown has ended by the close at which it decides, and all but the first aggregate all data of their period |
| BacktestRuns.StrategyIsGiven | app/backtesting/engine.py:467-483 | The strategy is asked with the closed H4 candles, the closed H1 candles and the last 250 M15 candles, in this order, and not at all below 210 closed higher candles |
| BacktestRuns.WindowIsLast | app/backtesting/engine.py:471-472 | The window is the configured number of last candles up to and including the deciding one |
| BacktestRuns.NoLookahead | app/backtesting/engine.py:200-261 | The whole state after k candles is the same for any two histories that agree on those candles |
| BacktestRuns.TruncatedTradesArePrefix | app/backtesting/engine.py:200-261 | Cutting the data short changes no earlier trade: without the forced close the trades are a prefix of the full run's |
| BacktestRuns.MoneyIsConserved | app/backtesting/engine.py:213-261 | Ending minus starting balance is the sum of the trade results, with or without management |
| BacktestRuns.CostsExplainEveryTrade | app/backtesting/engine.py:428-465 | Every trade of every run was entered at a candle's open; its commission, swap, spread and slippage are those of the settings, multiplied out; and its result with them added back, times the tick size, is its move between raw prices times the tick value times the lots |
| BacktestLimits.EntriesAreSized | app/backtesting/engine.py:467-536 | A new entry is the strategy's signal on closed candles, passed every guard, and its lots times the distance to the stop times the tick value are no more than the configured share of equity times the tick size |
| BacktestLimits.StopLosesTheRisk | app/backtesting/engine.py:428-465 | Filled at the signal's entry and closed at its stop without spread and slippage, an approved entry loses exactly its lots times the distance in ticks times the tick value, and never more than that share: sizing and bookkeeping agree |
| BacktestLimits.EquityFloor | app/backtesting/engine.py:204-245 | With management off and no trade losing more than its risk, realized equity never falls below the day's and the week's opening equity less the loss limit and one trade's risk, carried positions and the forced close included |
| BacktestLimits.DayStartIsOpening | app/backtesting/engine.py:204-211 | The day's baseline is the equity at that day's first candle |
| BacktestLimits.WeekStartIsOpening | app/backtesting/engine.py:204-211 | The week's baseline is the equity before that week's first candle |
| BacktestStreaks.LosingRunsAreBounded | app/risk/guards.py:103-118 | With management off no result has a losing run longer than the limit |
| BacktestStreaks.NothingTradesAfterTheLimit | app/backtesting/engine.py:508-528 | Once a losing run has reached the limit, no trade follows |
| BacktestStreaks.DailyTradesAreBounded | app/risk/guards.py:103-108 | With management off no day closes more trades than the limit, although the guard counts at the decision and not at the close |
| PositionLife.PendingMeansFlat | app/backtesting/engine.py:241-245 | An entry is pending only while nothing is held, and was decided on the candle just closed |
| PositionLife.EntryLivesFromNextOpen | app/backtesting/engine.py:213-239 | It is filled at the next candle's open, and what the loop does from there to the close is that fill's life: same position, same trades |
| PositionLife.LoopFollowsLife | app/backtesting/engine.py:232-239 | What the loop does with a held position until it closes is the position's life: same position, same trades |
| PositionLife.StopNeverLoosens | app/backtesting/engine.py:328-352 | Under any mix of breakeven and trailing the stop never loosens over a position's life |
| PositionLife.LotsAreConserved | app/backtesting/engine.py:354-381 | At any time of a position's life the lots sold and the lots held are those filled; at most one partial exit, and neither it nor the rest is below the minimum |
| PositionLife.EveryEntryIsSoldWhole | app/backtesting/engine.py:213-261 | In every run the lots of every filled entry are sold again in one or two trades, by the candle that closes the position or at the end of the data |
| PositionLife.ExcursionsAreExtremes | app/backtesting/engine.py:313-321 | The excursions are the best and the worst the market did over the position's life, closing candle included |
| PositionLife.SellMirrorsBuy | app/backtesting/engine.py:303-465 | With equal swap rates a position and its mirror image live mirrored lives in a mirrored market, over any candles |
| PositionLife.MirroredProfits | app/backtesting/engine.py:213-239 | From the entry on, the mirrored position makes the same trades with the same results at the same times |
| PaperLaws.AccountAgreesWithHistory | app/paper/account.py:203-314 | After any sequence of adapter calls: balance = starting + realized + swap, equity = balance + floating, realized = closed results + partial exits, trades = wins + losses = closed positions, streaks are those at the end of the closed list, floating is the open positions' total |
| PaperLaws.OrdersFillOnce | app/paper/broker.py:199-216 | However often an id is submitted, the paper adapter fills it at most once |
| PaperLaws.SwapAtCloseBreaksBalance | app/paper/account.py:245-314 | The balance law survives a close exactly when its swap amount is zero |
| PaperExcursions.ExcursionsMixUnits | app/paper/positions.py:163-218 | Over any revaluations the excursions of an open position are the attained extremes of money results at quotes and price moves over candles taken together |
| PaperExcursions.ExcursionIsAPriceMove | app/paper/positions.py:163-218 | A new position's favourable excursion is its best price move exactly when no quote's profit in money is a larger number, and the adverse one its worst exactly when no quote's loss is |
| PaperExcursions.ExcursionExample | app/paper/positions.py:163-218 | With usual contract figures, one candle and its closing quote leave an excursion of 100 where the best move was 10 |
| PaperAccount.PaperPosition.UpdatePrice | app/paper/positions.py:198-218 | Revaluation at a price, excursions as running extremes in money; a closed position does not change |
| PaperAccount.PaperPosition.UpdateOverBar | app/paper/positions.py:175-196 | Revaluation over a candle, excursions as running extremes in price |
| PaperAccount.Account.UpdateFloating | app/paper/account.py:203-224 | The loop over open positions leaves every position and every total as specified |
| PaperMoney.FloatsAtItsSide | app/paper/account.py:203-224 | Every open position floats at the exact worth of its move to the bid (a BUY) or the ask (a SELL), rounded to the nearest cent |
| PaperAccount.Account.ApplyEntry | app/paper/account.py:226-243 | The whole new account after an entry |
| PaperAccount.Account.ApplyClose | app/paper/account.py:245-314 | The whole new account after a close; an unknown ticket changes nothing |
| PaperMoney.ClosingRealizesFloating | app/paper/account.py:245-314 | A close files the exact result of its move, rounded to the nearest cent, less commission and swap; with a tick size it is exactly what was floating at the exit price |
| PaperMoney.PeriodsRun | app/paper/account.py:245-314 | The result enters the balance and the running day and week, which begin anew with a new one, and counts as a win exactly when positive |
| PaperMoney.MoneyAfterRevaluation | app/paper/account.py:203-224 | Equity, used margin and free margin after a revaluation; the free margin is what equity leaves, never negative |
| PaperAdapter.Adapter.SubmitMarketOrder | app/paper/broker.py:170-345 | The answer for every order, quote and margin, and the whole new state; only a filled order changes anything |
| PaperMoney.OrderFillsExactly | app/paper/broker.py:170-345 | Exactly when an order is filled, in terms of its fields, the permissions, the quote and the free margin, and at which price |
| PaperMoney.RoundTripCosts | app/paper/broker.py:170-345 | Entering and leaving at one quote costs the spread and twice the slippage, on either side |
| PaperAdapter.Adapter.ClosePositionPartial | app/paper/broker.py:385-450 | The whole new state and the realized part; refused volumes change nothing |
| PaperMoney.PartIsNearest | app/paper/broker.py:385-450 | A partial exit realizes the result of the part at the quote's side less slippage, with that part's whole commission, rounded once to the nearest cent |
| PaperAdapter.Adapter.Close | app/paper/broker.py:452-514 | The whole new state, for a given exit price or the current quote |
| PaperAdapter.Adapter.AddSwap | app/paper/broker.py:516-523 | The whole new state; equity follows at once |
| PaperSession.SessionAgreesWithHistory | app/paper/runtime.py:189-310 | The same account laws after any mix of adapter calls and candles with their exits and management |
| PaperRuntime.Runtime.StepBar | app/paper/runtime.py:189-310 | One candle of the runtime object is one step of the model: exits, tick, management, or nothing when skipped |
| PaperSession.MeasuredAtClose | app/paper/runtime.py:280-310 | After a candle a BUY is measured at the close, a SELL at the close plus the candle's spread |
| PaperPartials.PassSellsExactly | app/paper/runtime.py:292-307 | One management pass adds a partial exit exactly when nothing is pending, the price reaches the trigger and the part is smaller than what is left; whether one was taken before does not matter |
| PaperPartials.CandleSellsExactly | app/paper/runtime.py:189-310 | A candle makes exactly as many partial exits as there are positions, after its stops and targets, on which a pass sells |
| PaperPartials.SessionSellsExactly | app/paper/runtime.py:189-310 | Over every session the number of partial exits is the sum of these counts over its candles, plus those asked for directly |
| PaperPartials.TwoPartialExits | app/paper/runtime.py:292-307 | A session from a new account: one order and two candles make two partial exits of one position |
| ExitAgreement.SameRule | app/paper/runtime.py:247-278 | On every candle, with both levels set, the two exit rules pick the same level and price |
| ExitAgreement.ExitPriceIsFair | app/backtesting/engine.py:383-412 | On a well-formed candle the exit price was traded, is never better than a hit stop and never worse than a hit target, and the stop comes first |
| ExitAgreement.ExitsAgree | app/backtesting/engine.py:383-412 | Over any candles, with management out of the way, the backtest and the paper runtime leave a position on the same candle through the same level at the same raw price, whatever other adapter calls come in between |
| ExitAgreement.ExitsAgreeBelowTriggers | app/paper/runtime.py:247-310 | So they do when no candle's closing quote reaches a trigger of the monitor, which is a condition on settings and prices |

## Left out

- The PAPER branch of `ExecutionEngine`, its close, partial and modify calls as client calls of their own, and position objects it hands out: the loop's calls are modelled at the broker instead.
- The mock broker's price series, symbols and account calls: market conditions are parameters of each call.
- The real MetaTrader client, SQLite text, the journal and audit texts, logging, the web interface and the scripts; stores are maps and an audit write is a step that may raise.
- Indicators, regimes, strategies, scoring and the AI layer: one arbitrary function of the candles shown. The matching of operator notes and the CRC are arbitrary functions too.
- Float rounding and rounding of prices to digits: arithmetic is exact, and the paper account rounds to cents with ties to even.
- News, calendar, startup checks, sessions, rejection counters, benchmark, reproducibility hash, Monte Carlo, ratios and drawdowns: decision tables or statistics on their own. The longest winning run mirrors the longest losing run.
- The backtest without a supplied monitor configuration: the default's name is imported for type checking only (`app/backtesting/engine.py:42-43`), so that path cannot run.
- `_evaluate_bar_signal` of the paper runtime: it asks for features without the required timeframe and returns (`app/paper/runtime.py:351-355`), so it never trades.
- The trading loop's equity baselines and journal numbers: they feed reports and the entry evaluation, which is a parameter here.
- The position objects inside the paper account: the account holds values and builds the object for each revaluation, so that an object seen from two lists is not modelled. The account's figures are grouped in records.
- The name that the paper adapter invents for an empty order id, spread and slippage totals, and closing times of paper positions.
- BacktestLimits.EquityFloor: assumes a starting balance that is not negative, because a negative baseline turns the inequality around, and that each loss stays within its risk, which gaps and costs can break.
- ExitAgreement.ExitsAgree: assumes that the paper monitor proposes nothing for the position, because the runtime has no switch for its monitor (ExitsAgreeBelowTriggers gives a checkable condition), that candles are processed while the position is open, and that the calls in between are not about it.
- PaperSession.SessionAgreesWithHistory: requires a positive tick size, because the monitor divides by it.
- TradingSession.Operate: the report after a restart is stated of tickets that are not reused; paper tickets restart with the process (`app/execution/engine.py:156`), so it is a statement about live trading. An unreadable monitor store at startup is covered by Reconciliation.RecoverState alone.
