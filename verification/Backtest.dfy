/** The walk-forward backtest on values: what one candle does to the simulation
    (app/backtesting/engine.py). The strategy is any function of the candles it is shown. */
module Backtest {
  import opened Common
  import opened Costs
  import opened Guards
  import PositionModel
  import opened Resampling
  import opened Sizing
  import opened TradeHistory

  const MIN_BARS := 210
  const TAIL_BARS := 250
  const RECENT := 20

  datatype Reason = STOP_LOSS | TAKE_PROFIT | PARTIAL | END_OF_DATA

  datatype Trade = Trade(
    direction: Direction, openTime: int, closeTime: int, entryPrice: real, exitPrice: real,
    stopLoss: real, takeProfit: real, lots: real, pnl: real, grossPnl: real, commission: real,
    swap: real, rMultiple: Option<real>, mae: real, mfe: real, reason: Reason,
    spreadCost: real, slippageCost: real, isPartial: bool)

  /** A decision made at a candle's close, to be filled at the next open. */
  datatype Entry = Entry(
    direction: Direction, stopLoss: real, takeProfit: real, lots: real, monetaryRisk: real, atr: real)

  datatype Holding = Holding(
    direction: Direction, entryPrice: real, entryTime: int, entrySpreadCost: real, entrySlippageCost: real,
    initialRisk: real, stopLoss: real, takeProfit: real, lots: real, monetaryRisk: real, atr: real,
    breakevenApplied: bool, partialTaken: bool, mae: real, mfe: real)

  /** What the strategy proposes; `scoreOk` tells whether its label reaches the configured one. */
  datatype Signal = Signal(
    direction: Direction, entry: real, stopLoss: real, takeProfit: real, riskReward: Option<real>,
    scoreOk: bool, atr: real)

  /** Closed H4 candles, closed H1 candles and the last M15 candles in; perhaps a signal out. */
  type Strategy = (seq<HigherBar>, seq<HigherBar>, seq<Bar>) -> Option<Signal>

  /** The engine's settings; the evaluation step is not zero. */
  datatype Settings = Settings(
    startingBalance: real, warmupBars: int, lookbackBars: nat, step: int, maxBars: Option<nat>,
    minRiskReward: real, management: bool, monitor: PositionModel.Config)

  type EngineSettings = c: Settings | c.step != 0
    witness Settings(0.0, 0, 0, 1, None, 0.0, false, PositionModel.Config(0.0, 0.0, false, 0.0, 0.0, false, 0.0, 0.0))

  datatype Env = Env(
    spec: TickedSpec, costs: ExecutionCosts, risk: RiskSettings, settings: EngineSettings,
    strategy: Strategy, newsClear: bool)

  datatype EquityPoint = EquityPoint(time: int, equity: real)

  datatype State = State(
    equity: real, history: seq<TradeRecord>, trades: seq<Trade>, curve: seq<EquityPoint>,
    holding: Option<Holding>, pending: Option<Entry>,
    day: Option<int>, dayStart: real, week: Option<int>, weekStart: real)

  // ----- calendar ---------------------------------------------------------------------------

  const DAY := 1440

  function DayOf(time: int): int {
    time / DAY
  }

  /** Weeks begin on Monday; day 0 is a Thursday. */
  function WeekOf(time: int): int {
    (DayOf(time) + 3) / 7
  }

  // ----- one position against one candle ----------------------------------------------------

  function FillEntry(env: Env, e: Entry, bar: Bar): Holding {
    var fill := ApplyEntryCosts(bar.open, e.direction, env.costs, env.spec.tickSize);
    Holding(e.direction, fill.price, bar.time, fill.spreadCost, fill.slippageCost,
            Abs(fill.price - e.stopLoss), e.stopLoss, e.takeProfit, e.lots, e.monetaryRisk, e.atr,
            false, false, 0.0, 0.0)
  }

  function Favorable(h: Holding, bar: Bar): real {
    if h.direction.Buy? then bar.high - h.entryPrice else h.entryPrice - bar.low
  }

  function Adverse(h: Holding, bar: Bar): real {
    if h.direction.Buy? then h.entryPrice - bar.low else bar.high - h.entryPrice
  }

  function TrackExcursions(h: Holding, bar: Bar): Holding {
    h.(mfe := Max(Max(h.mfe, Favorable(h, bar)), 0.0), mae := Max(Max(h.mae, Adverse(h, bar)), 0.0))
  }

  function FavorableR(h: Holding, bar: Bar): real
    requires h.initialRisk > 0.0
  {
    Favorable(h, bar) / h.initialRisk
  }

  /** A stop nearer to the market than the present one. */
  predicate Tighter(d: Direction, present: real, stop: real) {
    if d.Buy? then stop > present else stop < present
  }

  /** A price `distance` away from `price` in the holder's favour. */
  function Ahead(d: Direction, price: real, distance: real): real {
    if d.Buy? then price + distance else price - distance
  }

  function BreakevenBuffer(env: Env): real {
    env.settings.monitor.breakevenBufferTicks * env.spec.tickSize
  }

  function TrailingDistance(env: Env, h: Holding): real {
    env.settings.monitor.trailingAtrMultiplier * h.atr
  }

  function MoveToBreakeven(env: Env, h: Holding, bar: Bar): Holding
    requires h.initialRisk > 0.0
  {
    var stop := Ahead(h.direction, h.entryPrice, BreakevenBuffer(env));
    if !h.breakevenApplied && FavorableR(h, bar) >= env.settings.monitor.breakevenTriggerR
       && Tighter(h.direction, h.stopLoss, stop)
    then h.(stopLoss := stop, breakevenApplied := true)
    else h
  }

  function Trail(env: Env, h: Holding, bar: Bar): Holding
    requires h.initialRisk > 0.0
  {
    var cfg := env.settings.monitor;
    var stop := Ahead(h.direction, bar.close, -TrailingDistance(env, h));
    if cfg.enableTrailing && FavorableR(h, bar) >= cfg.trailingTriggerR && Tighter(h.direction, h.stopLoss, stop)
    then h.(stopLoss := stop)
    else h
  }

  function LotsOf(steps: int, step: real): real {
    steps as real * step
  }

  function FractionOf(env: Env, lots: real): real {
    lots * env.settings.monitor.partialExitFraction
  }

  function NearestSteps(lots: real, step: real): int
    requires step > 0.0
  {
    Round(lots / step)
  }

  /** The part of some lots to sell, rounded to the nearest whole number of steps. */
  function PartOf(env: Env, lots: real): real {
    LotsOf(NearestSteps(FractionOf(env, lots), env.spec.volumeStep), env.spec.volumeStep)
  }

  function PartialLots(env: Env, h: Holding): real {
    PartOf(env, h.lots)
  }

  predicate TakesPartial(env: Env, h: Holding, bar: Bar)
    requires h.initialRisk > 0.0
  {
    var cfg := env.settings.monitor;
    && cfg.enablePartialExit && !h.partialTaken && FavorableR(h, bar) >= cfg.partialExitTriggerR
    && PartialLots(env, h) >= env.spec.volumeMin && h.lots - PartialLots(env, h) >= env.spec.volumeMin
  }

  function PartialDistance(env: Env, h: Holding): real {
    env.settings.monitor.partialExitTriggerR * h.initialRisk
  }

  /** The partial exit is assumed to fill at the price that triggered it. */
  function PartialPrice(env: Env, h: Holding): real {
    Ahead(h.direction, h.entryPrice, PartialDistance(env, h))
  }

  function PartSold(env: Env, h: Holding): Holding {
    h.(lots := PartialLots(env, h))
  }

  function DaysHeld(openTime: int, closeTime: int): int {
    var days := DayOf(closeTime) - DayOf(openTime);
    if days < 0 then 0 else days
  }

  function CloseTrade(env: Env, h: Holding, rawPrice: real, time: int, reason: Reason, isPartial: bool): Trade {
    var fill := ApplyExitCosts(rawPrice, h.direction, env.costs, env.spec.tickSize);
    var gross := Value(env.spec, Gain(h.direction, h.entryPrice, fill.price), h.lots);
    var commission := CommissionCost(h.lots, env.costs);
    var swap := SwapCost(h.lots, h.direction, DaysHeld(h.entryTime, time), env.costs);
    var net := gross - commission + swap;
    Trade(h.direction, h.entryTime, time, h.entryPrice, fill.price, h.stopLoss, h.takeProfit, h.lots,
          net, gross, commission, swap, if h.monetaryRisk == 0.0 then None else Some(net / h.monetaryRisk),
          h.mae, h.mfe, reason,
          Value(env.spec, h.entrySpreadCost, h.lots) + Value(env.spec, fill.spreadCost, h.lots),
          Value(env.spec, h.entrySlippageCost, h.lots) + Value(env.spec, fill.slippageCost, h.lots),
          isPartial)
  }

  function PartialTrade(env: Env, h: Holding, bar: Bar): Trade {
    CloseTrade(env, PartSold(env, h), PartialPrice(env, h), bar.time, PARTIAL, true)
  }

  datatype Managed = Managed(holding: Holding, partialExit: Option<Trade>)

  /** Breakeven, then trailing, then the partial exit, all measured against the same candle. */
  function Manage(env: Env, h: Holding, bar: Bar): Managed {
    if env.settings.management && h.initialRisk > 0.0 then
      var moved := Trail(env, MoveToBreakeven(env, h, bar), bar);
      if TakesPartial(env, moved, bar)
      then Managed(moved.(lots := moved.lots - PartialLots(env, moved), partialTaken := true),
                   Some(PartialTrade(env, moved, bar)))
      else Managed(moved, None)
    else Managed(h, None)
  }

  datatype Exit = Exit(price: real, reason: Reason)

  predicate HitsStop(d: Direction, stop: real, bar: Bar) {
    if d.Buy? then bar.low <= stop else bar.high >= stop
  }

  predicate HitsTarget(d: Direction, target: real, bar: Bar) {
    if d.Buy? then bar.high >= target else bar.low <= target
  }

  /** The worse of two prices for somebody who is selling out of a position. */
  function Worse(d: Direction, a: real, b: real): real {
    if d.Buy? then Min(a, b) else Max(a, b)
  }

  function Better(d: Direction, a: real, b: real): real {
    if d.Buy? then Max(a, b) else Min(a, b)
  }

  /** The stop counts as hit first; a gap past a level fills at the open. */
  function ExitOf(d: Direction, stop: real, target: real, bar: Bar): Option<Exit> {
    if HitsStop(d, stop, bar) then Some(Exit(Worse(d, stop, bar.open), STOP_LOSS))
    else if HitsTarget(d, target, bar) then Some(Exit(Better(d, target, bar.open), TAKE_PROFIT))
    else None
  }

  /** The position after a candle, and the trades it closed: none, a partial, a full exit, or both. */
  datatype Outcome = Outcome(holding: Holding, partialExit: Option<Trade>, exit: Option<Trade>)

  function Update(env: Env, h: Holding, bar: Bar): Outcome {
    var m := Manage(env, TrackExcursions(h, bar), bar);
    var exit := ExitOf(m.holding.direction, m.holding.stopLoss, m.holding.takeProfit, bar);
    Outcome(m.holding, m.partialExit,
            if exit.None? then None
            else Some(CloseTrade(env, m.holding, exit.value.price, bar.time, exit.value.reason, false)))
  }

  // ----- the phases of one candle -----------------------------------------------------------

  function RollBaselines(s: State, bar: Bar): State {
    var s1 := if s.day == Some(DayOf(bar.time)) then s else s.(day := Some(DayOf(bar.time)), dayStart := s.equity);
    if s1.week == Some(WeekOf(bar.time)) then s1
    else s1.(week := Some(WeekOf(bar.time)), weekStart := s1.equity)
  }

  function FillPending(env: Env, s: State, bar: Bar): State {
    if s.pending.Some? && s.holding.None?
    then s.(holding := Some(FillEntry(env, s.pending.value, bar)), pending := None)
    else s
  }

  function RecordOf(t: Trade): TradeRecord {
    TradeRecord(t.closeTime, t.pnl)
  }

  /** A closed trade enters the list, the history and the equity. */
  function Book(s: State, t: Option<Trade>): State {
    if t.None? then s
    else s.(equity := s.equity + t.value.pnl, trades := s.trades + [t.value],
            history := InsertByTime(s.history, RecordOf(t.value)))
  }

  function ManageHolding(env: Env, s: State, bar: Bar): State {
    if s.holding.None? then s
    else
      var o := Update(env, s.holding.value, bar);
      Book(Book(s, o.partialExit), o.exit).(holding := if o.exit.Some? then None else Some(o.holding))
  }

  function Window(env: Env, data: seq<Bar>, i: nat): seq<Bar>
    requires i < |data|
  {
    var lo := i + 1 - env.settings.lookbackBars;
    data[if lo < 0 then 0 else lo..i + 1]
  }

  /** The last `n` candles of a list. */
  function Tail(bars: seq<Bar>, n: nat): seq<Bar> {
    if |bars| <= n then bars else bars[|bars| - n..]
  }

  /** What the strategy says about a window, if there is enough closed history to ask it. */
  function SignalAt(env: Env, window: seq<Bar>): Option<Signal> {
    var h1, h4 := ResampleClosedOnly(window, H1), ResampleClosedOnly(window, H4);
    if |h1| < MIN_BARS || |h4| < MIN_BARS then None
    else env.strategy(h4, h1, Tail(window, TAIL_BARS))
  }

  function GuardInputAt(env: Env, s: State, time: int): GuardInput {
    GuardInput(s.equity, s.dayStart, s.weekStart, |TradesSince(s.history, DayOf(time) * DAY)|, 0,
               env.costs.spreadPoints, true, true, true, false, RecentTrades(s.history, RECENT))
  }

  function SizeAt(env: Env, s: State, sig: Signal): SizingResult {
    CalculatePositionSize(s.equity, env.risk.riskPerTradePct, sig.entry, sig.stopLoss, env.spec)
  }

  predicate Approved(env: Env, s: State, sig: Signal, time: int) {
    && GuardsPass(GuardInputAt(env, s, time), env.risk)
    && env.newsClear && sig.scoreOk
    && sig.riskReward.Some? && sig.riskReward.value >= env.settings.minRiskReward
    && SizeAt(env, s, sig).Sized? && SizeAt(env, s, sig).size.Tradable()
  }

  /** The money put at risk for one trade. */
  function Stake(equity: real, riskPct: real): real {
    equity * (riskPct / 100.0)
  }

  function EvaluateEntry(env: Env, s: State, window: seq<Bar>, time: int): Option<Entry> {
    var sig := SignalAt(env, window);
    if sig.None? || !Approved(env, s, sig.value, time) then None
    else Some(Entry(sig.value.direction, sig.value.stopLoss, sig.value.takeProfit,
                    SizeAt(env, s, sig.value).size.lots,
                    Stake(s.equity, env.risk.riskPerTradePct), sig.value.atr))
  }

  predicate Evaluates(env: Env, s: State, i: nat) {
    s.holding.None? && s.pending.None? && i >= env.settings.warmupBars && i % env.settings.step == 0
  }

  function Decide(env: Env, data: seq<Bar>, i: nat, s: State): State
    requires i < |data|
  {
    if Evaluates(env, s, i) then s.(pending := EvaluateEntry(env, s, Window(env, data, i), data[i].time)) else s
  }

  function FloatingPnl(env: Env, holding: Option<Holding>, bar: Bar): real {
    if holding.None? then 0.0
    else Value(env.spec, Gain(holding.value.direction, holding.value.entryPrice, bar.close), holding.value.lots)
  }

  function Plot(env: Env, s: State, bar: Bar): State {
    s.(curve := s.curve + [EquityPoint(bar.time, s.equity + FloatingPnl(env, s.holding, bar))])
  }

  // ----- the whole run ----------------------------------------------------------------------

  function Start(env: Env): State {
    var e := env.settings.startingBalance;
    State(e, [], [], [], None, None, None, e, None, e)
  }

  /** Everything a candle does before its close is judged. */
  function TradeBar(env: Env, s: State, bar: Bar): State {
    ManageHolding(env, FillPending(env, RollBaselines(s, bar), bar), bar)
  }

  function BarStep(env: Env, data: seq<Bar>, i: nat, s: State): State
    requires i < |data|
  {
    Plot(env, Decide(env, data, i, TradeBar(env, s, data[i])), data[i])
  }

  /** The loop state after the first k candles. */
  function RunTo(env: Env, data: seq<Bar>, k: nat): State
    requires k <= |data|
  {
    if k == 0 then Start(env) else BarStep(env, data, k - 1, RunTo(env, data, k - 1))
  }

  /** A position still open after the last candle is closed there. */
  function Finish(env: Env, last: Bar, s: State): State {
    if s.holding.None? then s
    else
      var t := CloseTrade(env, s.holding.value, last.close, last.time, END_OF_DATA, false);
      var b := Book(s, Some(t));
      b.(holding := None,
         curve := if s.curve == [] then [] else s.curve[..|s.curve| - 1] + [EquityPoint(last.time, b.equity)])
  }

  function BarCount(env: Env, data: seq<Bar>): (n: nat)
    ensures n <= |data|
  {
    if env.settings.maxBars.None? || |data| <= env.settings.maxBars.value then |data| else env.settings.maxBars.value
  }

  function Result(env: Env, data: seq<Bar>): State {
    var n := BarCount(env, data);
    if n == 0 then Start(env) else Finish(env, data[n - 1], RunTo(env, data, n))
  }
}
