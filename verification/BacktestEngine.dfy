/** The backtest loop as the engine runs it: a position object updated in place, a history object,
    and local variables for everything else (app/backtesting/engine.py). */
module BacktestEngine {
  import opened Backtest
  import opened Common
  import opened Costs
  import opened Guards
  import opened Resampling
  import opened Sizing
  import opened TradeHistory

  function Listed(trades: seq<Trade>, t: Option<Trade>): seq<Trade> {
    if t.Some? then trades + [t.value] else trades
  }

  function Recorded(history: seq<TradeRecord>, t: Option<Trade>): seq<TradeRecord> {
    if t.Some? then InsertByTime(history, RecordOf(t.value)) else history
  }

  /** An open position; `partialRealized`, `closed` and `realized` hand results back to the loop. */
  class OpenPosition {
    const direction: Direction
    const entryPrice: real
    const entryTime: int
    const entrySpreadCost: real
    const entrySlippageCost: real
    const initialRisk: real
    const takeProfit: real
    const monetaryRisk: real
    const atr: real
    var stopLoss: real
    var lots: real
    var breakevenApplied: bool
    var partialTaken: bool
    var mae: real
    var mfe: real
    var partialRealized: Option<real>
    var closed: bool
    var realized: real

    function View(): Holding
      reads this
    {
      Holding(direction, entryPrice, entryTime, entrySpreadCost, entrySlippageCost, initialRisk, stopLoss,
              takeProfit, lots, monetaryRisk, atr, breakevenApplied, partialTaken, mae, mfe)
    }

    constructor (env: Env, e: Entry, bar: Bar)
      ensures View() == FillEntry(env, e, bar) && partialRealized == None && !closed
    {
      var fill := ApplyEntryCosts(bar.open, e.direction, env.costs, env.spec.tickSize);
      direction, takeProfit, lots, monetaryRisk, atr := e.direction, e.takeProfit, e.lots, e.monetaryRisk, e.atr;
      entryPrice, entryTime := fill.price, bar.time;
      entrySpreadCost, entrySlippageCost := fill.spreadCost, fill.slippageCost;
      initialRisk := Abs(fill.price - e.stopLoss);
      stopLoss := e.stopLoss;
      breakevenApplied, partialTaken, mae, mfe := false, false, 0.0, 0.0;
      partialRealized, closed, realized := None, false, 0.0;
    }

    method Track(bar: Bar)
      modifies this`mfe, this`mae
      ensures View() == TrackExcursions(old(View()), bar)
    {
      var favorable, adverse;
      if direction.Buy? {
        favorable, adverse := bar.high - entryPrice, entryPrice - bar.low;
      } else {
        favorable, adverse := entryPrice - bar.low, bar.high - entryPrice;
      }
      mfe := Max(Max(mfe, favorable), 0.0);
      mae := Max(Max(mae, adverse), 0.0);
    }

    method MoveStop(env: Env, bar: Bar)
      requires initialRisk > 0.0
      modifies this`stopLoss, this`breakevenApplied
      ensures View() == Trail(env, MoveToBreakeven(env, old(View()), bar), bar)
    {
      var cfg := env.settings.monitor;
      var r := FavorableR(View(), bar);
      if !breakevenApplied && r >= cfg.breakevenTriggerR {
        var stop := Ahead(direction, entryPrice, BreakevenBuffer(env));
        if Tighter(direction, stopLoss, stop) {
          stopLoss, breakevenApplied := stop, true;
        }
      }
      if cfg.enableTrailing && r >= cfg.trailingTriggerR {
        var stop := Ahead(direction, bar.close, -TrailingDistance(env, View()));
        if Tighter(direction, stopLoss, stop) {
          stopLoss := stop;
        }
      }
    }

    method TakePartial(env: Env, bar: Bar, history: InMemoryTradeHistory, trades: seq<Trade>) returns (all: seq<Trade>)
      requires initialRisk > 0.0 && Ordered(history.trades) && partialRealized == None
      modifies this`lots, this`partialTaken, this`partialRealized, history
      ensures Ordered(history.trades)
      ensures if TakesPartial(env, old(View()), bar)
              then Sold(env, bar, old(View()), old(history.trades), trades, history.trades, all)
              else (View() == old(View()) && partialRealized == None
                    && history.trades == old(history.trades) && all == trades)
    {
      all := trades;
      if TakesPartial(env, View(), bar) {
        var t := PartialTrade(env, View(), bar);
        var part := PartialLots(env, View());
        all := trades + [t];
        history.Record(RecordOf(t));
        lots, partialTaken, partialRealized := lots - part, true, Some(t.pnl);
      }
    }

    /** The partial exit has been booked and taken off the position. */
    ghost predicate Sold(env: Env, bar: Bar, h: Holding, before: seq<TradeRecord>, trades: seq<Trade>,
                         after: seq<TradeRecord>, all: seq<Trade>)
      reads this
    {
      var t := PartialTrade(env, h, bar);
      && View() == h.(lots := h.lots - PartialLots(env, h), partialTaken := true)
      && partialRealized == Some(t.pnl) && all == trades + [t] && after == InsertByTime(before, RecordOf(t))
    }

    method ManageRisk(env: Env, bar: Bar, history: InMemoryTradeHistory, trades: seq<Trade>) returns (all: seq<Trade>)
      requires Ordered(history.trades) && partialRealized == None
      modifies this`stopLoss, this`breakevenApplied, this`lots, this`partialTaken, this`partialRealized, history
      ensures Ordered(history.trades) && View() == Manage(env, old(View()), bar).holding
      ensures var t := Manage(env, old(View()), bar).partialExit;
              && partialRealized == (if t.Some? then Some(t.value.pnl) else None)
              && all == (if t.Some? then trades + [t.value] else trades)
              && history.trades == if t.Some? then InsertByTime(old(history.trades), RecordOf(t.value))
                 else old(history.trades)
    {
      hide PartialTrade, PartialLots, InsertByTime, FavorableR;
      all := trades;
      if env.settings.management && initialRisk > 0.0 {
        MoveStop(env, bar);
        all := TakePartial(env, bar, history, trades);
      }
    }

    /** One candle: excursions, management, then stop or target. */
    method UpdateAndMaybeExit(env: Env, bar: Bar, history: InMemoryTradeHistory, trades: seq<Trade>)
      returns (all: seq<Trade>)
      requires Ordered(history.trades) && partialRealized == None && !closed
      modifies this, history
      ensures Ordered(history.trades)
      ensures var o := Update(env, old(View()), bar);
              && View() == o.holding
              && partialRealized == (if o.partialExit.Some? then Some(o.partialExit.value.pnl) else None)
              && closed == o.exit.Some? && (closed ==> realized == o.exit.value.pnl)
              && all == Listed(Listed(trades, o.partialExit), o.exit)
              && history.trades == Recorded(Recorded(old(history.trades), o.partialExit), o.exit)
    {
      hide Manage, CloseTrade, InsertByTime;
      Track(bar);
      all := ManageRisk(env, bar, history, trades);
      var hitStop, hitTarget;
      if direction.Buy? {
        hitStop, hitTarget := bar.low <= stopLoss, bar.high >= takeProfit;
      } else {
        hitStop, hitTarget := bar.high >= stopLoss, bar.low <= takeProfit;
      }
      var exit := None;
      if hitStop {
        exit := Some(Exit(if direction.Buy? then Min(stopLoss, bar.open) else Max(stopLoss, bar.open), STOP_LOSS));
      } else if hitTarget {
        var price := if direction.Buy? then Max(takeProfit, bar.open) else Min(takeProfit, bar.open);
        exit := Some(Exit(price, TAKE_PROFIT));
      }
      if exit.Some? {
        var t := CloseTrade(env, View(), exit.value.price, bar.time, exit.value.reason, false);
        all := all + [t];
        history.Record(RecordOf(t));
        closed, realized := true, t.pnl;
      }
    }
  }

  function PnlOf(t: Option<Trade>): real {
    if t.Some? then t.value.pnl else 0.0
  }

  /** Booking both trades of a candle is what the loop does piece by piece. */
  lemma ManagedAsBooked(env: Env, s: State, bar: Bar, s': State)
    requires s.holding.Some?
    requires var o := Update(env, s.holding.value, bar);
             s' == s.(equity := s.equity + PnlOf(o.partialExit) + PnlOf(o.exit),
                      trades := Listed(Listed(s.trades, o.partialExit), o.exit),
                      history := Recorded(Recorded(s.history, o.partialExit), o.exit),
                      holding := if o.exit.Some? then None else Some(o.holding))
    ensures s' == ManageHolding(env, s, bar)
  {
    hide Update, InsertByTime;
  }

  /** The variables of one run. */
  class Simulation {
    const history: InMemoryTradeHistory
    var equity: real
    var trades: seq<Trade>
    var curve: seq<EquityPoint>
    var position: OpenPosition?
    var pending: Option<Entry>
    var day: Option<int>
    var dayStart: real
    var week: Option<int>
    var weekStart: real

    ghost function Repr(): set<object>
      reads this
    {
      {this, history} + if position == null then {} else {position}
    }

    /** Between the phases no result is waiting in the position to be collected. */
    ghost predicate Valid()
      reads Repr()
    {
      Ordered(history.trades) && (position != null ==> position.partialRealized == None && !position.closed)
    }

    function Now(): State
      reads this, history, position
    {
      State(equity, history.trades, trades, curve, if position == null then None else Some(position.View()),
            pending, day, dayStart, week, weekStart)
    }

    constructor (env: Env)
      ensures Valid() && fresh(Repr()) && Now() == Start(env)
    {
      history := new InMemoryTradeHistory();
      equity, trades, curve := env.settings.startingBalance, [], [];
      position, pending := null, None;
      day, dayStart, week, weekStart := None, env.settings.startingBalance, None, env.settings.startingBalance;
    }

    method Roll(bar: Bar)
      requires Valid()
      modifies this`day, this`dayStart, this`week, this`weekStart
      ensures Valid() && Repr() == old(Repr()) && Now() == RollBaselines(old(Now()), bar)
    {
      if day != Some(DayOf(bar.time)) {
        day, dayStart := Some(DayOf(bar.time)), equity;
      }
      if week != Some(WeekOf(bar.time)) {
        week, weekStart := Some(WeekOf(bar.time)), equity;
      }
    }

    method Fill(env: Env, bar: Bar)
      requires Valid()
      modifies this`position, this`pending
      ensures Valid() && fresh(Repr() - old(Repr())) && Now() == FillPending(env, old(Now()), bar)
    {
      hide FillEntry;
      if pending.Some? && position == null {
        position := new OpenPosition(env, pending.value, bar);
        pending := None;
      }
    }

    method ManagePosition(env: Env, bar: Bar)
      requires Valid()
      modifies Repr()
      ensures Valid() && Repr() <= old(Repr()) && Now() == ManageHolding(env, old(Now()), bar)
    {
      hide Update, InsertByTime;
      if position != null {
        ghost var s := Now();
        trades := position.UpdateAndMaybeExit(env, bar, history, trades);
        if position.partialRealized.Some? {
          equity := equity + position.partialRealized.value;
          position.partialRealized := None;
        }
        if position.closed {
          equity := equity + position.realized;
          position := null;
        }
        ManagedAsBooked(env, s, bar, Now());
      }
    }

    method Evaluate(env: Env, data: seq<Bar>, i: nat)
      requires Valid() && i < |data|
      modifies this`pending
      ensures Valid() && Repr() == old(Repr()) && Now() == Decide(env, data, i, old(Now()))
    {
      hide Backtest.EvaluateEntry, Window;
      if position == null && pending.None? && i >= env.settings.warmupBars && i % env.settings.step == 0 {
        pending := EvaluateEntry(env, Window(env, data, i), data[i].time);
      }
    }

    /** Asks the strategy, then the guards, the news, the score, the ratio and the sizing. */
    method EvaluateEntry(env: Env, window: seq<Bar>, time: int) returns (entry: Option<Entry>)
      requires Valid()
      ensures entry == Backtest.EvaluateEntry(env, Now(), window, time)
    {
      hide SignalAt, RecentTrades, GuardsPass, CalculatePositionSize;
      var answer := SignalAt(env, window);
      if answer.None? {
        return None;
      }
      var signal := answer.value;
      var tradesToday := |TradesSince(history.trades, DayOf(time) * DAY)|;
      var recent := RecentTrades(history.trades, RECENT);
      var input := GuardInput(
        equity, dayStart, weekStart, tradesToday, 0, env.costs.spreadPoints, true, true, true, false, recent);
      var guards := CheckGuards(input, env.risk);
      var ratioOk := signal.riskReward.Some? && signal.riskReward.value >= env.settings.minRiskReward;
      var sizing := CalculatePositionSize(equity, env.risk.riskPerTradePct, signal.entry, signal.stopLoss, env.spec);
      var sizeOk := sizing.Sized? && sizing.size.Tradable();
      if !(guards.passed && env.newsClear && signal.scoreOk && ratioOk && sizeOk) {
        return None;
      }
      var stake := Stake(equity, env.risk.riskPerTradePct);
      entry := Some(Entry(signal.direction, signal.stopLoss, signal.takeProfit, sizing.size.lots, stake, signal.atr));
    }

    method AddPoint(env: Env, bar: Bar)
      requires Valid()
      modifies this`curve
      ensures Valid() && Repr() == old(Repr()) && Now() == Plot(env, old(Now()), bar)
    {
      hide FloatingPnl;
      curve := curve + [EquityPoint(bar.time, equity + FloatingPnl(env, Now().holding, bar))];
    }

    method ForceClose(env: Env, last: Bar)
      requires Valid()
      modifies Repr()
      ensures Now() == Finish(env, last, old(Now()))
    {
      hide CloseTrade, InsertByTime;
      if position != null {
        var t := CloseTrade(env, position.View(), last.close, last.time, END_OF_DATA, false);
        trades := trades + [t];
        history.Record(RecordOf(t));
        equity := equity + t.pnl;
        if curve != [] {
          curve := curve[..|curve| - 1] + [EquityPoint(last.time, equity)];
        }
        position := null;
      }
    }

    method Candle(env: Env, data: seq<Bar>, i: nat)
      requires Valid() && i < |data|
      modifies Repr()
      ensures Valid() && fresh(Repr() - old(Repr())) && Now() == BarStep(env, data, i, old(Now()))
    {
      hide RollBaselines, FillPending, ManageHolding, Decide, Plot;
      Roll(data[i]);
      Fill(env, data[i]);
      ManagePosition(env, data[i]);
      Evaluate(env, data, i);
      AddPoint(env, data[i]);
    }
  }

  /** The run as a loop computes exactly the result that the theorems are about. */
  method Run(env: Env, data: seq<Bar>) returns (r: State)
    ensures r == Result(env, data)
  {
    hide BarStep, Start, Finish;
    var n := BarCount(env, data);
    var sim := new Simulation(env);
    for i := 0 to n
      invariant fresh(sim.Repr()) && sim.Valid() && sim.Now() == RunTo(env, data, i)
    {
      sim.Candle(env, data, i);
    }
    if n > 0 {
      sim.ForceClose(env, data[n - 1]);
    }
    r := sim.Now();
  }
}
