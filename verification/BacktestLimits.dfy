/** The risk limits over a whole backtest with position management off: the daily and weekly
    equity floor, the longest losing run, and the number of trades closed on a day. */
module BacktestLimits {
  import opened Backtest
  import opened BacktestRuns
  import opened Common
  import opened Costs
  import opened Guards
  import opened Resampling
  import opened Sizing
  import opened TradeHistory

  // ----- what one candle can do -------------------------------------------------------------

  /** The money at risk in the position held or about to be entered. */
  function AtRisk(s: State): Option<real> {
    if s.holding.Some? then Some(s.holding.value.monetaryRisk)
    else if s.pending.Some? then Some(s.pending.value.monetaryRisk)
    else None
  }

  ghost predicate OneAtATime(s: State) {
    s.holding.None? || s.pending.None?
  }

  /** A trade of the given risk, closed by a candle. */
  ghost predicate ClosesRisk(t: Trade, risk: real, bar: Bar) {
    t.closeTime == bar.time && (risk != 0.0 ==> t.rMultiple == Some(t.pnl / risk))
  }

  ghost predicate SameBaselines(a: State, b: State) {
    a.day == b.day && a.dayStart == b.dayStart && a.week == b.week && a.weekStart == b.weekStart
  }

  /** `s'` is `s` with at most one trade booked; a trade uses up the risk, no trade keeps it. */
  ghost predicate Trades(s: State, t: Option<Trade>, bar: Bar, s': State) {
    && SameBaselines(s, s') && OneAtATime(s')
    && s'.equity == Book(s, t).equity && s'.trades == Book(s, t).trades && s'.history == Book(s, t).history
    && (t.None? ==> AtRisk(s') == AtRisk(s))
    && (t.Some? ==> AtRisk(s).Some? && ClosesRisk(t.value, AtRisk(s).value, bar) && AtRisk(s').None?)
  }

  lemma UpdateCloses(env: Env, h: Holding, bar: Bar)
    requires !env.settings.management
    ensures var o := Update(env, h, bar);
            && o.partialExit.None? && o.holding.monetaryRisk == h.monetaryRisk
            && (o.exit.Some? ==> ClosesRisk(o.exit.value, h.monetaryRisk, bar))
  {
    hide ExitOf;
  }

  lemma FillKeepsRisk(env: Env, s: State, bar: Bar)
    requires OneAtATime(s)
    ensures var f := FillPending(env, s, bar); AtRisk(f) == AtRisk(s) && f.pending.None?
  {
  }

  lemma RollTouchesBaselines(s: State, bar: Bar)
    ensures var r := RollBaselines(s, bar);
            && r.holding == s.holding && r.pending == s.pending && r.equity == s.equity
            && r.trades == s.trades && r.history == s.history
            && r.day == Some(DayOf(bar.time)) && r.week == Some(WeekOf(bar.time))
            && r.dayStart == (if s.day == r.day then s.dayStart else s.equity)
            && r.weekStart == (if s.week == r.week then s.weekStart else s.equity)
  {
  }

  /** With management off a candle closes at most one trade, and only one that was outstanding. */
  lemma BarTrades(env: Env, s: State, bar: Bar) returns (t: Option<Trade>)
    requires !env.settings.management && OneAtATime(s)
    ensures Trades(RollBaselines(s, bar), t, bar, TradeBar(env, s, bar))
  {
    hide Update, FillEntry, ClosesRisk, RollBaselines;
    var r := RollBaselines(s, bar);
    assert r.holding == s.holding && r.pending == s.pending by {
      RollTouchesBaselines(s, bar);
    }
    FillKeepsRisk(env, r, bar);
    var f := FillPending(env, r, bar);
    t := None;
    if f.holding.Some? {
      UpdateCloses(env, f.holding.value, bar);
      t := Update(env, f.holding.value, bar).exit;
    }
  }

  /** A new entry is approved by the guards and sized on the current equity. */
  ghost predicate Enters(env: Env, s: State, time: int, s': State) {
    && s' == s.(pending := s'.pending)
    && (AtRisk(s).None? && AtRisk(s').Some? ==>
          && GuardsPass(GuardInputAt(env, s, time), env.risk) && s.equity > 0.0
          && AtRisk(s') == Some(Stake(s.equity, env.risk.riskPerTradePct)))
    && (AtRisk(s).Some? ==> s' == s)
    && OneAtATime(s')
  }

  lemma DecideEnters(env: Env, data: seq<Bar>, i: nat, s: State)
    requires i < |data| && OneAtATime(s)
    ensures Enters(env, s, data[i].time, Decide(env, data, i, s))
  {
    hide GuardsPass, GuardInputAt, SignalAt, Window;
  }

  /** A new entry is the strategy's signal on the closed candles, passed every guard, and its lots
      lose no more than the money at risk if the price goes from the signal's entry to its stop. */
  lemma EntriesAreSized(env: Env, s: State, window: seq<Bar>, time: int)
    requires InRange(env.risk) && env.spec.volumeMin >= 0.0 && EvaluateEntry(env, s, window, time).Some?
    ensures var e, sig := EvaluateEntry(env, s, window, time).value, SignalAt(env, window);
            && sig.Some? && e.direction == sig.value.direction
            && e.stopLoss == sig.value.stopLoss && e.takeProfit == sig.value.takeProfit
            && GuardsPass(GuardInputAt(env, s, time), env.risk)
            && e.lots > 0.0 && e.monetaryRisk == Stake(s.equity, env.risk.riskPerTradePct)
            && e.lots * Distance(sig.value.entry, sig.value.stopLoss) * env.spec.tickValue
               <= e.monetaryRisk * env.spec.tickSize
            && e.monetaryRisk == s.equity * (env.risk.riskPerTradePct / 100.0)
            && env.newsClear && sig.value.scoreOk
            && sig.value.riskReward.Some? && sig.value.riskReward.value >= env.settings.minRiskReward
  {
    hide GuardsPass, GuardInputAt, SignalAt, CalculatePositionSize, Distance;
    var sig := SignalAt(env, window).value;
    RiskIsBounded(s.equity, env.risk.riskPerTradePct, sig.entry, sig.stopLoss, env.spec);
  }

  /** The stop is on the losing side. */
  predicate StopBehind(d: Direction, entry: real, stop: real) {
    if d.Buy? then stop < entry else stop > entry
  }

  lemma Negated(distance: real, value: real, lots: real)
    ensures -distance * value * lots == -(lots * distance * value)
  {
    assert distance * value * lots == lots * distance * value;
    assert -distance * value == -(distance * value);
    assert -(distance * value) * lots == -(distance * value * lots);
  }

  /** What a position loses when it goes from its fill to its stop without spread and slippage. */
  lemma StopLoss(env: Env, h: Holding, time: int)
    requires env.costs.spreadPoints == 0.0 && env.costs.slippagePoints == 0.0
    requires StopBehind(h.direction, h.entryPrice, h.stopLoss)
    ensures var t := CloseTrade(env, h, h.stopLoss, time, STOP_LOSS, false);
            t.grossPnl * env.spec.tickSize == -(h.lots * Distance(h.entryPrice, h.stopLoss) * env.spec.tickValue)
  {
    var move, distance := Gain(h.direction, h.entryPrice, h.stopLoss), Distance(h.entryPrice, h.stopLoss);
    assert move == -distance;
    ValueMultiplied(env.spec, move, h.lots);
    Negated(distance, env.spec.tickValue, h.lots);
    hide Value, Gain, Distance;
    assert ApplyExitCosts(h.stopLoss, h.direction, env.costs, env.spec.tickSize).price == h.stopLoss;
  }

  lemma FrictionlessFill(env: Env, e: Entry, bar: Bar)
    requires env.costs.spreadPoints == 0.0 && env.costs.slippagePoints == 0.0
    ensures var h := FillEntry(env, e, bar);
            && h.entryPrice == bar.open && h.stopLoss == e.stopLoss && h.lots == e.lots && h.direction == e.direction
  {
  }

  lemma Unscaled(gross: real, amount: real, risk: real, k: real)
    requires k > 0.0 && gross * k == -amount && amount <= risk * k
    ensures -gross <= risk
  {
    assert -gross * k == -(gross * k);
    if -gross > risk {
      MulStrict(risk, -gross, k);
    }
  }

  /** MAIN RESULT. An approved entry filled at the signal's entry price and closed at its stop, without
      spread and slippage, loses exactly its lots times the distance in ticks times the tick value,
      and never more than the configured share of equity: sizing and bookkeeping agree. */
  lemma StopLosesTheRisk(env: Env, s: State, window: seq<Bar>, decided: int, bar: Bar, closed: int)
    requires InRange(env.risk) && env.spec.volumeMin >= 0.0 && EvaluateEntry(env, s, window, decided).Some?
    requires env.costs.spreadPoints == 0.0 && env.costs.slippagePoints == 0.0
    requires bar.open == SignalAt(env, window).value.entry
    requires var sig := SignalAt(env, window).value; StopBehind(sig.direction, sig.entry, sig.stopLoss)
    ensures var e, sig := EvaluateEntry(env, s, window, decided).value, SignalAt(env, window).value;
            var t := CloseTrade(env, FillEntry(env, e, bar), e.stopLoss, closed, STOP_LOSS, false);
            && t.grossPnl * env.spec.tickSize == -(e.lots * Distance(sig.entry, sig.stopLoss) * env.spec.tickValue)
            && -t.grossPnl <= s.equity * (env.risk.riskPerTradePct / 100.0)
  {
    hide *;
    EntriesAreSized(env, s, window, decided);
    var e, sig := EvaluateEntry(env, s, window, decided).value, SignalAt(env, window).value;
    var h := FillEntry(env, e, bar);
    FrictionlessFill(env, e, bar);
    StopLoss(env, h, closed);
    var t := CloseTrade(env, h, e.stopLoss, closed, STOP_LOSS, false);
    var amount := e.lots * Distance(sig.entry, sig.stopLoss) * env.spec.tickValue;
    Unscaled(t.grossPnl, amount, e.monetaryRisk, env.spec.tickSize);
  }

  // ----- the equity floor -------------------------------------------------------------------

  /** What is left of an amount after losing a percentage of it. */
  function Keep(amount: real, pct: real): real {
    amount * (1.0 - pct / 100.0)
  }

  /** No trade lost more than the money put at risk for it. */
  ghost predicate WithinRisk(ts: seq<Trade>) {
    forall i :: 0 <= i < |ts| ==> ts[i].rMultiple.Some? ==> ts[i].rMultiple.value >= -1.0
  }

  ghost predicate Above(equity: real, start: real, lossPct: real, riskPct: real) {
    0.0 <= start && equity >= Keep(Keep(start, lossPct), riskPct)
  }

  ghost predicate FloorHolds(env: Env, s: State) {
    && Above(s.equity, s.dayStart, env.risk.maxDailyLossPct, env.risk.riskPerTradePct)
    && Above(s.equity, s.weekStart, env.risk.maxWeeklyLossPct, env.risk.riskPerTradePct)
  }

  /** While money is at risk, the guards still hold of the equity it was taken from. */
  ghost predicate Guarded(env: Env, s: State) {
    && s.equity > 0.0
    && AtRisk(s) == Some(Stake(s.equity, env.risk.riskPerTradePct))
    && s.equity >= Keep(s.dayStart, env.risk.maxDailyLossPct)
    && s.equity >= Keep(s.weekStart, env.risk.maxWeeklyLossPct)
  }

  ghost predicate FloorInv(env: Env, s: State) {
    s.equity >= 0.0 && OneAtATime(s) && FloorHolds(env, s) && (AtRisk(s).Some? ==> Guarded(env, s))
  }

  lemma ShrinksBy(start: real, pct: real)
    requires start >= 0.0 && 0.0 <= pct <= 100.0
    ensures 0.0 <= Keep(start, pct) <= start
  {
    var left := 1.0 - pct / 100.0;
    assert 0.0 <= left <= 1.0 && Keep(start, pct) == left * start;
    hide Keep;
    MulMono(left, 1.0, start);
    MulMono(0.0, left, start);
  }

  lemma KeepMono(a: real, b: real, pct: real)
    requires a <= b && pct <= 100.0
    ensures Keep(a, pct) <= Keep(b, pct)
  {
    MulMono(a, b, 1.0 - pct / 100.0);
  }

  /** A baseline set to the equity itself is harmless. */
  lemma FreshBaseline(equity: real, lossPct: real, riskPct: real)
    requires equity >= 0.0 && 0.0 <= lossPct <= 100.0 && 0.0 <= riskPct <= 100.0
    ensures Above(equity, equity, lossPct, riskPct) && equity >= Keep(equity, lossPct)
  {
    hide Keep;
    ShrinksBy(equity, lossPct);
    ShrinksBy(Keep(equity, lossPct), riskPct);
  }

  lemma RollKeepsFloor(env: Env, s: State, bar: Bar)
    requires InRange(env.risk) && FloorInv(env, s)
    ensures FloorInv(env, RollBaselines(s, bar))
  {
    hide DayOf, WeekOf, Above, Keep, Stake, RollBaselines;
    RollTouchesBaselines(s, bar);
    FreshBaseline(s.equity, env.risk.maxDailyLossPct, env.risk.riskPerTradePct);
    FreshBaseline(s.equity, env.risk.maxWeeklyLossPct, env.risk.riskPerTradePct);
  }

  lemma StakeIsPositive(equity: real, riskPct: real)
    requires equity > 0.0 && riskPct > 0.0
    ensures Stake(equity, riskPct) > 0.0
  {
  }

  lemma LossIsBounded(pnl: real, equity: real, riskPct: real)
    requires equity > 0.0 && riskPct > 0.0
    requires Stake(equity, riskPct) != 0.0 ==> pnl / Stake(equity, riskPct) >= -1.0
    ensures Stake(equity, riskPct) > 0.0 && equity + pnl >= Keep(equity, riskPct)
  {
    var risk := Stake(equity, riskPct);
    StakeIsPositive(equity, riskPct);
    var q := pnl / risk;
    assert q * risk == pnl;
    MulMono(-1.0, q, risk);
    assert Keep(equity, riskPct) == equity - risk;
  }

  /** A loss within the risk leaves equity above both floors. */
  lemma LossKeepsFloor(env: Env, s: State, t: Trade)
    requires InRange(env.risk) && FloorInv(env, s) && Guarded(env, s)
    requires t.rMultiple == Some(t.pnl / AtRisk(s).value) && t.rMultiple.value >= -1.0
    ensures s.equity + t.pnl >= 0.0
    ensures Above(s.equity + t.pnl, s.dayStart, env.risk.maxDailyLossPct, env.risk.riskPerTradePct)
    ensures Above(s.equity + t.pnl, s.weekStart, env.risk.maxWeeklyLossPct, env.risk.riskPerTradePct)
  {
    hide Keep, Stake;
    var r := env.risk.riskPerTradePct;
    LossIsBounded(t.pnl, s.equity, r);
    ShrinksBy(s.equity, r);
    KeepMono(Keep(s.dayStart, env.risk.maxDailyLossPct), s.equity, r);
    KeepMono(Keep(s.weekStart, env.risk.maxWeeklyLossPct), s.equity, r);
  }

  lemma TradeKeepsFloor(env: Env, s: State, t: Option<Trade>, bar: Bar, s': State)
    requires InRange(env.risk) && FloorInv(env, s) && Trades(s, t, bar, s') && WithinRisk(s'.trades)
    ensures FloorInv(env, s')
  {
    hide Above, Keep, Stake, InsertByTime;
    if t.Some? {
      StakeIsPositive(s.equity, env.risk.riskPerTradePct);
      assert s'.trades[|s.trades|] == t.value;
      LossKeepsFloor(env, s, t.value);
    }
  }

  lemma GuardLeaves(equity: real, start: real, maxPct: real)
    requires equity > 0.0 && start >= 0.0 && maxPct >= 0.0 && LossPct(equity, start) <= maxPct
    ensures equity >= Keep(start, maxPct)
  {
    if start > 0.0 {
      LossWithin(equity, start, maxPct);
    }
  }

  lemma EntryKeepsFloor(env: Env, s: State, time: int, s': State)
    requires InRange(env.risk) && FloorInv(env, s) && Enters(env, s, time, s')
    ensures FloorInv(env, s')
  {
    hide Keep, Stake, TradesSince, TrailingLosses;
    if AtRisk(s).None? && AtRisk(s').Some? {
      GuardLeaves(s.equity, s.dayStart, env.risk.maxDailyLossPct);
      GuardLeaves(s.equity, s.weekStart, env.risk.maxWeeklyLossPct);
    }
  }

  lemma OneTrade(s: State, t: Option<Trade>, bar: Bar, s': State)
    requires Trades(s, t, bar, s')
    ensures OneAtATime(s')
  {
  }

  lemma PlotKeepsFloor(env: Env, s: State, bar: Bar)
    requires FloorInv(env, s)
    ensures FloorInv(env, Plot(env, s, bar))
  {
  }

  lemma BarKeepsFloor(env: Env, data: seq<Bar>, i: nat, s: State)
    requires i < |data| && InRange(env.risk) && !env.settings.management && FloorInv(env, s)
    requires WithinRisk(BarStep(env, data, i, s).trades)
    ensures FloorInv(env, BarStep(env, data, i, s))
  {
    hide RollBaselines, TradeBar, Decide, Trades, FloorHolds, Guarded, FloatingPnl;
    RollKeepsFloor(env, s, data[i]);
    var t := BarTrades(env, s, data[i]);
    var s1 := TradeBar(env, s, data[i]);
    OneTrade(RollBaselines(s, data[i]), t, data[i], s1);
    DecideEnters(env, data, i, s1);
    TradeKeepsFloor(env, RollBaselines(s, data[i]), t, data[i], s1);
    EntryKeepsFloor(env, s1, data[i].time, Decide(env, data, i, s1));
    PlotKeepsFloor(env, Decide(env, data, i, s1), data[i]);
  }

  lemma StartKeepsFloor(env: Env)
    requires InRange(env.risk) && env.settings.startingBalance >= 0.0
    ensures FloorInv(env, Start(env))
  {
    FreshBaseline(env.settings.startingBalance, env.risk.maxDailyLossPct, env.risk.riskPerTradePct);
    FreshBaseline(env.settings.startingBalance, env.risk.maxWeeklyLossPct, env.risk.riskPerTradePct);
  }

  lemma {:induction false} LoopKeepsFloor(env: Env, data: seq<Bar>, k: nat)
    requires k <= |data| && InRange(env.risk) && !env.settings.management && env.settings.startingBalance >= 0.0
    requires WithinRisk(RunTo(env, data, k).trades)
    ensures FloorInv(env, RunTo(env, data, k))
  {
    hide BarStep, FloorInv;
    if k > 0 {
      TradesOnlyGrow(env, data, k - 1, k);
      LoopKeepsFloor(env, data, k - 1);
      BarKeepsFloor(env, data, k - 1, RunTo(env, data, k - 1));
    } else {
      StartKeepsFloor(env);
    }
  }

  lemma FinishKeepsFloor(env: Env, last: Bar, s: State)
    requires InRange(env.risk) && FloorInv(env, s) && WithinRisk(Finish(env, last, s).trades)
    ensures FloorHolds(env, Finish(env, last, s)) && FloorHolds(env, s)
  {
    hide Above, InsertByTime, Keep, Stake;
    if s.holding.Some? {
      StakeIsPositive(s.equity, env.risk.riskPerTradePct);
      var t := CloseTrade(env, s.holding.value, last.close, last.time, END_OF_DATA, false);
      assert Finish(env, last, s).trades[|s.trades|] == t;
      LossKeepsFloor(env, s, t);
    }
  }

  /** MAIN RESULT. With management off, while no trade loses more than the money put at risk for
      it, the realized equity never falls below the day's opening equity less the daily limit and
      one trade's risk, and likewise for the week; positions carried over midnight or a weekend
      included, and the forced close at the end of the data too. */
  lemma EquityFloor(env: Env, data: seq<Bar>, k: nat)
    requires 0 < k <= |data| && InRange(env.risk) && !env.settings.management && env.settings.startingBalance >= 0.0
    requires WithinRisk(Finish(env, data[k - 1], RunTo(env, data, k)).trades)
    ensures FloorHolds(env, RunTo(env, data, k))
    ensures FloorHolds(env, Finish(env, data[k - 1], RunTo(env, data, k)))
  {
    hide RunTo, FloorHolds;
    var s, last := RunTo(env, data, k), data[k - 1];
    assert WithinRisk(s.trades) by {
      assert s.trades <= Finish(env, last, s).trades;
    }
    LoopKeepsFloor(env, data, k);
    FinishKeepsFloor(env, last, s);
  }

  lemma StepRolls(env: Env, data: seq<Bar>, i: nat, s: State)
    requires i < |data|
    ensures var s' := BarStep(env, data, i, s);
            && s'.day == Some(DayOf(data[i].time))
            && s'.dayStart == (if s.day == s'.day then s.dayStart else s.equity)
            && s'.week == Some(WeekOf(data[i].time))
            && s'.weekStart == (if s.week == s'.week then s.weekStart else s.equity)
  {
    hide Update, EvaluateEntry, Evaluates, FillEntry, FloatingPnl, DayOf, WeekOf, InsertByTime;
  }

  /** The baseline of a day is the equity with which its first candle began. */
  lemma {:induction false} DayStartIsOpening(env: Env, data: seq<Bar>, k: nat) returns (first: nat)
    requires 0 < k <= |data|
    ensures first < k && RunTo(env, data, k).dayStart == RunTo(env, data, first).equity
    ensures RunTo(env, data, k).day == Some(DayOf(data[k - 1].time))
    ensures forall i :: first <= i < k ==> DayOf(data[i].time) == DayOf(data[k - 1].time)
    ensures first == 0 || DayOf(data[first - 1].time) != DayOf(data[first].time)
  {
    hide BarStep, DayOf;
    StepRolls(env, data, k - 1, RunTo(env, data, k - 1));
    if k > 1 && DayOf(data[k - 2].time) == DayOf(data[k - 1].time) {
      first := DayStartIsOpening(env, data, k - 1);
    } else {
      first := k - 1;
      if k > 1 {
        var _ := DayStartIsOpening(env, data, k - 1);
      }
    }
  }

  /** The baseline of a week is the equity with which its first candle began. */
  lemma {:induction false} WeekStartIsOpening(env: Env, data: seq<Bar>, k: nat) returns (first: nat)
    requires 0 < k <= |data|
    ensures first < k && RunTo(env, data, k).weekStart == RunTo(env, data, first).equity
    ensures RunTo(env, data, k).week == Some(WeekOf(data[k - 1].time))
    ensures forall i :: first <= i < k ==> WeekOf(data[i].time) == WeekOf(data[k - 1].time)
    ensures first == 0 || WeekOf(data[first - 1].time) != WeekOf(data[first].time)
  {
    hide BarStep, WeekOf;
    StepRolls(env, data, k - 1, RunTo(env, data, k - 1));
    if k > 1 && WeekOf(data[k - 2].time) == WeekOf(data[k - 1].time) {
      first := WeekStartIsOpening(env, data, k - 1);
    } else {
      first := k - 1;
      if k > 1 {
        var _ := WeekStartIsOpening(env, data, k - 1);
      }
    }
  }
}
