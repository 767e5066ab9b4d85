/** The rules of the backtest in terms of prices, lots and times, for either side of the market and
    without naming how they are computed (app/backtesting/engine.py). */
module BacktestRules {
  import opened Backtest
  import opened BacktestRuns
  import opened Common
  import opened Costs
  import opened Guards
  import opened Resampling
  import opened Sizing
  import opened TradeHistory

  // ----- calendar ---------------------------------------------------------------------------

  /** Days begin at midnight; weeks begin on Monday, three days before day 0. */
  lemma CalendarDays(t: int, day: int, week: int)
    ensures DayOf(t) == day <==> 1440 * day <= t < 1440 * (day + 1)
    ensures WeekOf(t) == week <==> 7 * week - 3 <= DayOf(t) < 7 * week + 4
  {
  }

  // ----- entry ------------------------------------------------------------------------------

  /** An entry is filled at the candle's open plus, for a SELL minus, half the spread and the
      slippage; its initial risk is the distance from there to its stop. */
  lemma EntryFill(env: Env, e: Entry, bar: Bar)
    ensures var h, sign := FillEntry(env, e, bar), if e.direction.Buy? then 1.0 else -1.0;
            && h.entryPrice == bar.open + sign * Toll(env) && h.entryTime == bar.time
            && h.initialRisk == Distance(h.entryPrice, e.stopLoss)
            && h.direction == e.direction && h.stopLoss == e.stopLoss && h.takeProfit == e.takeProfit
            && h.lots == e.lots && h.monetaryRisk == e.monetaryRisk && h.atr == e.atr
            && h.mfe == 0.0 && h.mae == 0.0 && !h.breakevenApplied && !h.partialTaken
  {
    TollIsHalfAndSlip(env);
    hide Toll;
  }

  // ----- management -------------------------------------------------------------------------

  /** The best the candle did for the holder. */
  function BestGain(h: Holding, bar: Bar): real {
    match h.direction
    case Buy => bar.high - h.entryPrice
    case Sell => h.entryPrice - bar.low
  }

  /** The gain is some multiple of the initial risk. */
  predicate Reaches(h: Holding, bar: Bar, multiple: real) {
    BestGain(h, bar) >= multiple * h.initialRisk
  }

  /** A stop strictly better for the holder than the present one. */
  predicate Protects(d: Direction, present: real, stop: real) {
    match d
    case Buy => present < stop
    case Sell => stop < present
  }

  /** A price further in the holder's favour by an amount. */
  function Further(d: Direction, price: real, amount: real): real {
    match d
    case Buy => price + amount
    case Sell => price - amount
  }

  /** Where breakeven is, and where the stop trails to. */
  function EvenLevel(env: Env, h: Holding): real {
    Further(h.direction, h.entryPrice, env.settings.monitor.breakevenBufferTicks * env.spec.tickSize)
  }

  function TrailLevel(env: Env, h: Holding, bar: Bar): real {
    Further(h.direction, bar.close, -(env.settings.monitor.trailingAtrMultiplier * h.atr))
  }

  predicate MovesToEven(env: Env, h: Holding, bar: Bar) {
    && !h.breakevenApplied && Reaches(h, bar, env.settings.monitor.breakevenTriggerR)
    && Protects(h.direction, h.stopLoss, EvenLevel(env, h))
  }

  predicate Trails(env: Env, h: Holding, bar: Bar, stop: real) {
    && env.settings.monitor.enableTrailing && Reaches(h, bar, env.settings.monitor.trailingTriggerR)
    && Protects(h.direction, stop, TrailLevel(env, h, bar))
  }

  /** The stop after a candle: first to breakeven, then after the close by the trailing distance. */
  predicate StopFollows(env: Env, h: Holding, bar: Bar, stop: real, applied: bool) {
    var before := if MovesToEven(env, h, bar) then EvenLevel(env, h) else h.stopLoss;
    && applied == (h.breakevenApplied || MovesToEven(env, h, bar))
    && stop == (if Trails(env, h, bar, before) then TrailLevel(env, h, bar) else before)
  }

  lemma MultipleReached(h: Holding, bar: Bar, multiple: real)
    requires h.initialRisk > 0.0
    ensures FavorableR(h, bar) >= multiple <==> Reaches(h, bar, multiple)
  {
    var gain, risk := BestGain(h, bar), h.initialRisk;
    var r := gain / risk;
    assert r * risk == gain;
    if r >= multiple {
      MulMono(multiple, r, risk);
    } else {
      MulStrict(r, multiple, risk);
    }
  }

  lemma SameGain(h: Holding, bar: Bar, stop: real, applied: bool)
    ensures Favorable(h.(stopLoss := stop, breakevenApplied := applied), bar) == Favorable(h, bar)
  {
  }

  lemma BreakevenFollows(env: Env, h: Holding, bar: Bar)
    requires h.initialRisk > 0.0
    ensures MoveToBreakeven(env, h, bar) ==
            if MovesToEven(env, h, bar) then h.(stopLoss := EvenLevel(env, h), breakevenApplied := true) else h
  {
    MultipleReached(h, bar, env.settings.monitor.breakevenTriggerR);
    assert EvenLevel(env, h) == Ahead(h.direction, h.entryPrice, BreakevenBuffer(env));
    hide BreakevenBuffer, FavorableR, Reaches, EvenLevel, Ahead;
  }

  lemma TrailFollows(env: Env, h: Holding, bar: Bar)
    requires h.initialRisk > 0.0
    ensures Trail(env, h, bar) ==
            if Trails(env, h, bar, h.stopLoss) then h.(stopLoss := TrailLevel(env, h, bar)) else h
  {
    MultipleReached(h, bar, env.settings.monitor.trailingTriggerR);
    assert TrailLevel(env, h, bar) == Ahead(h.direction, bar.close, -TrailingDistance(env, h));
    hide TrailingDistance, FavorableR, Reaches, TrailLevel, Ahead;
  }

  /** Two amounts differ by half a step at most. */
  predicate WithinHalf(a: real, b: real, step: real) {
    -step / 2.0 <= a - b <= step / 2.0
  }

  /** A part of some lots: the whole number of steps nearest to the configured fraction. */
  predicate PartNear(env: Env, lots: real, part: real, steps: int) {
    && part == steps as real * env.spec.volumeStep
    && WithinHalf(part, lots * env.settings.monitor.partialExitFraction, env.spec.volumeStep)
  }

  lemma RoundNear(x: real)
    ensures -0.5 <= Round(x) as real - x <= 0.5
  {
  }

  lemma HalfScaled(n: real, q: real, k: real, a: real, b: real)
    requires k > 0.0 && -0.5 <= n - q <= 0.5 && a == n * k && b == q * k
    ensures WithinHalf(a, b, k)
  {
    var off := n - q;
    MulMono(off, 0.5, k);
    MulMono(-0.5, off, k);
    assert off * k == a - b;
  }

  lemma StepsScaled(k: int, q: real, lots: real, step: real)
    requires step > 0.0 && q * step == lots && k == Round(q)
    ensures WithinHalf(LotsOf(k, step), lots, step)
  {
    RoundNear(q);
    hide Round;
    var n := k as real;
    var part := LotsOf(k, step);
    assert part == n * step;
    hide LotsOf;
    HalfScaled(n, q, step, part, lots);
  }

  lemma StepsAreNearest(lots: real, step: real)
    requires step > 0.0
    ensures WithinHalf(LotsOf(NearestSteps(lots, step), step), lots, step)
  {
    var k, q := NearestSteps(lots, step), lots / step;
    assert k == Round(q);
    DivMul(lots, step);
    hide WithinHalf, LotsOf, Round;
    StepsScaled(k, q, lots, step);
    assert WithinHalf(LotsOf(k, step), lots, step);
    assert LotsOf(k, step) == LotsOf(NearestSteps(lots, step), step);
  }

  lemma PartIsNear(env: Env, lots: real) returns (steps: int)
    ensures PartNear(env, lots, PartOf(env, lots), steps)
  {
    var exact, step := FractionOf(env, lots), env.spec.volumeStep;
    steps := NearestSteps(exact, step);
    StepsAreNearest(exact, step);
    hide NearestSteps;
  }

  lemma StopElsewhere(env: Env, h: Holding, even: Holding, bar: Bar, stop: real)
    requires even == h.(stopLoss := even.stopLoss, breakevenApplied := even.breakevenApplied)
    ensures Trails(env, even, bar, stop) <==> Trails(env, h, bar, stop)
    ensures TrailLevel(env, even, bar) == TrailLevel(env, h, bar)
  {
    assert BestGain(even, bar) == BestGain(h, bar);
  }

  /** The two moves of the stop. */
  lemma StopMoves(env: Env, h: Holding, bar: Bar)
    requires h.initialRisk > 0.0
    ensures var moved := Trail(env, MoveToBreakeven(env, h, bar), bar);
            && StopFollows(env, h, bar, moved.stopLoss, moved.breakevenApplied)
            && moved == h.(stopLoss := moved.stopLoss, breakevenApplied := moved.breakevenApplied)
  {
    hide MoveToBreakeven, Trail, MovesToEven, Trails, EvenLevel, TrailLevel;
    BreakevenFollows(env, h, bar);
    var even := MoveToBreakeven(env, h, bar);
    TrailFollows(env, even, bar);
    StopElsewhere(env, h, even, bar, even.stopLoss);
  }

  /** The trade of a partial exit. */
  ghost predicate SellsPart(env: Env, h: Holding, bar: Bar, part: real, t: Trade) {
    && t.lots == part && t.reason == PARTIAL && t.isPartial && t.closeTime == bar.time
    && t.direction == h.direction && t.entryPrice == h.entryPrice
    && RawExit(env, h.direction, t.exitPrice)
       == Further(h.direction, h.entryPrice, env.settings.monitor.partialExitTriggerR * h.initialRisk)
  }

  lemma PartIsSold(env: Env, h: Holding, bar: Bar)
    requires h.initialRisk > 0.0
    ensures SellsPart(env, h, bar, PartOf(env, h.lots), PartialTrade(env, h, bar))
  {
    assert PartialDistance(env, h) == env.settings.monitor.partialExitTriggerR * h.initialRisk;
    RawPricesAreRaw(env, h.direction, PartialPrice(env, h));
    hide PartialDistance, RawExit, PartOf, Value;
  }

  /** When a part may be sold. */
  predicate PartDue(env: Env, h: Holding, bar: Bar, part: real) {
    var cfg := env.settings.monitor;
    && cfg.enablePartialExit && !h.partialTaken && Reaches(h, bar, cfg.partialExitTriggerR)
    && part >= env.spec.volumeMin && h.lots - part >= env.spec.volumeMin
  }

  lemma PartIsDue(env: Env, h: Holding, bar: Bar)
    requires h.initialRisk > 0.0
    ensures TakesPartial(env, h, bar) <==> PartDue(env, h, bar, PartOf(env, h.lots))
  {
    MultipleReached(h, bar, env.settings.monitor.partialExitTriggerR);
    hide FavorableR, Reaches, PartOf;
  }

  /** Neither depends on the stop. */
  lemma StopIsIrrelevant(env: Env, h: Holding, moved: Holding, bar: Bar, part: real, t: Trade)
    requires moved == h.(stopLoss := moved.stopLoss, breakevenApplied := moved.breakevenApplied)
    ensures PartDue(env, moved, bar, part) <==> PartDue(env, h, bar, part)
    ensures SellsPart(env, moved, bar, part, t) <==> SellsPart(env, h, bar, part, t)
  {
    assert BestGain(moved, bar) == BestGain(h, bar);
  }

  /** MAIN RESULT. What management does on one candle, for either side: the stop follows the two rules
      in order, and a part is sold exactly when it is enabled, not yet done, its multiple is reached
      and neither the part nor the rest is below the minimum; the part is sold at the price of that
      multiple. Without management or initial risk nothing happens. */
  lemma ManagedExactly(env: Env, h: Holding, bar: Bar) returns (part: real, steps: int)
    ensures PartNear(env, h.lots, part, steps)
    ensures var m, on := Manage(env, h, bar), env.settings.management && h.initialRisk > 0.0;
            && (!on ==> m.holding == h && m.partialExit.None?)
            && (on ==> StopFollows(env, h, bar, m.holding.stopLoss, m.holding.breakevenApplied))
            && (m.partialExit.Some? <==> on && PartDue(env, h, bar, part))
            && (m.partialExit.Some? ==> SellsPart(env, h, bar, part, m.partialExit.value))
            && m.holding.lots == h.lots - (if m.partialExit.Some? then part else 0.0)
            && m.holding.partialTaken == (h.partialTaken || m.partialExit.Some?)
  {
    part := PartOf(env, h.lots);
    steps := PartIsNear(env, h.lots);
    if env.settings.management && h.initialRisk > 0.0 {
      StopMoves(env, h, bar);
      var moved := Trail(env, MoveToBreakeven(env, h, bar), bar);
      PartIsDue(env, moved, bar);
      PartIsSold(env, moved, bar);
      StopIsIrrelevant(env, h, moved, bar, part, PartialTrade(env, moved, bar));
      hide MoveToBreakeven, Trail, PartOf, PartNear, TakesPartial, PartialTrade, StopFollows, PartDue, SellsPart;
    }
  }

  // ----- exit -------------------------------------------------------------------------------

  /** The exit of a candle, for either side: at the stop if the candle reached it, else at the target
      if it reached that; at the open when the candle began beyond the level. */
  lemma ExitExactly(d: Direction, stop: real, target: real, bar: Bar)
    ensures var e := ExitOf(d, stop, target, bar);
            match d
            case Buy =>
              && (bar.low <= stop ==> e == Some(Exit(if bar.open < stop then bar.open else stop, STOP_LOSS)))
              && (stop < bar.low && target <= bar.high ==>
                    e == Some(Exit(if target < bar.open then bar.open else target, TAKE_PROFIT)))
              && (stop < bar.low && bar.high < target ==> e == None)
            case Sell =>
              && (stop <= bar.high ==> e == Some(Exit(if stop < bar.open then bar.open else stop, STOP_LOSS)))
              && (bar.high < stop && bar.low <= target ==>
                    e == Some(Exit(if bar.open < target then bar.open else target, TAKE_PROFIT)))
              && (bar.high < stop && target < bar.low ==> e == None)
  {
  }

  /** What a trade records of its position; its R multiple times the money at risk is its result. */
  lemma TradeRecords(env: Env, h: Holding, raw: real, time: int, reason: Reason, isPartial: bool)
    ensures var t := CloseTrade(env, h, raw, time, reason, isPartial);
            && t.direction == h.direction && t.openTime == h.entryTime && t.closeTime == time
            && t.entryPrice == h.entryPrice && RawExit(env, h.direction, t.exitPrice) == raw && t.lots == h.lots
            && t.stopLoss == h.stopLoss && t.takeProfit == h.takeProfit && t.mae == h.mae && t.mfe == h.mfe
            && t.reason == reason && t.isPartial == isPartial
            && (t.rMultiple.None? <==> h.monetaryRisk == 0.0)
            && (t.rMultiple.Some? ==> t.rMultiple.value * h.monetaryRisk == t.pnl)
  {
    RawPricesAreRaw(env, h.direction, raw);
    hide Value, RawExit;
  }

  // ----- the decision -----------------------------------------------------------------------

  /** The records that closed at a time or later, each as often as before. */
  lemma {:induction false} TradesSinceExactly(ts: seq<TradeRecord>, since: int)
    ensures forall t :: multiset(TradesSince(ts, since))[t] == if t.closedAt >= since then multiset(ts)[t] else 0
  {
    if ts != [] {
      var init, last := ts[..|ts| - 1], ts[|ts| - 1];
      TradesSinceExactly(init, since);
      assert ts == init + [last];
    }
  }

  /** The percentage guard, multiplied out. */
  lemma LossExactly(equity: real, start: real, maxPct: real)
    ensures LossPct(equity, start) <= maxPct <==>
            if start > 0.0 && equity < start then (start - equity) * 100.0 <= maxPct * start else 0.0 <= maxPct
  {
    if start > 0.0 && equity < start {
      var q := (start - equity) / start;
      assert q * start == start - equity;
      assert LossPct(equity, start) == q * 100.0;
      assert q * 100.0 * start == (start - equity) * 100.0;
      if q * 100.0 <= maxPct {
        MulMono(q * 100.0, maxPct, start);
      } else {
        MulStrict(maxPct, q * 100.0, start);
      }
    }
  }

  /** The loss since a baseline is within a percentage of it. */
  predicate LossOk(equity: real, start: real, maxPct: real) {
    if start > 0.0 && equity < start then (start - equity) * 100.0 <= maxPct * start else 0.0 <= maxPct
  }

  /** MAIN RESULT. When a signal becomes an entry: equity and the losses since the day's and the week's
      baseline are within the limits, fewer trades than the limit closed since midnight, the last
      twenty trades end in fewer losses than the limit, the spread is allowed, there is no news, the
      score and the ratio suffice, and the size is tradable. */
  lemma ApprovedExactly(env: Env, s: State, sig: Signal, time: int)
    ensures var risk, recent := env.risk, RecentTrades(s.history, 20);
            Approved(env, s, sig, time) <==>
            && s.equity >= risk.minAccountEquity
            && LossOk(s.equity, s.dayStart, risk.maxDailyLossPct)
            && LossOk(s.equity, s.weekStart, risk.maxWeeklyLossPct)
            && |TradesSince(s.history, DayOf(time) * 1440)| < risk.maxTradesPerDay
            && 0 < risk.maxOpenPositions && TrailingLosses(recent) < risk.maxConsecutiveLosses
            && env.costs.spreadPoints <= risk.maxSpreadPoints
            && env.newsClear && sig.scoreOk
            && sig.riskReward.Some? && sig.riskReward.value >= env.settings.minRiskReward
            && SizeAt(env, s, sig).Sized? && SizeAt(env, s, sig).size.lots > 0.0
            && SizeAt(env, s, sig) ==
               CalculatePositionSize(s.equity, risk.riskPerTradePct, sig.entry, sig.stopLoss, env.spec)
  {
    LossExactly(s.equity, s.dayStart, env.risk.maxDailyLossPct);
    LossExactly(s.equity, s.weekStart, env.risk.maxWeeklyLossPct);
    hide LossPct, TrailingLosses, CalculatePositionSize, TradesSince, RecentTrades;
  }

  /** A decision is made only while flat, after the warm-up, and on every step-th candle. */
  lemma DecidesOnSchedule(env: Env, data: seq<Bar>, i: nat, s: State)
    requires i < |data|
    ensures Decide(env, data, i, s).pending != s.pending ==>
              && s.holding.None? && s.pending.None?
              && i >= env.settings.warmupBars && i % env.settings.step == 0
              && Decide(env, data, i, s).pending == EvaluateEntry(env, s, Window(env, data, i), data[i].time)
    ensures s.holding.None? && s.pending.None? && i >= env.settings.warmupBars && i % env.settings.step == 0 ==>
              Decide(env, data, i, s).pending == EvaluateEntry(env, s, Window(env, data, i), data[i].time)
  {
    hide EvaluateEntry, Window;
  }

  // ----- the equity curve -------------------------------------------------------------------

  /** A point of the curve is realized equity plus the held position's result at the close. */
  lemma CurvePoint(env: Env, s: State, bar: Bar)
    ensures var c := Plot(env, s, bar).curve;
            && |c| == |s.curve| + 1 && c[..|s.curve|] == s.curve && c[|s.curve|].time == bar.time
            && (s.holding.None? ==> c[|s.curve|].equity == s.equity)
            && (s.holding.Some? ==>
                  var h := s.holding.value;
                  (c[|s.curve|].equity - s.equity) * env.spec.tickSize
                  == (if h.direction.Buy? then bar.close - h.entryPrice else h.entryPrice - bar.close)
                     * env.spec.tickValue * h.lots)
  {
    if s.holding.Some? {
      var h := s.holding.value;
      ValueMultiplied(env.spec, Gain(h.direction, h.entryPrice, bar.close), h.lots);
      hide Value;
    }
  }

  lemma TradingKeepsCurve(env: Env, s: State, bar: Bar)
    ensures TradeBar(env, s, bar).curve == s.curve
  {
    hide Update, FillEntry;
  }

  lemma DecidingKeepsCurve(env: Env, data: seq<Bar>, i: nat, s: State)
    requires i < |data|
    ensures Decide(env, data, i, s).curve == s.curve
  {
    hide EvaluateEntry, Window;
  }

  /** One point per candle, at its time; a run that ends with a position ends its curve, too, with the
      final equity. */
  lemma {:induction false} CurveHasEveryCandle(env: Env, data: seq<Bar>, k: nat)
    requires k <= |data|
    ensures var c := RunTo(env, data, k).curve;
            |c| == k && forall i :: 0 <= i < k ==> c[i].time == data[i].time
  {
    hide TradeBar, Decide, FloatingPnl;
    if k > 0 {
      CurveHasEveryCandle(env, data, k - 1);
      var s := RunTo(env, data, k - 1);
      TradingKeepsCurve(env, s, data[k - 1]);
      DecidingKeepsCurve(env, data, k - 1, TradeBar(env, s, data[k - 1]));
    }
  }

  /** A run uses the configured number of candles at most, and what is still held after them is closed
      at the last close. */
  lemma EndsAtLastClose(env: Env, data: seq<Bar>)
    ensures var n, r := BarCount(env, data), Result(env, data);
            && n == (if env.settings.maxBars.Some? && env.settings.maxBars.value < |data|
                     then env.settings.maxBars.value else |data|)
            && (n > 0 && RunTo(env, data, n).holding.Some? ==>
                  && |r.trades| == |RunTo(env, data, n).trades| + 1
                  && var t := r.trades[|r.trades| - 1];
                     && t.reason == END_OF_DATA && !t.isPartial && t.closeTime == data[n - 1].time
                     && RawExit(env, t.direction, t.exitPrice) == data[n - 1].close
                     && r.curve[|r.curve| - 1].equity == r.equity)
            && (n > 0 && RunTo(env, data, n).holding.None? ==> r == RunTo(env, data, n))
            && (n == 0 ==> r == Start(env))
  {
    var n := BarCount(env, data);
    if n > 0 && RunTo(env, data, n).holding.Some? {
      CurveHasEveryCandle(env, data, n);
      var h := RunTo(env, data, n).holding.value;
      RawPricesAreRaw(env, h.direction, data[n - 1].close);
      hide RunTo, Value, Toll;
    }
  }
}
