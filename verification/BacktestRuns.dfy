/** What holds for every backtest run, with or without position management: no look-ahead, money
    is conserved, and the reported costs explain the difference to the raw prices. */
module BacktestRuns {
  import opened Backtest
  import opened Common
  import opened Costs
  import opened Resampling

  // ----- no look-ahead ----------------------------------------------------------------------

  lemma WindowIsPast(env: Env, a: seq<Bar>, b: seq<Bar>, k: nat, i: nat)
    requires i < k <= |a| && k <= |b| && a[..k] == b[..k]
    ensures Window(env, a, i) == Window(env, b, i) && a[i] == b[i]
  {
    var lo := i + 1 - env.settings.lookbackBars;
    var from: nat := if lo < 0 then 0 else lo;
    assert a[..k][from..i + 1] == a[from..i + 1];
    assert b[..k][from..i + 1] == b[from..i + 1];
    assert a[..k][i] == a[i] && b[..k][i] == b[i];
  }

  /** MAIN RESULT. The whole state after k candles is the same for any two histories that agree on
      those candles, so no decision, fill, exit or guard ever looks at a later candle. */
  lemma {:induction false} NoLookahead(env: Env, a: seq<Bar>, b: seq<Bar>, k: nat)
    requires k <= |a| && k <= |b| && a[..k] == b[..k]
    ensures RunTo(env, a, k) == RunTo(env, b, k)
  {
    hide EvaluateEntry, TradeBar, Plot, Window;
    if k > 0 {
      assert a[..k - 1] == a[..k][..k - 1] == b[..k][..k - 1] == b[..k - 1];
      NoLookahead(env, a, b, k - 1);
      WindowIsPast(env, a, b, k, k - 1);
    }
  }

  lemma WindowParts(env: Env, data: seq<Bar>, i: nat) returns (before: seq<Bar>, w: seq<Bar>, after: seq<Bar>)
    requires i < |data|
    ensures before + w + after == data && w == Window(env, data, i)
    ensures w != [] ==> w[|w| - 1] == data[i]
  {
    var lo := i + 1 - env.settings.lookbackBars;
    var from: nat := if lo < 0 then 0 else lo;
    before, w, after := data[..from], data[from..i + 1], data[i + 1..];
  }

  lemma ReturnedNeedsData(w: seq<Bar>, tf: Timeframe, j: nat)
    requires j < |ResampleClosedOnly(w, tf)|
    ensures w != []
  {
  }

  /** On grid data every hourly or four-hourly candle that the strategy is shown has ended by the
      close at which it decides, and every one but the first holds all the data of its period. */
  lemma StrategySeesClosedCandles(env: Env, data: seq<Bar>, i: nat, tf: Timeframe, j: nat)
    requires i < |data| && OnGrid(data) && (tf == H1 || tf == H4)
    requires j < |ResampleClosedOnly(Window(env, data, i), tf)|
    ensures var c := ResampleClosedOnly(Window(env, data, i), tf)[j];
            && c.start + tf.minutes <= data[i].time + M15
            && (j > 0 ==> InPeriod(data, c.start, tf) != [] && c == Aggregate(c.start, InPeriod(data, c.start, tf)))
  {
    hide ResampleClosedOnly, Divides, InPeriod, Aggregate, Spaced, OnGrid, Window;
    HoursDivide();
    FourHoursDivide();
    GridIsSpaced(data);
    var before, w, after := WindowParts(env, data, i);
    SpacedPart(before, w, after);
    ReturnedNeedsData(w, tf, j);
    ReturnedPeriodsHaveEnded(w, tf, j);
    if j > 0 {
      ReturnedBarsAreComplete(before, w, after, tf, j);
    }
  }

  ghost predicate Unforced(ts: seq<Trade>) {
    forall i :: 0 <= i < |ts| ==> ts[i].reason != END_OF_DATA
  }

  lemma BookAdds(s: State, t: Option<Trade>)
    requires Unforced(s.trades) && (t.Some? ==> t.value.reason != END_OF_DATA)
    ensures s.trades <= Book(s, t).trades && Unforced(Book(s, t).trades)
  {
  }

  lemma BarOnlyAdds(env: Env, data: seq<Bar>, i: nat, s: State)
    requires i < |data| && Unforced(s.trades)
    ensures s.trades <= BarStep(env, data, i, s).trades && Unforced(BarStep(env, data, i, s).trades)
  {
    var f := FillPending(env, RollBaselines(s, data[i]), data[i]);
    assert f.trades == s.trades;
    if f.holding.Some? {
      var o := Update(env, f.holding.value, data[i]);
      BookAdds(f, o.partialExit);
      BookAdds(Book(f, o.partialExit), o.exit);
    }
  }

  lemma {:induction false} TradesOnlyGrow(env: Env, data: seq<Bar>, j: nat, k: nat)
    requires j <= k <= |data|
    ensures RunTo(env, data, j).trades <= RunTo(env, data, k).trades
    ensures Unforced(RunTo(env, data, k).trades)
    decreases k
  {
    hide BarStep;
    if k > 0 {
      TradesOnlyGrow(env, data, if j < k then j else k - 1, k - 1);
      BarOnlyAdds(env, data, k - 1, RunTo(env, data, k - 1));
    }
  }

  /** The result's trades without the one forced by the end of the data. */
  function Genuine(ts: seq<Trade>): seq<Trade> {
    if ts != [] && ts[|ts| - 1].reason == END_OF_DATA then ts[..|ts| - 1] else ts
  }

  /** The genuine trades of a result are those of its loop. */
  lemma GenuineTrades(env: Env, data: seq<Bar>)
    ensures Genuine(Result(env, data).trades) == RunTo(env, data, BarCount(env, data)).trades
  {
    hide BarStep;
    TradesOnlyGrow(env, data, 0, BarCount(env, data));
  }

  /** So cutting the data short changes no trade made before the cut: the trades of a truncated
      run, except the one its end forces, are the first trades of the full run. */
  lemma TruncatedTradesArePrefix(env: Env, data: seq<Bar>, k: nat)
    requires k <= |data|
    ensures Genuine(Result(env, data[..k]).trades) <= Genuine(Result(env, data).trades)
    ensures Genuine(Result(env, data).trades) <= Result(env, data).trades
  {
    hide RunTo, Result;
    var short, long := BarCount(env, data[..k]), BarCount(env, data);
    GenuineTrades(env, data[..k]);
    GenuineTrades(env, data);
    assert data[..k][..short] == data[..short];
    NoLookahead(env, data[..k], data, short);
    TradesOnlyGrow(env, data, short, long);
  }

  /** The last `n` elements, or all if there are fewer. */
  predicate LastCandles(part: seq<Bar>, all: seq<Bar>, n: nat) {
    |part| == (if |all| < n then |all| else n) && part == all[|all| - |part|..]
  }

  /** The window is the configured number of last candles, up to and including the deciding one. */
  lemma WindowIsLast(env: Env, data: seq<Bar>, i: nat)
    requires i < |data|
    ensures LastCandles(Window(env, data, i), data[..i + 1], env.settings.lookbackBars)
  {
    var lo := if i + 1 < env.settings.lookbackBars then 0 else i + 1 - env.settings.lookbackBars;
    assert data[lo..i + 1] == data[..i + 1][lo..];
  }

  /** What the strategy is asked with at a close: the closed H4 candles first, then the closed H1
      candles, then the last 250 M15 candles; and it is not asked while fewer than 210 higher
      candles are closed. */
  lemma StrategyIsGiven(env: Env, window: seq<Bar>) returns (m15: seq<Bar>)
    ensures var h4, h1 := ResampleClosedOnly(window, H4), ResampleClosedOnly(window, H1);
            && (|h4| < 210 || |h1| < 210 ==> SignalAt(env, window) == None)
            && (|h4| >= 210 && |h1| >= 210 ==> SignalAt(env, window) == env.strategy(h4, h1, m15))
            && LastCandles(m15, window, 250)
  {
    hide ResampleClosedOnly;
    m15 := Tail(window, TAIL_BARS);
  }

  // ----- conservation -----------------------------------------------------------------------

  /** The sum of the reported trade results. */
  function TotalPnl(ts: seq<Trade>): real {
    if ts == [] then 0.0 else TotalPnl(ts[..|ts| - 1]) + ts[|ts| - 1].pnl
  }

  ghost predicate Balanced(env: Env, s: State) {
    s.equity == env.settings.startingBalance + TotalPnl(s.trades)
  }

  lemma BookBalances(env: Env, s: State, t: Option<Trade>)
    requires Balanced(env, s)
    ensures Balanced(env, Book(s, t))
  {
    if t.Some? {
      assert (s.trades + [t.value])[..|s.trades|] == s.trades;
    }
  }

  lemma SameMoney(env: Env, s: State, s': State)
    requires Balanced(env, s) && s'.equity == s.equity && s'.trades == s.trades
    ensures Balanced(env, s')
  {
  }

  lemma BarBalances(env: Env, data: seq<Bar>, i: nat, s: State)
    requires i < |data| && Balanced(env, s)
    ensures Balanced(env, BarStep(env, data, i, s))
  {
    hide Update, EvaluateEntry, FillEntry, Window, FloatingPnl, Balanced, Book;
    var f := FillPending(env, RollBaselines(s, data[i]), data[i]);
    SameMoney(env, s, f);
    var m := ManageHolding(env, f, data[i]);
    if f.holding.Some? {
      var o := Update(env, f.holding.value, data[i]);
      BookBalances(env, f, o.partialExit);
      BookBalances(env, Book(f, o.partialExit), o.exit);
      SameMoney(env, Book(Book(f, o.partialExit), o.exit), m);
    }
    SameMoney(env, m, BarStep(env, data, i, s));
  }

  lemma {:induction false} LoopBalances(env: Env, data: seq<Bar>, k: nat)
    requires k <= |data|
    ensures Balanced(env, RunTo(env, data, k))
  {
    hide BarStep;
    if k > 0 {
      LoopBalances(env, data, k - 1);
      BarBalances(env, data, k - 1, RunTo(env, data, k - 1));
    }
  }

  /** MAIN RESULT. Ending minus starting balance is the sum of the reported trade results, partial
      exits and the forced close included; nothing is left open. */
  lemma MoneyIsConserved(env: Env, data: seq<Bar>)
    ensures var r := Result(env, data);
            r.equity - env.settings.startingBalance == TotalPnl(r.trades) && r.holding.None?
  {
    var n := BarCount(env, data);
    LoopBalances(env, data, n);
    if n > 0 && RunTo(env, data, n).holding.Some? {
      var s := RunTo(env, data, n);
      BookBalances(env, s,
                   Some(CloseTrade(env, s.holding.value, data[n - 1].close, data[n - 1].time, END_OF_DATA, false)));
    }
  }

  // ----- the reported costs -----------------------------------------------------------------

  /** Half the spread and the slippage, in price. */
  function Toll(env: Env): real {
    (env.costs.spreadPoints / 2.0 + env.costs.slippagePoints) * env.spec.tickSize
  }

  /** The raw price that a costed entry, or exit, price was made from: a BUY enters above it and
      leaves below it, a SELL the other way round. */
  function RawEntry(env: Env, d: Direction, price: real): real {
    if d.Buy? then price - Toll(env) else price + Toll(env)
  }

  function RawExit(env: Env, d: Direction, price: real): real {
    if d.Buy? then price + Toll(env) else price - Toll(env)
  }

  /** What the trade made between raw prices. */
  function RawMove(env: Env, t: Trade): real {
    var entry, exit := RawEntry(env, t.direction, t.entryPrice), RawExit(env, t.direction, t.exitPrice);
    if t.direction.Buy? then exit - entry else entry - exit
  }

  /** Nights held times the rate of the side. */
  function SwapOf(env: Env, t: Trade): real {
    var nights := t.closeTime / 1440 - t.openTime / 1440;
    var rate := if t.direction.Buy? then env.costs.swapLongPerLotPerDay else env.costs.swapShortPerLotPerDay;
    if nights <= 0 then 0.0 else t.lots * rate * nights as real
  }

  /** The result with all costs added back. */
  function WithoutCosts(t: Trade): real {
    t.pnl + t.commission - t.swap + t.spreadCost + t.slippageCost
  }

  /** Each cost is what the settings say, and together they are exactly what separates the trade's
      result from the worth of its move between raw prices. */
  ghost predicate Explained(env: Env, t: Trade) {
    && WithoutCosts(t) * env.spec.tickSize == RawMove(env, t) * env.spec.tickValue * t.lots
    && t.grossPnl == t.pnl + t.commission - t.swap
    && t.commission == t.lots * env.costs.commissionPerLot
    && t.swap == SwapOf(env, t)
    && t.spreadCost == env.costs.spreadPoints * env.spec.tickValue * t.lots
    && t.slippageCost == 2.0 * env.costs.slippagePoints * env.spec.tickValue * t.lots
  }

  /** The trade was entered at the open of a candle that the run had seen. */
  ghost predicate OpenedAt(env: Env, bars: seq<Bar>, d: Direction, price: real, time: int) {
    exists i :: 0 <= i < |bars| && bars[i].time == time && bars[i].open == RawEntry(env, d, price)
  }

  ghost predicate Costed(env: Env, bars: seq<Bar>, h: Holding) {
    && h.entrySpreadCost == env.costs.spreadPoints * env.spec.tickSize / 2.0
    && h.entrySlippageCost == env.costs.slippagePoints * env.spec.tickSize
    && OpenedAt(env, bars, h.direction, h.entryPrice, h.entryTime)
  }

  ghost predicate Accounted(env: Env, bars: seq<Bar>, t: Trade) {
    Explained(env, t) && OpenedAt(env, bars, t.direction, t.entryPrice, t.openTime)
  }

  ghost predicate AllAccounted(env: Env, bars: seq<Bar>, ts: seq<Trade>) {
    forall i :: 0 <= i < |ts| ==> Accounted(env, bars, ts[i])
  }

  ghost predicate CostInv(env: Env, bars: seq<Bar>, s: State) {
    AllAccounted(env, bars, s.trades) && (s.holding.Some? ==> Costed(env, bars, s.holding.value))
  }

  lemma TollIsHalfAndSlip(env: Env)
    ensures Toll(env) == env.costs.spreadPoints * env.spec.tickSize / 2.0 + env.costs.slippagePoints * env.spec.tickSize
  {
    var a, b, k := env.costs.spreadPoints / 2.0, env.costs.slippagePoints, env.spec.tickSize;
    assert (a + b) * k == a * k + b * k;
  }

  lemma RawPricesAreRaw(env: Env, d: Direction, raw: real)
    ensures RawEntry(env, d, ApplyEntryCosts(raw, d, env.costs, env.spec.tickSize).price) == raw
    ensures RawExit(env, d, ApplyExitCosts(raw, d, env.costs, env.spec.tickSize).price) == raw
  {
    var half, slip := env.costs.spreadPoints * env.spec.tickSize / 2.0, env.costs.slippagePoints * env.spec.tickSize;
    TollIsHalfAndSlip(env);
    assert Toll(env) == half + slip;
    hide Toll;
  }

  lemma HalvesAddUp(spread: real, slip: real, value: real, lots: real)
    ensures spread / 2.0 * value * lots + spread / 2.0 * value * lots == spread * value * lots
    ensures slip * value * lots + slip * value * lots == 2.0 * slip * value * lots
  {
  }

  /** The reported costs of a trade are those of its settings. */
  lemma TradeCosts(env: Env, bars: seq<Bar>, h: Holding, price: real, time: int, reason: Reason, isPartial: bool)
    requires Costed(env, bars, h)
    ensures var t := CloseTrade(env, h, price, time, reason, isPartial);
            && t.grossPnl == t.pnl + t.commission - t.swap
            && t.commission == t.lots * env.costs.commissionPerLot && t.swap == SwapOf(env, t)
            && t.spreadCost == env.costs.spreadPoints * env.spec.tickValue * t.lots
            && t.slippageCost == 2.0 * env.costs.slippagePoints * env.spec.tickValue * t.lots
  {
    hide OpenedAt;
    var spread, slip := env.costs.spreadPoints, env.costs.slippagePoints;
    assert spread * env.spec.tickSize / 2.0 == spread / 2.0 * env.spec.tickSize;
    ValueOfTicks(env.spec, spread / 2.0, h.lots);
    ValueOfTicks(env.spec, slip, h.lots);
    HalvesAddUp(spread, slip, env.spec.tickValue, h.lots);
    hide Value, Gain;
  }

  lemma TradeValue(env: Env, bars: seq<Bar>, h: Holding, price: real, time: int, reason: Reason, isPartial: bool)
    requires Costed(env, bars, h)
    ensures var t := CloseTrade(env, h, price, time, reason, isPartial);
            && t.direction == h.direction && t.entryPrice == h.entryPrice && t.openTime == h.entryTime
            && t.lots == h.lots && OpenedAt(env, bars, t.direction, t.entryPrice, t.openTime)
            && WithoutCosts(t) == Value(env.spec, RawMove(env, t), t.lots)
  {
    hide OpenedAt;
    var entry := RawEntry(env, h.direction, h.entryPrice);
    RawPricesAreRaw(env, h.direction, price);
    CostsExplainTheFill(env.spec, env.costs, h.direction, entry, price, h.lots);
    TollIsHalfAndSlip(env);
    assert ApplyEntryCosts(entry, h.direction, env.costs, env.spec.tickSize).price == h.entryPrice;
    assert RawMove(env, CloseTrade(env, h, price, time, reason, isPartial)) == Gain(h.direction, entry, price);
    hide Value, Toll;
  }

  lemma CloseIsAccounted(env: Env, bars: seq<Bar>, h: Holding, price: real, time: int, reason: Reason, isPartial: bool)
    requires Costed(env, bars, h)
    ensures Accounted(env, bars, CloseTrade(env, h, price, time, reason, isPartial))
  {
    hide CloseTrade, Costed, OpenedAt, Value, SwapOf, RawMove, WithoutCosts;
    TradeCosts(env, bars, h, price, time, reason, isPartial);
    TradeValue(env, bars, h, price, time, reason, isPartial);
    var t := CloseTrade(env, h, price, time, reason, isPartial);
    ValueMultiplied(env.spec, RawMove(env, t), t.lots);
  }

  ghost predicate SameEntry(a: Holding, b: Holding) {
    && a.direction == b.direction && a.entryPrice == b.entryPrice && a.entryTime == b.entryTime
    && a.entrySpreadCost == b.entrySpreadCost && a.entrySlippageCost == b.entrySlippageCost
    && a.monetaryRisk == b.monetaryRisk
  }

  lemma SameEntrySameCosts(env: Env, bars: seq<Bar>, a: Holding, b: Holding)
    requires Costed(env, bars, a) && SameEntry(a, b)
    ensures Costed(env, bars, b)
  {
  }

  /** Management and excursions never touch the entry. */
  lemma EntryIsFixed(env: Env, h: Holding, bar: Bar)
    ensures SameEntry(h, Update(env, h, bar).holding)
  {
    hide CloseTrade, PartialTrade, ExitOf;
  }

  lemma ManagedExitIsAccounted(env: Env, bars: seq<Bar>, h: Holding, bar: Bar)
    requires Costed(env, bars, h)
    ensures var t := Manage(env, h, bar).partialExit; t.Some? ==> Accounted(env, bars, t.value)
  {
    hide Accounted, Costed, CloseTrade, PartialPrice;
    if env.settings.management && h.initialRisk > 0.0 {
      var moved := Trail(env, MoveToBreakeven(env, h, bar), bar);
      SameEntrySameCosts(env, bars, h, PartSold(env, moved));
      CloseIsAccounted(env, bars, PartSold(env, moved), PartialPrice(env, moved), bar.time, PARTIAL, true);
    }
  }

  lemma UpdateIsAccounted(env: Env, bars: seq<Bar>, h: Holding, bar: Bar)
    requires Costed(env, bars, h)
    ensures var o := Update(env, h, bar);
            && Costed(env, bars, o.holding)
            && (o.partialExit.Some? ==> Accounted(env, bars, o.partialExit.value))
            && (o.exit.Some? ==> Accounted(env, bars, o.exit.value))
  {
    hide Accounted, Costed, CloseTrade, Manage, ExitOf;
    var tracked := TrackExcursions(h, bar);
    SameEntrySameCosts(env, bars, h, tracked);
    ManagedExitIsAccounted(env, bars, tracked, bar);
    EntryIsFixed(env, h, bar);
    var o := Update(env, h, bar).holding;
    SameEntrySameCosts(env, bars, h, o);
    var exit := ExitOf(o.direction, o.stopLoss, o.takeProfit, bar);
    if exit.Some? {
      CloseIsAccounted(env, bars, o, exit.value.price, bar.time, exit.value.reason, false);
    }
  }

  lemma BookAccounts(env: Env, bars: seq<Bar>, s: State, t: Option<Trade>)
    requires AllAccounted(env, bars, s.trades)
    requires t.Some? ==> Accounted(env, bars, t.value)
    ensures AllAccounted(env, bars, Book(s, t).trades)
  {
    hide Accounted;
  }

  lemma MoreBars(env: Env, bars: seq<Bar>, b: Bar, s: State)
    requires CostInv(env, bars, s)
    ensures CostInv(env, bars + [b], s)
  {
    hide Explained, RawEntry;
    forall d, p, t | OpenedAt(env, bars, d, p, t)
      ensures OpenedAt(env, bars + [b], d, p, t)
    {
      var i :| 0 <= i < |bars| && bars[i].time == t && bars[i].open == RawEntry(env, d, p);
      assert (bars + [b])[i] == bars[i];
    }
  }

  lemma FillIsCosted(env: Env, bars: seq<Bar>, e: Entry, bar: Bar)
    ensures Costed(env, bars + [bar], FillEntry(env, e, bar))
  {
    RawPricesAreRaw(env, e.direction, bar.open);
    assert (bars + [bar])[|bars|] == bar;
  }

  lemma BarAccounts(env: Env, data: seq<Bar>, i: nat, s: State)
    requires i < |data| && CostInv(env, data[..i], s)
    ensures CostInv(env, data[..i + 1], BarStep(env, data, i, s))
  {
    hide Update, Accounted, Costed, EvaluateEntry, Evaluates, FloatingPnl, FillEntry, WeekOf, DayOf;
    var bars, bar := data[..i + 1], data[i];
    assert bars == data[..i] + [bar];
    MoreBars(env, data[..i], bar, s);
    if s.pending.Some? {
      FillIsCosted(env, data[..i], s.pending.value, bar);
    }
    var f := FillPending(env, RollBaselines(s, bar), bar);
    assert CostInv(env, bars, f);
    if f.holding.Some? {
      UpdateIsAccounted(env, bars, f.holding.value, bar);
      var o := Update(env, f.holding.value, bar);
      BookAccounts(env, bars, f, o.partialExit);
      BookAccounts(env, bars, Book(f, o.partialExit), o.exit);
    }
  }

  lemma {:induction false} LoopAccounts(env: Env, data: seq<Bar>, k: nat)
    requires k <= |data|
    ensures CostInv(env, data[..k], RunTo(env, data, k))
  {
    hide BarStep, Accounted, Costed;
    if k > 0 {
      LoopAccounts(env, data, k - 1);
      BarAccounts(env, data, k - 1, RunTo(env, data, k - 1));
    }
  }

  /** MAIN RESULT. Every trade of every run was entered at the open of a candle, and its result
      with all reported costs added back is its profit between raw prices. */
  lemma CostsExplainEveryTrade(env: Env, data: seq<Bar>)
    ensures AllAccounted(env, data[..BarCount(env, data)], Result(env, data).trades)
  {
    var n := BarCount(env, data);
    LoopAccounts(env, data, n);
    if n > 0 && RunTo(env, data, n).holding.Some? {
      hide Accounted, Costed, CloseTrade, RunTo;
      var s, last := RunTo(env, data, n), data[n - 1];
      CloseIsAccounted(env, data[..n], s.holding.value, last.close, last.time, END_OF_DATA, false);
      BookAccounts(env, data[..n], s,
                   Some(CloseTrade(env, s.holding.value, last.close, last.time, END_OF_DATA, false)));
    }
  }
}
