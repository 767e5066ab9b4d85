/** Two more limits over a whole backtest with position management off: how long a losing run can
    get, and how many trades a day can close. Candles come in order of time. */
module BacktestStreaks {
  import opened Backtest
  import opened BacktestLimits
  import opened Common
  import opened Guards
  import opened Resampling
  import opened TradeHistory

  ghost predicate Chronological(data: seq<Bar>) {
    forall i, j :: 0 <= i < j < |data| ==> data[i].time <= data[j].time
  }

  // ----- the guards' history is the list of trades ------------------------------------------

  function Records(ts: seq<Trade>): (rs: seq<TradeRecord>)
    ensures |rs| == |ts|
    ensures forall i :: 0 <= i < |ts| ==> rs[i] == RecordOf(ts[i])
  {
    seq(|ts|, i requires 0 <= i < |ts| => RecordOf(ts[i]))
  }

  /** The history holds the closed trades in the order of the result list. */
  ghost predicate Timely(s: State, now: int) {
    && s.history == Records(s.trades)
    && forall i :: 0 <= i < |s.trades| ==> s.trades[i].closeTime <= now
  }

  lemma BookIsTimely(s: State, t: Option<Trade>, now: int)
    requires Timely(s, now) && (t.Some? ==> t.value.closeTime == now)
    ensures Timely(Book(s, t), now)
    ensures t.Some? ==> Book(s, t).history == s.history + [RecordOf(t.value)]
  {
    if t.Some? {
      var ts := s.trades + [t.value];
      assert InsertByTime(s.history, RecordOf(t.value)) == s.history + [RecordOf(t.value)];
      assert Records(ts) == Records(s.trades) + [RecordOf(t.value)];
    }
  }

  // ----- losing runs ------------------------------------------------------------------------

  /** No run of losses is longer than the limit; one that reaches it is the newest, and ends
      all trading. */
  ghost predicate StreakInv(env: Env, s: State) {
    && LongestRun(s.history) <= env.risk.maxConsecutiveLosses
    && (LongestRun(s.history) == env.risk.maxConsecutiveLosses ==>
          TrailingLosses(s.history) == env.risk.maxConsecutiveLosses && AtRisk(s).None?)
  }

  lemma RunsAfterTrade(h: seq<TradeRecord>, t: TradeRecord)
    ensures TrailingLosses(h + [t]) == if t.pnl < 0.0 then TrailingLosses(h) + 1 else 0
    ensures LongestRun(h + [t])
            == if TrailingLosses(h + [t]) > LongestRun(h) then TrailingLosses(h + [t]) else LongestRun(h)
  {
    assert (h + [t])[..|h|] == h;
  }

  lemma {:induction false} TrailingAtMostLongest(h: seq<TradeRecord>)
    ensures TrailingLosses(h) <= LongestRun(h)
  {
  }

  lemma TradeKeepsStreak(env: Env, s: State, t: Option<Trade>, bar: Bar, s': State)
    requires StreakInv(env, s) && Timely(s, bar.time) && Trades(s, t, bar, s')
    ensures StreakInv(env, s') && Timely(s', bar.time)
  {
    hide InsertByTime, Records;
    BookIsTimely(s, t, bar.time);
    if t.Some? {
      TrailingAtMostLongest(s.history);
      RunsAfterTrade(s.history, RecordOf(t.value));
    }
  }

  /** The guards see only the last 20 trades, which is enough because the limit is at most 20. */
  lemma EntryKeepsStreak(env: Env, s: State, time: int, s': State)
    requires InRange(env.risk) && StreakInv(env, s) && Enters(env, s, time, s')
    ensures StreakInv(env, s')
  {
    hide TradesSince, LossPct, Stake;
    WindowShowsStreak(s.history, RECENT);
  }

  // ----- trades per day ---------------------------------------------------------------------

  /** How many of the trades were closed on a day. */
  function CountOn(ts: seq<Trade>, day: int): nat {
    if ts == [] then 0
    else CountOn(ts[..|ts| - 1], day) + if DayOf(ts[|ts| - 1].closeTime) == day then 1 else 0
  }

  lemma CountAfterTrade(ts: seq<Trade>, t: Trade, day: int)
    ensures CountOn(ts + [t], day) == CountOn(ts, day) + if DayOf(t.closeTime) == day then 1 else 0
  {
    assert (ts + [t])[..|ts|] == ts;
  }

  lemma SinceMidnight(time: int, now: int)
    requires time <= now
    ensures time >= DayOf(now) * DAY <==> DayOf(time) == DayOf(now)
  {
  }

  /** Counting the trades since midnight counts those of the day. */
  lemma {:induction false} SinceCountsDay(ts: seq<Trade>, now: int)
    requires forall i :: 0 <= i < |ts| ==> ts[i].closeTime <= now
    ensures |TradesSince(Records(ts), DayOf(now) * DAY)| == CountOn(ts, DayOf(now))
  {
    hide DayOf;
    if ts != [] {
      var init := ts[..|ts| - 1];
      SinceCountsDay(init, now);
      assert Records(ts)[..|ts| - 1] == Records(init);
      SinceMidnight(ts[|ts| - 1].closeTime, now);
    }
  }

  /** The day's count is within the limit, with room for one more while a trade is outstanding;
      days to come have none. */
  ghost predicate DayInv(env: Env, s: State, day: int) {
    && CountOn(s.trades, day) <= env.risk.maxTradesPerDay
    && (s.day.None? ==> s.trades == [] && AtRisk(s).None?)
    && (s.day.Some? && s.day.value < day ==> CountOn(s.trades, day) == 0)
    && (s.day.Some? && s.day.value <= day && AtRisk(s).Some? ==> CountOn(s.trades, day) < env.risk.maxTradesPerDay)
  }

  lemma TradeKeepsDay(env: Env, s: State, t: Option<Trade>, bar: Bar, s': State, day: int)
    requires DayInv(env, s, day) && Trades(s, t, bar, s') && s.day == Some(DayOf(bar.time))
    ensures DayInv(env, s', day)
  {
    hide InsertByTime, DayOf;
    if t.Some? {
      CountAfterTrade(s.trades, t.value, day);
    }
  }

  lemma EntryKeepsDay(env: Env, s: State, time: int, s': State, day: int)
    requires InRange(env.risk) && DayInv(env, s, day) && Timely(s, time) && Enters(env, s, time, s')
    requires s.day == Some(DayOf(time))
    ensures DayInv(env, s', day)
  {
    hide LossPct, TrailingLosses, RecentTrades, Stake, DayOf, Records;
    SinceCountsDay(s.trades, time);
  }

  lemma RollKeepsDay(env: Env, s: State, bar: Bar, day: int)
    requires InRange(env.risk) && DayInv(env, s, day)
    requires s.day.Some? ==> s.day.value <= DayOf(bar.time)
    ensures DayInv(env, RollBaselines(s, bar), day)
  {
    hide DayOf, WeekOf, RollBaselines;
    RollTouchesBaselines(s, bar);
  }

  // ----- the loop ---------------------------------------------------------------------------

  ghost predicate LimitInv(env: Env, s: State, now: int, day: int) {
    OneAtATime(s) && Timely(s, now) && StreakInv(env, s) && DayInv(env, s, day)
  }

  lemma RollKeepsLimits(env: Env, s: State, bar: Bar, now: int, day: int)
    requires InRange(env.risk) && LimitInv(env, s, now, day) && now <= bar.time
    requires s.day.Some? ==> s.day.value <= DayOf(bar.time)
    ensures LimitInv(env, RollBaselines(s, bar), bar.time, day)
  {
    hide DayOf, WeekOf, RollBaselines, DayInv, Records, LongestRun, TrailingLosses;
    RollKeepsDay(env, s, bar, day);
    RollTouchesBaselines(s, bar);
  }

  lemma SameDay(s: State, t: Option<Trade>, bar: Bar, s': State)
    requires Trades(s, t, bar, s')
    ensures s'.day == s.day
  {
  }

  lemma EntryIsTimely(env: Env, s: State, time: int, s': State)
    requires Timely(s, time) && Enters(env, s, time, s')
    ensures Timely(s', time)
  {
    hide GuardsPass, Stake;
  }

  lemma PlotKeepsLimits(env: Env, s: State, bar: Bar, day: int)
    requires LimitInv(env, s, bar.time, day)
    ensures LimitInv(env, Plot(env, s, bar), bar.time, day)
  {
    hide FloatingPnl, Records, CountOn, LongestRun, TrailingLosses;
  }

  lemma BarKeepsLimits(env: Env, data: seq<Bar>, i: nat, s: State, now: int, day: int)
    requires i < |data| && InRange(env.risk) && !env.settings.management
    requires LimitInv(env, s, now, day) && now <= data[i].time
    requires s.day.Some? ==> s.day.value <= DayOf(data[i].time)
    ensures LimitInv(env, BarStep(env, data, i, s), data[i].time, day)
  {
    hide RollBaselines, TradeBar, Decide, FloatingPnl, Trades, DayInv, StreakInv, Timely;
    var bar := data[i];
    var r := RollBaselines(s, bar);
    RollKeepsLimits(env, s, bar, now, day);
    var t := BarTrades(env, s, bar);
    var s1 := TradeBar(env, s, bar);
    OneTrade(r, t, bar, s1);
    RollTouchesBaselines(s, bar);
    SameDay(r, t, bar, s1);
    TradeKeepsStreak(env, r, t, bar, s1);
    TradeKeepsDay(env, r, t, bar, s1, day);
    DecideEnters(env, data, i, s1);
    EntryKeepsStreak(env, s1, bar.time, Decide(env, data, i, s1));
    EntryKeepsDay(env, s1, bar.time, Decide(env, data, i, s1), day);
    EntryIsTimely(env, s1, bar.time, Decide(env, data, i, s1));
    PlotKeepsLimits(env, Decide(env, data, i, s1), bar, day);
  }

  /** The time of the last of the first k candles. */
  function Now(data: seq<Bar>, k: nat): int
    requires k <= |data|
  {
    if k > 0 then data[k - 1].time else if data == [] then 0 else data[0].time
  }

  lemma StartKeepsLimits(env: Env, now: int, day: int)
    requires InRange(env.risk)
    ensures LimitInv(env, Start(env), now, day)
  {
  }

  lemma DaysOrdered(a: int, b: int)
    requires a <= b
    ensures DayOf(a) <= DayOf(b)
  {
  }

  lemma {:induction false} LoopKeepsLimits(env: Env, data: seq<Bar>, k: nat, day: int)
    requires k <= |data| && Chronological(data) && InRange(env.risk) && !env.settings.management
    ensures LimitInv(env, RunTo(env, data, k), Now(data, k), day)
  {
    hide BarStep, LimitInv, DayOf;
    if k > 0 {
      LoopKeepsLimits(env, data, k - 1, day);
      if k > 1 {
        var _ := DayStartIsOpening(env, data, k - 1);
        DaysOrdered(data[k - 2].time, data[k - 1].time);
      }
      BarKeepsLimits(env, data, k - 1, RunTo(env, data, k - 1), Now(data, k - 1), day);
    } else {
      StartKeepsLimits(env, Now(data, 0), day);
    }
  }

  lemma ForcedCloseTime(env: Env, h: Holding, last: Bar)
    ensures CloseTrade(env, h, last.close, last.time, END_OF_DATA, false).closeTime == last.time
  {
  }

  lemma FinishKeepsLimits(env: Env, last: Bar, s: State, day: int)
    requires LimitInv(env, s, last.time, day) && s.day == Some(DayOf(last.time))
    ensures var f := Finish(env, last, s);
            Timely(f, last.time) && StreakInv(env, f) && CountOn(f.trades, day) <= env.risk.maxTradesPerDay
  {
    hide InsertByTime, Records, DayOf, CloseTrade;
    if s.holding.Some? {
      var t := CloseTrade(env, s.holding.value, last.close, last.time, END_OF_DATA, false);
      ForcedCloseTime(env, s.holding.value, last);
      BookIsTimely(s, Some(t), last.time);
      TrailingAtMostLongest(s.history);
      RunsAfterTrade(s.history, RecordOf(t));
      CountAfterTrade(s.trades, t, day);
    }
  }

  lemma LimitsOf(env: Env, s: State, now: int, day: int)
    requires LimitInv(env, s, now, day)
    ensures s.history == Records(s.trades) && StreakInv(env, s) && CountOn(s.trades, day) <= env.risk.maxTradesPerDay
  {
  }

  lemma ResultKeepsLimits(env: Env, data: seq<Bar>, day: int)
    requires Chronological(data) && InRange(env.risk) && !env.settings.management
    ensures var r := Result(env, data);
            && r.history == Records(r.trades) && StreakInv(env, r)
            && CountOn(r.trades, day) <= env.risk.maxTradesPerDay
  {
    hide RunTo, Finish, StreakInv, Records, LimitInv, DayOf;
    var n := BarCount(env, data);
    if n > 0 {
      LoopKeepsLimits(env, data, n, day);
      var _ := DayStartIsOpening(env, data, n);
      FinishKeepsLimits(env, data[n - 1], RunTo(env, data, n), day);
    } else {
      StartKeepsLimits(env, 0, day);
      LimitsOf(env, Start(env), 0, day);
    }
  }

  /** MAIN RESULT. With management off no result contains a losing run longer than the limit. */
  lemma LosingRunsAreBounded(env: Env, data: seq<Bar>)
    requires Chronological(data) && InRange(env.risk) && !env.settings.management
    ensures LongestRun(Records(Result(env, data).trades)) <= env.risk.maxConsecutiveLosses
  {
    ResultKeepsLimits(env, data, 0);
  }

  /** MAIN RESULT. With management off no day closes more trades than the limit. */
  lemma DailyTradesAreBounded(env: Env, data: seq<Bar>, day: int)
    requires Chronological(data) && InRange(env.risk) && !env.settings.management
    ensures CountOn(Result(env, data).trades, day) <= env.risk.maxTradesPerDay
  {
    ResultKeepsLimits(env, data, day);
  }

  // ----- trading stops ----------------------------------------------------------------------

  ghost predicate Stopped(env: Env, s: State) {
    AtRisk(s).None? && TrailingLosses(s.history) >= env.risk.maxConsecutiveLosses
  }

  lemma BarStaysStopped(env: Env, data: seq<Bar>, i: nat, s: State)
    requires i < |data| && InRange(env.risk) && !env.settings.management && Stopped(env, s)
    ensures Stopped(env, BarStep(env, data, i, s)) && BarStep(env, data, i, s).trades == s.trades
  {
    hide RollBaselines, Update, FillEntry, SignalAt, FloatingPnl, LossPct, TradesSince, SizeAt, Window;
    RollTouchesBaselines(s, data[i]);
    WindowShowsStreak(s.history, RECENT);
  }

  lemma {:induction false} StaysStopped(env: Env, data: seq<Bar>, j: nat, k: nat)
    requires j <= k <= |data| && InRange(env.risk) && !env.settings.management && Stopped(env, RunTo(env, data, j))
    ensures Stopped(env, RunTo(env, data, k)) && RunTo(env, data, k).trades == RunTo(env, data, j).trades
    decreases k
  {
    hide BarStep, Stopped;
    if j < k {
      StaysStopped(env, data, j, k - 1);
      BarStaysStopped(env, data, k - 1, RunTo(env, data, k - 1));
    }
  }

  /** MAIN RESULT. Once a losing run has reached the limit, the backtest never trades again: the
      trades closed by then are the result's. */
  lemma NothingTradesAfterTheLimit(env: Env, data: seq<Bar>, k: nat)
    requires Chronological(data) && InRange(env.risk) && !env.settings.management && k <= BarCount(env, data)
    requires LongestRun(Records(RunTo(env, data, k).trades)) >= env.risk.maxConsecutiveLosses
    ensures Result(env, data).trades == RunTo(env, data, k).trades
  {
    hide BarStep, LongestRun, TrailingLosses;
    LoopKeepsLimits(env, data, k, 0);
    StaysStopped(env, data, k, BarCount(env, data));
  }
}
