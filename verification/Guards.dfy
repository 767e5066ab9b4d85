/** The risk guards that decide whether a new trade may be taken (app/risk/guards.py). */
module Guards {
  import opened CheckTable
  import opened Common
  import opened TradeHistory

  datatype RiskSettings = RiskSettings(
    riskPerTradePct: real, maxDailyLossPct: real, maxWeeklyLossPct: real, maxOpenPositions: int,
    maxTradesPerDay: int, maxConsecutiveLosses: int, maxSpreadPoints: real, minAccountEquity: real)

  /** The ranges that the settings class enforces (app/config/settings.py). */
  predicate InRange(s: RiskSettings) {
    && 0.01 <= s.riskPerTradePct <= 5.0
    && 0.1 <= s.maxDailyLossPct <= 20.0
    && 0.1 <= s.maxWeeklyLossPct <= 40.0
    && 1 <= s.maxOpenPositions <= 20
    && 1 <= s.maxTradesPerDay <= 100
    && 1 <= s.maxConsecutiveLosses <= 20
    && s.maxSpreadPoints > 0.0 && s.minAccountEquity >= 0.0
  }

  datatype GuardInput = GuardInput(
    equity: real, dayStartEquity: real, weekStartEquity: real, tradesToday: int, openPositions: int,
    spreadPoints: real, connected: bool, brokerTradeAllowed: bool, marketDataFresh: bool,
    killSwitchActive: bool, recentTrades: seq<TradeRecord>)

  datatype Guard =
    | KillSwitchOk | Connected | BrokerTradeAllowed | MarketDataFresh | MinEquityOk | DailyLossOk
    | WeeklyLossOk | MaxTradesPerDayOk | MaxOpenPositionsOk | MaxConsecutiveLossesOk | MaxSpreadOk

  /** The loss since `start`, in percent of it; zero when there is none. */
  function LossPct(equity: real, start: real): real {
    if equity - start < 0.0 && start > 0.0 then -(equity - start) / start * 100.0 else 0.0
  }

  /** The losing streak at the end of a list of trades. */
  function TrailingLosses(ts: seq<TradeRecord>): (n: nat)
    ensures n <= |ts|
  {
    if ts == [] || ts[|ts| - 1].pnl >= 0.0 then 0 else TrailingLosses(ts[..|ts| - 1]) + 1
  }

  method ConsecutiveLosses(recent: seq<TradeRecord>) returns (count: nat)
    ensures count == TrailingLosses(recent)
  {
    count := 0;
    var i := |recent|;
    assert recent[..i] == recent;
    while i > 0
      invariant 0 <= i <= |recent|
      invariant count + TrailingLosses(recent[..i]) == TrailingLosses(recent)
    {
      if recent[i - 1].pnl >= 0.0 {
        break;
      }
      assert recent[..i][..i - 1] == recent[..i - 1];
      count := count + 1;
      i := i - 1;
    }
  }

  predicate GuardsPass(d: GuardInput, s: RiskSettings) {
    && !d.killSwitchActive && d.connected && d.brokerTradeAllowed && d.marketDataFresh
    && d.equity >= s.minAccountEquity
    && LossPct(d.equity, d.dayStartEquity) <= s.maxDailyLossPct
    && LossPct(d.equity, d.weekStartEquity) <= s.maxWeeklyLossPct
    && d.tradesToday < s.maxTradesPerDay
    && d.openPositions < s.maxOpenPositions
    && TrailingLosses(d.recentTrades) < s.maxConsecutiveLosses
    && d.spreadPoints <= s.maxSpreadPoints
  }

  datatype GuardResult = GuardResult(passed: bool, table: Table<Guard>)

  /** The guards on the state of the system, with their outcomes. */
  function SystemGuards(d: GuardInput, s: RiskSettings): seq<(Guard, bool)> {
    [ (KillSwitchOk, !d.killSwitchActive),
      (Connected, d.connected),
      (BrokerTradeAllowed, d.brokerTradeAllowed),
      (MarketDataFresh, d.marketDataFresh),
      (MinEquityOk, d.equity >= s.minAccountEquity)]
  }

  /** The guards on losses and on the number of trades. */
  function LossGuards(d: GuardInput, s: RiskSettings): seq<(Guard, bool)> {
    [ (DailyLossOk, LossPct(d.equity, d.dayStartEquity) <= s.maxDailyLossPct),
      (WeeklyLossOk, LossPct(d.equity, d.weekStartEquity) <= s.maxWeeklyLossPct),
      (MaxTradesPerDayOk, d.tradesToday < s.maxTradesPerDay)]
  }

  /** The guards on positions, the losing streak and the spread. */
  function ExposureGuards(d: GuardInput, s: RiskSettings): seq<(Guard, bool)> {
    [ (MaxOpenPositionsOk, d.openPositions < s.maxOpenPositions),
      (MaxConsecutiveLossesOk, TrailingLosses(d.recentTrades) < s.maxConsecutiveLosses),
      (MaxSpreadOk, d.spreadPoints <= s.maxSpreadPoints)]
  }

  function AllGuards(d: GuardInput, s: RiskSettings): seq<(Guard, bool)> {
    SystemGuards(d, s) + LossGuards(d, s) + ExposureGuards(d, s)
  }

  /** Every guard of a group holds. */
  predicate Passes(guards: seq<(Guard, bool)>) {
    forall i :: 0 <= i < |guards| ==> guards[i].1
  }

  lemma AllGuardsPass(d: GuardInput, s: RiskSettings)
    ensures GuardsPass(d, s) <==> Passes(SystemGuards(d, s)) && Passes(LossGuards(d, s)) && Passes(ExposureGuards(d, s))
  {
    hide LossPct, TrailingLosses;
    var a, b, c := SystemGuards(d, s), LossGuards(d, s), ExposureGuards(d, s);
    assert a[0].1 && a[1].1 && a[2].1 && a[3].1 && a[4].1 <==> Passes(a);
    assert b[0].1 && b[1].1 && b[2].1 <==> Passes(b);
    assert c[0].1 && c[1].1 && c[2].1 <==> Passes(c);
  }

  method NoteSystem(t: Table<Guard>, d: GuardInput, s: RiskSettings) returns (t': Table<Guard>)
    requires t.Explained()
    ensures t'.Explained() && t'.checks == t.checks + SystemGuards(d, s)
    ensures t'.AllHold() <==> t.AllHold() && Passes(SystemGuards(d, s))
  {
    hide Table.Explained, Table.AllHold;
    t' := Note(t, KillSwitchOk, !d.killSwitchActive);
    t' := Note(t', Connected, d.connected);
    t' := Note(t', BrokerTradeAllowed, d.brokerTradeAllowed);
    t' := Note(t', MarketDataFresh, d.marketDataFresh);
    t' := Note(t', MinEquityOk, d.equity >= s.minAccountEquity);
    ghost var gs := SystemGuards(d, s);
    assert gs[0].1 && gs[1].1 && gs[2].1 && gs[3].1 && gs[4].1 <==> Passes(gs);
  }

  method NoteLosses(t: Table<Guard>, d: GuardInput, s: RiskSettings) returns (t': Table<Guard>)
    requires t.Explained()
    ensures t'.Explained() && t'.checks == t.checks + LossGuards(d, s)
    ensures t'.AllHold() <==> t.AllHold() && Passes(LossGuards(d, s))
  {
    hide Table.Explained, Table.AllHold, LossPct;
    t' := Note(t, DailyLossOk, LossPct(d.equity, d.dayStartEquity) <= s.maxDailyLossPct);
    t' := Note(t', WeeklyLossOk, LossPct(d.equity, d.weekStartEquity) <= s.maxWeeklyLossPct);
    t' := Note(t', MaxTradesPerDayOk, d.tradesToday < s.maxTradesPerDay);
    ghost var gs := LossGuards(d, s);
    assert gs[0].1 && gs[1].1 && gs[2].1 <==> Passes(gs);
  }

  method NoteExposure(t: Table<Guard>, d: GuardInput, s: RiskSettings) returns (t': Table<Guard>)
    requires t.Explained()
    ensures t'.Explained() && t'.checks == t.checks + ExposureGuards(d, s)
    ensures t'.AllHold() <==> t.AllHold() && Passes(ExposureGuards(d, s))
  {
    hide Table.Explained, Table.AllHold, TrailingLosses;
    t' := Note(t, MaxOpenPositionsOk, d.openPositions < s.maxOpenPositions);
    var losses := ConsecutiveLosses(d.recentTrades);
    t' := Note(t', MaxConsecutiveLossesOk, losses < s.maxConsecutiveLosses);
    t' := Note(t', MaxSpreadOk, d.spreadPoints <= s.maxSpreadPoints);
    ghost var gs := ExposureGuards(d, s);
    assert gs[0].1 && gs[1].1 && gs[2].1 <==> Passes(gs);
  }

  /** Every guard must hold; the table holds each guard's outcome, and the reasons are the failed
      ones in order. */
  method CheckGuards(d: GuardInput, s: RiskSettings) returns (r: GuardResult)
    ensures r.passed <==> GuardsPass(d, s)
    ensures r.table.checks == AllGuards(d, s) && r.table.reasons == Failed(AllGuards(d, s))
    ensures r.passed <==> r.table.reasons == []
  {
    hide Table.AllHold, SystemGuards, LossGuards, ExposureGuards, GuardsPass, Passes;
    var t := Start();
    t := NoteSystem(t, d, s);
    assert t.checks == SystemGuards(d, s);
    t := NoteLosses(t, d, s);
    t := NoteExposure(t, d, s);
    r := GuardResult(t.AllHold(), t);
    AllGuardsPass(d, s);
    ReasonsAreFailures(t.checks);
  }

  /** The loss guard in terms of equity: it passes exactly when at least that share is left. */
  lemma LossWithin(equity: real, start: real, maxPct: real)
    requires start > 0.0 && maxPct >= 0.0
    ensures LossPct(equity, start) <= maxPct <==> equity >= start * (1.0 - maxPct / 100.0)
  {
    var loss := start - equity;
    var share := maxPct / 100.0;
    assert start * (1.0 - share) == start - start * share;
    if loss > 0.0 {
      var q := loss / start;
      assert q * start == loss;
      assert LossPct(equity, start) == q * 100.0;
      if q <= share {
        MulMono(q, share, start);
      } else {
        MulStrict(share, q, start);
      }
    } else {
      MulMono(0.0, share, start);
    }
  }

  lemma WindowSnoc(ts: seq<TradeRecord>, limit: nat)
    requires 0 < limit < |ts|
    ensures var recent := RecentTrades(ts, limit);
            && |recent| == limit && recent[limit - 1] == ts[|ts| - 1]
            && recent[..limit - 1] == RecentTrades(ts[..|ts| - 1], limit - 1)
  {
  }

  lemma WindowEdges(ts: seq<TradeRecord>, limit: nat)
    ensures |ts| <= limit ==> RecentTrades(ts, limit) == ts
    ensures limit == 0 ==> RecentTrades(ts, limit) == []
  {
  }

  /** A window of the last trades shows the whole streak, up to its own length. */
  lemma {:induction false} WindowShowsStreak(ts: seq<TradeRecord>, limit: nat)
    ensures TrailingLosses(RecentTrades(ts, limit)) == if TrailingLosses(ts) <= limit then TrailingLosses(ts) else limit
  {
    hide RecentTrades;
    WindowEdges(ts, limit);
    if 0 < limit < |ts| {
      var recent, init := RecentTrades(ts, limit), ts[..|ts| - 1];
      WindowSnoc(ts, limit);
      if ts[|ts| - 1].pnl < 0.0 {
        WindowShowsStreak(init, limit - 1);
        assert TrailingLosses(ts) == TrailingLosses(init) + 1;
        assert TrailingLosses(recent) == TrailingLosses(recent[..limit - 1]) + 1;
      }
    }
  }

  // ----- the longest losing run, as the metrics report it ------------------------------------

  /** The longest run of losses anywhere in a list (app/backtesting/metrics.py). */
  function LongestRun(ts: seq<TradeRecord>): nat {
    if ts == [] then 0
    else
      var before, streak := LongestRun(ts[..|ts| - 1]), TrailingLosses(ts);
      if streak > before then streak else before
  }

  method MaxConsecutiveLosses(ts: seq<TradeRecord>) returns (longest: nat)
    ensures longest == LongestRun(ts)
  {
    var current: nat := 0;
    longest := 0;
    for i := 0 to |ts|
      invariant current == TrailingLosses(ts[..i]) && longest == LongestRun(ts[..i])
    {
      assert ts[..i + 1][..i] == ts[..i];
      if ts[i].pnl < 0.0 {
        current := current + 1;
        if current > longest {
          longest := current;
        }
      } else {
        current := 0;
      }
    }
    assert ts[..|ts|] == ts;
  }

  /** The trades from i up to j, exclusive, are all losses. */
  predicate LossBlock(ts: seq<TradeRecord>, i: int, j: int) {
    0 <= i <= j <= |ts| && forall k :: i <= k < j ==> ts[k].pnl < 0.0
  }

  /** The trailing streak is the longest block of losses that reaches the end. */
  lemma {:induction false} TrailingIsABlock(ts: seq<TradeRecord>)
    ensures LossBlock(ts, |ts| - TrailingLosses(ts), |ts|)
    ensures forall i :: LossBlock(ts, i, |ts|) ==> |ts| - i <= TrailingLosses(ts)
  {
    if ts != [] {
      var init := ts[..|ts| - 1];
      TrailingIsABlock(init);
      forall i | LossBlock(ts, i, |ts|)
        ensures |ts| - i <= TrailingLosses(ts)
      {
        if i < |ts| {
          assert ts[|ts| - 1].pnl < 0.0;
          assert LossBlock(init, i, |init|);
        }
      }
    }
  }

  /** The value computed is what its name says: no block of losses is longer, and the block
      returned is that long. */
  lemma {:induction false} LongestRunIsLongest(ts: seq<TradeRecord>) returns (a: int, b: int)
    ensures LossBlock(ts, a, b) && b - a == LongestRun(ts)
    ensures forall i, j :: LossBlock(ts, i, j) ==> j - i <= LongestRun(ts)
  {
    a, b := 0, 0;
    if ts != [] {
      var init := ts[..|ts| - 1];
      a, b := LongestRunIsLongest(init);
      TrailingIsABlock(ts);
      if TrailingLosses(ts) > LongestRun(init) {
        a, b := |ts| - TrailingLosses(ts), |ts|;
      }
      forall i, j | LossBlock(ts, i, j)
        ensures j - i <= LongestRun(ts)
      {
        if j < |ts| {
          assert LossBlock(init, i, j);
        }
      }
    }
  }
}
