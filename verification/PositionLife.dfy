/** The life of one backtest position, candle by candle: the stop only tightens, the lots add up,
    and a sale is the mirror image of a purchase. */
module PositionLife {
  import opened Backtest
  import opened Common
  import opened Costs
  import opened Resampling
  import opened TradeHistory

  datatype Life = Life(holding: Holding, partials: seq<Trade>, exit: Option<Trade>)

  function ListOfOption(t: Option<Trade>): seq<Trade> {
    if t.Some? then [t.value] else []
  }

  function Advance(env: Env, l: Life, bar: Bar): Life {
    if l.exit.Some? then l
    else
      var o := Update(env, l.holding, bar);
      Life(o.holding, l.partials + ListOfOption(o.partialExit), o.exit)
  }

  /** What has become of a position after some candles. */
  function Live(env: Env, h: Holding, bars: seq<Bar>): Life {
    if bars == [] then Life(h, [], None)
    else Advance(env, Live(env, h, bars[..|bars| - 1]), bars[|bars| - 1])
  }

  // ----- the loop follows this life ---------------------------------------------------------

  function AllTrades(l: Life): seq<Trade> {
    l.partials + ListOfOption(l.exit)
  }

  /** The loop's state shows a position that is still alive, and the partial exits so far. */
  ghost predicate Shows(s: State, before: seq<Trade>, l: Life) {
    s.holding == Some(l.holding) && s.trades == before + l.partials
  }

  lemma Rolled(s: State, bar: Bar)
    ensures RollBaselines(s, bar).holding == s.holding && RollBaselines(s, bar).trades == s.trades
  {
  }

  lemma BarAdvances(env: Env, data: seq<Bar>, i: nat, s: State, before: seq<Trade>, l: Life)
    requires i < |data| && Shows(s, before, l) && l.exit.None?
    ensures var l', s' := Advance(env, l, data[i]), BarStep(env, data, i, s);
            if l'.exit.None? then Shows(s', before, l')
            else s'.holding.None? && s'.trades == before + AllTrades(l')
  {
    hide Update, EvaluateEntry, FloatingPnl, InsertByTime, RollBaselines, Window;
    Rolled(s, data[i]);
    var o := Update(env, l.holding, data[i]);
    assert before + (l.partials + ListOfOption(o.partialExit)) == before + l.partials + ListOfOption(o.partialExit);
  }

  lemma LiveSnoc(env: Env, h: Holding, bars: seq<Bar>, bar: Bar)
    ensures Live(env, h, bars + [bar]) == Advance(env, Live(env, h, bars), bar)
  {
    hide Advance;
    assert (bars + [bar])[..|bars|] == bars;
  }

  /** A position that is alive was alive one candle earlier. */
  lemma AliveBefore(env: Env, h: Holding, bars: seq<Bar>)
    requires bars != [] && Live(env, h, bars).exit.None?
    ensures Live(env, h, bars[..|bars| - 1]).exit.None?
  {
    hide Update;
  }

  /** What the loop does with the position it holds after k candles, until the candle that closes
      it, is this life: same position, same trades. */
  lemma {:induction false} LoopFollowsLife(env: Env, data: seq<Bar>, k: nat, j: nat)
    requires k <= j <= |data| && RunTo(env, data, k).holding.Some?
    requires k < j ==> Live(env, RunTo(env, data, k).holding.value, data[k..j - 1]).exit.None?
    ensures var s, s' := RunTo(env, data, k), RunTo(env, data, j);
            var l := Live(env, s.holding.value, data[k..j]);
            if l.exit.None? then Shows(s', s.trades, l)
            else s'.holding.None? && s'.trades == s.trades + AllTrades(l)
    decreases j
  {
    hide BarStep, Advance;
    var s := RunTo(env, data, k);
    if k == j {
      assert data[k..j] == [];
      assert s.trades + [] == s.trades;
    } else {
      var earlier := data[k..j - 1];
      assert data[k..j] == earlier + [data[j - 1]];
      LiveSnoc(env, s.holding.value, earlier, data[j - 1]);
      if k < j - 1 {
        assert earlier[..|earlier| - 1] == data[k..j - 2];
        AliveBefore(env, s.holding.value, earlier);
      }
      LoopFollowsLife(env, data, k, j - 1);
      BarAdvances(env, data, j - 1, RunTo(env, data, j - 1), s.trades, Live(env, s.holding.value, earlier));
    }
  }

  lemma RolledEntry(s: State, bar: Bar)
    ensures RollBaselines(s, bar).holding == s.holding && RollBaselines(s, bar).pending == s.pending
  {
  }

  /** An entry is pending only while nothing is held. */
  lemma PendingMeansFlat(env: Env, data: seq<Bar>, k: nat)
    requires k <= |data| && RunTo(env, data, k).pending.Some?
    ensures k > 0 && RunTo(env, data, k).holding.None?
    ensures var s := TradeBar(env, RunTo(env, data, k - 1), data[k - 1]);
            && s.holding.None? && s.pending.None? && Evaluates(env, s, k - 1)
            && RunTo(env, data, k).pending == EvaluateEntry(env, s, Window(env, data, k - 1), data[k - 1].time)
    decreases k
  {
    hide Update, EvaluateEntry, FloatingPnl, InsertByTime, RollBaselines, Window, FillEntry;
    if k > 0 {
      var s := RunTo(env, data, k - 1);
      RolledEntry(s, data[k - 1]);
      if s.pending.Some? {
        PendingMeansFlat(env, data, k - 1);
      }
    }
  }

  /** A candle fills the pending entry before it does anything else. */
  lemma FillComesFirst(env: Env, data: seq<Bar>, i: nat, s: State, e: Entry)
    requires i < |data| && s.holding.None? && s.pending == Some(e)
    ensures BarStep(env, data, i, s)
            == BarStep(env, data, i, s.(holding := Some(FillEntry(env, e, data[i])), pending := None))
  {
    hide ManageHolding, Decide, FillEntry, Plot;
  }

  /** The candle that fills an entry is the first of its life. */
  lemma FirstCandleOfEntry(env: Env, data: seq<Bar>, i: nat, s: State, e: Entry)
    requires i < |data| && s.holding.None? && s.pending == Some(e)
    ensures var l, s' := Advance(env, Life(FillEntry(env, e, data[i]), [], None), data[i]), BarStep(env, data, i, s);
            if l.exit.None? then Shows(s', s.trades, l) else s'.holding.None? && s'.trades == s.trades + AllTrades(l)
  {
    hide BarStep, Advance, FillEntry;
    var h := FillEntry(env, e, data[i]);
    assert s.trades + [] == s.trades;
    FillComesFirst(env, data, i, s, e);
    BarAdvances(env, data, i, s.(holding := Some(h), pending := None), s.trades, Life(h, [], None));
  }

  /** MAIN RESULT. An entry decided at a candle's close is filled at the next candle's open, and
      what the loop does from there until the candle that closes the position is the life of that
      fill, the candle of the fill included. */
  lemma EntryLivesFromNextOpen(env: Env, data: seq<Bar>, k: nat, j: nat, e: Entry)
    requires k < j <= |data| && RunTo(env, data, k).pending == Some(e)
    requires Live(env, FillEntry(env, e, data[k]), data[k..j - 1]).exit.None?
    ensures var s, s' := RunTo(env, data, k), RunTo(env, data, j);
            var l := Live(env, FillEntry(env, e, data[k]), data[k..j]);
            if l.exit.None? then Shows(s', s.trades, l)
            else s'.holding.None? && s'.trades == s.trades + AllTrades(l)
    decreases j
  {
    hide BarStep, Advance, FillEntry, Decide, TradeBar, EvaluateEntry, Evaluates;
    PendingMeansFlat(env, data, k);
    var s, h := RunTo(env, data, k), FillEntry(env, e, data[k]);
    var earlier := data[k..j - 1];
    assert data[k..j] == earlier + [data[j - 1]];
    LiveSnoc(env, h, earlier, data[j - 1]);
    if k == j - 1 {
      assert earlier == [];
      FirstCandleOfEntry(env, data, k, s, e);
    } else {
      assert earlier[..|earlier| - 1] == data[k..j - 2];
      AliveBefore(env, h, earlier);
      EntryLivesFromNextOpen(env, data, k, j - 1, e);
      BarAdvances(env, data, j - 1, RunTo(env, data, j - 1), s.trades, Live(env, h, earlier));
    }
  }

  // ----- the stop ratchet -------------------------------------------------------------------

  /** `b` protects at least as well as `a`. */
  predicate AtLeastAsTight(d: Direction, a: real, b: real) {
    if d.Buy? then b >= a else b <= a
  }

  lemma UpdateTightens(env: Env, h: Holding, bar: Bar)
    ensures var o := Update(env, h, bar);
            o.holding.direction == h.direction && AtLeastAsTight(h.direction, h.stopLoss, o.holding.stopLoss)
  {
    hide CloseTrade, ExitOf, PartialTrade, FavorableR;
  }

  /** MAIN RESULT. Under any mix of breakeven and trailing, on any candles, the stop never
      loosens. */
  lemma {:induction false} StopNeverLoosens(env: Env, h: Holding, bars: seq<Bar>, more: seq<Bar>)
    ensures var early, late := Live(env, h, bars).holding, Live(env, h, bars + more).holding;
            late.direction == early.direction && AtLeastAsTight(h.direction, early.stopLoss, late.stopLoss)
            && early.direction == h.direction
    decreases |bars| + |more|
  {
    hide Update;
    if more == [] {
      assert bars + more == bars;
      if bars != [] {
        StopNeverLoosens(env, h, [], bars[..|bars| - 1]);
        assert [] + bars[..|bars| - 1] == bars[..|bars| - 1];
        UpdateTightens(env, Live(env, h, bars[..|bars| - 1]).holding, bars[|bars| - 1]);
      }
    } else {
      var init, last := more[..|more| - 1], more[|more| - 1];
      assert bars + more == (bars + init) + [last];
      StopNeverLoosens(env, h, bars, init);
      LiveSnoc(env, h, bars + init, last);
      UpdateTightens(env, Live(env, h, bars + init).holding, last);
    }
  }

  // ----- lots -------------------------------------------------------------------------------

  function TotalLots(ts: seq<Trade>): real {
    if ts == [] then 0.0 else TotalLots(ts[..|ts| - 1]) + ts[|ts| - 1].lots
  }

  lemma TotalLotsSnoc(ts: seq<Trade>, t: Trade)
    ensures TotalLots(ts + [t]) == TotalLots(ts) + t.lots
  {
    assert (ts + [t])[..|ts|] == ts;
  }

  lemma UpdateSplitsLots(env: Env, h: Holding, bar: Bar)
    ensures var o := Update(env, h, bar);
            && o.holding.lots == h.lots - (if o.partialExit.Some? then o.partialExit.value.lots else 0.0)
            && (o.exit.Some? ==> o.exit.value.lots == o.holding.lots && !o.exit.value.isPartial)
            && (o.partialExit.Some? ==>
                  && !h.partialTaken && o.holding.partialTaken && o.partialExit.value.isPartial
                  && o.partialExit.value.lots >= env.spec.volumeMin && o.holding.lots >= env.spec.volumeMin)
            && (h.partialTaken ==> o.holding.partialTaken)
  {
    hide ExitOf, FavorableR, PartialLots, PartialPrice, Value;
  }

  /** The lots sold so far and the lots still held are those that were filled; at most one
      partial exit is taken, and neither it nor what it leaves falls below the minimum volume. */
  ghost predicate LotsAddUp(env: Env, h: Holding, l: Life) {
    && TotalLots(l.partials) + l.holding.lots == h.lots
    && (l.exit.Some? ==> l.exit.value.lots == l.holding.lots && !l.exit.value.isPartial)
    && |l.partials| <= 1 && (!l.holding.partialTaken ==> l.partials == [])
    && (l.partials != [] ==>
          l.partials[0].isPartial && l.partials[0].lots >= env.spec.volumeMin && l.holding.lots >= env.spec.volumeMin)
  }

  lemma AdvanceSplitsLots(env: Env, h: Holding, l: Life, bar: Bar)
    requires LotsAddUp(env, h, l)
    ensures LotsAddUp(env, h, Advance(env, l, bar))
  {
    hide Update;
    if l.exit.None? {
      UpdateSplitsLots(env, l.holding, bar);
      var o := Update(env, l.holding, bar);
      if o.partialExit.Some? {
        TotalLotsSnoc(l.partials, o.partialExit.value);
        hide TotalLots;
        assert l.partials == [] && l.partials + [o.partialExit.value] == [o.partialExit.value];
      } else {
        assert l.partials + [] == l.partials;
      }
    }
  }

  lemma {:induction false} LifeSplitsLots(env: Env, h: Holding, bars: seq<Bar>)
    requires !h.partialTaken
    ensures LotsAddUp(env, h, Live(env, h, bars))
  {
    hide Advance;
    if bars != [] {
      LifeSplitsLots(env, h, bars[..|bars| - 1]);
      AdvanceSplitsLots(env, h, Live(env, h, bars[..|bars| - 1]), bars[|bars| - 1]);
    }
  }

  /** At any time the lots sold and the lots held are those that were filled; there is at most one
      partial exit, and neither it nor what it leaves is below the minimum volume. */
  lemma LotsAreConserved(env: Env, e: Entry, bar: Bar, bars: seq<Bar>)
    ensures var l := Live(env, FillEntry(env, e, bar), bars);
            && TotalLots(AllTrades(l)) + (if l.exit.Some? then 0.0 else l.holding.lots) == e.lots
            && |l.partials| <= 1 && |AllTrades(l)| == |l.partials| + (if l.exit.Some? then 1 else 0)
            && (l.exit.None? ==> AllTrades(l) == l.partials)
            && (l.partials != [] ==> l.partials[0].lots >= env.spec.volumeMin && l.holding.lots >= env.spec.volumeMin)
  {
    hide Advance;
    var h := FillEntry(env, e, bar);
    LifeSplitsLots(env, h, bars);
    var l := Live(env, h, bars);
    if l.exit.Some? {
      TotalLotsSnoc(l.partials, l.exit.value);
    } else {
      assert AllTrades(l) == l.partials;
    }
  }

  /** The end of the data sells what is still held. */
  lemma FinishSells(env: Env, last: Bar, s: State, before: seq<Trade>, l: Life) returns (ts: seq<Trade>)
    requires Shows(s, before, l) && l.exit.None?
    ensures Finish(env, last, s).trades == before + ts && |ts| == |l.partials| + 1
    ensures TotalLots(ts) == TotalLots(l.partials) + l.holding.lots
  {
    hide InsertByTime, Value;
    var t := CloseTrade(env, l.holding, last.close, last.time, END_OF_DATA, false);
    ts := l.partials + [t];
    TotalLotsSnoc(l.partials, t);
    assert before + ts == (before + l.partials) + [t];
  }

  /** The candle that closes an entry's position, from candle m on, or none. */
  lemma CloseOf(env: Env, data: seq<Bar>, h: Holding, k: nat, m: nat, n: nat) returns (j: nat)
    requires k < m <= n <= |data| && Live(env, h, data[k..m - 1]).exit.None?
    ensures m <= j <= n && Live(env, h, data[k..j - 1]).exit.None?
    ensures Live(env, h, data[k..j]).exit.Some? || j == n
    decreases n - m
  {
    hide Live;
    if m == n || Live(env, h, data[k..m]).exit.Some? {
      j := m;
    } else {
      j := CloseOf(env, data, h, k, m + 1, n);
    }
  }

  lemma NewLife(env: Env, h: Holding)
    ensures Live(env, h, []) == Life(h, [], None)
  {
  }

  lemma ResultFinishes(env: Env, data: seq<Bar>)
    requires BarCount(env, data) > 0
    ensures var n := BarCount(env, data); Result(env, data) == Finish(env, data[n - 1], RunTo(env, data, n))
  {
    hide RunTo, Finish;
  }

  /** MAIN RESULT. In every run the lots of every filled entry are sold again, in one or two
      trades: by the candle that closes the position, or at the end of the data. */
  lemma EveryEntryIsSoldWhole(env: Env, data: seq<Bar>, k: nat, e: Entry) returns (j: nat, ts: seq<Trade>)
    requires k < BarCount(env, data) && RunTo(env, data, k).pending == Some(e)
    ensures k < j <= BarCount(env, data) && 1 <= |ts| <= 2 && TotalLots(ts) == e.lots
    ensures || (RunTo(env, data, j).trades == RunTo(env, data, k).trades + ts && RunTo(env, data, j).holding.None?)
            || (j == BarCount(env, data) && Result(env, data).trades == RunTo(env, data, k).trades + ts)
  {
    hide *;
    var n := BarCount(env, data);
    var h := FillEntry(env, e, data[k]);
    assert data[k..k + 1 - 1] == [];
    NewLife(env, h);
    ResultFinishes(env, data);
    j := CloseOf(env, data, h, k, k + 1, n);
    var l := Live(env, h, data[k..j]);
    EntryLivesFromNextOpen(env, data, k, j, e);
    LotsAreConserved(env, e, data[k], data[k..j]);
    if l.exit.Some? {
      ts := AllTrades(l);
    } else {
      ts := FinishSells(env, data[n - 1], RunTo(env, data, n), RunTo(env, data, k).trades, l);
    }
  }

  // ----- excursions -------------------------------------------------------------------------

  lemma UpdateTracks(env: Env, h: Holding, bar: Bar)
    ensures var o := Update(env, h, bar).holding;
            && o.direction == h.direction && o.entryPrice == h.entryPrice
            && o.mfe == Max(Max(h.mfe, Favorable(h, bar)), 0.0) && o.mae == Max(Max(h.mae, Adverse(h, bar)), 0.0)
  {
    hide CloseTrade, ExitOf, PartialTrade, FavorableR;
  }

  ghost predicate IsPeak(h: Holding, bars: seq<Bar>, peak: real) {
    && peak >= 0.0 && (forall i :: 0 <= i < |bars| ==> peak >= Favorable(h, bars[i]))
    && (peak == 0.0 || exists i :: 0 <= i < |bars| && peak == Favorable(h, bars[i]))
  }

  ghost predicate IsTrough(h: Holding, bars: seq<Bar>, trough: real) {
    && trough >= 0.0 && (forall i :: 0 <= i < |bars| ==> trough >= Adverse(h, bars[i]))
    && (trough == 0.0 || exists i :: 0 <= i < |bars| && trough == Adverse(h, bars[i]))
  }

  lemma PeakGrows(h: Holding, bars: seq<Bar>, bar: Bar, peak: real, peak': real)
    requires IsPeak(h, bars, peak) && peak' == Max(Max(peak, Favorable(h, bar)), 0.0)
    ensures IsPeak(h, bars + [bar], peak')
  {
    var all := bars + [bar];
    assert all[|bars|] == bar;
    if peak' == peak && peak != 0.0 {
      var i :| 0 <= i < |bars| && peak == Favorable(h, bars[i]);
      assert all[i] == bars[i];
    }
  }

  lemma TroughGrows(h: Holding, bars: seq<Bar>, bar: Bar, trough: real, trough': real)
    requires IsTrough(h, bars, trough) && trough' == Max(Max(trough, Adverse(h, bar)), 0.0)
    ensures IsTrough(h, bars + [bar], trough')
  {
    var all := bars + [bar];
    assert all[|bars|] == bar;
    if trough' == trough && trough != 0.0 {
      var i :| 0 <= i < |bars| && trough == Adverse(h, bars[i]);
      assert all[i] == bars[i];
    }
  }

  lemma NothingYet(h: Holding)
    ensures IsPeak(h, [], 0.0) && IsTrough(h, [], 0.0)
  {
  }

  lemma SameExcursions(a: Holding, b: Holding, bar: Bar)
    requires a.direction == b.direction && a.entryPrice == b.entryPrice
    ensures Favorable(a, bar) == Favorable(b, bar) && Adverse(a, bar) == Adverse(b, bar)
  {
  }

  /** The reported excursions are the best and the worst the market did for the position on any
      candle of its life, the closing one included. */
  lemma {:induction false} ExcursionsAreExtremes(env: Env, h: Holding, bars: seq<Bar>)
    requires h.mfe == 0.0 && h.mae == 0.0
    requires bars != [] ==> Live(env, h, bars[..|bars| - 1]).exit.None?
    ensures var o := Live(env, h, bars).holding;
            IsPeak(h, bars, o.mfe) && IsTrough(h, bars, o.mae) && o.direction == h.direction
              && o.entryPrice == h.entryPrice
  {
    hide Update, IsPeak, IsTrough, Favorable, Adverse;
    if bars == [] {
      NothingYet(h);
    } else {
      var init, last := bars[..|bars| - 1], bars[|bars| - 1];
      if init != [] {
        AliveBefore(env, h, init);
      }
      ExcursionsAreExtremes(env, h, init);
      var o := Live(env, h, init).holding;
      UpdateTracks(env, o, last);
      SameExcursions(h, o, last);
      var o' := Live(env, h, bars).holding;
      PeakGrows(h, init, last, o.mfe, o'.mfe);
      TroughGrows(h, init, last, o.mae, o'.mae);
      assert init + [last] == bars;
    }
  }

  // ----- a sale mirrors a purchase ----------------------------------------------------------

  /** The market seen upside down: prices p become c - p. */
  function MirrorBar(c: real, b: Bar): Bar {
    b.(open := c - b.open, high := c - b.low, low := c - b.high, close := c - b.close)
  }

  function MirrorBars(c: real, bars: seq<Bar>): (r: seq<Bar>)
    ensures |r| == |bars|
    ensures forall i :: 0 <= i < |bars| ==> r[i] == MirrorBar(c, bars[i])
  {
    seq(|bars|, i requires 0 <= i < |bars| => MirrorBar(c, bars[i]))
  }

  function MirrorEntry(c: real, e: Entry): Entry {
    e.(direction := e.direction.Opposite(), stopLoss := c - e.stopLoss, takeProfit := c - e.takeProfit)
  }

  function MirrorHolding(c: real, h: Holding): Holding {
    h.(direction := h.direction.Opposite(), entryPrice := c - h.entryPrice,
       stopLoss := c - h.stopLoss, takeProfit := c - h.takeProfit)
  }

  /** Only the side and the prices are reflected: lots, results and costs stay. */
  function MirrorTrade(c: real, t: Trade): Trade {
    t.(direction := t.direction.Opposite(), entryPrice := c - t.entryPrice, exitPrice := c - t.exitPrice,
       stopLoss := c - t.stopLoss, takeProfit := c - t.takeProfit)
  }

  function MirrorOption(c: real, t: Option<Trade>): Option<Trade> {
    if t.Some? then Some(MirrorTrade(c, t.value)) else None
  }

  function MirrorTrades(c: real, ts: seq<Trade>): seq<Trade> {
    seq(|ts|, i requires 0 <= i < |ts| => MirrorTrade(c, ts[i]))
  }

  function MirrorLife(c: real, l: Life): Life {
    Life(MirrorHolding(c, l.holding), MirrorTrades(c, l.partials), MirrorOption(c, l.exit))
  }

  ghost predicate EqualSwaps(env: Env) {
    env.costs.swapLongPerLotPerDay == env.costs.swapShortPerLotPerDay
  }

  lemma MirrorFill(env: Env, c: real, e: Entry, bar: Bar)
    ensures FillEntry(env, MirrorEntry(c, e), MirrorBar(c, bar)) == MirrorHolding(c, FillEntry(env, e, bar))
  {
  }

  lemma MirrorGain(d: Direction, c: real, from: real, to: real)
    ensures Gain(d.Opposite(), c - from, c - to) == Gain(d, from, to)
  {
  }

  lemma MirrorExitCosts(env: Env, c: real, d: Direction, raw: real)
    ensures var a, b := ApplyExitCosts(raw, d, env.costs, env.spec.tickSize),
                        ApplyExitCosts(c - raw, d.Opposite(), env.costs, env.spec.tickSize);
            b.price == c - a.price && b.spreadCost == a.spreadCost && b.slippageCost == a.slippageCost
  {
  }

  lemma MirrorSwap(env: Env, lots: real, d: Direction, days: int)
    requires EqualSwaps(env)
    ensures SwapCost(lots, d.Opposite(), days, env.costs) == SwapCost(lots, d, days, env.costs)
  {
  }

  lemma MirrorClose(env: Env, c: real, h: Holding, raw: real, time: int, reason: Reason, isPartial: bool)
    requires EqualSwaps(env)
    ensures CloseTrade(env, MirrorHolding(c, h), c - raw, time, reason, isPartial)
            == MirrorTrade(c, CloseTrade(env, h, raw, time, reason, isPartial))
  {
    hide ApplyExitCosts, Gain, SwapCost, Value, DaysHeld;
    MirrorExitCosts(env, c, h.direction, raw);
    MirrorSwap(env, h.lots, h.direction, DaysHeld(h.entryTime, time));
    MirrorGain(h.direction, c, h.entryPrice, ApplyExitCosts(raw, h.direction, env.costs, env.spec.tickSize).price);
  }

  lemma MirrorFavorable(c: real, h: Holding, bar: Bar)
    ensures Favorable(MirrorHolding(c, h), MirrorBar(c, bar)) == Favorable(h, bar)
    ensures Adverse(MirrorHolding(c, h), MirrorBar(c, bar)) == Adverse(h, bar)
    ensures TrackExcursions(MirrorHolding(c, h), MirrorBar(c, bar)) == MirrorHolding(c, TrackExcursions(h, bar))
    ensures h.initialRisk > 0.0 ==> FavorableR(MirrorHolding(c, h), MirrorBar(c, bar)) == FavorableR(h, bar)
  {
  }

  lemma MirrorAhead(d: Direction, c: real, price: real, distance: real)
    ensures Ahead(d.Opposite(), c - price, distance) == c - Ahead(d, price, distance)
  {
  }

  lemma MirrorTighter(d: Direction, c: real, present: real, stop: real)
    ensures Tighter(d.Opposite(), c - present, c - stop) == Tighter(d, present, stop)
  {
  }

  lemma MirrorBreakeven(env: Env, c: real, h: Holding, bar: Bar)
    requires h.initialRisk > 0.0
    ensures MoveToBreakeven(env, MirrorHolding(c, h), MirrorBar(c, bar)) ==
            MirrorHolding(c, MoveToBreakeven(env, h, bar))
  {
    hide FavorableR, Ahead, Tighter, BreakevenBuffer;
    var distance := BreakevenBuffer(env);
    MirrorFavorable(c, h, bar);
    MirrorAhead(h.direction, c, h.entryPrice, distance);
    MirrorTighter(h.direction, c, h.stopLoss, Ahead(h.direction, h.entryPrice, distance));
  }

  lemma SameNumbers(env: Env, c: real, h: Holding)
    ensures TrailingDistance(env, MirrorHolding(c, h)) == TrailingDistance(env, h)
    ensures PartialDistance(env, MirrorHolding(c, h)) == PartialDistance(env, h)
    ensures PartialLots(env, MirrorHolding(c, h)) == PartialLots(env, h)
    ensures PartSold(env, MirrorHolding(c, h)) == MirrorHolding(c, PartSold(env, h))
  {
    hide PartOf;
  }

  lemma MirrorTrail(env: Env, c: real, h: Holding, bar: Bar)
    requires h.initialRisk > 0.0
    ensures Trail(env, MirrorHolding(c, h), MirrorBar(c, bar)) == MirrorHolding(c, Trail(env, h, bar))
  {
    hide FavorableR, Ahead, Tighter, TrailingDistance;
    var distance := -TrailingDistance(env, h);
    SameNumbers(env, c, h);
    MirrorFavorable(c, h, bar);
    MirrorAhead(h.direction, c, bar.close, distance);
    MirrorTighter(h.direction, c, h.stopLoss, Ahead(h.direction, bar.close, distance));
  }

  lemma MirrorPartial(env: Env, c: real, h: Holding, bar: Bar)
    requires h.initialRisk > 0.0 && EqualSwaps(env)
    ensures TakesPartial(env, MirrorHolding(c, h), MirrorBar(c, bar)) == TakesPartial(env, h, bar)
    ensures PartialLots(env, MirrorHolding(c, h)) == PartialLots(env, h)
    ensures PartialTrade(env, MirrorHolding(c, h), MirrorBar(c, bar)) == MirrorTrade(c, PartialTrade(env, h, bar))
  {
    hide FavorableR, CloseTrade, Ahead, PartialDistance;
    MirrorFavorable(c, h, bar);
    MirrorAhead(h.direction, c, h.entryPrice, PartialDistance(env, h));
    SameNumbers(env, c, h);
    MirrorClose(env, c, PartSold(env, h), PartialPrice(env, h), bar.time, PARTIAL, true);
  }

  lemma KeepsRisk(env: Env, h: Holding, bar: Bar)
    requires h.initialRisk > 0.0
    ensures MoveToBreakeven(env, h, bar).initialRisk == h.initialRisk
    ensures Trail(env, MoveToBreakeven(env, h, bar), bar).initialRisk == h.initialRisk
  {
  }

  lemma MirrorManage(env: Env, c: real, h: Holding, bar: Bar)
    requires EqualSwaps(env)
    ensures var m, m' := Manage(env, h, bar), Manage(env, MirrorHolding(c, h), MirrorBar(c, bar));
            m'.holding == MirrorHolding(c, m.holding) && m'.partialExit == MirrorOption(c, m.partialExit)
  {
    hide MoveToBreakeven, Trail, TakesPartial, PartialTrade, PartialLots, MirrorTrade;
    assert MirrorHolding(c, h).initialRisk == h.initialRisk;
    if env.settings.management && h.initialRisk > 0.0 {
      MirrorBreakeven(env, c, h, bar);
      var b := MoveToBreakeven(env, h, bar);
      KeepsRisk(env, h, bar);
      MirrorTrail(env, c, b, bar);
      MirrorPartial(env, c, Trail(env, b, bar), bar);
    }
  }

  lemma MirrorExit(d: Direction, c: real, stop: real, target: real, bar: Bar)
    ensures var e, e' := ExitOf(d, stop, target, bar), ExitOf(d.Opposite(), c - stop, c - target, MirrorBar(c, bar));
            e' == if e.Some? then Some(Exit(c - e.value.price, e.value.reason)) else None
  {
  }

  lemma MirrorUpdate(env: Env, c: real, h: Holding, bar: Bar)
    requires EqualSwaps(env)
    ensures var o, o' := Update(env, h, bar), Update(env, MirrorHolding(c, h), MirrorBar(c, bar));
            && o'.holding == MirrorHolding(c, o.holding)
            && o'.partialExit == MirrorOption(c, o.partialExit) && o'.exit == MirrorOption(c, o.exit)
  {
    hide TrackExcursions, Manage, CloseTrade, ExitOf, MirrorTrade;
    MirrorFavorable(c, h, bar);
    var tracked := TrackExcursions(h, bar);
    MirrorManage(env, c, tracked, bar);
    var m := Manage(env, tracked, bar).holding;
    MirrorExit(m.direction, c, m.stopLoss, m.takeProfit, bar);
    var exit := ExitOf(m.direction, m.stopLoss, m.takeProfit, bar);
    if exit.Some? {
      MirrorClose(env, c, m, exit.value.price, bar.time, exit.value.reason, false);
    }
  }

  /** MAIN RESULT. With equal swap rates a position and its mirror image live mirrored lives in a
      mirrored market: same exits on the same candles, same breakeven, trailing and partial
      exits, same excursions, same profit. */
  lemma {:induction false} SellMirrorsBuy(env: Env, c: real, h: Holding, bars: seq<Bar>)
    requires EqualSwaps(env)
    ensures Live(env, MirrorHolding(c, h), MirrorBars(c, bars)) == MirrorLife(c, Live(env, h, bars))
  {
    hide Update, MirrorHolding, MirrorTrade, MirrorBar;
    if bars == [] {
      assert MirrorTrades(c, []) == [];
    } else {
      var init, last := bars[..|bars| - 1], bars[|bars| - 1];
      SellMirrorsBuy(env, c, h, init);
      assert MirrorBars(c, bars)[..|bars| - 1] == MirrorBars(c, init);
      var l := Live(env, h, init);
      MirrorUpdate(env, c, l.holding, last);
      var o := Update(env, l.holding, last);
      assert MirrorTrades(c, l.partials + ListOfOption(o.partialExit))
             == MirrorTrades(c, l.partials) + ListOfOption(MirrorOption(c, o.partialExit));
    }
  }

  /** In particular from the entry on, and with the same profit in every trade. */
  lemma MirroredProfits(env: Env, c: real, e: Entry, bar: Bar, bars: seq<Bar>)
    requires EqualSwaps(env)
    ensures var a := AllTrades(Live(env, FillEntry(env, e, bar), bars));
            var b := AllTrades(Live(env, FillEntry(env, MirrorEntry(c, e), MirrorBar(c, bar)), MirrorBars(c, bars)));
            |b| == |a| && forall i :: 0 <= i < |a| ==>
              b[i].pnl == a[i].pnl && b[i].closeTime == a[i].closeTime && b[i].lots == a[i].lots
  {
    hide Live, FillEntry;
    MirrorFill(env, c, e, bar);
    SellMirrorsBuy(env, c, FillEntry(env, e, bar), bars);
  }
}
