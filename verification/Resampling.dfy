/** Higher-timeframe candles made from closed periods only (app/backtesting/resampling.py). */
module Resampling {
  import opened Common

  /** A 15-minute candle; times are minutes since a midnight. */
  datatype Bar = Bar(time: int, open: real, high: real, low: real, close: real, volume: real, spread: real)

  datatype HigherBar = HigherBar(
    start: int, open: real, high: real, low: real, close: real, volume: real, spread: real)

  const M15 := 15

  /** A division of time into periods: where the period of a time starts, and how long it is. */
  datatype Timeframe = Timeframe(periodOf: int -> int, minutes: int)

  const H1 := Timeframe((t: int) => t - t % 60, 60)
  const H4 := Timeframe((t: int) => t - t % 240, 240)

  /** The period of a time contains it. */
  ghost predicate Covers(tf: Timeframe, t: int) {
    tf.periodOf(t) <= t < tf.periodOf(t) + tf.minutes
  }

  /** Two times are in one period, or their periods do not overlap. */
  ghost predicate Follows(tf: Timeframe, a: int, b: int) {
    tf.periodOf(a) == tf.periodOf(b) || tf.periodOf(a) + tf.minutes <= tf.periodOf(b)
  }

  ghost predicate Divides(tf: Timeframe) {
    && (forall t :: Covers(tf, t))
    && (forall a, b :: a <= b ==> Follows(tf, a, b))
  }

  lemma HourOrder(a: int, b: int)
    requires a <= b
    ensures a - a % 60 == b - b % 60 || a - a % 60 + 60 <= b - b % 60
  {
    assert a - a % 60 == a / 60 * 60 && b - b % 60 == b / 60 * 60;
  }

  lemma HoursDivide()
    ensures Divides(H1)
  {
    forall a: int, b: int | a <= b
      ensures Follows(H1, a, b)
    {
      HourOrder(a, b);
    }
  }

  lemma FourHourOrder(a: int, b: int)
    requires a <= b
    ensures a - a % 240 == b - b % 240 || a - a % 240 + 240 <= b - b % 240
  {
    assert a - a % 240 == a / 240 * 240 && b - b % 240 == b / 240 * 240;
  }

  lemma FourHoursDivide()
    ensures Divides(H4)
  {
    forall a: int, b: int | a <= b
      ensures Follows(H4, a, b)
    {
      FourHourOrder(a, b);
    }
  }

  /** The candles of one period, in order. */
  function InPeriod(w: seq<Bar>, start: int, tf: Timeframe): seq<Bar>
  {
    if w == [] then []
    else
      var last := w[|w| - 1];
      InPeriod(w[..|w| - 1], start, tf) + if tf.periodOf(last.time) == start then [last] else []
  }

  function HighOf(bars: seq<Bar>): real
    requires bars != []
  {
    if |bars| == 1 then bars[0].high else Max(HighOf(bars[..|bars| - 1]), bars[|bars| - 1].high)
  }

  function LowOf(bars: seq<Bar>): real
    requires bars != []
  {
    if |bars| == 1 then bars[0].low else Min(LowOf(bars[..|bars| - 1]), bars[|bars| - 1].low)
  }

  function Volumes(bars: seq<Bar>): seq<real> {
    seq(|bars|, i requires 0 <= i < |bars| => bars[i].volume)
  }

  function Spreads(bars: seq<Bar>): seq<real> {
    seq(|bars|, i requires 0 <= i < |bars| => bars[i].spread)
  }

  /** First open, highest high, lowest low, last close, total volume, mean spread. */
  function Aggregate(start: int, bars: seq<Bar>): HigherBar
    requires bars != []
  {
    HigherBar(start, bars[0].open, HighOf(bars), LowOf(bars), bars[|bars| - 1].close,
              Sum(Volumes(bars)), Sum(Spreads(bars)) / |bars| as real)
  }

  lemma {:induction false} HighLowOf(bars: seq<Bar>) returns (h: nat, l: nat)
    requires bars != []
    ensures forall i :: 0 <= i < |bars| ==> LowOf(bars) <= bars[i].low && bars[i].high <= HighOf(bars)
    ensures h < |bars| && bars[h].high == HighOf(bars) && l < |bars| && bars[l].low == LowOf(bars)
  {
    h, l := 0, 0;
    var n := |bars| - 1;
    if n > 0 {
      var init := bars[..n];
      h, l := HighLowOf(init);
      assert forall i :: 0 <= i < n ==> bars[i] == init[i];
      h := if bars[n].high > init[h].high then n else h;
      l := if bars[n].low < init[l].low then n else l;
    }
  }

  lemma MeanTimesCount(sum: real, n: nat)
    requires n > 0
    ensures sum / n as real * n as real == sum
  {
  }

  const VOLUME := (b: Bar) => b.volume
  const SPREAD := (b: Bar) => b.spread

  /** A quantity added up over candles, from the first to the last. */
  function TotalOf(bars: seq<Bar>, f: Bar -> real): real {
    if bars == [] then 0.0 else f(bars[0]) + TotalOf(bars[1..], f)
  }

  lemma {:induction false} TotalSnoc(bars: seq<Bar>, b: Bar, f: Bar -> real)
    ensures TotalOf(bars + [b], f) == TotalOf(bars, f) + f(b)
  {
    if bars == [] {
      assert [b][1..] == [] && bars + [b] == [b];
    } else {
      assert (bars + [b])[1..] == bars[1..] + [b];
      TotalSnoc(bars[1..], b, f);
    }
  }

  lemma {:induction false} TotalIsSum(bars: seq<Bar>, f: Bar -> real, values: seq<real>)
    requires |values| == |bars| && forall i :: 0 <= i < |bars| ==> values[i] == f(bars[i])
    ensures TotalOf(bars, f) == Sum(values)
  {
    if bars != [] {
      var n := |bars| - 1;
      assert bars == bars[..n] + [bars[n]];
      TotalIsSum(bars[..n], f, values[..n]);
      TotalSnoc(bars[..n], bars[n], f);
    }
  }

  /** What a higher candle says of the data of its period: the first open, the last close, extremes
      that bound every candle and are attained, the total volume and the mean spread. */
  lemma AggregateSummarizes(start: int, bars: seq<Bar>) returns (h: nat, l: nat)
    requires bars != []
    ensures var c := Aggregate(start, bars);
            && c.start == start && c.open == bars[0].open && c.close == bars[|bars| - 1].close
            && (forall i :: 0 <= i < |bars| ==> c.low <= bars[i].low && bars[i].high <= c.high)
            && h < |bars| && bars[h].high == c.high && l < |bars| && bars[l].low == c.low
            && c.volume == TotalOf(bars, VOLUME) && c.spread * |bars| as real == TotalOf(bars, SPREAD)
  {
    h, l := HighLowOf(bars);
    TotalIsSum(bars, VOLUME, Volumes(bars));
    TotalIsSum(bars, SPREAD, Spreads(bars));
    hide HighOf, LowOf, Volumes, Spreads, TotalOf;
    MeanTimesCount(Sum(Spreads(bars)), |bars|);
  }

  /** The candles of one period. */
  datatype Group = Group(start: int, bars: seq<Bar>)

  ghost predicate NonEmpty(gs: seq<Group>) {
    forall i :: 0 <= i < |gs| ==> gs[i].bars != []
  }

  /** Adds a candle to the newest period, or begins the next one. */
  function Absorb(gs: seq<Group>, b: Bar, tf: Timeframe): (r: seq<Group>)
    ensures r != []
    ensures NonEmpty(gs) ==> NonEmpty(r)
  {
    var p := tf.periodOf(b.time);
    if gs != [] && gs[|gs| - 1].start == p
    then gs[..|gs| - 1] + [Group(p, gs[|gs| - 1].bars + [b])]
    else gs + [Group(p, [b])]
  }

  /** The candles by period, oldest first; a gap in the data leaves no empty period. */
  function Groups(w: seq<Bar>, tf: Timeframe): (gs: seq<Group>)
    ensures NonEmpty(gs) && (w != [] ==> gs != [])
  {
    if w == [] then [] else Absorb(Groups(w[..|w| - 1], tf), w[|w| - 1], tf)
  }

  /** Without the last period, unless the window reaches its end. */
  function ClosedGroups(w: seq<Bar>, tf: Timeframe): (gs: seq<Group>)
    ensures gs <= Groups(w, tf)
  {
    var gs := Groups(w, tf);
    if w != [] && w[|w| - 1].time + M15 < gs[|gs| - 1].start + tf.minutes then gs[..|gs| - 1] else gs
  }

  function ResampleClosedOnly(w: seq<Bar>, tf: Timeframe): (r: seq<HigherBar>)
    ensures |r| == |ClosedGroups(w, tf)|
    ensures forall i :: 0 <= i < |r| ==> r[i].start == ClosedGroups(w, tf)[i].start
  {
    var gs := ClosedGroups(w, tf);
    seq(|gs|, i requires 0 <= i < |gs| => Aggregate(gs[i].start, gs[i].bars))
  }

  // ----- data on the 15-minute grid, gaps allowed ---------------------------------------------

  /** Candles in order, each at least a quarter of an hour after the one before. */
  ghost predicate Spaced(w: seq<Bar>) {
    forall i, j :: 0 <= i < j < |w| ==> w[i].time + M15 <= w[j].time
  }

  lemma GridStep(a: int, b: int)
    requires a % M15 == 0 && b % M15 == 0 && a < b
    ensures a + M15 <= b
  {
    assert a == a / M15 * M15 && b == b / M15 * M15;
  }

  /** The data that the engine reads: candles in order on the 15-minute grid, gaps allowed. */
  ghost predicate OnGrid(w: seq<Bar>) {
    && (forall i :: 0 <= i < |w| ==> w[i].time % M15 == 0)
    && (forall i, j :: 0 <= i < j < |w| ==> w[i].time < w[j].time)
  }

  /** Data on the 15-minute grid, in order, with or without gaps, is spaced. */
  lemma GridIsSpaced(w: seq<Bar>)
    requires OnGrid(w)
    ensures Spaced(w)
  {
    forall i, j | 0 <= i < j < |w|
      ensures w[i].time + M15 <= w[j].time
    {
      GridStep(w[i].time, w[j].time);
    }
  }

  /** The groups advance by whole periods, and the newest holds the last candle. */
  ghost predicate Advancing(gs: seq<Group>, minutes: int) {
    forall i, j :: 0 <= i < j < |gs| ==> gs[i].start + minutes <= gs[j].start
  }

  lemma SpacedPart(before: seq<Bar>, w: seq<Bar>, after: seq<Bar>)
    requires Spaced(before + w + after)
    ensures Spaced(w)
  {
    var all := before + w + after;
    assert w == all[|before|..|before| + |w|];
    forall i, j | 0 <= i < j < |w|
      ensures w[i].time + M15 <= w[j].time
    {
      assert w[i] == all[|before| + i] && w[j] == all[|before| + j];
    }
  }

  lemma SomeData(w: seq<Bar>, tf: Timeframe)
    ensures Groups(w, tf) == [] <==> w == []
  {
  }

  lemma GroupsSnoc(w: seq<Bar>, b: Bar, tf: Timeframe)
    ensures Groups(w + [b], tf) == Absorb(Groups(w, tf), b, tf)
  {
    assert (w + [b])[..|w|] == w;
  }

  /** A candle of the newest period or of a later one keeps the order of the groups. */
  lemma AbsorbAdvances(gs: seq<Group>, b: Bar, tf: Timeframe)
    requires tf.minutes > 0 && Advancing(gs, tf.minutes)
    requires gs != [] ==>
               var last, p := gs[|gs| - 1].start, tf.periodOf(b.time); last == p || last + tf.minutes <= p
    ensures Advancing(Absorb(gs, b, tf), tf.minutes)
    ensures Absorb(gs, b, tf)[|Absorb(gs, b, tf)| - 1].start == tf.periodOf(b.time)
    ensures Absorb(gs, b, tf)[0].start == if gs == [] then tf.periodOf(b.time) else gs[0].start
  {
    var r := Absorb(gs, b, tf);
    forall i, j | 0 <= i < j < |r|
      ensures r[i].start + tf.minutes <= r[j].start
    {
      assert r[i].start == gs[i].start;
      if j < |gs| {
        assert r[j].start == gs[j].start;
      }
    }
  }

  lemma NoneAdvance(minutes: int)
    ensures Advancing([], minutes)
  {
  }

  /** The next candle is of the newest period or of a later one. */
  lemma LastFits(w: seq<Bar>, b: Bar, tf: Timeframe)
    requires Divides(tf) && Spaced(w + [b])
    requires w != [] ==> Groups(w, tf) != [] && Groups(w, tf)[|Groups(w, tf)| - 1].start == tf.periodOf(w[|w| - 1].time)
    ensures tf.minutes > 0
    ensures Groups(w, tf) != [] ==>
              var last, p := Groups(w, tf)[|Groups(w, tf)| - 1].start, tf.periodOf(b.time);
              last == p || last + tf.minutes <= p
  {
    SomeData(w, tf);
    assert Covers(tf, b.time);
    hide Groups;
    if w != [] {
      assert (w + [b])[|w| - 1] == w[|w| - 1] && (w + [b])[|w|] == b;
      assert Follows(tf, w[|w| - 1].time, b.time);
    }
  }

  lemma {:induction false} GroupsAdvance(w: seq<Bar>, tf: Timeframe)
    requires Divides(tf) && Spaced(w)
    ensures Advancing(Groups(w, tf), tf.minutes)
    ensures w != [] ==> Groups(w, tf)[0].start == tf.periodOf(w[0].time)
    ensures w != [] ==> Groups(w, tf)[|Groups(w, tf)| - 1].start == tf.periodOf(w[|w| - 1].time)
  {
    hide *;
    SomeData(w, tf);
    if w == [] {
      NoneAdvance(tf.minutes);
    } else {
      var init, b := w[..|w| - 1], w[|w| - 1];
      assert w == init + [b];
      assert [] + init + [b] == w;
      SpacedPart([], init, [b]);
      GroupsAdvance(init, tf);
      GroupsSnoc(init, b, tf);
      LastFits(init, b, tf);
      AbsorbAdvances(Groups(init, tf), b, tf);
      SomeData(init, tf);
    }
  }

  /** Appending a candle leaves the candles of every other period alone. */
  lemma InPeriodSnoc(w: seq<Bar>, b: Bar, start: int, tf: Timeframe)
    ensures InPeriod(w + [b], start, tf) ==
            InPeriod(w, start, tf) + if tf.periodOf(b.time) == start then [b] else []
  {
    assert (w + [b])[..|w|] == w;
  }

  lemma {:induction false} InPeriodEmpty(w: seq<Bar>, start: int, tf: Timeframe)
    requires forall i :: 0 <= i < |w| ==> tf.periodOf(w[i].time) != start
    ensures InPeriod(w, start, tf) == []
  {
    if w != [] {
      InPeriodEmpty(w[..|w| - 1], start, tf);
    }
  }

  /** Only the newest group's period can be that of the next candle. */
  lemma OnlyTheNewestGrows(w: seq<Bar>, b: Bar, tf: Timeframe, i: nat)
    requires Divides(tf) && Spaced(w + [b]) && i < |Groups(w, tf)|
    ensures i < |Groups(w, tf)| - 1 ==> Groups(w, tf)[i].start != tf.periodOf(b.time)
  {
    GroupsAdvance(w + [b], tf);
    GroupsSnoc(w, b, tf);
    hide Groups, Spaced;
    assert Covers(tf, b.time);
    var gs, gs' := Groups(w, tf), Groups(w + [b], tf);
    if i < |gs| - 1 {
      assert gs'[i] == gs[i] && gs'[|gs'| - 1].start == tf.periodOf(b.time);
    }
  }

  /** A candle that begins a new group comes after the window's last period. */
  lemma NewestIsLast(w: seq<Bar>, b: Bar, tf: Timeframe)
    requires Divides(tf) && Spaced(w + [b]) && |Groups(w + [b], tf)| > |Groups(w, tf)|
    ensures w != [] ==> w[|w| - 1].time <= b.time && tf.periodOf(b.time) != tf.periodOf(w[|w| - 1].time)
  {
    assert [] + w + [b] == w + [b];
    SpacedPart([], w, [b]);
    GroupsAdvance(w, tf);
    GroupsSnoc(w, b, tf);
    hide Groups, Divides;
    if w != [] {
      assert (w + [b])[|w| - 1] == w[|w| - 1] && (w + [b])[|w|] == b;
    }
  }

  /** No candle of a window lies in a period after the window's last one. */
  lemma PeriodHasPassed(w: seq<Bar>, tf: Timeframe, p: int, k: nat)
    requires Divides(tf) && Spaced(w) && k < |w|
    requires p >= tf.periodOf(w[|w| - 1].time) + tf.minutes
    ensures tf.periodOf(w[k].time) != p
  {
    assert Follows(tf, w[k].time, w[|w| - 1].time) && Covers(tf, w[k].time);
  }

  lemma NewPeriodIsEmpty(w: seq<Bar>, b: Bar, tf: Timeframe)
    requires Divides(tf) && Spaced(w)
    requires w != [] ==> w[|w| - 1].time <= b.time && tf.periodOf(b.time) != tf.periodOf(w[|w| - 1].time)
    ensures InPeriod(w, tf.periodOf(b.time), tf) == []
  {
    forall k | 0 <= k < |w|
      ensures tf.periodOf(w[k].time) != tf.periodOf(b.time)
    {
      assert Follows(tf, w[|w| - 1].time, b.time);
      PeriodHasPassed(w, tf, tf.periodOf(b.time), k);
    }
    InPeriodEmpty(w, tf.periodOf(b.time), tf);
  }

  /** Each group holds all candles of its period that are in the window, in order. */
  lemma {:induction false} GroupIsPeriod(w: seq<Bar>, tf: Timeframe, i: nat)
    requires Divides(tf) && Spaced(w) && i < |Groups(w, tf)|
    ensures Groups(w, tf)[i].bars == InPeriod(w, Groups(w, tf)[i].start, tf)
  {
    SomeData(w, tf);
    hide Groups, InPeriod, Divides, Spaced;
    var init, b := w[..|w| - 1], w[|w| - 1];
    assert w == init + [b];
    assert [] + init + [b] == w;
    SpacedPart([], init, [b]);
    GroupsSnoc(init, b, tf);
    InPeriodSnoc(init, b, Groups(w, tf)[i].start, tf);
    if i < |Groups(init, tf)| {
      GroupIsPeriod(init, tf, i);
      OnlyTheNewestGrows(init, b, tf, i);
    } else {
      NewestIsLast(init, b, tf);
      NewPeriodIsEmpty(init, b, tf);
    }
  }

  /** The period that a window ends in has been returned already. */
  predicate ReturnedTooEarly(w: seq<Bar>, b: Bar, tf: Timeframe) {
    var gs := Groups(w, tf);
    w != [] && gs[|gs| - 1].start == tf.periodOf(b.time) && w[|w| - 1].time + M15 >= gs[|gs| - 1].start + tf.minutes
  }

  function NewestGroup(w: seq<Bar>, tf: Timeframe): (g: Group)
    requires w != []
    ensures g.bars != []
  {
    Groups(w, tf)[|Groups(w, tf)| - 1]
  }

  /** One more candle leaves the periods returned so far alone exactly when it does not belong to a
      newest period that was already returned. */
  lemma AppendKeepsGroups(w: seq<Bar>, b: Bar, tf: Timeframe)
    ensures ClosedGroups(w, tf) <= ClosedGroups(w + [b], tf) <==> !ReturnedTooEarly(w, b, tf)
    ensures ReturnedTooEarly(w, b, tf) ==>
              var g := NewestGroup(w, tf);
              && ClosedGroups(w, tf) == Groups(w, tf)[..|Groups(w, tf)| - 1] + [g]
              && ClosedGroups(w + [b], tf) == Groups(w, tf)[..|Groups(w, tf)| - 1]
                 + if b.time + M15 < g.start + tf.minutes then [] else [Group(g.start, g.bars + [b])]
  {
    SomeData(w, tf);
    GroupsSnoc(w, b, tf);
    hide Groups;
    var gs, gs' := Groups(w, tf), Groups(w + [b], tf);
    assert (w + [b])[|w|] == b;
    if w != [] {
      var n := |gs|;
      if gs[n - 1].start == tf.periodOf(b.time) {
        assert gs[..n - 1] == gs'[..n - 1] && |gs'| == n;
        assert gs'[n - 1].bars == gs[n - 1].bars + [b];
        if ReturnedTooEarly(w, b, tf) {
          assert ClosedGroups(w, tf)[n - 1] == gs[n - 1];
        }
      } else {
        assert gs <= gs'[..n];
      }
    }
  }

  /** One more candle does not show in the aggregate: no new extreme, the same close, no volume, and
      the mean spread. */
  predicate Invisible(bars: seq<Bar>, b: Bar)
    requires bars != []
  {
    && b.high <= HighOf(bars) && b.low >= LowOf(bars)
    && b.close == bars[|bars| - 1].close && b.volume == 0.0
    && b.spread == Sum(Spreads(bars)) / |bars| as real
  }

  lemma MeanKept(sum: real, n: nat, x: real)
    requires n > 0
    ensures (sum + x) / (n + 1) as real == sum / n as real <==> x == sum / n as real
  {
    var k, mean := n as real, sum / n as real;
    var next := (sum + x) / (k + 1.0);
    assert mean * k == sum && next * (k + 1.0) == sum + x;
    assert (next - mean) * (k + 1.0) == x - mean;
  }

  lemma AggregateKept(start: int, bars: seq<Bar>, b: Bar)
    requires bars != []
    ensures Aggregate(start, bars + [b]) == Aggregate(start, bars) <==> Invisible(bars, b)
  {
    var more := bars + [b];
    assert more[..|bars|] == bars;
    assert Volumes(more)[..|bars|] == Volumes(bars) && Spreads(more)[..|bars|] == Spreads(bars);
    MeanKept(Sum(Spreads(bars)), |bars|, b.spread);
  }

  /** One more candle takes back or changes a candle that was returned. */
  predicate Revises(w: seq<Bar>, b: Bar, tf: Timeframe) {
    && ReturnedTooEarly(w, b, tf)
    && var g := NewestGroup(w, tf);
       b.time + M15 < g.start + tf.minutes || !Invisible(g.bars, b)
  }

  /** RESULT. On any data, one more candle leaves the candles returned so far alone exactly when it
      does not belong to a newest period that was already returned, or else ends no earlier than
      that period and does not show in its aggregate. */
  lemma AppendIsStableExactly(w: seq<Bar>, b: Bar, tf: Timeframe)
    ensures ResampleClosedOnly(w, tf) <= ResampleClosedOnly(w + [b], tf) <==> !Revises(w, b, tf)
  {
    hide Groups, ClosedGroups, Aggregate, Invisible;
    AppendKeepsGroups(w, b, tf);
    if ReturnedTooEarly(w, b, tf) {
      var g, n := NewestGroup(w, tf), |Groups(w, tf)| - 1;
      AggregateKept(g.start, g.bars, b);
      assert ResampleClosedOnly(w, tf)[n] == Aggregate(g.start, g.bars);
      if b.time + M15 >= g.start + tf.minutes {
        assert ResampleClosedOnly(w + [b], tf)[n] == Aggregate(g.start, g.bars + [b]);
      }
    }
  }

  /** On spaced data a candle of the newest period shows that it was still open. */
  lemma StableSnoc(w: seq<Bar>, b: Bar, tf: Timeframe)
    requires Divides(tf) && Spaced(w + [b])
    ensures ClosedGroups(w, tf) <= ClosedGroups(w + [b], tf)
  {
    hide Groups, ClosedGroups;
    AppendKeepsGroups(w, b, tf);
    if w != [] {
      assert (w + [b])[|w| - 1] == w[|w| - 1] && (w + [b])[|w|] == b;
      assert Covers(tf, b.time);
    }
  }

  lemma {:induction false} ClosedGroupsAreStable(w: seq<Bar>, more: seq<Bar>, tf: Timeframe)
    requires Divides(tf) && Spaced(w + more)
    ensures ClosedGroups(w, tf) <= ClosedGroups(w + more, tf)
  {
    if more == [] {
      assert w + more == w;
    } else {
      var init, b := more[..|more| - 1], more[|more| - 1];
      assert w + more == (w + init) + [b];
      assert [] + (w + init) + [b] == w + more;
      SpacedPart([], w + init, [b]);
      ClosedGroupsAreStable(w, init, tf);
      StableSnoc(w + init, b, tf);
    }
  }

  /** MAIN RESULT. The output for a window is a prefix of the output for every longer window with
      the same start: closed candles are never revised. */
  lemma ClosedBarsAreStable(w: seq<Bar>, more: seq<Bar>, tf: Timeframe)
    requires Divides(tf) && Spaced(w + more)
    ensures ResampleClosedOnly(w, tf) <= ResampleClosedOnly(w + more, tf)
  {
    ClosedGroupsAreStable(w, more, tf);
  }

  /** MAIN RESULT. So on grid data neither H1 nor H4 candles are ever revised. */
  lemma HourlyAndFourHourlyBarsAreStable(w: seq<Bar>, more: seq<Bar>)
    requires OnGrid(w + more)
    ensures ResampleClosedOnly(w, H1) <= ResampleClosedOnly(w + more, H1)
    ensures ResampleClosedOnly(w, H4) <= ResampleClosedOnly(w + more, H4)
  {
    hide ResampleClosedOnly, Divides;
    HoursDivide();
    FourHoursDivide();
    GridIsSpaced(w + more);
    ClosedBarsAreStable(w, more, H1);
    ClosedBarsAreStable(w, more, H4);
  }

  /** Every returned period has ended when the window ends. */
  lemma ReturnedPeriodsHaveEnded(w: seq<Bar>, tf: Timeframe, i: nat)
    requires Divides(tf) && Spaced(w) && i < |ResampleClosedOnly(w, tf)|
    ensures ResampleClosedOnly(w, tf)[i].start + tf.minutes <= w[|w| - 1].time + M15
  {
    GroupsAdvance(w, tf);
    var gs := Groups(w, tf);
    assert ClosedGroups(w, tf)[i] == gs[i] && Covers(tf, w[|w| - 1].time);
    if i < |gs| - 1 {
      assert gs[i].start + tf.minutes <= gs[|gs| - 1].start;
    }
  }

  lemma {:induction false} GroupOf(w: seq<Bar>, tf: Timeframe, k: nat) returns (i: nat)
    requires k < |w|
    ensures i < |Groups(w, tf)| && Groups(w, tf)[i].start == tf.periodOf(w[k].time)
  {
    if k == |w| - 1 {
      i := |Groups(w, tf)| - 1;
    } else {
      i := GroupOf(w[..|w| - 1], tf, k);
    }
  }

  /** A period that has ended and is not the window's last is returned, so only a period still
      open is ever held back. */
  lemma OnlyTheOpenPeriodIsHeldBack(w: seq<Bar>, tf: Timeframe, k: nat)
    requires Divides(tf) && Spaced(w) && k < |w|
    requires tf.periodOf(w[k].time) + tf.minutes <= w[|w| - 1].time + M15
    ensures exists i :: 0 <= i < |ResampleClosedOnly(w, tf)|
                        && ResampleClosedOnly(w, tf)[i].start == tf.periodOf(w[k].time)
  {
    var i := GroupOf(w, tf, k);
    GroupsAdvance(w, tf);
    assert ClosedGroups(w, tf)[i] == Groups(w, tf)[i];
    assert ResampleClosedOnly(w, tf)[i].start == tf.periodOf(w[k].time);
  }

  lemma {:induction false} InPeriodConcat(a: seq<Bar>, b: seq<Bar>, start: int, tf: Timeframe)
    ensures InPeriod(a + b, start, tf) == InPeriod(a, start, tf) + InPeriod(b, start, tf)
  {
    if b == [] {
      assert a + b == a;
    } else {
      var init, last := b[..|b| - 1], b[|b| - 1];
      assert a + b == (a + init) + [last] && b == init + [last];
      InPeriodConcat(a, init, start, tf);
      InPeriodSnoc(a + init, last, start, tf);
      InPeriodSnoc(init, last, start, tf);
    }
  }

  lemma ClosedIsGroup(w: seq<Bar>, tf: Timeframe, i: nat)
    requires i < |ClosedGroups(w, tf)|
    ensures w != [] && i < |Groups(w, tf)| && ClosedGroups(w, tf)[i] == Groups(w, tf)[i]
  {
    SomeData(w, tf);
  }

  lemma NothingBefore(before: seq<Bar>, w: seq<Bar>, after: seq<Bar>, tf: Timeframe, i: nat)
    requires Divides(tf) && Spaced(before + w + after)
    requires i < |ClosedGroups(w, tf)| && (i > 0 || before == [])
    ensures InPeriod(before, ClosedGroups(w, tf)[i].start, tf) == []
  {
    if before != [] {
      SpacedPart(before, w, after);
      GroupsAdvance(w, tf);
      assert w != [] && ClosedGroups(w, tf)[i] == Groups(w, tf)[i];
      hide Groups, ClosedGroups, InPeriod;
      var all, start := before + w + after, Groups(w, tf)[i].start;
      assert all[|before|] == w[0];
      forall k | 0 <= k < |before|
        ensures tf.periodOf(before[k].time) != start
      {
        assert all[k] == before[k] && before[k].time <= w[0].time;
        assert Follows(tf, before[k].time, w[0].time) && Covers(tf, before[k].time);
      }
      InPeriodEmpty(before, start, tf);
    }
  }

  lemma SameStart(w: seq<Bar>, tf: Timeframe, i: nat)
    requires i < |ClosedGroups(w, tf)|
    ensures i < |ResampleClosedOnly(w, tf)| && ResampleClosedOnly(w, tf)[i].start == ClosedGroups(w, tf)[i].start
  {
  }

  lemma LaterIsElsewhere(all: seq<Bar>, tf: Timeframe, j: nat, k: nat, start: int)
    requires Divides(tf) && Spaced(all) && j < k < |all| && start + tf.minutes <= all[j].time + M15
    ensures tf.periodOf(all[k].time) != start
  {
    assert Covers(tf, all[k].time);
  }

  lemma NothingAfter(before: seq<Bar>, w: seq<Bar>, after: seq<Bar>, tf: Timeframe, i: nat)
    requires Divides(tf) && Spaced(before + w + after) && i < |ClosedGroups(w, tf)|
    ensures InPeriod(after, ClosedGroups(w, tf)[i].start, tf) == []
  {
    hide *;
    SpacedPart(before, w, after);
    ClosedIsGroup(w, tf, i);
    SameStart(w, tf, i);
    ReturnedPeriodsHaveEnded(w, tf, i);
    var all, start := before + w + after, ClosedGroups(w, tf)[i].start;
    assert all[|before| + |w| - 1] == w[|w| - 1];
    forall k | 0 <= k < |after|
      ensures tf.periodOf(after[k].time) != start
    {
      assert all[|before| + |w| + k] == after[k];
      LaterIsElsewhere(all, tf, |before| + |w| - 1, |before| + |w| + k, start);
    }
    InPeriodEmpty(after, start, tf);
  }

  /** A returned period that is not the first holds all its data, the data before the window and
      after it included; the first may miss what came before the window. */
  lemma ClosedGroupIsComplete(before: seq<Bar>, w: seq<Bar>, after: seq<Bar>, tf: Timeframe, i: nat)
    requires Divides(tf) && Spaced(before + w + after)
    requires i < |ClosedGroups(w, tf)| && (i > 0 || before == [])
    ensures ClosedGroups(w, tf)[i].bars == InPeriod(before + w + after, ClosedGroups(w, tf)[i].start, tf)
  {
    hide *;
    var start := ClosedGroups(w, tf)[i].start;
    SpacedPart(before, w, after);
    ClosedIsGroup(w, tf, i);
    GroupIsPeriod(w, tf, i);
    InPeriodConcat(before, w, start, tf);
    InPeriodConcat(before + w, after, start, tf);
    NothingBefore(before, w, after, tf, i);
    NothingAfter(before, w, after, tf, i);
  }

  /** So every returned candle except the first is the aggregate of all data in its period. */
  lemma ReturnedBarsAreComplete(before: seq<Bar>, w: seq<Bar>, after: seq<Bar>, tf: Timeframe, i: nat)
    requires Divides(tf) && Spaced(before + w + after)
    requires i < |ResampleClosedOnly(w, tf)| && (i > 0 || before == [])
    ensures var bars := InPeriod(before + w + after, ResampleClosedOnly(w, tf)[i].start, tf);
            bars != [] && ResampleClosedOnly(w, tf)[i] == Aggregate(ResampleClosedOnly(w, tf)[i].start, bars)
  {
    ClosedGroupIsComplete(before, w, after, tf, i);
    assert ClosedGroups(w, tf)[i] == Groups(w, tf)[i];
  }

  /** Off the grid the claim fails: a candle at minute 50 closes the hour, and one at minute 55
      then changes it. */
  lemma OffGridIsRevised()
    ensures var a := Bar(50, 1.0, 1.0, 1.0, 1.0, 1.0, 1.0);
            var b := Bar(55, 1.0, 2.0, 1.0, 2.0, 1.0, 1.0);
            var short, long := ResampleClosedOnly([a], H1), ResampleClosedOnly([a] + [b], H1);
            |short| == 1 && |long| == 1 && short[0].close == 1.0 && long[0].close == 2.0
  {
    var a := Bar(50, 1.0, 1.0, 1.0, 1.0, 1.0, 1.0);
    var b := Bar(55, 1.0, 2.0, 1.0, 2.0, 1.0, 1.0);
    assert [a][..0] == [] && ([a] + [b])[..1] == [a];
    assert Groups([a], H1) == [Group(0, [a])];
    assert Groups([a] + [b], H1) == [Group(0, [a] + [b])];
  }
}
