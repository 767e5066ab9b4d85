/** What the excursions of an open paper position are (app/paper/positions.py): quotes are counted
    in money and candles in price, in the same two running maxima. */
module PaperExcursions {
  import opened Common
  import opened PaperLedger
  import opened Resampling

  datatype Revaluation = OfQuote(price: real) | OfCandle(bar: Bar)

  function Revalue(p: Paper, spec: PaperSpec, r: Revaluation): Paper {
    match r
    case OfQuote(price) => Reprice(p, price, spec)
    case OfCandle(bar) => RepriceOverBar(p, bar.high, bar.low, bar.close)
  }

  function RevalueAll(p: Paper, spec: PaperSpec, rs: seq<Revaluation>): Paper {
    if rs == [] then p else Revalue(RevalueAll(p, spec, rs[..|rs| - 1]), spec, rs[|rs| - 1])
  }

  /** The position's profit in money at a quote, and its best move in price over a candle. */
  function Favourable(p: Paper, spec: PaperSpec, r: Revaluation): real {
    match r
    case OfQuote(price) => FloatingCents(spec, Gain(p.direction, p.priceOpen, price), p.volume) as real / 100.0
    case OfCandle(bar) => Max(0.0, Gain(p.direction, p.priceOpen, if p.direction.Buy? then bar.high else bar.low))
  }

  function Adverse(p: Paper, spec: PaperSpec, r: Revaluation): real {
    match r
    case OfQuote(price) => -(FloatingCents(spec, Gain(p.direction, p.priceOpen, price), p.volume) as real / 100.0)
    case OfCandle(bar) => Max(0.0, -Gain(p.direction, p.priceOpen, if p.direction.Buy? then bar.low else bar.high))
  }

  /** `best` is the largest of a starting value and the values of a list. */
  ghost predicate Largest(best: real, start: real, values: seq<real>) {
    && best >= start && (forall i :: 0 <= i < |values| ==> best >= values[i])
    && (best == start || best in values)
  }

  lemma LargestGrows(best: real, start: real, values: seq<real>, v: real)
    requires Largest(best, start, values)
    ensures Largest(Max(best, v), start, values + [v])
  {
    assert (values + [v])[|values|] == v;
    assert forall x :: x in values ==> x in values + [v];
  }

  function Favourables(p: Paper, spec: PaperSpec, rs: seq<Revaluation>): (v: seq<real>)
    ensures |v| == |rs| && forall i :: 0 <= i < |rs| ==> v[i] == Favourable(p, spec, rs[i])
  {
    seq(|rs|, i requires 0 <= i < |rs| => Favourable(p, spec, rs[i]))
  }

  function Adverses(p: Paper, spec: PaperSpec, rs: seq<Revaluation>): (v: seq<real>)
    ensures |v| == |rs| && forall i :: 0 <= i < |rs| ==> v[i] == Adverse(p, spec, rs[i])
  {
    seq(|rs|, i requires 0 <= i < |rs| => Adverse(p, spec, rs[i]))
  }

  /** Revaluations keep everything but the floating result and the excursions. */
  ghost predicate SamePaper(a: Paper, b: Paper) {
    a == b.(unrealized := a.unrealized, mfe := a.mfe, mae := a.mae)
  }

  lemma RevaluedOnce(p: Paper, q: Paper, spec: PaperSpec, r: Revaluation)
    requires q.closePrice.None? && SamePaper(q, p)
    ensures var after := Revalue(q, spec, r);
            && SamePaper(after, p)
            && after.mfe == Max(q.mfe, Favourable(p, spec, r)) && after.mae == Max(q.mae, Adverse(p, spec, r))
  {
    hide FloatingCents, BarCents;
  }

  /** The excursions of an open position are the extremes of money results at quotes and of price
      moves over candles taken together, and are attained. */
  lemma {:induction false} ExcursionsMixUnits(p: Paper, spec: PaperSpec, rs: seq<Revaluation>)
    requires p.closePrice.None?
    ensures var after := RevalueAll(p, spec, rs);
            && SamePaper(after, p)
            && Largest(after.mfe, p.mfe, Favourables(p, spec, rs))
            && Largest(after.mae, p.mae, Adverses(p, spec, rs))
  {
    if rs != [] {
      hide Revalue, Favourable, Adverse, Largest;
      var n := |rs| - 1;
      var before, wins, losses :=
        RevalueAll(p, spec, rs[..n]), Favourables(p, spec, rs[..n]), Adverses(p, spec, rs[..n]);
      ExcursionsMixUnits(p, spec, rs[..n]);
      RevaluedOnce(p, before, spec, rs[n]);
      assert Favourables(p, spec, rs) == wins + [Favourable(p, spec, rs[n])];
      assert Adverses(p, spec, rs) == losses + [Adverse(p, spec, rs[n])];
      LargestGrows(before.mfe, p.mfe, wins, Favourable(p, spec, rs[n]));
      LargestGrows(before.mae, p.mae, losses, Adverse(p, spec, rs[n]));
    }
  }

  /** The largest of the values that belong to candles, or zero. */
  function LargestOverCandles(rs: seq<Revaluation>, values: seq<real>): (best: real)
    requires |values| == |rs|
    ensures best >= 0.0
  {
    if rs == [] then 0.0
    else
      var n := |rs| - 1;
      var before := LargestOverCandles(rs[..n], values[..n]);
      if rs[n].OfCandle? then Max(before, values[n]) else before
  }

  /** The best and the worst move in price that a position saw over candles. */
  function BestMove(p: Paper, spec: PaperSpec, rs: seq<Revaluation>): (best: real)
    ensures best >= 0.0
  {
    LargestOverCandles(rs, Favourables(p, spec, rs))
  }

  function WorstMove(p: Paper, spec: PaperSpec, rs: seq<Revaluation>): (worst: real)
    ensures worst >= 0.0
  {
    LargestOverCandles(rs, Adverses(p, spec, rs))
  }

  lemma {:induction false} LargestOverCandlesIsLargest(rs: seq<Revaluation>, values: seq<real>)
    requires |values| == |rs|
    ensures var best := LargestOverCandles(rs, values);
            && (forall i :: 0 <= i < |rs| && rs[i].OfCandle? ==> best >= values[i])
            && (best == 0.0 || best in values)
  {
    if rs != [] {
      var n := |rs| - 1;
      LargestOverCandlesIsLargest(rs[..n], values[..n]);
      assert values == values[..n] + [values[n]];
    }
  }

  /** A running maximum from zero is the candles' maximum exactly when no quote's value exceeds it. */
  lemma LargestIsACandles(best: real, rs: seq<Revaluation>, values: seq<real>)
    requires |values| == |rs| && Largest(best, 0.0, values)
    ensures best == LargestOverCandles(rs, values) <==>
            forall i :: 0 <= i < |rs| && rs[i].OfQuote? ==> values[i] <= LargestOverCandles(rs, values)
  {
    LargestOverCandlesIsLargest(rs, values);
    hide LargestOverCandles;
    if best != 0.0 {
      var i :| 0 <= i < |values| && best == values[i];
    }
  }

  lemma BothMoves(p: Paper, spec: PaperSpec, rs: seq<Revaluation>)
    ensures BestMove(p, spec, rs) == LargestOverCandles(rs, Favourables(p, spec, rs))
    ensures WorstMove(p, spec, rs) == LargestOverCandles(rs, Adverses(p, spec, rs))
  {
  }

  /** RESULT. The favourable excursion of a new position is its best price move exactly when no
      quote's profit in money is a larger number; the adverse one is its worst price move exactly
      when no quote's loss in money is. */
  lemma ExcursionIsAPriceMove(p: Paper, spec: PaperSpec, rs: seq<Revaluation>)
    requires p.closePrice.None?
    ensures p.mfe == 0.0 ==>
              (RevalueAll(p, spec, rs).mfe == BestMove(p, spec, rs) <==>
               forall i :: 0 <= i < |rs| && rs[i].OfQuote? ==> Favourable(p, spec, rs[i]) <= BestMove(p, spec, rs))
    ensures p.mae == 0.0 ==>
              (RevalueAll(p, spec, rs).mae == WorstMove(p, spec, rs) <==>
               forall i :: 0 <= i < |rs| && rs[i].OfQuote? ==> Adverse(p, spec, rs[i]) <= WorstMove(p, spec, rs))
  {
    ExcursionsMixUnits(p, spec, rs);
    hide *;
    var after, wins, losses := RevalueAll(p, spec, rs), Favourables(p, spec, rs), Adverses(p, spec, rs);
    BothMoves(p, spec, rs);
    if p.mfe == 0.0 {
      LargestIsACandles(after.mfe, rs, wins);
      forall i | 0 <= i < |rs|
        ensures wins[i] == Favourable(p, spec, rs[i])
      {
      }
    }
    if p.mae == 0.0 {
      LargestIsACandles(after.mae, rs, losses);
      forall i | 0 <= i < |rs|
        ensures losses[i] == Adverse(p, spec, rs[i])
      {
      }
    }
  }

  /** One lot bought at 2000, where a cent is worth one dollar: a candle that reached 2010 and closed
      at 2001 leaves an excursion of 100, not of 10. */
  lemma ExcursionExample()
    ensures var spec := PaperSpec(0.01, 1.0, 100.0, 0.01, 100.0, 0.01, true);
            var p := Paper(1, "", Buy, 1.0, 2000.0, None, None, 0, 0, 0.0, 0.0, 0, 0, None, "");
            var rs := [OfCandle(Bar(0, 2000.0, 2010.0, 1999.0, 2001.0, 0.0, 0.0)), OfQuote(2001.0)];
            BestMove(p, spec, rs) == 10.0 && RevalueAll(p, spec, rs).mfe == 100.0
  {
    var spec := PaperSpec(0.01, 1.0, 100.0, 0.01, 100.0, 0.01, true);
    var p := Paper(1, "", Buy, 1.0, 2000.0, None, None, 0, 0, 0.0, 0.0, 0, 0, None, "");
    var candle, quote := OfCandle(Bar(0, 2000.0, 2010.0, 1999.0, 2001.0, 0.0, 0.0)), OfQuote(2001.0);
    assert [candle, quote][..1] == [candle] && [candle][..0] == [];
    assert RevalueAll(p, spec, [candle]).mfe == 10.0;
    RoundOfInt(10000);
    assert FloatingCents(spec, 1.0, 1.0) == 10000;
    var rs := [candle, quote];
    var wins := Favourables(p, spec, rs);
    assert rs[..1] == [candle] && wins[..1] == [10.0] && [10.0][..0] == [];
    assert LargestOverCandles([candle], [10.0]) == 10.0;
  }
}
