/** What a simulated trade costs: spread, slippage, commission and swap (app/backtesting/costs.py). */
module Costs {
  import opened Common
  import opened Sizing

  /** A symbol whose prices can be counted in ticks and its volumes in steps. */
  type TickedSpec = s: SymbolSpec | s.tickSize > 0.0 && s.volumeStep > 0.0
    witness SymbolSpec(1.0, 1.0, 1.0, 1.0, 1.0)

  datatype ExecutionCosts = ExecutionCosts(
    spreadPoints: real, slippagePoints: real, commissionPerLot: real,
    swapLongPerLotPerDay: real, swapShortPerLotPerDay: real)

  /** A simulated fill; the two costs are price distances, one way. */
  datatype Fill = Fill(price: real, spreadCost: real, slippageCost: real)

  function ApplyEntryCosts(raw: real, d: Direction, costs: ExecutionCosts, tickSize: real): Fill {
    var halfSpread := costs.spreadPoints * tickSize / 2.0;
    var slip := costs.slippagePoints * tickSize;
    Fill(if d.Buy? then raw + halfSpread + slip else raw - halfSpread - slip, halfSpread, slip)
  }

  function ApplyExitCosts(raw: real, d: Direction, costs: ExecutionCosts, tickSize: real): Fill {
    var halfSpread := costs.spreadPoints * tickSize / 2.0;
    var slip := costs.slippagePoints * tickSize;
    Fill(if d.Buy? then raw - halfSpread - slip else raw + halfSpread + slip, halfSpread, slip)
  }

  function CommissionCost(lots: real, costs: ExecutionCosts): real {
    lots * costs.commissionPerLot
  }

  function SwapCost(lots: real, d: Direction, daysHeld: int, costs: ExecutionCosts): real {
    if daysHeld <= 0 then 0.0
    else lots * (if d.Buy? then costs.swapLongPerLotPerDay else costs.swapShortPerLotPerDay) * daysHeld as real
  }

  /** What a price move is worth in account money. */
  function Value(spec: TickedSpec, move: real, lots: real): real {
    move / spec.tickSize * spec.tickValue * lots
  }

  lemma Regroup(ticks: real, value: real, lots: real, size: real)
    ensures ticks * value * lots * size == ticks * size * value * lots
  {
    assert ticks * value * lots * size == ticks * (value * lots) * size;
    assert ticks * size * value * lots == ticks * size * (value * lots);
  }

  /** The worth of a move, multiplied out: per tick, the tick's value for every lot. */
  lemma ValueMultiplied(spec: TickedSpec, move: real, lots: real)
    ensures Value(spec, move, lots) * spec.tickSize == move * spec.tickValue * lots
  {
    var ticks := move / spec.tickSize;
    assert ticks * spec.tickSize == move;
    assert Value(spec, move, lots) == ticks * spec.tickValue * lots;
    Regroup(ticks, spec.tickValue, lots, spec.tickSize);
  }

  lemma ValueOfTicks(spec: TickedSpec, ticks: real, lots: real)
    ensures Value(spec, ticks * spec.tickSize, lots) == ticks * spec.tickValue * lots
  {
    assert ticks * spec.tickSize / spec.tickSize == ticks;
  }

  lemma Distribute(a: real, b: real, c: real)
    ensures (a + b) * c == a * c + b * c
  {
  }

  lemma ValueAdds(spec: TickedSpec, a: real, b: real, lots: real)
    ensures Value(spec, a + b, lots) == Value(spec, a, lots) + Value(spec, b, lots)
  {
    var x, y := a / spec.tickSize, b / spec.tickSize;
    assert (a + b) / spec.tickSize == x + y;
    assert (x + y) * spec.tickValue == x * spec.tickValue + y * spec.tickValue;
    Distribute(x * spec.tickValue, y * spec.tickValue, lots);
  }

  /** The costs of a round trip are exactly what separates the costed move from the raw one,
      whichever side the trade is on. */
  lemma CostsExplainTheFill(spec: TickedSpec, costs: ExecutionCosts, d: Direction, entry: real, exit: real, lots: real)
    ensures var into, out := ApplyEntryCosts(entry, d, costs, spec.tickSize),
            ApplyExitCosts(exit, d, costs, spec.tickSize);
            Value(spec, Gain(d, entry, exit), lots)
            == Value(spec, Gain(d, into.price, out.price), lots)
             + (Value(spec, into.spreadCost, lots) + Value(spec, out.spreadCost, lots))
             + (Value(spec, into.slippageCost, lots) + Value(spec, out.slippageCost, lots))
  {
    var into, out := ApplyEntryCosts(entry, d, costs, spec.tickSize), ApplyExitCosts(exit, d, costs, spec.tickSize);
    var net := Gain(d, into.price, out.price);
    assert Gain(d, entry, exit) == net + (into.spreadCost + out.spreadCost) + (into.slippageCost + out.slippageCost);
    ValueAdds(spec, net + (into.spreadCost + out.spreadCost), into.slippageCost + out.slippageCost, lots);
    ValueAdds(spec, net, into.spreadCost + out.spreadCost, lots);
    ValueAdds(spec, into.spreadCost, out.spreadCost, lots);
    ValueAdds(spec, into.slippageCost, out.slippageCost, lots);
  }
}
