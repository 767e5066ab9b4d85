/** Position sizing (app/risk/position_sizing.py) and its agreement with the separately written
    volume checks of the two gates and of the mock broker. Lots are exact, so the source's
    round(lots, 8) changes nothing. */
module Sizing {
  import opened Common
  import Gates

  datatype SymbolSpec = SymbolSpec(
    volumeMin: real, volumeMax: real, volumeStep: real, tickSize: real, tickValue: real)

  datatype SizingError = NON_POSITIVE_EQUITY | ZERO_STOP_DISTANCE | INVALID_SPEC | NON_POSITIVE_LOSS

  datatype Size = Size(lots: real, monetaryRisk: real, lossPerLot: real, requestedLots: real, clamped: bool) {
    predicate Tradable() {
      lots > 0.0
    }
  }

  datatype SizingResult = Sized(size: Size) | SizingFailed(error: SizingError)

  function LossPerLot(entry: real, stop: real, spec: SymbolSpec): real
    requires spec.tickSize > 0.0
  {
    Abs(entry - stop) / spec.tickSize * spec.tickValue
  }

  predicate WholeSteps(volume: real, step: real, k: int) {
    volume == k as real * step
  }

  /** The largest whole number of steps not above `raw`. */
  function RoundDown(raw: real, step: real): real
    requires step > 0.0
  {
    (raw / step).Floor as real * step
  }

  function CalculatePositionSize(equity: real, riskPct: real, entry: real, stop: real, spec: SymbolSpec): SizingResult
  {
    if equity <= 0.0 then SizingFailed(NON_POSITIVE_EQUITY)
    else if entry == stop then SizingFailed(ZERO_STOP_DISTANCE)
    else if spec.tickSize <= 0.0 || spec.volumeStep <= 0.0 then SizingFailed(INVALID_SPEC)
    else
      var loss := LossPerLot(entry, stop, spec);
      if loss <= 0.0 then SizingFailed(NON_POSITIVE_LOSS)
      else
        var monetaryRisk := equity * (riskPct / 100.0);
        var raw := monetaryRisk / loss;
        var lots := RoundDown(raw, spec.volumeStep);
        if lots < spec.volumeMin then Sized(Size(0.0, monetaryRisk, loss, raw, true))
        else if lots > spec.volumeMax then Sized(Size(spec.volumeMax, monetaryRisk, loss, raw, true))
        else Sized(Size(lots, monetaryRisk, loss, raw, false))
  }

  // ----- arithmetic ------------------------------------------------------------------------

  lemma DivMul(a: real, b: real)
    requires b != 0.0
    ensures a / b * b == a
  {
  }

  lemma QuotientOfMultiple(k: real, step: real)
    requires step != 0.0
    ensures k * step / step == k
  {
  }

  lemma DistributeDifference(a: real, b: real, c: real)
    ensures a * c - b * c == (a - b) * c
  {
  }

  lemma WholeStepsQuotient(volume: real, step: real, k: int)
    requires step > 0.0 && WholeSteps(volume, step, k)
    ensures volume / step == k as real
  {
    QuotientOfMultiple(k as real, step);
  }

  lemma WholeStepsMatch(volume: real, step: real, k: int)
    requires step > 0.0 && WholeSteps(volume, step, k)
    ensures Gates.MatchesStep(volume, step)
  {
    WholeStepsQuotient(volume, step, k);
    RoundOfInt(k);
  }

  lemma WholeStepsDifference(a: real, b: real, step: real, i: int, j: int)
    requires WholeSteps(a, step, i) && WholeSteps(b, step, j)
    ensures WholeSteps(a - b, step, i - j)
  {
    DistributeDifference(i as real, j as real, step);
    assert (i - j) as real == i as real - j as real;
  }

  lemma Below(raw: real, q: real, f: real, step: real)
    requires step > 0.0 && q * step == raw && f <= q
    ensures f * step <= raw
  {
    assert (q - f) * step >= 0.0;
    assert (q - f) * step == q * step - f * step;
  }

  lemma Strict(raw: real, q: real, g: real, step: real)
    requires step > 0.0 && q * step == raw && q < g
    ensures raw < g * step
  {
    assert (g - q) * step > 0.0;
    assert (g - q) * step == g * step - q * step;
  }

  lemma Above(raw: real, q: real, f: real, step: real)
    requires step > 0.0 && q * step == raw && q < f + 1.0
    ensures raw < f * step + step
  {
    Strict(raw, q, f + 1.0, step);
    assert (f + 1.0) * step == f * step + step;
  }

  /** Rounding down never exceeds the amount and misses it by less than one step. */
  lemma RoundDownNear(raw: real, step: real)
    requires step > 0.0
    ensures RoundDown(raw, step) <= raw < RoundDown(raw, step) + step
  {
    DivMul(raw, step);
    Below(raw, raw / step, (raw / step).Floor as real, step);
    Above(raw, raw / step, (raw / step).Floor as real, step);
  }

  /** A tradable size is the affordable whole number of steps, or the maximum volume. */
  lemma TradableShape(equity: real, riskPct: real, entry: real, stop: real, spec: SymbolSpec) returns (k: int)
    requires 0.0 < spec.volumeMin <= spec.volumeMax
    requires CalculatePositionSize(equity, riskPct, entry, stop, spec).Sized?
    requires CalculatePositionSize(equity, riskPct, entry, stop, spec).size.Tradable()
    ensures var z := CalculatePositionSize(equity, riskPct, entry, stop, spec).size;
            && spec.volumeStep > 0.0 && spec.volumeMin <= z.lots <= spec.volumeMax
            && (!z.clamped ==> WholeSteps(z.lots, spec.volumeStep, k))
            && (z.clamped ==> z.lots == spec.volumeMax)
  {
    var z := CalculatePositionSize(equity, riskPct, entry, stop, spec).size;
    k := (z.requestedLots / spec.volumeStep).Floor;
  }

  // ----- what sizing promises --------------------------------------------------------------

  /** The money lost at the stop never exceeds the configured risk, and a size that was not
      clamped is the largest one: one more step would exceed the risk. */
  lemma NeverRisksMore(equity: real, riskPct: real, entry: real, stop: real, spec: SymbolSpec)
    requires riskPct >= 0.0 && spec.volumeMin >= 0.0
    requires CalculatePositionSize(equity, riskPct, entry, stop, spec).Sized?
    ensures var z := CalculatePositionSize(equity, riskPct, entry, stop, spec).size;
            && z.monetaryRisk == equity * (riskPct / 100.0)
            && z.lots * LossPerLot(entry, stop, spec) <= z.monetaryRisk
            && (!z.clamped ==> (z.lots + spec.volumeStep) * LossPerLot(entry, stop, spec) > z.monetaryRisk)
  {
    var z := CalculatePositionSize(equity, riskPct, entry, stop, spec).size;
    var down := RoundDown(z.requestedLots, spec.volumeStep);
    RoundDownNear(z.requestedLots, spec.volumeStep);
    DivMul(z.monetaryRisk, z.lossPerLot);
    MulMono(0.0, riskPct / 100.0, equity);
    if z.lots == 0.0 {
    } else {
      MulMono(z.lots, z.requestedLots, z.lossPerLot);
    }
    MulStrict(z.requestedLots, down + spec.volumeStep, z.lossPerLot);
  }

  /** How far the stop is from the entry, on either side of it. */
  function Distance(entry: real, stop: real): real {
    if stop < entry then entry - stop else stop - entry
  }

  lemma SameSign(x: real, k: real)
    requires k > 0.0
    ensures x * k > 0.0 <==> x > 0.0
  {
    if x > 0.0 {
      MulStrict(0.0, x, k);
    } else {
      MulMono(x, 0.0, k);
    }
  }

  /** The loss of one lot at the stop, multiplied out. */
  lemma LossMultiplied(entry: real, stop: real, spec: SymbolSpec)
    requires spec.tickSize > 0.0
    ensures LossPerLot(entry, stop, spec) * spec.tickSize == Distance(entry, stop) * spec.tickValue
    ensures LossPerLot(entry, stop, spec) > 0.0 <==> Distance(entry, stop) * spec.tickValue > 0.0
  {
    var q := Abs(entry - stop) / spec.tickSize;
    assert q * spec.tickSize == Distance(entry, stop);
    var loss := LossPerLot(entry, stop, spec);
    assert loss == q * spec.tickValue;
    assert loss * spec.tickSize == q * spec.tickSize * spec.tickValue;
    SameSign(loss, spec.tickSize);
  }

  /** A size exists exactly for positive equity, a stop away from the entry and a usable symbol,
      whichever side the stop is on; the error names the first of these that fails. */
  lemma SizedExactly(equity: real, riskPct: real, entry: real, stop: real, spec: SymbolSpec)
    ensures var r := CalculatePositionSize(equity, riskPct, entry, stop, spec);
            && (r.Sized? <==>
                equity > 0.0 && entry != stop && spec.tickSize > 0.0 && spec.volumeStep > 0.0 && spec.tickValue > 0.0)
            && (r == SizingFailed(NON_POSITIVE_EQUITY) <==> equity <= 0.0)
            && (r == SizingFailed(ZERO_STOP_DISTANCE) <==> equity > 0.0 && entry == stop)
            && (r == SizingFailed(INVALID_SPEC) <==>
                equity > 0.0 && entry != stop && (spec.tickSize <= 0.0 || spec.volumeStep <= 0.0))
  {
    if equity > 0.0 && entry != stop && spec.tickSize > 0.0 && spec.volumeStep > 0.0 {
      LossMultiplied(entry, stop, spec);
      var distance := Distance(entry, stop);
      assert distance > 0.0;
      SameSign(spec.tickValue, distance);
      hide LossPerLot, Distance;
    }
  }

  /** A stop above the entry is sized like its mirror image below. */
  lemma SizeMirrors(equity: real, riskPct: real, entry: real, stop: real, spec: SymbolSpec, c: real)
    ensures CalculatePositionSize(equity, riskPct, c - entry, c - stop, spec)
            == CalculatePositionSize(equity, riskPct, entry, stop, spec)
  {
    if spec.tickSize > 0.0 {
      assert Abs((c - entry) - (c - stop)) == Abs(entry - stop);
      assert LossPerLot(c - entry, c - stop, spec) == LossPerLot(entry, stop, spec);
      hide LossPerLot;
    }
  }

  lemma Rescaled(lots: real, loss: real, tickSize: real, distance: real, tickValue: real)
    requires loss * tickSize == distance * tickValue
    ensures lots * loss * tickSize == lots * distance * tickValue
  {
    assert lots * loss * tickSize == lots * (loss * tickSize);
    assert lots * distance * tickValue == lots * (distance * tickValue);
  }

  /** MAIN RESULT. What the lots lose between entry and stop never exceeds the configured share of
      equity, for a stop on either side; the lots are whole steps, none, or the maximum, and a size
      that was not clamped is the largest: one more step would lose more. */
  lemma RiskIsBounded(equity: real, riskPct: real, entry: real, stop: real, spec: SymbolSpec)
    requires riskPct >= 0.0 && spec.volumeMin >= 0.0
    requires CalculatePositionSize(equity, riskPct, entry, stop, spec).Sized?
    ensures var z := CalculatePositionSize(equity, riskPct, entry, stop, spec).size;
            var distance, share := Distance(entry, stop), equity * (riskPct / 100.0);
            && z.lots * distance * spec.tickValue <= share * spec.tickSize
            && (!z.clamped ==> (z.lots + spec.volumeStep) * distance * spec.tickValue > share * spec.tickSize)
            && (!z.clamped ==> exists k :: WholeSteps(z.lots, spec.volumeStep, k))
            && (z.clamped ==> z.lots == 0.0 || z.lots == spec.volumeMax)
  {
    var z := CalculatePositionSize(equity, riskPct, entry, stop, spec).size;
    var loss, distance := LossPerLot(entry, stop, spec), Distance(entry, stop);
    NeverRisksMore(equity, riskPct, entry, stop, spec);
    LossMultiplied(entry, stop, spec);
    Rescaled(z.lots, loss, spec.tickSize, distance, spec.tickValue);
    Rescaled(z.lots + spec.volumeStep, loss, spec.tickSize, distance, spec.tickValue);
    MulMono(z.lots * loss, z.monetaryRisk, spec.tickSize);
    if !z.clamped {
      MulStrict(z.monetaryRisk, (z.lots + spec.volumeStep) * loss, spec.tickSize);
      assert WholeSteps(z.lots, spec.volumeStep, (z.requestedLots / spec.volumeStep).Floor);
    }
  }

  lemma TradableIsFloor(requested: real, spec: SymbolSpec)
    requires spec.volumeStep > 0.0
    ensures RoundDown(requested, spec.volumeStep) == (requested / spec.volumeStep).Floor as real * spec.volumeStep
  {
  }

  predicate Affordable(k: int, risk: real, entry: real, stop: real, spec: SymbolSpec)
    requires spec.tickSize > 0.0
  {
    var lots := k as real * spec.volumeStep;
    lots >= spec.volumeMin && lots * LossPerLot(entry, stop, spec) <= risk
  }

  lemma FloorIsAffordable(k: int, requested: real, risk: real, entry: real, stop: real, spec: SymbolSpec)
    requires spec.tickSize > 0.0 && spec.volumeStep > 0.0 && k == (requested / spec.volumeStep).Floor
    requires LossPerLot(entry, stop, spec) > 0.0 && requested * LossPerLot(entry, stop, spec) == risk
    requires RoundDown(requested, spec.volumeStep) >= spec.volumeMin
    ensures Affordable(k, risk, entry, stop, spec)
  {
    hide LossPerLot;
    RoundDownNear(requested, spec.volumeStep);
    MulMono(k as real * spec.volumeStep, requested, LossPerLot(entry, stop, spec));
  }

  lemma AtMostRequested(lots: real, requested: real, risk: real, loss: real)
    requires loss > 0.0 && lots * loss <= risk && requested * loss == risk
    ensures lots <= requested
  {
    if lots > requested {
      MulStrict(requested, lots, loss);
    }
  }

  lemma AtMostFloor(k: int, raw: real, step: real)
    requires step > 0.0 && k as real * step <= raw
    ensures k <= (raw / step).Floor
  {
    var q := raw / step;
    DivMul(raw, step);
    if k as real > q {
      MulStrict(q, k as real, step);
    }
  }

  lemma AffordableIsBelowFloor(k: int, requested: real, risk: real, entry: real, stop: real, spec: SymbolSpec)
    requires spec.tickSize > 0.0 && spec.volumeStep > 0.0 && Affordable(k, risk, entry, stop, spec)
    requires LossPerLot(entry, stop, spec) > 0.0 && requested * LossPerLot(entry, stop, spec) == risk
    ensures RoundDown(requested, spec.volumeStep) >= spec.volumeMin
  {
    hide LossPerLot;
    AtMostRequested(k as real * spec.volumeStep, requested, risk, LossPerLot(entry, stop, spec));
    AtMostFloor(k, requested, spec.volumeStep);
    MulMono(k as real, (requested / spec.volumeStep).Floor as real, spec.volumeStep);
  }

  ghost predicate SomeAffordable(risk: real, entry: real, stop: real, spec: SymbolSpec)
    requires spec.tickSize > 0.0
  {
    exists k :: Affordable(k, risk, entry, stop, spec)
  }

  /** The size is tradable exactly when some whole number of steps reaches the minimum volume and
      loses no more at the stop than the configured risk. */
  lemma TradableIffAffordable(equity: real, riskPct: real, entry: real, stop: real, spec: SymbolSpec)
    requires 0.0 < spec.volumeMin <= spec.volumeMax
    requires CalculatePositionSize(equity, riskPct, entry, stop, spec).Sized?
    ensures CalculatePositionSize(equity, riskPct, entry, stop, spec).size.Tradable() <==>
            SomeAffordable(equity * (riskPct / 100.0), entry, stop, spec)
  {
    hide LossPerLot, RoundDown, Affordable;
    var z := CalculatePositionSize(equity, riskPct, entry, stop, spec).size;
    var most := (z.requestedLots / spec.volumeStep).Floor;
    var risk := equity * (riskPct / 100.0);
    TradableIsFloor(z.requestedLots, spec);
    DivMul(risk, z.lossPerLot);
    if z.Tradable() {
      FloorIsAffordable(most, z.requestedLots, risk, entry, stop, spec);
    }
    forall k | Affordable(k, risk, entry, stop, spec)
      ensures RoundDown(z.requestedLots, spec.volumeStep) >= spec.volumeMin
    {
      AffordableIsBelowFloor(k, z.requestedLots, risk, entry, stop, spec);
    }
  }

  const GRID_TOLERANCE := 0.00000001

  /** The broker's own step check counts steps from the minimum volume. */
  predicate OnBrokerGrid(volume: real, spec: SymbolSpec)
    requires spec.volumeStep > 0.0
  {
    var steps := Round((volume - spec.volumeMin) / spec.volumeStep);
    var aligned := spec.volumeMin + steps as real * spec.volumeStep;
    spec.volumeMin <= volume <= spec.volumeMax && Abs(aligned - volume) <= GRID_TOLERANCE
  }

  /** Every tradable size is inside the broker's range. It passes the step check of both gates
      unless it was capped at a maximum volume that fails that check itself. */
  lemma TradablePassesGates(equity: real, riskPct: real, entry: real, stop: real, spec: SymbolSpec)
    requires 0.0 < spec.volumeMin <= spec.volumeMax
    requires CalculatePositionSize(equity, riskPct, entry, stop, spec).Sized?
    requires CalculatePositionSize(equity, riskPct, entry, stop, spec).size.Tradable()
    ensures var z := CalculatePositionSize(equity, riskPct, entry, stop, spec).size;
            && spec.volumeMin <= z.lots <= spec.volumeMax
            && (Gates.MatchesStep(z.lots, spec.volumeStep)
                <==> (z.clamped ==> Gates.MatchesStep(spec.volumeMax, spec.volumeStep)))
  {
    var k := TradableShape(equity, riskPct, entry, stop, spec);
    var z := CalculatePositionSize(equity, riskPct, entry, stop, spec).size;
    if !z.clamped {
      WholeStepsMatch(z.lots, spec.volumeStep, k);
    }
  }

  /** How far an amount is from the nearest whole number of steps. */
  function GridError(x: real, step: real): real
    requires step > 0.0
  {
    Abs(x / step - Round(x / step) as real) * step
  }

  /** The distance to the nearest integer depends on the fraction only, and not on its direction. */
  lemma RoundDistance(x: real)
    ensures var rest := x - x.Floor as real;
            Abs(x - Round(x) as real) == Min(rest, 1.0 - rest)
  {
  }

  lemma MirroredFraction(m: real, k: int)
    ensures Abs((k as real - m) - Round(k as real - m) as real) == Abs(m - Round(m) as real)
  {
    var x := k as real - m;
    var rest := m - m.Floor as real;
    RoundDistance(m);
    RoundDistance(x);
    if rest == 0.0 {
      assert x == (k - m.Floor) as real;
      assert x.Floor == k - m.Floor;
    } else {
      assert x == (k - m.Floor - 1) as real + (1.0 - rest);
      assert x.Floor == k - m.Floor - 1;
    }
  }

  lemma AbsTimes(x: real, step: real)
    requires step > 0.0
    ensures Abs(x * step) == Abs(x) * step
  {
    if x < 0.0 {
      MulStrict(x, 0.0, step);
    } else {
      MulMono(0.0, x, step);
    }
  }

  /** The broker's check in terms of the distance to its grid. */
  lemma GridCheck(volume: real, spec: SymbolSpec)
    requires spec.volumeStep > 0.0
    ensures OnBrokerGrid(volume, spec) <==>
            spec.volumeMin <= volume <= spec.volumeMax
            && GridError(volume - spec.volumeMin, spec.volumeStep) <= GRID_TOLERANCE
  {
    var step, q := spec.volumeStep, (volume - spec.volumeMin) / spec.volumeStep;
    var n := Round(q) as real;
    DivMul(volume - spec.volumeMin, step);
    DistributeDifference(q, n, step);
    assert volume - (spec.volumeMin + n * step) == (q - n) * step;
    AbsTimes(q - n, step);
    assert Abs((q - n) * step) == Abs(spec.volumeMin + n * step - volume);
  }

  /** Seen from a whole number of steps, the minimum is as far off the grid as from zero. */
  lemma WholeStepsGridError(volume: real, spec: SymbolSpec, k: int)
    requires spec.volumeStep > 0.0 && WholeSteps(volume, spec.volumeStep, k)
    ensures GridError(volume - spec.volumeMin, spec.volumeStep) == GridError(spec.volumeMin, spec.volumeStep)
  {
    var step := spec.volumeStep;
    var m := spec.volumeMin / step;
    DivMul(spec.volumeMin, step);
    DistributeDifference(k as real, m, step);
    QuotientOfMultiple(k as real - m, step);
    assert (volume - spec.volumeMin) / step == k as real - m;
    MirroredFraction(m, k);
  }

  /** RESULT. The broker's own grid check, anchored at the minimum volume instead of at zero,
      accepts a tradable size exactly when the minimum itself lies on the step grid up to the
      broker's tolerance; a size capped at the maximum, when the distance of the two limits does. */
  lemma BrokerAcceptsExactly(equity: real, riskPct: real, entry: real, stop: real, spec: SymbolSpec)
    requires 0.0 < spec.volumeMin <= spec.volumeMax
    requires CalculatePositionSize(equity, riskPct, entry, stop, spec).Sized?
    requires CalculatePositionSize(equity, riskPct, entry, stop, spec).size.Tradable()
    ensures var z := CalculatePositionSize(equity, riskPct, entry, stop, spec).size;
            OnBrokerGrid(z.lots, spec) <==>
            GridError(if z.clamped then spec.volumeMax - spec.volumeMin else spec.volumeMin, spec.volumeStep)
            <= GRID_TOLERANCE
  {
    hide GridError, OnBrokerGrid;
    var k := TradableShape(equity, riskPct, entry, stop, spec);
    var z := CalculatePositionSize(equity, riskPct, entry, stop, spec).size;
    GridCheck(z.lots, spec);
    if !z.clamped {
      WholeStepsGridError(z.lots, spec, k);
    }
  }

  lemma WholeStepsOnGrid(x: real, step: real, k: int)
    requires step > 0.0 && WholeSteps(x, step, k)
    ensures GridError(x, step) == 0.0
  {
    WholeStepsQuotient(x, step, k);
    RoundOfInt(k);
  }

  /** In particular, when the volume limits are whole numbers of steps, the two gates and the
      broker accept every tradable size. */
  lemma TradablePassesBroker(
      equity: real, riskPct: real, entry: real, stop: real, spec: SymbolSpec, kMin: int, kMax: int)
    requires 0.0 < spec.volumeMin <= spec.volumeMax && spec.volumeStep > 0.0
    requires WholeSteps(spec.volumeMin, spec.volumeStep, kMin) && WholeSteps(spec.volumeMax, spec.volumeStep, kMax)
    requires CalculatePositionSize(equity, riskPct, entry, stop, spec).Sized?
    requires CalculatePositionSize(equity, riskPct, entry, stop, spec).size.Tradable()
    ensures var z := CalculatePositionSize(equity, riskPct, entry, stop, spec).size;
            Gates.MatchesStep(z.lots, spec.volumeStep) && OnBrokerGrid(z.lots, spec)
  {
    hide OnBrokerGrid, GridError;
    TradablePassesGates(equity, riskPct, entry, stop, spec);
    WholeStepsMatch(spec.volumeMax, spec.volumeStep, kMax);
    BrokerAcceptsExactly(equity, riskPct, entry, stop, spec);
    WholeStepsOnGrid(spec.volumeMin, spec.volumeStep, kMin);
    WholeStepsDifference(spec.volumeMax, spec.volumeMin, spec.volumeStep, kMax, kMin);
    WholeStepsOnGrid(spec.volumeMax - spec.volumeMin, spec.volumeStep, kMax - kMin);
  }

  lemma RoundDownOfTenth()
    ensures RoundDown(0.1, 0.01) == 0.1
  {
    QuotientOfMultiple(10.0, 0.01);
    assert (10.0 as real).Floor == 10;
  }

  lemma HalfStepOffGrid()
    ensures Round((0.1 - 0.015) / 0.01) == 8
  {
    QuotientOfMultiple(8.5, 0.01);
    assert (8.5 as real).Floor == 8;
  }

  /** So the checks can disagree: a minimum half a step off the grid makes the broker refuse a size
      that both gates accept. */
  lemma OffGridMinimumIsRefused()
    ensures var spec := SymbolSpec(0.015, 50.0, 0.01, 0.01, 1.0);
            var r := CalculatePositionSize(10000.0, 1.0, 2000.0, 1990.0, spec);
            && r.Sized? && r.size.Tradable() && !r.size.clamped
            && Gates.MatchesStep(r.size.lots, spec.volumeStep) && !OnBrokerGrid(r.size.lots, spec)
  {
    var spec := SymbolSpec(0.015, 50.0, 0.01, 0.01, 1.0);
    var z := CalculatePositionSize(10000.0, 1.0, 2000.0, 1990.0, spec).size;
    assert Abs(2000.0 - 1990.0) == 10.0;
    assert z.lossPerLot == 1000.0 && z.monetaryRisk == 100.0;
    DivMul(z.monetaryRisk, z.lossPerLot);
    assert z.requestedLots == 0.1;
    RoundDownOfTenth();
    WholeStepsMatch(0.1, spec.volumeStep, 10);
    HalfStepOffGrid();
  }
}
