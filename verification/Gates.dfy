/** The two order gates, written separately in the source and checked one after the other:
    app/safety/gate.py (before submission) and app/execution/execution_safety_gate.py
    (inside submission). Each fills a table of named checks and a list of reasons;
    a reason is modelled by the check it explains. */
module Gates {
  import opened CheckTable
  import opened Common

  datatype NewsState = CLEAR | BLOCKED | UNAVAILABLE | NEWS_UNKNOWN

  datatype Check =
    | NotDuplicate | KillSwitchOk | AccountTradeAllowed | SymbolTradeAllowed | MarketDataFresh
    | NewsClear | DailyLossWithinLimit | SpreadWithinLimit | PositionLimitOk
    | DirectionValid | StopLossPresent | StopLossDirectionValid | StopDistanceMeetsMinimum
    | TakeProfitDirectionValid | VolumeWithinLimits | VolumeMatchesStep | VolumePositive

  datatype GateResult = GateResult(approved: bool, table: Table<Check>)

  /** The table holds these checks, the reasons are the failed ones in order, and approval means that
      there are none. */
  ghost predicate Justified(r: GateResult, checks: seq<(Check, bool)>) {
    && r.table.checks == checks && r.table.reasons == Failed(checks)
    && (r.approved <==> Failed(checks) == [])
  }

  lemma TableJustifies(t: Table<Check>)
    requires t.Explained()
    ensures Justified(GateResult(t.AllHold(), t), t.checks)
  {
    ReasonsAreFailures(t.checks);
  }

  // ----- what both gates check --------------------------------------------------------------

  /** No kill switch, permission to trade, and fresh data. */
  predicate Permitted(killSwitch: bool, account: bool, symbol: bool, current: bool) {
    !killSwitch && account && symbol && current
  }

  function PermissionChecks(killSwitch: bool, account: bool, symbol: bool, current: bool): seq<(Check, bool)> {
    [ (KillSwitchOk, !killSwitch),
      (AccountTradeAllowed, account),
      (SymbolTradeAllowed, symbol),
      (MarketDataFresh, current)]
  }

  method NotePermissions(t: Table<Check>, killSwitch: bool, account: bool, symbol: bool, current: bool)
    returns (t': Table<Check>)
    requires t.Explained()
    ensures t'.Explained() && t'.checks == t.checks + PermissionChecks(killSwitch, account, symbol, current)
    ensures t'.AllHold() <==> t.AllHold() && Permitted(killSwitch, account, symbol, current)
  {
    hide Table.Explained, Table.AllHold;
    t' := Note(t, KillSwitchOk, !killSwitch);
    t' := Note(t', AccountTradeAllowed, account);
    t' := Note(t', SymbolTradeAllowed, symbol);
    t' := Note(t', MarketDataFresh, current);
  }

  const STEP_TOLERANCE := 0.000001

  /** Both gates accept a volume that is a whole number of steps, up to a tolerance. */
  predicate MatchesStep(volume: real, step: real) {
    step > 0.0 && Abs(volume / step - Round(volume / step) as real) < STEP_TOLERANCE
  }

  predicate VolumeOk(volume: real, min: real, max: real, step: real) {
    min <= volume <= max && MatchesStep(volume, step) && volume > 0.0
  }

  function VolumeChecks(volume: real, min: real, max: real, step: real): seq<(Check, bool)> {
    [ (VolumeWithinLimits, min <= volume <= max),
      (VolumeMatchesStep, MatchesStep(volume, step)),
      (VolumePositive, volume > 0.0)]
  }

  method NoteVolume(t: Table<Check>, volume: real, min: real, max: real, step: real) returns (t': Table<Check>)
    requires t.Explained()
    ensures t'.Explained() && t'.checks == t.checks + VolumeChecks(volume, min, max, step)
    ensures t'.AllHold() <==> t.AllHold() && VolumeOk(volume, min, max, step)
  {
    hide Table.Explained, Table.AllHold, MatchesStep;
    t' := Note(t, VolumeWithinLimits, min <= volume <= max);
    t' := Note(t', VolumeMatchesStep, MatchesStep(volume, step));
    t' := Note(t', VolumePositive, volume > 0.0);
  }

  // ----- the gate inside submission ---------------------------------------------------------

  datatype ExecutionGateInput = ExecutionGateInput(
    isDuplicate: bool, killSwitchActive: bool, accountTradeAllowed: bool, symbolTradeAllowed: bool,
    direction: string, volume: real, volumeMin: real, volumeMax: real, volumeStep: real,
    stopLoss: Option<real>, marketDataFresh: bool)

  /** What an order must satisfy to pass the gate inside submission. */
  predicate Submittable(d: ExecutionGateInput) {
    && !d.isDuplicate
    && Permitted(d.killSwitchActive, d.accountTradeAllowed, d.symbolTradeAllowed, d.marketDataFresh)
    && d.direction in ["BUY", "SELL"] && d.stopLoss.Some?
    && VolumeOk(d.volume, d.volumeMin, d.volumeMax, d.volumeStep)
  }

  /** Every check of this gate with its outcome, in order. */
  function ExecutionChecks(d: ExecutionGateInput): seq<(Check, bool)> {
    [(NotDuplicate, !d.isDuplicate)]
    + PermissionChecks(d.killSwitchActive, d.accountTradeAllowed, d.symbolTradeAllowed, d.marketDataFresh)
    + [(DirectionValid, d.direction in ["BUY", "SELL"])]
    + [(StopLossPresent, d.stopLoss.Some?)]
    + VolumeChecks(d.volume, d.volumeMin, d.volumeMax, d.volumeStep)
  }

  method EvaluateExecutionGate(d: ExecutionGateInput) returns (r: GateResult)
    ensures r.approved <==> Submittable(d)
    ensures Justified(r, ExecutionChecks(d))
  {
    hide Justified, Table.Explained, Table.AllHold, PermissionChecks, VolumeChecks, Permitted, VolumeOk;
    var t := Start();
    t := Note(t, NotDuplicate, !d.isDuplicate);
    assert t.checks == [(NotDuplicate, !d.isDuplicate)];
    t := NotePermissions(t, d.killSwitchActive, d.accountTradeAllowed, d.symbolTradeAllowed, d.marketDataFresh);
    t := Note(t, DirectionValid, d.direction in ["BUY", "SELL"]);
    t := Note(t, StopLossPresent, d.stopLoss.Some?);
    t := NoteVolume(t, d.volume, d.volumeMin, d.volumeMax, d.volumeStep);
    r := GateResult(t.AllHold(), t);
    TableJustifies(t);
  }

  // ----- the independent gate before submission ---------------------------------------------

  datatype SafetyGateInput = SafetyGateInput(
    accountTradeAllowed: bool, symbolTradeAllowed: bool,
    volumeMin: real, volumeMax: real, volumeStep: real, stopsLevelPoints: int, tickSize: real,
    direction: string, volume: real, entryPrice: real, stopLoss: Option<real>, takeProfit: Option<real>,
    currentSpreadPoints: real, maxSpreadPoints: real, marketDataFresh: bool, newsState: NewsState,
    killSwitchActive: bool, dailyLossPct: real, maxDailyLossPct: real,
    openPositionsCount: int, maxOpenPositions: int)

  /** A price strictly on the far side of the entry: `away` is true for the target side. */
  predicate OnSide(direction: string, entry: real, level: real, target: bool) {
    if direction == "BUY" then (if target then level > entry else level < entry)
    else if direction == "SELL" then (if target then level < entry else level > entry)
    else false
  }

  predicate StopFarEnough(d: SafetyGateInput, stop: real) {
    d.tickSize > 0.0 && Abs(d.entryPrice - stop) / d.tickSize >= d.stopsLevelPoints as real
  }

  /** The levels that are given lie on their sides of the entry, the stop far enough away. */
  predicate LevelsOk(d: SafetyGateInput) {
    && (d.stopLoss.Some? ==>
          OnSide(d.direction, d.entryPrice, d.stopLoss.value, false) && StopFarEnough(d, d.stopLoss.value))
    && (d.takeProfit.Some? ==> OnSide(d.direction, d.entryPrice, d.takeProfit.value, true))
  }

  function LevelChecks(d: SafetyGateInput): seq<(Check, bool)> {
    (if d.stopLoss.None? then []
     else [ (StopLossDirectionValid, OnSide(d.direction, d.entryPrice, d.stopLoss.value, false)),
            (StopDistanceMeetsMinimum, StopFarEnough(d, d.stopLoss.value))])
    + (if d.takeProfit.None? then []
       else [(TakeProfitDirectionValid, OnSide(d.direction, d.entryPrice, d.takeProfit.value, true))])
  }

  method NoteLevels(t: Table<Check>, d: SafetyGateInput) returns (t': Table<Check>)
    requires t.Explained()
    ensures t'.Explained() && t'.checks == t.checks + LevelChecks(d)
    ensures t'.AllHold() <==> t.AllHold() && LevelsOk(d)
  {
    hide Table.Explained, Table.AllHold, OnSide, StopFarEnough;
    t' := t;
    if d.stopLoss.Some? {
      var stop := d.stopLoss.value;
      t' := Note(t', StopLossDirectionValid, OnSide(d.direction, d.entryPrice, stop, false));
      t' := Note(t', StopDistanceMeetsMinimum, StopFarEnough(d, stop));
    }
    if d.takeProfit.Some? {
      t' := Note(t', TakeProfitDirectionValid, OnSide(d.direction, d.entryPrice, d.takeProfit.value, true));
    }
  }

  /** What an order must satisfy to pass the independent gate before submission. */
  predicate Safe(d: SafetyGateInput) {
    && Permitted(d.killSwitchActive, d.accountTradeAllowed, d.symbolTradeAllowed, d.marketDataFresh)
    && d.newsState == CLEAR && d.dailyLossPct <= d.maxDailyLossPct
    && d.currentSpreadPoints <= d.maxSpreadPoints && d.openPositionsCount < d.maxOpenPositions
    && d.stopLoss.Some? && LevelsOk(d)
    && VolumeOk(d.volume, d.volumeMin, d.volumeMax, d.volumeStep)
  }

  /** Every check of this gate with its outcome, in order. */
  function SafetyChecks(d: SafetyGateInput): seq<(Check, bool)> {
    PermissionChecks(d.killSwitchActive, d.accountTradeAllowed, d.symbolTradeAllowed, d.marketDataFresh)
    + [(NewsClear, d.newsState == CLEAR)]
    + [(DailyLossWithinLimit, d.dailyLossPct <= d.maxDailyLossPct)]
    + [(SpreadWithinLimit, d.currentSpreadPoints <= d.maxSpreadPoints)]
    + [(PositionLimitOk, d.openPositionsCount < d.maxOpenPositions)]
    + [(StopLossPresent, d.stopLoss.Some?)]
    + LevelChecks(d)
    + VolumeChecks(d.volume, d.volumeMin, d.volumeMax, d.volumeStep)
  }

  method EvaluateSafetyGate(d: SafetyGateInput) returns (r: GateResult)
    ensures r.approved <==> Safe(d)
    ensures Justified(r, SafetyChecks(d))
  {
    hide Justified, Table.Explained, Table.AllHold, PermissionChecks, VolumeChecks, LevelChecks,
      Permitted, VolumeOk, LevelsOk;
    var t := Start();
    t := NotePermissions(t, d.killSwitchActive, d.accountTradeAllowed, d.symbolTradeAllowed, d.marketDataFresh);
    assert t.checks ==
           PermissionChecks(d.killSwitchActive, d.accountTradeAllowed, d.symbolTradeAllowed, d.marketDataFresh);
    t := Note(t, NewsClear, d.newsState == CLEAR);
    t := Note(t, DailyLossWithinLimit, d.dailyLossPct <= d.maxDailyLossPct);
    t := Note(t, SpreadWithinLimit, d.currentSpreadPoints <= d.maxSpreadPoints);
    t := Note(t, PositionLimitOk, d.openPositionsCount < d.maxOpenPositions);
    t := Note(t, StopLossPresent, d.stopLoss.Some?);
    t := NoteLevels(t, d);
    t := NoteVolume(t, d.volume, d.volumeMin, d.volumeMax, d.volumeStep);
    r := GateResult(t.AllHold(), t);
    TableJustifies(t);
  }

  /** A safe order's levels: the stop below a BUY's entry and above a SELL's, at least the broker's
      distance away, and a target that is given on the other side. */
  lemma SafePrices(d: SafetyGateInput)
    requires Safe(d)
    ensures d.direction == "BUY" || d.direction == "SELL"
    ensures d.tickSize > 0.0 && d.stopLoss.Some?
    ensures d.direction == "BUY" ==>
              && d.stopLoss.value < d.entryPrice
              && d.stopsLevelPoints as real * d.tickSize <= d.entryPrice - d.stopLoss.value
              && (d.takeProfit.Some? ==> d.entryPrice < d.takeProfit.value)
    ensures d.direction == "SELL" ==>
              && d.entryPrice < d.stopLoss.value
              && d.stopsLevelPoints as real * d.tickSize <= d.stopLoss.value - d.entryPrice
              && (d.takeProfit.Some? ==> d.takeProfit.value < d.entryPrice)
  {
    var distance := Abs(d.entryPrice - d.stopLoss.value);
    MulMono(d.stopsLevelPoints as real, distance / d.tickSize, d.tickSize);
    assert distance / d.tickSize * d.tickSize == distance;
  }

  /** Each level's rule is exact: nothing else about the levels is asked. */
  lemma LevelsExactly(d: SafetyGateInput)
    requires d.direction == "BUY" || d.direction == "SELL"
    requires d.tickSize > 0.0 && d.stopLoss.Some?
    ensures LevelsOk(d) <==>
            var up := d.direction == "BUY";
            && (if up then d.stopLoss.value < d.entryPrice else d.entryPrice < d.stopLoss.value)
            && d.stopsLevelPoints as real * d.tickSize <= (if up then 1.0 else -1.0) * (d.entryPrice - d.stopLoss.value)
            && (d.takeProfit.Some? ==>
                  if up then d.entryPrice < d.takeProfit.value else d.takeProfit.value < d.entryPrice)
  {
    var distance := Abs(d.entryPrice - d.stopLoss.value);
    var points := d.stopsLevelPoints as real;
    var ticks := distance / d.tickSize;
    assert ticks * d.tickSize == distance;
    if points <= ticks {
      MulMono(points, ticks, d.tickSize);
    } else {
      MulStrict(ticks, points, d.tickSize);
    }
  }

  /** An order that passed the first gate can still fail the second only through the facts that
      the second gate reads anew: the duplicate flag, the kill switch, the permissions and the
      freshness of the data. */
  lemma SafeIsSubmittable(s: SafetyGateInput, e: ExecutionGateInput)
    requires Safe(s)
    requires e.direction == s.direction && e.volume == s.volume && e.stopLoss == s.stopLoss
    requires e.volumeMin == s.volumeMin && e.volumeMax == s.volumeMax && e.volumeStep == s.volumeStep
    ensures Submittable(e) <==>
            !e.isDuplicate && !e.killSwitchActive && e.accountTradeAllowed && e.symbolTradeAllowed && e.marketDataFresh
  {
    assert s.direction == "BUY" || s.direction == "SELL";
  }
}
