/** Managing one open position, on values: what the monitor decides (app/positions/monitor.py) and
    what the trading loop does with each of the three kinds of broker reply
    (app/runtime/loop.py). LIVE mode: the broker's position changes only through these calls. */
module PositionModel {
  import opened Common

  datatype Kind = MOVE_TO_BREAKEVEN | TRAIL_STOP | PARTIAL_EXIT | FULL_EXIT

  datatype Position = Position(
    ticket: int, direction: Direction, volume: real, priceOpen: real,
    stopLoss: Option<real>, takeProfit: Option<real>)

  datatype PendingAction = PendingAction(kind: Kind, requestedStop: Option<real>, requestedVolume: Option<real>)

  datatype MonitorRecord = MonitorRecord(
    ticket: int, initialVolume: Option<real>, breakevenApplied: bool, partialExitTaken: bool,
    partialExitVolume: Option<real>, lastConfirmedStop: Option<real>, lastTrailingStop: Option<real>,
    pending: Option<PendingAction>, closed: bool)

  datatype Config = Config(
    breakevenTriggerR: real, breakevenBufferTicks: real,
    enableTrailing: bool, trailingTriggerR: real, trailingAtrMultiplier: real,
    enablePartialExit: bool, partialExitTriggerR: real, partialExitFraction: real)

  datatype Tick = Tick(bid: real, ask: real)

  datatype Action = Action(kind: Kind, newStop: Option<real>, partialVolume: Option<real>)

  function BlankRecord(ticket: int): MonitorRecord {
    MonitorRecord(ticket, None, false, false, None, None, None, None, false)
  }

  function FirstRecord(p: Position): MonitorRecord {
    BlankRecord(p.ticket).(initialVolume := Some(p.volume), lastConfirmedStop := p.stopLoss)
  }

  // ----- decisions -------------------------------------------------------------------------

  /** The price at which the position could be closed now. */
  function ClosePrice(p: Position, tick: Tick): real {
    if p.direction.Buy? then tick.bid else tick.ask
  }

  /** Profit in units of the distance to the stop; undefined without a stop or at zero distance. */
  function RMultiple(p: Position, tick: Tick, tickSize: real): Option<real>
    requires tickSize > 0.0
  {
    if p.stopLoss.None? then None
    else
      var ticks := Gain(p.direction, p.priceOpen, ClosePrice(p, tick)) / tickSize;
      var risk := Abs(p.priceOpen - p.stopLoss.value) / tickSize;
      if risk == 0.0 then None else Some(ticks / risk)
  }

  /** A stop strictly closer to the market than the present one, or the first one. */
  predicate Improves(d: Direction, present: Option<real>, stop: real) {
    present.None? || (if d.Buy? then stop > present.value else stop < present.value)
  }

  function BreakevenStop(cfg: Config, p: Position, tickSize: real): real {
    var buffer := cfg.breakevenBufferTicks * tickSize;
    if p.direction.Buy? then p.priceOpen + buffer else p.priceOpen - buffer
  }

  function TrailingStop(cfg: Config, p: Position, tick: Tick, atr: real): real {
    var distance := atr * cfg.trailingAtrMultiplier;
    if p.direction.Buy? then ClosePrice(p, tick) - distance else ClosePrice(p, tick) + distance
  }

  /** The fraction is of the volume first seen, capped by what is left. */
  function PartialVolume(cfg: Config, p: Position, record: MonitorRecord): real {
    var basis := if record.initialVolume.Some? then record.initialVolume.value else p.volume;
    Min(basis * cfg.partialExitFraction, p.volume)
  }

  function Breakeven(cfg: Config, p: Position, tickSize: real, r: real, breakevenMoved: bool): seq<Action> {
    var stop := BreakevenStop(cfg, p, tickSize);
    if !breakevenMoved && r >= cfg.breakevenTriggerR && Improves(p.direction, p.stopLoss, stop)
    then [Action(MOVE_TO_BREAKEVEN, Some(stop), None)] else []
  }

  function Partial(cfg: Config, p: Position, r: real, record: MonitorRecord, partialTaken: bool): seq<Action> {
    var volume := PartialVolume(cfg, p, record);
    if cfg.enablePartialExit && !partialTaken && r >= cfg.partialExitTriggerR && 0.0 < volume < p.volume
    then [Action(PARTIAL_EXIT, None, Some(volume))] else []
  }

  function Trail(
      cfg: Config, p: Position, tick: Tick, tickSize: real, r: real, atr: Option<real>,
      record: MonitorRecord): seq<Action>
  {
    if !cfg.enableTrailing || atr.None? || atr.value <= 0.0 || r < cfg.trailingTriggerR then []
    else
      var stop := TrailingStop(cfg, p, tick, atr.value);
      var settled := record.lastTrailingStop.Some? && Abs(stop - record.lastTrailingStop.value) < tickSize / 2.0;
      if Improves(p.direction, p.stopLoss, stop) && !settled then [Action(TRAIL_STOP, Some(stop), None)] else []
  }

  /** The actions proposed for a position, in the order in which they are to be applied. */
  function Evaluate(
      cfg: Config, p: Position, tick: Tick, tickSize: real, atr: Option<real>,
      record: MonitorRecord, breakevenMoved: bool, partialTaken: bool): seq<Action>
    requires tickSize > 0.0
  {
    var r := RMultiple(p, tick, tickSize);
    if record.pending.Some? || r.None? then []
    else
      Breakeven(cfg, p, tickSize, r.value, breakevenMoved)
      + Partial(cfg, p, r.value, record, partialTaken)
      + Trail(cfg, p, tick, tickSize, r.value, atr, record)
  }

  // ----- one ticket ------------------------------------------------------------------------

  /** What the broker really did, known to the reader but not to the program: how many breakeven
      moves and partial exits it applied, and whether the action recorded as pending happened. */
  datatype Truth = Truth(breakevens: nat, partials: nat, pendingHappened: bool)

  const NOTHING_YET := Truth(0, 0, false)

  /** Everything about one ticket: its position at the broker, its persisted record, its
      membership in the monitor's two in-memory sets, and the truth. */
  datatype Slot = Slot(
    broker: Option<Position>, record: Option<MonitorRecord>, breakevenMoved: bool, partialTaken: bool, truth: Truth)
  {
    predicate HasPending() {
      record.Some? && record.value.pending.Some?
    }

    predicate Closed() {
      record.Some? && record.value.closed
    }
  }

  /** A reply is definite, or it is lost and says nothing of what happened. */
  datatype Reply = Done | Refused | Lost(happened: bool) {
    predicate Happened() {
      Done? || (Lost? && happened)
    }
  }

  function RecordOf(s: Slot, ticket: int): MonitorRecord {
    if s.record.Some? then s.record.value else BlankRecord(ticket)
  }

  function MarkBreakeven(s: Slot, ticket: int, stop: Option<real>): Slot {
    var r := RecordOf(s, ticket);
    var confirmed := if stop.Some? then stop else r.lastConfirmedStop;
    s.(breakevenMoved := true,
       record := Some(r.(breakevenApplied := true, lastConfirmedStop := confirmed, pending := None)))
  }

  function MarkTrailing(s: Slot, ticket: int, stop: real): Slot {
    s.(record := Some(RecordOf(s, ticket).(
         lastTrailingStop := Some(stop), lastConfirmedStop := Some(stop), pending := None)))
  }

  function MarkPartial(s: Slot, ticket: int, volume: Option<real>): Slot {
    var r := RecordOf(s, ticket);
    var before := if r.partialExitVolume.Some? then r.partialExitVolume.value else 0.0;
    var total := if volume.Some? then Some(before + volume.value) else r.partialExitVolume;
    s.(partialTaken := true,
       record := Some(r.(partialExitTaken := true, partialExitVolume := total, pending := None)))
  }

  function RecordPending(
      s: Slot, ticket: int, kind: Kind, stop: Option<real>, volume: Option<real>, happened: bool): Slot
  {
    s.(record := Some(RecordOf(s, ticket).(pending := Some(PendingAction(kind, stop, volume)))),
       truth := s.truth.(pendingHappened := happened))
  }

  function ClearPending(s: Slot): Slot {
    if s.HasPending() then s.(record := Some(s.record.value.(pending := None))) else s
  }

  function Forget(s: Slot): Slot {
    var record := if s.record.Some? then Some(s.record.value.(closed := true, pending := None)) else None;
    s.(breakevenMoved := false, partialTaken := false, record := record)
  }

  /** A new monitor over the same store: the sets are rebuilt from records not yet closed. */
  function Restart(s: Slot): Slot {
    var live := s.record.Some? && !s.record.value.closed;
    s.(breakevenMoved := live && s.record.value.breakevenApplied,
       partialTaken := live && s.record.value.partialExitTaken)
  }

  // ----- what the broker does --------------------------------------------------------------

  function BrokerModify(s: Slot, kind: Kind, stop: Option<real>, target: Option<real>): Slot {
    if s.broker.None? then s
    else
      var b := s.broker.value;
      var count := s.truth.breakevens + if kind == MOVE_TO_BREAKEVEN then 1 else 0;
      s.(broker := Some(b.(
           stopLoss := if stop.Some? then stop else b.stopLoss,
           takeProfit := if target.Some? then target else b.takeProfit)),
         truth := s.truth.(breakevens := count))
  }

  function BrokerReduce(s: Slot, volume: real): Slot {
    if s.broker.None? then s
    else
      s.(broker := Some(s.broker.value.(volume := s.broker.value.volume - volume)),
         truth := s.truth.(partials := s.truth.partials + 1))
  }

  function BrokerClose(s: Slot): Slot {
    s.(broker := None)
  }

  // ----- the loop's three-way handling of replies ------------------------------------------

  function ApplyModify(s: Slot, p: Position, a: Action, reply: Reply): Slot
    requires a.newStop.Some?
  {
    var s' := if reply.Happened() then BrokerModify(s, a.kind, a.newStop, p.takeProfit) else s;
    match reply
    case Lost(happened) => RecordPending(s', p.ticket, a.kind, a.newStop, None, happened)
    case Refused => s'
    case Done =>
      if a.kind == MOVE_TO_BREAKEVEN then MarkBreakeven(s', p.ticket, a.newStop)
      else MarkTrailing(s', p.ticket, a.newStop.value)
  }

  function ApplyPartial(s: Slot, p: Position, a: Action, reply: Reply): Slot
    requires a.partialVolume.Some?
  {
    var s' := if reply.Happened() then BrokerReduce(s, a.partialVolume.value) else s;
    match reply
    case Lost(happened) => RecordPending(s', p.ticket, PARTIAL_EXIT, None, a.partialVolume, happened)
    case Refused => s'
    case Done => MarkPartial(s', p.ticket, a.partialVolume)
  }

  function CloseAndJournal(s: Slot, p: Position, reply: Reply): Slot {
    var s' := if reply.Happened() then BrokerClose(s) else s;
    match reply
    case Lost(happened) => RecordPending(s', p.ticket, FULL_EXIT, None, None, happened)
    case Refused => s'
    case Done => Forget(s')
  }

  datatype Replies = Replies(breakeven: Reply, partial: Reply, trail: Reply, close: Reply)

  predicate WellFormed(a: Action) {
    match a.kind
    case MOVE_TO_BREAKEVEN => a.newStop.Some?
    case TRAIL_STOP => a.newStop.Some?
    case PARTIAL_EXIT => a.partialVolume.Some?
    case FULL_EXIT => true
  }

  function ApplyAction(s: Slot, p: Position, a: Action, r: Replies): Slot
    requires WellFormed(a)
  {
    match a.kind
    case MOVE_TO_BREAKEVEN => ApplyModify(s, p, a, r.breakeven)
    case TRAIL_STOP => ApplyModify(s, p, a, r.trail)
    case PARTIAL_EXIT => ApplyPartial(s, p, a, r.partial)
    case FULL_EXIT => CloseAndJournal(s, p, r.close)
  }

  /** Applies the actions in order, and stops as soon as one of them is left pending. */
  function ApplyAll(s: Slot, p: Position, actions: seq<Action>, r: Replies): Slot
    requires forall a :: a in actions ==> WellFormed(a)
    decreases |actions|
  {
    if actions == [] then s
    else
      var s' := ApplyAction(s, p, actions[0], r);
      if s'.HasPending() then s' else ApplyAll(s', p, actions[1..], r)
  }

  predicate HitsStop(p: Position, tick: Tick) {
    p.stopLoss.Some? && Gain(p.direction, p.stopLoss.value, ClosePrice(p, tick)) <= 0.0
  }

  predicate HitsTarget(p: Position, tick: Tick) {
    p.takeProfit.Some? && Gain(p.direction, p.takeProfit.value, ClosePrice(p, tick)) >= 0.0
  }

  lemma ActionsWellFormed(
      cfg: Config, p: Position, tick: Tick, tickSize: real, atr: Option<real>,
      record: MonitorRecord, breakevenMoved: bool, partialTaken: bool)
    requires tickSize > 0.0
    ensures forall a :: a in Evaluate(cfg, p, tick, tickSize, atr, record, breakevenMoved, partialTaken) ==>
            WellFormed(a)
  {
  }

  /** The slot once the monitor has a record for the ticket. */
  function Tracked(s: Slot, p: Position): Slot {
    if s.record.Some? then s else s.(record := Some(FirstRecord(p)))
  }

  /** One management pass over one listed position. */
  function Manage(cfg: Config, tickSize: real, s: Slot, p: Position, tick: Tick, killSwitch: bool, r: Replies): Slot
    requires tickSize > 0.0
  {
    if s.HasPending() then s
    else
      var t := Tracked(s, p);
      var actions := Evaluate(cfg, p, tick, tickSize, None, t.record.value, t.breakevenMoved, t.partialTaken);
      ActionsWellFormed(cfg, p, tick, tickSize, None, t.record.value, t.breakevenMoved, t.partialTaken);
      var s' := ApplyAll(t, p, actions, r);
      if s'.HasPending() then s'
      else if HitsStop(p, tick) || (!killSwitch && HitsTarget(p, tick)) then CloseAndJournal(s', p, r.close)
      else s'
  }
}
