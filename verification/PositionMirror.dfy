/** The two sides of the market: a managed SELL is a managed BUY seen in a mirror, and the hard
    exits of either side in terms of bid and ask (app/positions/monitor.py, app/runtime/loop.py). */
module PositionMirror {
  import opened Common
  import opened PositionModel
  import opened PositionSafety

  // ----- the mirror -------------------------------------------------------------------------

  /** Prices are mirrored around half of `c`. */
  function MirrorPrice(c: real, x: Option<real>): Option<real> {
    if x.Some? then Some(c - x.value) else None
  }

  /** What could be bought can now be sold. */
  function MirrorTick(c: real, t: Tick): Tick {
    Tick(c - t.ask, c - t.bid)
  }

  function MirrorPosition(c: real, p: Position): Position {
    p.(direction := p.direction.Opposite(), priceOpen := c - p.priceOpen,
       stopLoss := MirrorPrice(c, p.stopLoss), takeProfit := MirrorPrice(c, p.takeProfit))
  }

  function MirrorPending(c: real, a: Option<PendingAction>): Option<PendingAction> {
    if a.Some? then Some(a.value.(requestedStop := MirrorPrice(c, a.value.requestedStop))) else None
  }

  function MirrorRecord(c: real, r: MonitorRecord): MonitorRecord {
    r.(lastConfirmedStop := MirrorPrice(c, r.lastConfirmedStop),
       lastTrailingStop := MirrorPrice(c, r.lastTrailingStop), pending := MirrorPending(c, r.pending))
  }

  function MirrorSlot(c: real, s: Slot): Slot {
    s.(broker := if s.broker.Some? then Some(MirrorPosition(c, s.broker.value)) else None,
       record := if s.record.Some? then Some(MirrorRecord(c, s.record.value)) else None)
  }

  function MirrorAction(c: real, a: Action): Action {
    a.(newStop := MirrorPrice(c, a.newStop))
  }

  function MirrorActions(c: real, actions: seq<Action>): (r: seq<Action>)
    ensures |r| == |actions| && forall i :: 0 <= i < |r| ==> r[i] == MirrorAction(c, actions[i])
  {
    seq(|actions|, i requires 0 <= i < |actions| => MirrorAction(c, actions[i]))
  }

  function MirrorEvent(c: real, e: Event): Event {
    match e
    case Managed(tick, kill, replies) => Managed(MirrorTick(c, tick), kill, replies)
    case ChangedAtBroker(volume, stop, target) => ChangedAtBroker(volume, MirrorPrice(c, stop), MirrorPrice(c, target))
    case OperatorBreakeven(stop) => OperatorBreakeven(MirrorPrice(c, stop))
    case _ => e
  }

  function MirrorEvents(c: real, events: seq<Event>): (r: seq<Event>)
    ensures |r| == |events| && forall i :: 0 <= i < |r| ==> r[i] == MirrorEvent(c, events[i])
  {
    seq(|events|, i requires 0 <= i < |events| => MirrorEvent(c, events[i]))
  }

  // ----- the same decisions -----------------------------------------------------------------

  lemma NumbersMirror(cfg: Config, c: real, p: Position, tick: Tick, tickSize: real)
    requires tickSize > 0.0
    ensures ClosePrice(MirrorPosition(c, p), MirrorTick(c, tick)) == c - ClosePrice(p, tick)
    ensures RMultiple(MirrorPosition(c, p), MirrorTick(c, tick), tickSize) == RMultiple(p, tick, tickSize)
    ensures BreakevenStop(cfg, MirrorPosition(c, p), tickSize) == c - BreakevenStop(cfg, p, tickSize)
  {
    var q := MirrorPosition(c, p);
    assert Gain(q.direction, q.priceOpen, ClosePrice(q, MirrorTick(c, tick))) ==
      Gain(p.direction, p.priceOpen, ClosePrice(p, tick));
    if p.stopLoss.Some? {
      assert Abs(q.priceOpen - q.stopLoss.value) == Abs(p.priceOpen - p.stopLoss.value);
    }
  }

  lemma ImprovesMirrors(c: real, d: Direction, present: Option<real>, stop: real)
    ensures Improves(d.Opposite(), MirrorPrice(c, present), c - stop) <==> Improves(d, present, stop)
  {
  }

  lemma ProposalsMirror(
      cfg: Config, c: real, p: Position, tick: Tick, tickSize: real, r: real, record: MonitorRecord,
      breakevenMoved: bool, partialTaken: bool)
    requires tickSize > 0.0
    ensures Breakeven(cfg, MirrorPosition(c, p), tickSize, r, breakevenMoved)
            == MirrorActions(c, Breakeven(cfg, p, tickSize, r, breakevenMoved))
    ensures Partial(cfg, MirrorPosition(c, p), r, MirrorRecord(c, record), partialTaken)
            == MirrorActions(c, Partial(cfg, p, r, record, partialTaken))
  {
    NumbersMirror(cfg, c, p, tick, tickSize);
    ImprovesMirrors(c, p.direction, p.stopLoss, BreakevenStop(cfg, p, tickSize));
    assert PartialVolume(cfg, MirrorPosition(c, p), MirrorRecord(c, record)) == PartialVolume(cfg, p, record);
    hide RMultiple, BreakevenStop, Improves, PartialVolume;
    if Breakeven(cfg, p, tickSize, r, breakevenMoved) == [] {
      assert MirrorActions(c, []) == [];
    }
  }

  lemma TrailMirrors(
      cfg: Config, c: real, p: Position, tick: Tick, tickSize: real, r: real, atr: Option<real>, record: MonitorRecord)
    requires tickSize > 0.0
    ensures Trail(cfg, MirrorPosition(c, p), MirrorTick(c, tick), tickSize, r, atr, MirrorRecord(c, record))
            == MirrorActions(c, Trail(cfg, p, tick, tickSize, r, atr, record))
  {
    if atr.Some? {
      var stop := TrailingStop(cfg, p, tick, atr.value);
      var mirrored := TrailingStop(cfg, MirrorPosition(c, p), MirrorTick(c, tick), atr.value);
      assert mirrored == c - stop;
      ImprovesMirrors(c, p.direction, p.stopLoss, stop);
      if record.lastTrailingStop.Some? {
        var last := record.lastTrailingStop.value;
        assert Abs((c - stop) - (c - last)) == Abs(stop - last);
      }
      hide TrailingStop, Improves;
    }
  }

  lemma MirrorConcat(c: real, a: seq<Action>, b: seq<Action>)
    ensures MirrorActions(c, a + b) == MirrorActions(c, a) + MirrorActions(c, b)
  {
  }

  /** The proposals for the mirrored position are the mirrored proposals, volatility data or not. */
  lemma EvaluateMirrors(
      cfg: Config, c: real, p: Position, tick: Tick, tickSize: real, atr: Option<real>,
      record: MonitorRecord, breakevenMoved: bool, partialTaken: bool)
    requires tickSize > 0.0
    ensures Evaluate(cfg, MirrorPosition(c, p), MirrorTick(c, tick), tickSize, atr, MirrorRecord(c, record),
                     breakevenMoved, partialTaken)
            == MirrorActions(c, Evaluate(cfg, p, tick, tickSize, atr, record, breakevenMoved, partialTaken))
  {
    hide RMultiple, Breakeven, Partial, Trail, BreakevenStop, TrailingStop;
    NumbersMirror(cfg, c, p, tick, tickSize);
    var m := RMultiple(p, tick, tickSize);
    if record.pending.None? && m.Some? {
      ProposalsMirror(cfg, c, p, tick, tickSize, m.value, record, breakevenMoved, partialTaken);
      TrailMirrors(cfg, c, p, tick, tickSize, m.value, atr, record);
      var even := Breakeven(cfg, p, tickSize, m.value, breakevenMoved);
      var part := Partial(cfg, p, m.value, record, partialTaken);
      MirrorConcat(c, even + part, Trail(cfg, p, tick, tickSize, m.value, atr, record));
      MirrorConcat(c, even, part);
    }
  }

  // ----- the same effects -------------------------------------------------------------------

  lemma ModifyMirrors(c: real, s: Slot, p: Position, a: Action, reply: Reply)
    requires a.newStop.Some?
    ensures ApplyModify(MirrorSlot(c, s), MirrorPosition(c, p), MirrorAction(c, a), reply)
            == MirrorSlot(c, ApplyModify(s, p, a, reply))
  {
  }

  lemma PartialMirrors(c: real, s: Slot, p: Position, a: Action, reply: Reply)
    requires a.partialVolume.Some?
    ensures ApplyPartial(MirrorSlot(c, s), MirrorPosition(c, p), MirrorAction(c, a), reply)
            == MirrorSlot(c, ApplyPartial(s, p, a, reply))
  {
    var s1, m1 := BrokerReduce(s, a.partialVolume.value), BrokerReduce(MirrorSlot(c, s), a.partialVolume.value);
    assert m1 == MirrorSlot(c, s1);
    hide BrokerReduce;
  }

  lemma CloseMirrors(c: real, s: Slot, p: Position, reply: Reply)
    ensures CloseAndJournal(MirrorSlot(c, s), MirrorPosition(c, p), reply) ==
            MirrorSlot(c, CloseAndJournal(s, p, reply))
  {
  }

  lemma ActionMirrors(c: real, s: Slot, p: Position, a: Action, r: Replies)
    requires WellFormed(a)
    ensures WellFormed(MirrorAction(c, a))
    ensures ApplyAction(MirrorSlot(c, s), MirrorPosition(c, p), MirrorAction(c, a), r)
            == MirrorSlot(c, ApplyAction(s, p, a, r))
  {
    hide ApplyModify, ApplyPartial, CloseAndJournal;
    match a.kind
    case MOVE_TO_BREAKEVEN => ModifyMirrors(c, s, p, a, r.breakeven);
    case TRAIL_STOP => ModifyMirrors(c, s, p, a, r.trail);
    case PARTIAL_EXIT => PartialMirrors(c, s, p, a, r.partial);
    case FULL_EXIT => CloseMirrors(c, s, p, r.close);
  }

  lemma {:induction false} ApplyAllMirrors(c: real, s: Slot, p: Position, actions: seq<Action>, r: Replies)
    requires forall a :: a in actions ==> WellFormed(a)
    ensures forall a :: a in MirrorActions(c, actions) ==> WellFormed(a)
    ensures ApplyAll(MirrorSlot(c, s), MirrorPosition(c, p), MirrorActions(c, actions), r)
            == MirrorSlot(c, ApplyAll(s, p, actions, r))
    decreases |actions|
  {
    hide ApplyAction;
    if actions != [] {
      ActionMirrors(c, s, p, actions[0], r);
      ApplyAllMirrors(c, ApplyAction(s, p, actions[0], r), p, actions[1..], r);
      assert MirrorActions(c, actions)[1..] == MirrorActions(c, actions[1..]);
    }
  }

  lemma LevelsMirror(c: real, p: Position, tick: Tick)
    ensures HitsStop(MirrorPosition(c, p), MirrorTick(c, tick)) <==> HitsStop(p, tick)
    ensures HitsTarget(MirrorPosition(c, p), MirrorTick(c, tick)) <==> HitsTarget(p, tick)
  {
  }

  lemma ManageMirrors(
      cfg: Config, tickSize: real, c: real, s: Slot, p: Position, tick: Tick, kill: bool, r: Replies)
    requires tickSize > 0.0
    ensures Manage(cfg, tickSize, MirrorSlot(c, s), MirrorPosition(c, p), MirrorTick(c, tick), kill, r)
            == MirrorSlot(c, Manage(cfg, tickSize, s, p, tick, kill, r))
  {
    hide Evaluate, ApplyAll, CloseAndJournal, HitsStop, HitsTarget;
    if !s.HasPending() {
      var t := Tracked(s, p);
      assert Tracked(MirrorSlot(c, s), MirrorPosition(c, p)) == MirrorSlot(c, t);
      var actions := Evaluate(cfg, p, tick, tickSize, None, t.record.value, t.breakevenMoved, t.partialTaken);
      ActionsWellFormed(cfg, p, tick, tickSize, None, t.record.value, t.breakevenMoved, t.partialTaken);
      EvaluateMirrors(cfg, c, p, tick, tickSize, None, t.record.value, t.breakevenMoved, t.partialTaken);
      ApplyAllMirrors(c, t, p, actions, r);
      LevelsMirror(c, p, tick);
      var done := ApplyAll(t, p, actions, r);
      CloseMirrors(c, done, p, r.close);
    }
  }

  lemma MarksMirror(c: real, ticket: int, s: Slot, e: Event)
    ensures ClearPending(MirrorSlot(c, s)) == MirrorSlot(c, ClearPending(s))
    ensures PositionModel.Restart(MirrorSlot(c, s)) == MirrorSlot(c, PositionModel.Restart(s))
    ensures e.OperatorBreakeven? ==>
              MarkBreakeven(MirrorSlot(c, s), ticket, MirrorPrice(c, e.stop)) ==
                MirrorSlot(c, MarkBreakeven(s, ticket, e.stop))
    ensures e.OperatorPartial? ==>
              MarkPartial(MirrorSlot(c, s), ticket, e.closedVolume) ==
                MirrorSlot(c, MarkPartial(s, ticket, e.closedVolume))
  {
  }

  lemma StepMirrors(cfg: Config, tickSize: real, c: real, ticket: int, s: Slot, e: Event)
    requires tickSize > 0.0
    ensures Step(cfg, tickSize, ticket, MirrorSlot(c, s), MirrorEvent(c, e))
            == MirrorSlot(c, Step(cfg, tickSize, ticket, s, e))
  {
    hide Manage, CloseAndJournal;
    MarksMirror(c, ticket, s, e);
    hide MarkBreakeven, MarkPartial, ClearPending, PositionModel.Restart;
    if s.broker.Some? {
      var p := s.broker.value;
      if e.Managed? {
        ManageMirrors(cfg, tickSize, c, s, p, e.tick, e.killSwitch, e.replies);
      } else if e.ForceClosed? {
        CloseMirrors(c, s, p, e.reply);
      }
    }
  }

  /** MAIN RESULT. Over every run, with lost replies, force-closes, changes by hand, operator marks
      and restarts, a managed SELL is its managed BUY in the mirror: the same volumes, marks and
      pending actions at the same steps, and mirrored stops and targets. */
  lemma {:induction false} ManagedSellMirrorsBuy(
      cfg: Config, tickSize: real, c: real, ticket: int, s: Slot, events: seq<Event>)
    requires tickSize > 0.0
    ensures Run(cfg, tickSize, ticket, MirrorSlot(c, s), MirrorEvents(c, events))
            == MirrorSlot(c, Run(cfg, tickSize, ticket, s, events))
  {
    hide Step, MirrorSlot, MirrorEvent;
    if events != [] {
      var n := |events| - 1;
      ManagedSellMirrorsBuy(cfg, tickSize, c, ticket, s, events[..n]);
      assert MirrorEvents(c, events)[..n] == MirrorEvents(c, events[..n]);
      StepMirrors(cfg, tickSize, c, ticket, Run(cfg, tickSize, ticket, s, events[..n]), events[n]);
    }
  }

  // ----- the hard exits ---------------------------------------------------------------------

  /** The levels at which a position has to be left, in terms of the quote. */
  predicate MustLeave(p: Position, tick: Tick, killSwitch: bool) {
    match p.direction
    case Buy =>
      || (p.stopLoss.Some? && tick.bid <= p.stopLoss.value)
      || (!killSwitch && p.takeProfit.Some? && tick.bid >= p.takeProfit.value)
    case Sell =>
      || (p.stopLoss.Some? && tick.ask >= p.stopLoss.value)
      || (!killSwitch && p.takeProfit.Some? && tick.ask <= p.takeProfit.value)
  }

  lemma AdjustingKeepsOpen(
      cfg: Config, tickSize: real, s: Slot, t: Slot, p: Position, tick: Tick, r: Replies)
    requires tickSize > 0.0 && s.broker.Some? && !s.HasPending() && t.record.Some?
    requires !r.breakeven.Lost? && !r.partial.Lost?
    ensures var s' := AfterBreakeven(cfg, tickSize, s, p, tick, r); s'.broker.Some? && !s'.HasPending()
    ensures var s' := AfterPartial(cfg, tickSize, s, t, p, tick, r); s'.broker.Some? && !s'.HasPending()
  {
    hide RMultiple, BreakevenStop, PartialVolume, Improves;
  }

  /** MAIN RESULT. A pass whose other replies are definite and whose close succeeds takes the position
      off the broker exactly when the quote has reached the stop, or the target with the kill switch
      off: a BUY by the bid, a SELL by the ask. A refused close leaves it. */
  lemma LeavesExactly(
      cfg: Config, tickSize: real, s: Slot, p: Position, tick: Tick, kill: bool, r: Replies)
    requires tickSize > 0.0 && s.broker == Some(p) && !s.HasPending()
    requires !r.breakeven.Lost? && !r.partial.Lost?
    ensures Manage(cfg, tickSize, s, p, tick, kill, r).broker.None? <==> MustLeave(p, tick, kill) && r.close.Happened()
    ensures Manage(cfg, tickSize, s, p, tick, kill, r).HasPending() <==> MustLeave(p, tick, kill) && r.close.Lost?
  {
    ManageByCases(cfg, tickSize, s, p, tick, kill, r);
    var t := Tracked(s, p);
    AdjustingKeepsOpen(cfg, tickSize, t, t, p, tick, r);
    var s1 := AfterBreakeven(cfg, tickSize, t, p, tick, r);
    AdjustingKeepsOpen(cfg, tickSize, s1, t, p, tick, r);
    hide Manage, AfterBreakeven, AfterPartial;
  }

  /** A partial exit is proposed exactly when it is enabled, not yet done and due, and the part, the
      fraction of the first volume but no more than is left, is neither nothing nor everything. */
  lemma SellsPartExactly(cfg: Config, p: Position, r: real, record: MonitorRecord, taken: bool)
    ensures var basis := if record.initialVolume.Some? then record.initialVolume.value else p.volume;
            var share := basis * cfg.partialExitFraction;
            Partial(cfg, p, r, record, taken) ==
            if cfg.enablePartialExit && !taken && r >= cfg.partialExitTriggerR && 0.0 < share < p.volume
            then [Action(PARTIAL_EXIT, None, Some(share))] else []
  {
  }

  /** A trailing stop is proposed exactly when it is enabled and due, there is volatility data, the
      stop would come closer, and it differs from the last one by half a tick. */
  lemma TrailsExactly(
      cfg: Config, p: Position, tick: Tick, tickSize: real, r: real, atr: real, record: MonitorRecord)
    requires tickSize > 0.0
    ensures var distance := atr * cfg.trailingAtrMultiplier;
            var stop := if p.direction.Buy? then tick.bid - distance else tick.ask + distance;
            Trail(cfg, p, tick, tickSize, r, Some(atr), record) ==
            if && cfg.enableTrailing && atr > 0.0 && r >= cfg.trailingTriggerR
               && (p.stopLoss.Some? ==> if p.direction.Buy? then p.stopLoss.value < stop else stop < p.stopLoss.value)
               && (record.lastTrailingStop.Some? ==>
                     || stop >= record.lastTrailingStop.value + tickSize / 2.0
                     || stop <= record.lastTrailingStop.value - tickSize / 2.0)
            then [Action(TRAIL_STOP, Some(stop), None)] else []
  {
    var distance := atr * cfg.trailingAtrMultiplier;
    var stop := if p.direction.Buy? then tick.bid - distance else tick.ask + distance;
    assert TrailingStop(cfg, p, tick, atr) == stop;
    hide TrailingStop;
  }

  lemma MultipleOfRisk(gain: real, risk: real, tickSize: real)
    requires tickSize > 0.0 && risk > 0.0
    ensures risk / tickSize != 0.0
    ensures gain / tickSize / (risk / tickSize) * risk == gain
  {
    var g, k := gain / tickSize, risk / tickSize;
    assert g * tickSize == gain && k * tickSize == risk;
    assert k > 0.0;
    var m := g / k;
    assert m * k == g;
    assert m * risk == m * (k * tickSize) == m * k * tickSize;
  }

  /** The proposals in terms of the quote: what a BUY and a SELL need for a breakeven move, and where
      it puts the stop. */
  lemma MovesToBreakevenExactly(cfg: Config, p: Position, tick: Tick, tickSize: real)
    requires tickSize > 0.0 && p.stopLoss.Some? && p.stopLoss.value != p.priceOpen
    ensures var buffer := cfg.breakevenBufferTicks * tickSize;
            var m := RMultiple(p, tick, tickSize);
            && m.Some?
            && m.value * Abs(p.priceOpen - p.stopLoss.value)
               == (if p.direction.Buy? then tick.bid - p.priceOpen else p.priceOpen - tick.ask)
            && (p.direction.Buy? ==>
                  (Breakeven(cfg, p, tickSize, m.value, false) ==
                    [Action(MOVE_TO_BREAKEVEN, Some(p.priceOpen + buffer), None)]
                   <==> m.value >= cfg.breakevenTriggerR && p.priceOpen + buffer > p.stopLoss.value))
            && (p.direction.Sell? ==>
                  (Breakeven(cfg, p, tickSize, m.value, false) ==
                    [Action(MOVE_TO_BREAKEVEN, Some(p.priceOpen - buffer), None)]
                   <==> m.value >= cfg.breakevenTriggerR && p.priceOpen - buffer < p.stopLoss.value))
  {
    var gain := if p.direction.Buy? then tick.bid - p.priceOpen else p.priceOpen - tick.ask;
    var risk := Abs(p.priceOpen - p.stopLoss.value);
    MultipleOfRisk(gain, risk, tickSize);
  }
}
