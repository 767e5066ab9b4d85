/** What holds over the whole life of a managed position, with restarts, lost replies, force-closes
    by the kill switch, changes made at the broker and operator resolutions. */
module PositionSafety {
  import opened Common
  import opened PositionModel

  datatype Event =
    | Managed(tick: Tick, killSwitch: bool, replies: Replies)
    | ForceClosed(reply: Reply)
    | ClosedAtBroker
    | ChangedAtBroker(volume: real, stopLoss: Option<real>, takeProfit: Option<real>)
    | Cleared
    | OperatorBreakeven(stop: Option<real>)
    | OperatorPartial(closedVolume: Option<real>)
    | Restarted

  /** The calls act only on a position the broker still lists. */
  function Step(cfg: Config, tickSize: real, ticket: int, s: Slot, e: Event): Slot
    requires tickSize > 0.0
  {
    match e
    case Managed(tick, kill, replies) =>
      if s.broker.None? then s else Manage(cfg, tickSize, s, s.broker.value, tick, kill, replies)
    case ForceClosed(reply) => if s.broker.None? then s else CloseAndJournal(s, s.broker.value, reply)
    case ClosedAtBroker => BrokerClose(s)
    case ChangedAtBroker(volume, stop, target) =>
      if s.broker.None? then s
      else s.(broker := Some(s.broker.value.(volume := volume, stopLoss := stop, takeProfit := target)))
    case Cleared => ClearPending(s)
    case OperatorBreakeven(stop) => MarkBreakeven(s, ticket, stop)
    case OperatorPartial(volume) => MarkPartial(s, ticket, volume)
    case Restarted => Restart(s)
  }

  function Run(cfg: Config, tickSize: real, ticket: int, s: Slot, events: seq<Event>): Slot
    requires tickSize > 0.0
  {
    if events == [] then s
    else Step(cfg, tickSize, ticket, Run(cfg, tickSize, ticket, s, events[..|events| - 1]), events[|events| - 1])
  }

  /** A position just opened: the monitor has not seen it. */
  function Opened(p: Position): Slot {
    Slot(Some(p), None, false, false, NOTHING_YET)
  }

  // ----- a management pass, case by case ---------------------------------------------------

  function AfterBreakeven(cfg: Config, tickSize: real, s: Slot, p: Position, tick: Tick, r: Replies): Slot
    requires tickSize > 0.0
  {
    var m := RMultiple(p, tick, tickSize);
    var actions := if m.None? then [] else Breakeven(cfg, p, tickSize, m.value, s.breakevenMoved);
    if actions == [] then s else ApplyModify(s, p, actions[0], r.breakeven)
  }

  function AfterPartial(cfg: Config, tickSize: real, s: Slot, t: Slot, p: Position, tick: Tick, r: Replies): Slot
    requires tickSize > 0.0 && t.record.Some?
  {
    var m := RMultiple(p, tick, tickSize);
    var actions := if m.None? then [] else Partial(cfg, p, m.value, t.record.value, t.partialTaken);
    if actions == [] then s else ApplyPartial(s, p, actions[0], r.partial)
  }

  /** Without volatility data no trailing stop is proposed, so a pass is: breakeven, partial exit,
      then the hard check of stop and target; a pending action ends it. */
  lemma ManageByCases(
      cfg: Config, tickSize: real, s: Slot, p: Position, tick: Tick, kill: bool, r: Replies)
    requires tickSize > 0.0 && !s.HasPending()
    ensures var t := Tracked(s, p);
            var s1 := AfterBreakeven(cfg, tickSize, t, p, tick, r);
            var s2 := if s1.HasPending() then s1 else AfterPartial(cfg, tickSize, s1, t, p, tick, r);
            Manage(cfg, tickSize, s, p, tick, kill, r) ==
            if s2.HasPending() then s2
            else if HitsStop(p, tick) || (!kill && HitsTarget(p, tick)) then CloseAndJournal(s2, p, r.close)
            else s2
  {
    var t := Tracked(s, p);
    var m := RMultiple(p, tick, tickSize);
    ActionsWellFormed(cfg, p, tick, tickSize, None, t.record.value, t.breakevenMoved, t.partialTaken);
    if m.Some? {
      var be := Breakeven(cfg, p, tickSize, m.value, t.breakevenMoved);
      var pa := Partial(cfg, p, m.value, t.record.value, t.partialTaken);
      var s1 := AfterBreakeven(cfg, tickSize, t, p, tick, r);
      assert Evaluate(cfg, p, tick, tickSize, None, t.record.value, t.breakevenMoved, t.partialTaken) == be + pa;
      assert ApplyAll(s1, p, pa, r) == AfterPartial(cfg, tickSize, s1, t, p, tick, r) by {
        if pa != [] {
          assert pa[1..] == [];
        }
      }
      if be == [] {
        assert be + pa == pa;
      } else {
        assert (be + pa)[0] == be[0] && (be + pa)[1..] == pa;
      }
    }
  }

  // ----- at most one breakeven move and one partial exit -----------------------------------

  /** The in-memory sets are what a new monitor would rebuild from the store. */
  ghost predicate Mirrored(s: Slot) {
    Restart(s) == s
  }

  /** The sets mirror the store and a closed ticket is gone at the broker. */
  ghost predicate Aligned(s: Slot) {
    Mirrored(s) && (s.Closed() ==> s.broker.None?)
  }

  /** An open position's sets mirror the store, and it has not been closed. */
  ghost predicate Sound(s: Slot) {
    s.broker.Some? ==> Aligned(s)
  }

  /** How often the broker applied an action of a kind that is meant to happen once. */
  function TimesDone(s: Slot, kind: Kind): nat {
    match kind
    case MOVE_TO_BREAKEVEN => s.truth.breakevens
    case PARTIAL_EXIT => s.truth.partials
    case _ => 0
  }

  predicate MarkedDone(s: Slot, kind: Kind) {
    s.record.Some? &&
    match kind
    case MOVE_TO_BREAKEVEN => s.record.value.breakevenApplied
    case PARTIAL_EXIT => s.record.value.partialExitTaken
    case _ => false
  }

  predicate AwaitsHappened(s: Slot, kind: Kind) {
    s.HasPending() && s.record.value.pending.value.kind == kind && s.truth.pendingHappened
  }

  /** An applied action of an open position is either recorded as done or still pending. */
  ghost predicate Remembered(s: Slot, kind: Kind) {
    && TimesDone(s, kind) <= 1
    && (s.broker.Some? && TimesDone(s, kind) == 1 ==> MarkedDone(s, kind) || AwaitsHappened(s, kind))
  }

  /** Only the pending entry knows that an action of this kind happened. */
  predicate OnlyPendingKnows(s: Slot, kind: Kind) {
    s.broker.Some? && AwaitsHappened(s, kind) && !MarkedDone(s, kind)
  }

  /** The discipline for one kind of action: while only the pending entry knows that it happened,
      nobody clears the entry, marks it as the other kind, or loses a force-close that had no effect. */
  predicate Disciplined(s: Slot, kind: Kind, e: Event) {
    match e
    case Cleared => !OnlyPendingKnows(s, kind)
    case OperatorBreakeven(_) => kind == MOVE_TO_BREAKEVEN || !OnlyPendingKnows(s, kind)
    case OperatorPartial(_) => kind == PARTIAL_EXIT || !OnlyPendingKnows(s, kind)
    case ForceClosed(reply) => reply == Lost(false) ==> !OnlyPendingKnows(s, kind)
    case _ => true
  }

  predicate MarksOpenTickets(s: Slot, e: Event) {
    e.OperatorBreakeven? || e.OperatorPartial? ==> !s.Closed()
  }

  predicate DisciplinedRun(cfg: Config, tickSize: real, ticket: int, s: Slot, kind: Kind, events: seq<Event>)
    requires tickSize > 0.0
  {
    events == [] ||
    (DisciplinedRun(cfg, tickSize, ticket, s, kind, events[..|events| - 1])
     && Disciplined(Run(cfg, tickSize, ticket, s, events[..|events| - 1]), kind, events[|events| - 1]))
  }

  /** What a step must keep: the alignment, and the memory of what was applied. */
  ghost predicate Kept(s: Slot, s': Slot) {
    Aligned(s') && forall kind :: Remembered(s, kind) ==> Remembered(s', kind)
  }

  lemma BreakevenKeeps(cfg: Config, tickSize: real, s: Slot, p: Position, tick: Tick, r: Replies)
    requires tickSize > 0.0 && s.broker.Some? && s.record.Some? && !s.HasPending() && Aligned(s)
    ensures var s' := AfterBreakeven(cfg, tickSize, s, p, tick, r);
            Kept(s, s') && s'.broker.Some? && s'.record.Some? && s'.partialTaken == s.partialTaken
  {
  }

  lemma PartialKeeps(cfg: Config, tickSize: real, s: Slot, t: Slot, p: Position, tick: Tick, r: Replies)
    requires tickSize > 0.0 && s.broker.Some? && s.record.Some? && !s.HasPending() && Aligned(s)
    requires t.record.Some? && t.partialTaken == s.partialTaken
    ensures var s' := AfterPartial(cfg, tickSize, s, t, p, tick, r);
            Kept(s, s') && s'.broker.Some?
  {
  }

  lemma CloseKeeps(s: Slot, p: Position, reply: Reply)
    requires Aligned(s) && s.broker.Some?
    ensures Aligned(CloseAndJournal(s, p, reply))
    ensures !s.HasPending() ==> Kept(s, CloseAndJournal(s, p, reply))
  {
  }

  lemma ManageKeeps(
      cfg: Config, tickSize: real, s: Slot, p: Position, tick: Tick, kill: bool, r: Replies)
    requires tickSize > 0.0 && s.broker == Some(p) && Aligned(s)
    ensures Kept(s, Manage(cfg, tickSize, s, p, tick, kill, r))
  {
    if !s.HasPending() {
      ManageByCases(cfg, tickSize, s, p, tick, kill, r);
      var t := Tracked(s, p);
      BreakevenKeeps(cfg, tickSize, t, p, tick, r);
      var s1 := AfterBreakeven(cfg, tickSize, t, p, tick, r);
      if !s1.HasPending() {
        PartialKeeps(cfg, tickSize, s1, t, p, tick, r);
        var s2 := AfterPartial(cfg, tickSize, s1, t, p, tick, r);
        if !s2.HasPending() {
          CloseKeeps(s2, p, r.close);
        }
      }
    }
  }

  lemma StepAligns(cfg: Config, tickSize: real, ticket: int, s: Slot, e: Event)
    requires tickSize > 0.0 && Aligned(s) && MarksOpenTickets(s, e)
    ensures Aligned(Step(cfg, tickSize, ticket, s, e))
  {
    if s.broker.Some? {
      if e.Managed? {
        ManageKeeps(cfg, tickSize, s, s.broker.value, e.tick, e.killSwitch, e.replies);
      } else if e.ForceClosed? {
        CloseKeeps(s, s.broker.value, e.reply);
      }
    }
  }

  lemma StepKeeps(cfg: Config, tickSize: real, ticket: int, s: Slot, kind: Kind, e: Event)
    requires tickSize > 0.0 && Sound(s)
    ensures var s' := Step(cfg, tickSize, ticket, s, e);
            Sound(s') && (Remembered(s, kind) && Disciplined(s, kind, e) ==> Remembered(s', kind))
  {
    hide Manage;
    if s.broker.Some? {
      StepAligns(cfg, tickSize, ticket, s, e);
      if e.Managed? {
        ManageKeeps(cfg, tickSize, s, s.broker.value, e.tick, e.killSwitch, e.replies);
      }
    }
  }

  /** MAIN RESULT. Over the whole life of a position the broker applies at most one breakeven move,
      and at most one partial exit, each under the discipline for its own kind. */
  lemma {:induction false} AtMostOnce(cfg: Config, tickSize: real, p: Position, kind: Kind, events: seq<Event>)
    requires tickSize > 0.0 && DisciplinedRun(cfg, tickSize, p.ticket, Opened(p), kind, events)
    ensures var s := Run(cfg, tickSize, p.ticket, Opened(p), events);
            TimesDone(s, kind) <= 1 && Sound(s) && Remembered(s, kind)
  {
    hide Step, Disciplined;
    if events != [] {
      var prefix := events[..|events| - 1];
      AtMostOnce(cfg, tickSize, p, kind, prefix);
      StepKeeps(cfg, tickSize, p.ticket, Run(cfg, tickSize, p.ticket, Opened(p), prefix), kind, events[|events| - 1]);
    }
  }

  /** The discipline asks for no more than that: once such an action was applied, a step keeps the
      memory of it exactly when it is disciplined. */
  lemma MemoryIsKeptExactly(cfg: Config, tickSize: real, ticket: int, s: Slot, kind: Kind, e: Event)
    requires tickSize > 0.0 && Sound(s) && s.broker.Some?
    requires TimesDone(s, kind) == 1 && Remembered(s, kind)
    ensures Remembered(Step(cfg, tickSize, ticket, s, e), kind) <==> Disciplined(s, kind, e)
  {
    hide Manage;
    StepKeeps(cfg, tickSize, ticket, s, kind, e);
  }

  // ----- the breakeven move needs no discipline ---------------------------------------------

  /** The stop is at the breakeven level or beyond it. */
  predicate AtBreakeven(cfg: Config, tickSize: real, p: Position) {
    !Improves(p.direction, p.stopLoss, BreakevenStop(cfg, p, tickSize))
  }

  /** An open position whose stop was moved has kept it there. */
  predicate StopHeld(cfg: Config, tickSize: real, s: Slot) {
    && s.truth.breakevens <= 1
    && (s.broker.Some? && s.truth.breakevens == 1 ==> AtBreakeven(cfg, tickSize, s.broker.value))
  }

  /** Nobody pulls a moved stop back by hand. */
  predicate NotPulledBack(cfg: Config, tickSize: real, s: Slot, e: Event) {
    e.ChangedAtBroker? && s.broker.Some? && s.truth.breakevens == 1 ==>
      AtBreakeven(cfg, tickSize, s.broker.value.(stopLoss := e.stopLoss))
  }

  predicate NeverPulledBack(cfg: Config, tickSize: real, ticket: int, s: Slot, events: seq<Event>)
    requires tickSize > 0.0
  {
    events == [] ||
    (NeverPulledBack(cfg, tickSize, ticket, s, events[..|events| - 1])
     && NotPulledBack(cfg, tickSize, Run(cfg, tickSize, ticket, s, events[..|events| - 1]), events[|events| - 1]))
  }

  lemma {:induction false} NoHandsNoPull(cfg: Config, tickSize: real, ticket: int, s: Slot, events: seq<Event>)
    requires tickSize > 0.0
    requires forall i :: 0 <= i < |events| ==> !events[i].ChangedAtBroker?
    ensures NeverPulledBack(cfg, tickSize, ticket, s, events)
  {
    if events != [] {
      NoHandsNoPull(cfg, tickSize, ticket, s, events[..|events| - 1]);
    }
  }

  lemma BreakevenHolds(cfg: Config, tickSize: real, s: Slot, p: Position, tick: Tick, r: Replies)
    requires tickSize > 0.0 && s.broker == Some(p) && StopHeld(cfg, tickSize, s)
    ensures var s' := AfterBreakeven(cfg, tickSize, s, p, tick, r);
            StopHeld(cfg, tickSize, s') && s'.broker.Some?
  {
    hide RMultiple;
  }

  lemma PartialHolds(cfg: Config, tickSize: real, s: Slot, t: Slot, p: Position, tick: Tick, r: Replies)
    requires tickSize > 0.0 && t.record.Some? && StopHeld(cfg, tickSize, s)
    ensures StopHeld(cfg, tickSize, AfterPartial(cfg, tickSize, s, t, p, tick, r))
  {
    hide RMultiple, PartialVolume;
  }

  lemma ManageHolds(
      cfg: Config, tickSize: real, s: Slot, p: Position, tick: Tick, kill: bool, r: Replies)
    requires tickSize > 0.0 && s.broker == Some(p) && StopHeld(cfg, tickSize, s)
    ensures StopHeld(cfg, tickSize, Manage(cfg, tickSize, s, p, tick, kill, r))
  {
    if !s.HasPending() {
      ManageByCases(cfg, tickSize, s, p, tick, kill, r);
      var t := Tracked(s, p);
      BreakevenHolds(cfg, tickSize, t, p, tick, r);
      var s1 := AfterBreakeven(cfg, tickSize, t, p, tick, r);
      PartialHolds(cfg, tickSize, s1, t, p, tick, r);
      hide Manage, AfterBreakeven, AfterPartial, HitsStop, HitsTarget;
    }
  }

  lemma StepHolds(cfg: Config, tickSize: real, ticket: int, s: Slot, e: Event)
    requires tickSize > 0.0 && StopHeld(cfg, tickSize, s) && NotPulledBack(cfg, tickSize, s, e)
    ensures StopHeld(cfg, tickSize, Step(cfg, tickSize, ticket, s, e))
  {
    hide Manage;
    if e.Managed? && s.broker.Some? {
      ManageHolds(cfg, tickSize, s, s.broker.value, e.tick, e.killSwitch, e.replies);
    }
  }

  /** MAIN RESULT. Unless somebody pulls a moved stop back by hand, the broker applies at most one
      breakeven move, however pending actions are cleared, marked or overwritten: the moved stop
      itself prevents a second one. */
  lemma {:induction false} BreakevenMovesOnce(cfg: Config, tickSize: real, p: Position, events: seq<Event>)
    requires tickSize > 0.0 && NeverPulledBack(cfg, tickSize, p.ticket, Opened(p), events)
    ensures StopHeld(cfg, tickSize, Run(cfg, tickSize, p.ticket, Opened(p), events))
  {
    hide Step, NotPulledBack, AtBreakeven;
    if events != [] {
      var prefix := events[..|events| - 1];
      BreakevenMovesOnce(cfg, tickSize, p, prefix);
      StepHolds(cfg, tickSize, p.ticket, Run(cfg, tickSize, p.ticket, Opened(p), prefix), events[|events| - 1]);
    }
  }

  lemma BreakevenCounts(cfg: Config, tickSize: real, s: Slot, p: Position, tick: Tick, r: Replies)
    requires tickSize > 0.0 && s.broker == Some(p) && r.breakeven.Happened()
    ensures var m := RMultiple(p, tick, tickSize);
            AfterBreakeven(cfg, tickSize, s, p, tick, r).truth.breakevens
            == s.truth.breakevens +
               if m.Some? && m.value >= cfg.breakevenTriggerR && !s.breakevenMoved && !AtBreakeven(cfg, tickSize, p)
               then 1 else 0
  {
    hide RMultiple;
  }

  lemma PartialCountsNoMove(cfg: Config, tickSize: real, s: Slot, t: Slot, p: Position, tick: Tick, r: Replies)
    requires tickSize > 0.0 && t.record.Some?
    ensures AfterPartial(cfg, tickSize, s, t, p, tick, r).truth.breakevens == s.truth.breakevens
  {
    hide RMultiple, PartialVolume;
  }

  /** When a pass moves the stop to breakeven at the broker: the memory and the present stop are the
      only two things that stand in the way once the trigger is reached. */
  lemma NextPassMovesStop(
      cfg: Config, tickSize: real, s: Slot, p: Position, tick: Tick, kill: bool, r: Replies)
    requires tickSize > 0.0 && s.broker == Some(p) && !s.HasPending() && r.breakeven.Happened()
    ensures var m := RMultiple(p, tick, tickSize);
            Manage(cfg, tickSize, s, p, tick, kill, r).truth.breakevens
            == s.truth.breakevens +
               if m.Some? && m.value >= cfg.breakevenTriggerR && !s.breakevenMoved && !AtBreakeven(cfg, tickSize, p)
               then 1 else 0
  {
    hide RMultiple, AtBreakeven, Manage, AfterBreakeven, AfterPartial, HitsStop, HitsTarget;
    ManageByCases(cfg, tickSize, s, p, tick, kill, r);
    var t := Tracked(s, p);
    BreakevenCounts(cfg, tickSize, t, p, tick, r);
    PartialCountsNoMove(cfg, tickSize, AfterBreakeven(cfg, tickSize, t, p, tick, r), t, p, tick, r);
  }

  predicate MarksOpenTicketsRun(cfg: Config, tickSize: real, ticket: int, s: Slot, events: seq<Event>)
    requires tickSize > 0.0
  {
    events == [] ||
    (MarksOpenTicketsRun(cfg, tickSize, ticket, s, events[..|events| - 1])
     && MarksOpenTickets(Run(cfg, tickSize, ticket, s, events[..|events| - 1]), events[|events| - 1]))
  }

  /** Restart transparency. Over every run, disciplined or not, in which the operator marks only
      open tickets, the decisions are the same before and after a restart at any point. */
  lemma {:induction false} RestartIsTransparent(cfg: Config, tickSize: real, p: Position, events: seq<Event>)
    requires tickSize > 0.0 && MarksOpenTicketsRun(cfg, tickSize, p.ticket, Opened(p), events)
    ensures var s := Run(cfg, tickSize, p.ticket, Opened(p), events);
            && Aligned(s)
            && (forall q, tick, atr, r ::
                  Evaluate(cfg, q, tick, tickSize, atr, r, Restart(s).breakevenMoved, Restart(s).partialTaken)
                  == Evaluate(cfg, q, tick, tickSize, atr, r, s.breakevenMoved, s.partialTaken))
  {
    if events != [] {
      var mid := Run(cfg, tickSize, p.ticket, Opened(p), events[..|events| - 1]);
      var e := events[|events| - 1];
      RestartIsTransparent(cfg, tickSize, p, events[..|events| - 1]);
      StepAligns(cfg, tickSize, p.ticket, mid, e);
    }
  }

  /** A mark on a closed ticket is the one event that a restart would undo. */
  lemma MarkAfterCloseIsLost(s: Slot, ticket: int, stop: Option<real>, volume: Option<real>)
    requires Mirrored(s)
    ensures Mirrored(MarkBreakeven(s, ticket, stop)) <==> !s.Closed()
    ensures Mirrored(MarkPartial(s, ticket, volume)) <==> !s.Closed()
    ensures stop.Some? ==> Mirrored(MarkTrailing(s, ticket, stop.value))
  {
  }

  /** A breakeven move is proposed and its reply gets lost. */
  predicate BreakevenGetsLost(cfg: Config, tickSize: real, s: Slot, p: Position, tick: Tick, r: Replies)
    requires tickSize > 0.0
  {
    var m := RMultiple(p, tick, tickSize);
    m.Some? && Breakeven(cfg, p, tickSize, m.value, s.breakevenMoved) != [] && r.breakeven.Lost?
  }

  /** When a pass over a ticket with a record takes a partial exit that the broker carries out. */
  lemma NextPassTakesPartial(
      cfg: Config, tickSize: real, s: Slot, p: Position, tick: Tick, kill: bool, r: Replies)
    requires tickSize > 0.0 && s.broker == Some(p) && s.record.Some? && !s.HasPending() && !s.partialTaken
    requires r.partial.Happened()
    ensures var m := RMultiple(p, tick, tickSize);
            Manage(cfg, tickSize, s, p, tick, kill, r).truth.partials
            == s.truth.partials +
               if m.Some? && cfg.enablePartialExit && m.value >= cfg.partialExitTriggerR
                  && 0.0 < PartialVolume(cfg, p, s.record.value) < p.volume
                  && !BreakevenGetsLost(cfg, tickSize, s, p, tick, r)
               then 1 else 0
  {
    ManageByCases(cfg, tickSize, s, p, tick, kill, r);
    hide Manage, RMultiple, PartialVolume, BreakevenStop, Improves, HitsStop, HitsTarget;
  }

  lemma RunOfTwo(cfg: Config, tickSize: real, ticket: int, s: Slot, a: Event, b: Event)
    requires tickSize > 0.0
    ensures Run(cfg, tickSize, ticket, s, [a, b]) == Step(cfg, tickSize, ticket, Step(cfg, tickSize, ticket, s, a), b)
  {
    hide Step;
    assert [a, b][..1] == [a] && [a][..0] == [];
    assert Run(cfg, tickSize, ticket, s, []) == s;
    assert Run(cfg, tickSize, ticket, s, [a]) == Step(cfg, tickSize, ticket, s, a);
  }

  /** The hypothesis on force-closes is needed. When a partial exit happened but its reply was
      lost, a force-close that also gets lost replaces the pending entry; clearing that one, quite
      truthfully, lets the next pass take the fraction again, exactly when the price triggers it,
      the fraction of the first volume is less than what is left, and no lost breakeven move comes
      first. */
  lemma ForceCloseForgetsPartial(
      cfg: Config, tickSize: real, ticket: int, s: Slot, tick: Tick, kill: bool, r: Replies)
    requires tickSize > 0.0 && s.broker.Some? && Aligned(s) && Remembered(s, PARTIAL_EXIT)
    requires AwaitsHappened(s, PARTIAL_EXIT) && s.truth.partials == 1 && !s.record.value.partialExitTaken
    requires r.partial.Happened()
    ensures var p := s.broker.value;
            var lost := [ForceClosed(Lost(false)), Cleared];
            var s' := Run(cfg, tickSize, ticket, s, lost);
            var m := RMultiple(p, tick, tickSize);
            && Disciplined(Step(cfg, tickSize, ticket, s, lost[0]), PARTIAL_EXIT, lost[1])
            && (Step(cfg, tickSize, ticket, s', Managed(tick, kill, r)).truth.partials == 2
                <==> m.Some? && cfg.enablePartialExit && m.value >= cfg.partialExitTriggerR
                     && 0.0 < PartialVolume(cfg, p, s.record.value) < p.volume
                     && !BreakevenGetsLost(cfg, tickSize, s, p, tick, r))
  {
    var lost := [ForceClosed(Lost(false)), Cleared];
    var p := s.broker.value;
    RunOfTwo(cfg, tickSize, ticket, s, lost[0], lost[1]);
    var s1 := Step(cfg, tickSize, ticket, s, lost[0]);
    var s' := Run(cfg, tickSize, ticket, s, lost);
    assert s' == ClearPending(s1) && s'.broker == Some(p) && s'.record.Some? && s'.breakevenMoved == s.breakevenMoved;
    hide Manage;
    NextPassTakesPartial(cfg, tickSize, s', p, tick, kill, r);
    assert PartialVolume(cfg, p, s'.record.value) == PartialVolume(cfg, p, s.record.value);
  }

  const QUARTERS := Config(1.0, 5.0, false, 1.5, 1.5, true, 1.0, 0.25)
  const LONG := Position(1, Buy, 1.0, 2000.0, Some(1990.0), None)
  const UP := Tick(2015.0, 2015.2)

  lemma FirstPass(replies: Replies) returns (s: Slot)
    requires replies == Replies(Done, Lost(true), Done, Done)
    ensures s == Step(QUARTERS, 0.01, 1, Opened(LONG), Managed(UP, false, replies))
    ensures s.broker == Some(LONG.(stopLoss := Some(2000.05), volume := 0.75))
    ensures s.truth.partials == 1 && s.breakevenMoved && !s.partialTaken
    ensures s.record.Some? && s.record.value.initialVolume == Some(1.0)
  {
    s := Step(QUARTERS, 0.01, 1, Opened(LONG), Managed(UP, false, replies));
    assert RMultiple(LONG, UP, 0.01) == Some(1.5);
    ManageByCases(QUARTERS, 0.01, Opened(LONG), LONG, UP, false, replies);
  }

  lemma SecondPass(s: Slot)
    requires s.broker == Some(LONG.(stopLoss := Some(2000.05), volume := 0.75)) && s.truth.partials == 1
    requires s.breakevenMoved && !s.partialTaken && !s.HasPending()
    requires s.record.Some? && s.record.value.initialVolume == Some(1.0)
    ensures var t := Step(QUARTERS, 0.01, 1, s, Managed(UP, false, Replies(Done, Done, Done, Done)));
            t.truth.partials == 2 && t.broker.Some? && t.broker.value.volume == 0.5
  {
    var p := s.broker.value;
    assert RMultiple(p, UP, 0.01) == Some(300.0);
    ManageByCases(QUARTERS, 0.01, s, p, UP, false, Replies(Done, Done, Done, Done));
  }

  lemma RunSnoc(cfg: Config, tickSize: real, ticket: int, s: Slot, events: seq<Event>, e: Event)
    requires tickSize > 0.0
    ensures Run(cfg, tickSize, ticket, s, events + [e])
            == Step(cfg, tickSize, ticket, Run(cfg, tickSize, ticket, s, events), e)
  {
    hide Step;
    assert (events + [e])[..|events|] == events;
  }

  /** It is reachable. Bought at 2000 with the stop at 1990, at bid 2015: a breakeven move is
      confirmed, a quarter is sold but the reply is lost, a force-close is lost without effect, its
      pending entry is cleared truthfully, and the next pass sells another quarter. */
  lemma TwoPartialsHappen()
    ensures var replies := Replies(Done, Lost(true), Done, Done);
            var events := [
              Managed(UP, false, replies), ForceClosed(Lost(false)), Cleared,
              Managed(UP, false, Replies(Done, Done, Done, Done))];
            var s := Run(QUARTERS, 0.01, 1, Opened(LONG), events);
            s.truth.partials == 2 && s.broker.Some? && s.broker.value.volume == 0.5
  {
    var replies := Replies(Done, Lost(true), Done, Done);
    var a, b, c := Managed(UP, false, replies), ForceClosed(Lost(false)), Cleared;
    var d := Managed(UP, false, Replies(Done, Done, Done, Done));
    var s1 := FirstPass(replies);
    var s3 := Step(QUARTERS, 0.01, 1, Step(QUARTERS, 0.01, 1, s1, b), c);
    SecondPass(s3);
    hide *;
    RunOfTwo(QUARTERS, 0.01, 1, Opened(LONG), a, b);
    RunSnoc(QUARTERS, 0.01, 1, Opened(LONG), [a, b], c);
    RunSnoc(QUARTERS, 0.01, 1, Opened(LONG), [a, b, c], d);
    assert [a, b] + [c] == [a, b, c] && [a, b, c] + [d] == [a, b, c, d];
  }

  lemma LostMove(r: Replies) returns (s: Slot)
    requires r == Replies(Lost(true), Done, Done, Done)
    ensures s == Step(QUARTERS, 0.01, 1, Opened(LONG), Managed(UP, false, r))
    ensures s.broker == Some(LONG.(stopLoss := Some(2000.05))) && s.truth.breakevens == 1
    ensures !s.breakevenMoved && s.record.Some? && !s.record.value.breakevenApplied
  {
    s := Step(QUARTERS, 0.01, 1, Opened(LONG), Managed(UP, false, r));
    assert RMultiple(LONG, UP, 0.01) == Some(1.5);
    ManageByCases(QUARTERS, 0.01, Opened(LONG), LONG, UP, false, r);
  }

  /** A stop pulled back by hand can be moved again: the first move's reply is lost, a lost
      force-close without effect replaces the pending entry, that is cleared truthfully, and somebody
      puts the stop back. */
  lemma TwoMovesHappen()
    ensures var pass := Managed(UP, false, Replies(Lost(true), Done, Done, Done));
            var back := ChangedAtBroker(1.0, Some(1990.0), None);
            var events := [pass, ForceClosed(Lost(false)), Cleared, back, pass];
            Run(QUARTERS, 0.01, 1, Opened(LONG), events).truth.breakevens == 2
  {
    var r := Replies(Lost(true), Done, Done, Done);
    var a, b, c := Managed(UP, false, r), ForceClosed(Lost(false)), Cleared;
    var d := ChangedAtBroker(1.0, Some(1990.0), None);
    var s1 := LostMove(r);
    var s2 := Step(QUARTERS, 0.01, 1, s1, b);
    var s4 := Step(QUARTERS, 0.01, 1, Step(QUARTERS, 0.01, 1, s2, c), d);
    assert s4.broker == Some(LONG) && !s4.HasPending() && !s4.breakevenMoved && s4.truth.breakevens == 1;
    assert RMultiple(LONG, UP, 0.01) == Some(1.5);
    NextPassMovesStop(QUARTERS, 0.01, s4, LONG, UP, false, r);
    assert Step(QUARTERS, 0.01, 1, s4, a).truth.breakevens == 2;
    hide *;
    RunOfTwo(QUARTERS, 0.01, 1, Opened(LONG), a, b);
    RunSnoc(QUARTERS, 0.01, 1, Opened(LONG), [a, b], c);
    RunSnoc(QUARTERS, 0.01, 1, Opened(LONG), [a, b, c], d);
    RunSnoc(QUARTERS, 0.01, 1, Opened(LONG), [a, b, c, d], a);
    assert [a, b] + [c] == [a, b, c] && [a, b, c] + [d] == [a, b, c, d] && [a, b, c, d] + [a] == [a, b, c, d, a];
  }

  /** While a ticket waits for a lost reply, management does nothing to it, at the broker or in the
      store, and proposes nothing. */
  lemma PendingMeansHandsOff(
      cfg: Config, tickSize: real, s: Slot, p: Position, tick: Tick, atr: Option<real>, kill: bool, r: Replies)
    requires tickSize > 0.0 && s.HasPending()
    ensures Manage(cfg, tickSize, s, p, tick, kill, r) == s
    ensures Evaluate(cfg, p, tick, tickSize, atr, s.record.value, s.breakevenMoved, s.partialTaken) == []
  {
  }

  /** So a waiting ticket stays exactly as it is over any number of passes and restarts, until an
      operator, the kill switch or the broker steps in. */
  lemma {:induction false} WaitingTicketStaysPut(cfg: Config, tickSize: real, ticket: int, s: Slot, events: seq<Event>)
    requires tickSize > 0.0 && s.HasPending() && Mirrored(s)
    requires forall i :: 0 <= i < |events| ==> events[i].Managed? || events[i].Restarted?
    ensures Run(cfg, tickSize, ticket, s, events) == s
  {
    hide Manage, Restart;
    if events != [] {
      WaitingTicketStaysPut(cfg, tickSize, ticket, s, events[..|events| - 1]);
      var e := events[|events| - 1];
      if e.Managed? && s.broker.Some? {
        PendingMeansHandsOff(cfg, tickSize, s, s.broker.value, e.tick, None, e.killSwitch, e.replies);
      }
    }
  }

  // ----- stops only tighten, volume only shrinks -------------------------------------------

  /** The stop of `after` is at least as close to the market as that of `before`. */
  predicate NoLooser(d: Direction, before: Option<real>, after: Option<real>) {
    before.Some? ==> after.Some? && Gain(d, before.value, after.value) >= 0.0
  }

  predicate RiskNotRaised(before: Option<Position>, after: Option<Position>) {
    after.Some? ==>
      && before.Some? && after.value.ticket == before.value.ticket && after.value.direction == before.value.direction
      && NoLooser(before.value.direction, before.value.stopLoss, after.value.stopLoss)
      && after.value.volume <= before.value.volume
  }

  lemma BreakevenTightens(cfg: Config, tickSize: real, s: Slot, p: Position, tick: Tick, r: Replies)
    requires tickSize > 0.0 && s.broker == Some(p)
    ensures var s' := AfterBreakeven(cfg, tickSize, s, p, tick, r);
            && RiskNotRaised(s.broker, s'.broker)
            && s'.broker.Some? && s'.broker.value.volume == p.volume
  {
  }

  lemma PartialTightens(cfg: Config, tickSize: real, s: Slot, t: Slot, p: Position, tick: Tick, r: Replies)
    requires tickSize > 0.0 && s.broker.Some? && t.record.Some?
    ensures RiskNotRaised(s.broker, AfterPartial(cfg, tickSize, s, t, p, tick, r).broker)
  {
  }

  lemma ManageTightens(
      cfg: Config, tickSize: real, s: Slot, p: Position, tick: Tick, kill: bool, r: Replies)
    requires tickSize > 0.0 && s.broker == Some(p)
    ensures RiskNotRaised(s.broker, Manage(cfg, tickSize, s, p, tick, kill, r).broker)
  {
    if !s.HasPending() {
      ManageByCases(cfg, tickSize, s, p, tick, kill, r);
      var t := Tracked(s, p);
      var s1 := AfterBreakeven(cfg, tickSize, t, p, tick, r);
      BreakevenTightens(cfg, tickSize, t, p, tick, r);
      PartialTightens(cfg, tickSize, s1, t, p, tick, r);
    }
  }

  lemma StepTightens(cfg: Config, tickSize: real, ticket: int, s: Slot, e: Event)
    requires tickSize > 0.0 && !e.ChangedAtBroker?
    ensures RiskNotRaised(s.broker, Step(cfg, tickSize, ticket, s, e).broker)
  {
    if e.Managed? && s.broker.Some? {
      ManageTightens(cfg, tickSize, s, s.broker.value, e.tick, e.killSwitch, e.replies);
    }
  }

  /** Over any run in which nobody changes the position at the broker by hand, whatever replies
      are lost and whatever the operator or the kill switch do, the broker's stop never loosens,
      the volume never grows and a closed position stays closed. */
  lemma {:induction false} RiskNeverRaised(cfg: Config, tickSize: real, ticket: int, s: Slot, events: seq<Event>)
    requires tickSize > 0.0
    requires forall i :: 0 <= i < |events| ==> !events[i].ChangedAtBroker?
    ensures RiskNotRaised(s.broker, Run(cfg, tickSize, ticket, s, events).broker)
  {
    if events != [] {
      RiskNeverRaised(cfg, tickSize, ticket, s, events[..|events| - 1]);
      StepTightens(
        cfg, tickSize, ticket, Run(cfg, tickSize, ticket, s, events[..|events| - 1]), events[|events| - 1]);
    }
  }

  // ----- records and positions sit under their own tickets ----------------------------------

  predicate Own(ticket: int, s: Slot) {
    && (s.broker.Some? ==> s.broker.value.ticket == ticket)
    && (s.record.Some? ==> s.record.value.ticket == ticket)
  }

  lemma ApplyActionOwns(ticket: int, s: Slot, p: Position, a: Action, r: Replies)
    requires Own(ticket, s) && p.ticket == ticket && WellFormed(a)
    ensures Own(ticket, ApplyAction(s, p, a, r))
  {
  }

  lemma {:induction false} ApplyAllOwns(ticket: int, s: Slot, p: Position, actions: seq<Action>, r: Replies)
    requires Own(ticket, s) && p.ticket == ticket && forall a :: a in actions ==> WellFormed(a)
    ensures Own(ticket, ApplyAll(s, p, actions, r))
    decreases |actions|
  {
    if actions != [] {
      ApplyActionOwns(ticket, s, p, actions[0], r);
      hide ApplyAction, WellFormed, Own;
      ApplyAllOwns(ticket, ApplyAction(s, p, actions[0], r), p, actions[1..], r);
    }
  }

  lemma StepOwns(cfg: Config, tickSize: real, ticket: int, s: Slot, e: Event)
    requires tickSize > 0.0 && Own(ticket, s)
    ensures Own(ticket, Step(cfg, tickSize, ticket, s, e))
  {
    hide Evaluate, ApplyAll, HitsStop, HitsTarget;
    if e.Managed? && s.broker.Some? && !s.HasPending() {
      var p := s.broker.value;
      var t := Tracked(s, p);
      var actions := Evaluate(cfg, p, e.tick, tickSize, None, t.record.value, t.breakevenMoved, t.partialTaken);
      ActionsWellFormed(cfg, p, e.tick, tickSize, None, t.record.value, t.breakevenMoved, t.partialTaken);
      ApplyAllOwns(ticket, t, p, actions, e.replies);
    }
  }

  // ----- what volatility data would change -------------------------------------------------

  /** The inputs on which a breakeven stop is followed by a looser trailing stop. */
  predicate TrailUndoesBreakeven(
      cfg: Config, p: Position, tick: Tick, tickSize: real, atr: real, record: MonitorRecord, breakevenMoved: bool)
    requires tickSize > 0.0
  {
    var m := RMultiple(p, tick, tickSize);
    var even, trail := BreakevenStop(cfg, p, tickSize), TrailingStop(cfg, p, tick, atr);
    && record.pending.None? && m.Some? && !breakevenMoved
    && m.value >= cfg.breakevenTriggerR && Improves(p.direction, p.stopLoss, even)
    && cfg.enableTrailing && atr > 0.0 && m.value >= cfg.trailingTriggerR && Improves(p.direction, p.stopLoss, trail)
    && !(record.lastTrailingStop.Some? && Abs(trail - record.lastTrailingStop.value) < tickSize / 2.0)
    && Gain(p.direction, even, trail) < 0.0
  }

  ghost predicate LooserTrailFollows(d: Direction, actions: seq<Action>) {
    exists i, j :: 0 <= i < j < |actions| && actions[i].kind == MOVE_TO_BREAKEVEN && actions[j].kind == TRAIL_STOP
                   && !NoLooser(d, actions[i].newStop, actions[j].newStop)
  }

  /** The proposals in their three groups, each with at most one action of its kind. */
  lemma ProposedGroups(
      cfg: Config, p: Position, tick: Tick, tickSize: real, atr: real, record: MonitorRecord,
      breakevenMoved: bool, partialTaken: bool)
    returns (even: seq<Action>, part: seq<Action>, trail: seq<Action>)
    requires tickSize > 0.0
    ensures Evaluate(cfg, p, tick, tickSize, Some(atr), record, breakevenMoved, partialTaken) == even + part + trail
    ensures |even| <= 1 && |part| <= 1 && |trail| <= 1
    ensures record.pending.Some? ==> even == [] && part == [] && trail == []
    ensures even != [] ==> even == [Action(MOVE_TO_BREAKEVEN, Some(BreakevenStop(cfg, p, tickSize)), None)]
                           && Improves(p.direction, p.stopLoss, BreakevenStop(cfg, p, tickSize))
    ensures part != [] ==> part[0].kind == PARTIAL_EXIT && part[0].partialVolume.Some?
    ensures trail != [] ==> trail == [Action(TRAIL_STOP, Some(TrailingStop(cfg, p, tick, atr)), None)]
                            && Improves(p.direction, p.stopLoss, TrailingStop(cfg, p, tick, atr))
    ensures even != [] && trail != []
            && Gain(p.direction, BreakevenStop(cfg, p, tickSize), TrailingStop(cfg, p, tick, atr)) < 0.0
            <==> TrailUndoesBreakeven(cfg, p, tick, tickSize, atr, record, breakevenMoved)
  {
    hide RMultiple, BreakevenStop, TrailingStop, PartialVolume;
    even, part, trail := [], [], [];
    var m := RMultiple(p, tick, tickSize);
    if record.pending.None? && m.Some? {
      even := Breakeven(cfg, p, tickSize, m.value, breakevenMoved);
      part := Partial(cfg, p, m.value, record, partialTaken);
      trail := Trail(cfg, p, tick, tickSize, m.value, Some(atr), record);
    }
  }

  /** RESULT. With volatility data one evaluation proposes a breakeven stop and then a looser
      trailing stop exactly on these inputs. */
  lemma TrailAfterBreakeven(
      cfg: Config, p: Position, tick: Tick, tickSize: real, atr: real, record: MonitorRecord,
      breakevenMoved: bool, partialTaken: bool)
    requires tickSize > 0.0
    ensures LooserTrailFollows(
              p.direction, Evaluate(cfg, p, tick, tickSize, Some(atr), record, breakevenMoved, partialTaken))
            <==> TrailUndoesBreakeven(cfg, p, tick, tickSize, atr, record, breakevenMoved)
  {
    hide Evaluate, TrailUndoesBreakeven, BreakevenStop, TrailingStop;
    var even, part, trail := ProposedGroups(cfg, p, tick, tickSize, atr, record, breakevenMoved, partialTaken);
    var actions := even + part + trail;
    if even != [] && trail != [] {
      assert actions[0] == even[0] && actions[|actions| - 1] == trail[0];
    }
    if LooserTrailFollows(p.direction, actions) {
      var i, j :| 0 <= i < j < |actions| && actions[i].kind == MOVE_TO_BREAKEVEN && actions[j].kind == TRAIL_STOP
                  && !NoLooser(p.direction, actions[i].newStop, actions[j].newStop);
      assert even != [] && trail != [];
    }
  }

  function StopOf(s: Slot): Option<real> {
    if s.broker.Some? then s.broker.value.stopLoss else None
  }

  /** The stop that a list of accepted changes leaves. */
  function LastStop(stop: Option<real>, actions: seq<Action>): Option<real>
    decreases |actions|
  {
    if actions == [] then stop
    else LastStop(if actions[0].kind == PARTIAL_EXIT then stop else actions[0].newStop, actions[1..])
  }

  predicate Adjusts(a: Action) {
    WellFormed(a) && a.kind != FULL_EXIT
  }

  /** When every change is accepted, the broker ends with the last stop of the list. */
  lemma {:induction false} AcceptedStops(s: Slot, p: Position, actions: seq<Action>, r: Replies)
    requires s.broker.Some? && !s.HasPending() && r.breakeven.Done? && r.trail.Done? && r.partial.Done?
    requires forall i :: 0 <= i < |actions| ==> Adjusts(actions[i])
    ensures forall a :: a in actions ==> WellFormed(a)
    ensures ApplyAll(s, p, actions, r).broker.Some?
            && StopOf(ApplyAll(s, p, actions, r)) == LastStop(StopOf(s), actions)
    decreases |actions|
  {
    if actions != [] {
      var s' := ApplyAction(s, p, actions[0], r);
      assert Adjusts(actions[0]);
      assert forall i :: 0 <= i < |actions[1..]| ==> actions[1..][i] == actions[i + 1];
      AcceptedStops(s', p, actions[1..], r);
    }
  }

  lemma {:induction false} LastStopConcat(stop: Option<real>, xs: seq<Action>, ys: seq<Action>)
    ensures LastStop(stop, xs + ys) == LastStop(LastStop(stop, xs), ys)
    decreases |xs|
  {
    if xs == [] {
      assert xs + ys == ys;
    } else {
      assert (xs + ys)[1..] == xs[1..] + ys;
      LastStopConcat(if xs[0].kind == PARTIAL_EXIT then stop else xs[0].newStop, xs[1..], ys);
    }
  }

  /** The last stop is the one before, or one of the list. */
  lemma {:induction false} LastStopIsOne(stop: Option<real>, actions: seq<Action>)
    ensures LastStop(stop, actions) == stop ||
            exists a :: a in actions && a.kind != PARTIAL_EXIT && LastStop(stop, actions) == a.newStop
    decreases |actions|
  {
    if actions != [] {
      var next := if actions[0].kind == PARTIAL_EXIT then stop else actions[0].newStop;
      LastStopIsOne(next, actions[1..]);
    }
  }

  ghost predicate LoosensAfter(s: Slot, p: Position, actions: seq<Action>, k: int, r: Replies)
    requires 0 <= k <= |actions| && forall a :: a in actions ==> WellFormed(a)
  {
    assert forall a :: a in actions[..k] ==> a in actions;
    !NoLooser(p.direction, StopOf(ApplyAll(s, p, actions[..k], r)), StopOf(ApplyAll(s, p, actions, r)))
  }

  ghost predicate LoosensSometime(s: Slot, p: Position, actions: seq<Action>, r: Replies)
    requires forall a :: a in actions ==> WellFormed(a)
  {
    exists k :: 0 <= k <= |actions| && LoosensAfter(s, p, actions, k, r)
  }

  ghost predicate Groups(
      even: seq<Action>, part: seq<Action>, trail: seq<Action>, d: Direction, stop: Option<real>, b: real, t: real)
  {
    && |even| <= 1 && |part| <= 1 && |trail| <= 1
    && (even != [] ==> even == [Action(MOVE_TO_BREAKEVEN, Some(b), None)] && Improves(d, stop, b))
    && (part != [] ==> part[0].kind == PARTIAL_EXIT && part[0].partialVolume.Some?)
    && (trail != [] ==> trail == [Action(TRAIL_STOP, Some(t), None)] && Improves(d, stop, t))
  }

  lemma GroupedStops(
      even: seq<Action>, part: seq<Action>, trail: seq<Action>, d: Direction, stop: Option<real>, b: real, t: real)
    requires Groups(even, part, trail, d, stop, b, t)
    ensures LastStop(stop, even) == if even == [] then stop else Some(b)
    ensures LastStop(stop, even + part + trail) == if trail != [] then Some(t) else LastStop(stop, even)
  {
    LastStopConcat(stop, even + part, trail);
    LastStopConcat(stop, even, part);
  }

  /** Whichever prefix has been applied, only the trailing stop can undo something. */
  lemma PrefixStops(
      even: seq<Action>, part: seq<Action>, trail: seq<Action>, d: Direction, stop: Option<real>, b: real, t: real,
      k: nat)
    requires Groups(even, part, trail, d, stop, b, t) && k <= |even + part + trail|
    ensures var actions := even + part + trail;
            !NoLooser(d, LastStop(stop, actions[..k]), LastStop(stop, actions)) ==>
              even != [] && trail != [] && Gain(d, b, t) < 0.0
  {
    var actions := even + part + trail;
    GroupedStops(even, part, trail, d, stop, b, t);
    LastStopIsOne(stop, actions[..k]);
    var reached := LastStop(stop, actions[..k]);
    if reached != stop {
      var a :| a in actions[..k] && a.kind != PARTIAL_EXIT && reached == a.newStop;
      assert a in even || a in trail;
    }
  }

  lemma AllWellFormed(actions: seq<Action>)
    requires forall i :: 0 <= i < |actions| ==> Adjusts(actions[i])
    ensures forall a :: a in actions ==> WellFormed(a)
  {
  }

  lemma NothingLoosens(s: Slot, p: Position, r: Replies)
    requires s.broker == Some(p)
    ensures !LoosensSometime(s, p, [], r)
  {
    var none: seq<Action> := [];
    assert none[..0] == none;
    assert !LoosensAfter(s, p, none, 0, r);
  }

  lemma StrictlyLooser(d: Direction, b: real, t: real)
    requires Gain(d, b, t) < 0.0
    ensures !NoLooser(d, Some(b), Some(t))
  {
  }

  /** The broker's stop after every prefix of the list. */
  lemma AppliedStops(s: Slot, p: Position, actions: seq<Action>, r: Replies)
    requires s.broker == Some(p) && !s.HasPending() && r.breakeven.Done? && r.trail.Done? && r.partial.Done?
    requires forall i :: 0 <= i < |actions| ==> Adjusts(actions[i])
    ensures forall a :: a in actions ==> WellFormed(a)
    ensures forall k :: 0 <= k <= |actions| ==>
              (LoosensAfter(s, p, actions, k, r)
               <==> !NoLooser(p.direction, LastStop(p.stopLoss, actions[..k]), LastStop(p.stopLoss, actions)))
  {
    hide ApplyAll, LastStop, NoLooser;
    AcceptedStops(s, p, actions, r);
    forall k | 0 <= k <= |actions|
      ensures LoosensAfter(s, p, actions, k, r)
              <==> !NoLooser(p.direction, LastStop(p.stopLoss, actions[..k]), LastStop(p.stopLoss, actions))
    {
      AcceptedStops(s, p, actions[..k], r);
    }
  }

  /** RESULT. When the broker accepts every change, its final stop is looser than one it held
      during the same pass exactly on these inputs. */
  lemma TrailLoosensBrokerStop(
      cfg: Config, s: Slot, p: Position, tick: Tick, tickSize: real, atr: real, r: Replies)
    requires tickSize > 0.0 && s.broker == Some(p) && s.record.Some?
    requires r.breakeven.Done? && r.trail.Done? && r.partial.Done?
    ensures var actions := Evaluate(cfg, p, tick, tickSize, Some(atr), s.record.value, s.breakevenMoved,
                                    s.partialTaken);
            && (forall a :: a in actions ==> WellFormed(a))
            && (LoosensSometime(s, p, actions, r)
                <==> TrailUndoesBreakeven(cfg, p, tick, tickSize, atr, s.record.value, s.breakevenMoved))
  {
    hide Evaluate, TrailUndoesBreakeven, BreakevenStop, TrailingStop, ApplyAll, LastStop, Improves, NoLooser;
    var even, part, trail := ProposedGroups(
      cfg, p, tick, tickSize, atr, s.record.value, s.breakevenMoved, s.partialTaken);
    var actions := even + part + trail;
    var b, t := BreakevenStop(cfg, p, tickSize), TrailingStop(cfg, p, tick, atr);
    assert Groups(even, part, trail, p.direction, p.stopLoss, b, t);
    assert forall i :: 0 <= i < |actions| ==> Adjusts(actions[i]);
    AllWellFormed(actions);
    if s.HasPending() {
      assert actions == [];
      assert !LoosensSometime(s, p, actions, r) by {
        NothingLoosens(s, p, r);
      }
    } else {
      AppliedStops(s, p, actions, r);
      forall k | 0 <= k <= |actions| && LoosensAfter(s, p, actions, k, r)
        ensures even != [] && trail != [] && Gain(p.direction, b, t) < 0.0
      {
        PrefixStops(even, part, trail, p.direction, p.stopLoss, b, t, k);
      }
      if even != [] && trail != [] && Gain(p.direction, b, t) < 0.0 {
        GroupedStops(even, part, trail, p.direction, p.stopLoss, b, t);
        assert actions[..1] == even;
        StrictlyLooser(p.direction, b, t);
        assert LoosensAfter(s, p, actions, 1, r);
      }
    }
  }

  const DEFAULTS := Config(1.0, 5.0, true, 1.5, 1.5, true, 1.0, 0.5)

  /** It does happen, with the default settings: bought at 2000 with the stop at 1990, bid 2015 and
      a range of 11, the list moves the stop to 2000.05 and then back to 1998.5. */
  lemma TrailCanLoosen()
    ensures var p := Position(1, Buy, 1.0, 2000.0, Some(1990.0), None);
            var actions := Evaluate(DEFAULTS, p, Tick(2015.0, 2015.2), 0.01, Some(11.0), FirstRecord(p), false, false);
            && |actions| == 3
            && actions[0] == Action(MOVE_TO_BREAKEVEN, Some(2000.05), None)
            && actions[2] == Action(TRAIL_STOP, Some(1998.5), None)
  {
    var p := Position(1, Buy, 1.0, 2000.0, Some(1990.0), None);
    assert RMultiple(p, Tick(2015.0, 2015.2), 0.01) == Some(1.5);
  }
}
