/** The trading loop as an object (app/runtime/loop.py), LIVE mode. It recovers its state when it is
    built; one cycle manages every open position and then, if flat and the kill switch is off,
    evaluates one new entry, which ends in at most one order sent through the execution engine.
    The journal and the equity baselines are not part of this model. */
module TradingLoop {
  import opened Common
  import opened PositionModel
  import opened PositionSafety
  import opened PositionMonitor
  import opened Reconciliation
  import BrokerTags
  import Engine = ExecutionEngine
  import Protocol = ExecutionProtocol

  datatype Call = Call(ticket: int, kind: Kind)

  /** The broker's open positions, by ticket, and a log of the calls it received. A lost reply
      stands for an exception that the execution engine turns into an unknown outcome. */
  class BrokerBook {
    var positions: map<int, Position>
    ghost var truth: map<int, Truth>
    ghost var calls: seq<Call>

    constructor ()
      ensures positions == map[] && truth == map[] && calls == []
    {
      positions, truth, calls := map[], map[], [];
    }

    ghost function TruthOf(ticket: int): Truth
      reads this
    {
      if ticket in truth then truth[ticket] else NOTHING_YET
    }

    function PositionOf(ticket: int): Option<Position>
      reads this
    {
      if ticket in positions then Some(positions[ticket]) else None
    }

    method Modify(ghost s: Slot, ticket: int, kind: Kind, stop: Option<real>, target: Option<real>, reply: Reply)
      requires s.broker == PositionOf(ticket) && s.truth == TruthOf(ticket)
      modifies this
      ensures var s' := if reply.Happened() then BrokerModify(s, kind, stop, target) else s;
              PositionOf(ticket) == s'.broker && TruthOf(ticket) == s'.truth
      ensures OthersKept(ticket) && calls == old(calls) + [Call(ticket, kind)]
    {
      calls := calls + [Call(ticket, kind)];
      if reply.Happened() && ticket in positions {
        var p := positions[ticket];
        if stop.Some? {
          p := p.(stopLoss := stop);
        }
        if target.Some? {
          p := p.(takeProfit := target);
        }
        positions := positions[ticket := p];
        ghost var t := TruthOf(ticket);
        truth := truth[ticket := t.(breakevens := t.breakevens + if kind == MOVE_TO_BREAKEVEN then 1 else 0)];
      }
    }

    method ClosePartial(ghost s: Slot, ticket: int, volume: real, reply: Reply)
      requires s.broker == PositionOf(ticket) && s.truth == TruthOf(ticket)
      modifies this
      ensures var s' := if reply.Happened() then BrokerReduce(s, volume) else s;
              PositionOf(ticket) == s'.broker && TruthOf(ticket) == s'.truth
      ensures OthersKept(ticket) && calls == old(calls) + [Call(ticket, PARTIAL_EXIT)]
    {
      calls := calls + [Call(ticket, PARTIAL_EXIT)];
      if reply.Happened() && ticket in positions {
        positions := positions[ticket := positions[ticket].(volume := positions[ticket].volume - volume)];
        ghost var t := TruthOf(ticket);
        truth := truth[ticket := t.(partials := t.partials + 1)];
      }
    }

    method Close(ticket: int, reply: Reply)
      modifies this
      ensures PositionOf(ticket) == if reply.Happened() then None else old(PositionOf(ticket))
      ensures TruthOf(ticket) == old(TruthOf(ticket))
      ensures OthersKept(ticket) && calls == old(calls) + [Call(ticket, FULL_EXIT)]
    {
      calls := calls + [Call(ticket, FULL_EXIT)];
      if reply.Happened() {
        positions := map t | t in positions && t != ticket :: positions[t];
      }
    }

    twostate predicate OthersKept(ticket: int)
      reads this
    {
      forall t :: t != ticket ==> PositionOf(t) == old(PositionOf(t)) && TruthOf(t) == old(TruthOf(t))
    }

    /** The broker fills an order. */
    method Open(p: Position)
      modifies this
      ensures positions == old(positions)[p.ticket := p] && calls == old(calls)
      ensures forall t :: TruthOf(t) == old(TruthOf(t))
    {
      positions := positions[p.ticket := p];
    }

    /** The position is closed at the broker: by its stop, its target or by hand. */
    method CloseOutside(ticket: int)
      modifies this
      ensures PositionOf(ticket) == None && TruthOf(ticket) == old(TruthOf(ticket))
      ensures OthersKept(ticket) && calls == old(calls)
    {
      positions := map t | t in positions && t != ticket :: positions[t];
    }

    /** The position is changed by hand at the broker. */
    method ChangeOutside(ticket: int, volume: real, stopLoss: Option<real>, takeProfit: Option<real>)
      modifies this
      ensures var p := old(PositionOf(ticket));
              PositionOf(ticket) ==
              if p.None? then None
              else Some(p.value.(volume := volume, stopLoss := stopLoss, takeProfit := takeProfit))
      ensures TruthOf(ticket) == old(TruthOf(ticket)) && positions.Keys == old(positions.Keys)
      ensures OthersKept(ticket) && calls == old(calls)
    {
      if ticket in positions {
        positions := positions[
          ticket := positions[ticket].(volume := volume, stopLoss := stopLoss, takeProfit := takeProfit)];
      }
    }

    /** The open positions in some order. */
    method List() returns (listing: seq<Position>)
      requires forall t :: t in positions ==> positions[t].ticket == t
      ensures forall t :: Listed(listing, t) == PositionOf(t)
      ensures forall p :: p in listing ==> p.ticket in positions
    {
      listing := [];
      var tickets := ListOf(positions.Keys);
      for i := 0 to |tickets|
        invariant forall t :: Listed(listing, t) == if t in tickets[..i] then PositionOf(t) else None
        invariant forall p :: p in listing ==> p.ticket in positions
      {
        var p := positions[tickets[i]];
        assert p.ticket == tickets[i];
        assert tickets[..i + 1] == tickets[..i] + [tickets[i]];
        forall t
          ensures Listed(listing + [p], t) == if t == p.ticket then Some(p) else Listed(listing, t)
        {
          ListedSnoc(listing, p, t);
        }
        listing := listing + [p];
      }
      assert tickets[..|tickets|] == tickets;
    }

    ghost method Learn(ticket: int, happened: bool)
      modifies this`truth
      ensures TruthOf(ticket) == old(TruthOf(ticket)).(pendingHappened := happened)
      ensures forall t :: t != ticket ==> TruthOf(t) == old(TruthOf(t))
    {
      truth := truth[ticket := TruthOf(ticket).(pendingHappened := happened)];
    }
  }

  /** One evaluation for a new entry that got as far as an order: what is sent, the execution
      engine's own reading of the kill switch and the account, and what the broker makes of the
      order if it gets there: the position it opens, if any, and its reply. */
  datatype Attempt = Attempt(
    id: string, order: Protocol.Order, killSwitch: bool, account: Option<bool>,
    filled: Option<Position>, reply: Protocol.Reply, auditOk: bool, now: int)
  {
    function Truth(): Option<int> {
      if filled.Some? then Some(filled.value.ticket) else None
    }
  }

  function PassOf(tick: Tick, force: bool, killSwitch: bool, r: Replies): Event {
    if force then ForceClosed(r.close) else Managed(tick, killSwitch, r)
  }

  /** What the outside world contributes to one cycle. */
  datatype Cycle = Cycle(
    accountKnown: bool, tick: Option<Tick>, killSwitch: bool, closePositions: bool,
    replies: int -> Replies, entry: Option<Attempt>)
  {
    /** The cycle gets as far as managing positions. */
    predicate Completes() {
      accountKnown && tick.Some?
    }

    predicate Forces() {
      killSwitch && closePositions
    }

    /** What the cycle does to a ticket. */
    function Pass(ticket: int): Event
      requires Completes()
    {
      PassOf(tick.value, Forces(), killSwitch, replies(ticket))
    }
  }

  /** Positions are closed by force exactly under a kill switch that asks for it; otherwise a cycle
      manages them, with or without the kill switch. */
  lemma PassExactly(c: Cycle, ticket: int)
    requires c.accountKnown && c.tick.Some?
    ensures c.Completes()
    ensures c.killSwitch && c.closePositions ==> c.Pass(ticket) == ForceClosed(c.replies(ticket).close)
    ensures !c.killSwitch || !c.closePositions ==>
              c.Pass(ticket) == Managed(c.tick.value, c.killSwitch, c.replies(ticket))
  {
  }

  /** A position just opened at the broker, seen from a ticket. */
  function Entered(ticket: int, s: Slot, gained: Option<Position>): Slot {
    if gained.Some? && gained.value.ticket == ticket then s.(broker := gained) else s
  }

  /** What a cycle's evaluation for an entry can be for the broker and for the engine. A new
      position is the fill of the order that this cycle sent. */
  ghost predicate Evaluates(c: Cycle, gained: Option<Position>, step: Protocol.Step) {
    && (step.DoSubmit? ==>
          && c.Completes() && !c.killSwitch && c.entry.Some?
          && var a := c.entry.value; step == Protocol.DoSubmit(a.id, a.order, step.admitted, a.Truth(), a.reply, a.now))
    && (!step.DoSubmit? ==> step == Protocol.DoRestart)
    && (gained.Some? ==> step.DoSubmit? && step.admitted && gained == c.entry.value.filled)
  }

  /** The stored records in some order. */
  method AllRecords(store: MonitorStore) returns (records: seq<MonitorRecord>)
    requires forall t :: t in store.records ==> store.records[t].ticket == t
    ensures forall t :: OpenRecord(records, t) ==
                        if t in store.records && !store.records[t].closed then Some(store.records[t]) else None
  {
    records := [];
    var tickets := ListOf(store.records.Keys);
    for i := 0 to |tickets|
      invariant forall t :: OpenRecord(records, t) ==
                            if t in tickets[..i] && !store.records[t].closed then Some(store.records[t]) else None
    {
      var r := store.records[tickets[i]];
      assert r.ticket == tickets[i];
      assert tickets[..i + 1] == tickets[..i] + [tickets[i]];
      forall t
        ensures OpenRecord(records + [r], t) == if t == r.ticket && !r.closed then Some(r) else OpenRecord(records, t)
      {
        OpenRecordSnoc(records, r, t);
      }
      records := records + [r];
    }
    assert tickets[..|tickets|] == tickets;
  }

  class Loop {
    const monitor: Monitor
    const broker: BrokerBook
    const engine: Engine.Engine
    const tickSize: real
    var startupDiscrepancies: seq<Discrepancy>

    /** Positions and records sit under their own tickets. */
    ghost predicate Valid()
      reads monitor, monitor.store, broker, engine.store
    {
      tickSize > 0.0 && engine.Valid() && forall t :: Own(t, SlotOf(t))
    }

    /** The tickets that wait for a lost reply. */
    ghost function Waiting(): set<int>
      reads monitor.store
    {
      set t | t in monitor.store.records && monitor.store.records[t].pending.Some?
    }

    ghost function SlotOf(ticket: int): Slot
      reads monitor, monitor.store, broker
    {
      monitor.SlotOf(ticket, broker.PositionOf(ticket), broker.TruthOf(ticket))
    }

    /** Startup: a new monitor over the stored records, which are compared with the positions the
        broker lists; a failed listing counts as an empty one. */
    constructor (
        config: Config, store: MonitorStore, broker: BrokerBook, engine: Engine.Engine, tickSize: real, listed: bool)
      requires tickSize > 0.0 && engine.Valid()
      requires forall t :: Own(t, Slot(broker.PositionOf(t), store.Get(t), false, false, broker.TruthOf(t)))
      ensures Valid() && fresh(monitor)
      ensures monitor.config == config && monitor.store == store && this.broker == broker
      ensures this.engine == engine && this.tickSize == tickSize
      ensures forall t ::
                SlotOf(t) == Restart(Slot(broker.PositionOf(t), store.Get(t), false, false, broker.TruthOf(t)))
      ensures forall d :: d in startupDiscrepancies <==>
                Reported(d.kind, LiveRecord(SlotOf(d.ticket)), if listed then broker.PositionOf(d.ticket) else None,
                         DEFAULT_TOLERANCE)
    {
      this.monitor := new Monitor(config, store);
      this.broker, this.engine, this.tickSize := broker, engine, tickSize;
      startupDiscrepancies := [];
      new;
      forall t
        ensures Own(t, SlotOf(t))
      {
        assert Own(t, Slot(broker.PositionOf(t), store.Get(t), false, false, broker.TruthOf(t)));
      }
      startupDiscrepancies := Recover(listed);
    }

    /** Compares the stored records with the positions the broker lists. */
    method Recover(listed: bool) returns (found: seq<Discrepancy>)
      requires Valid()
      ensures forall d :: d in found <==>
                Reported(d.kind, LiveRecord(SlotOf(d.ticket)), if listed then broker.PositionOf(d.ticket) else None,
                         DEFAULT_TOLERANCE)
    {
      hide Reported;
      assert forall t :: t in broker.positions ==> Own(t, SlotOf(t));
      assert forall t :: t in monitor.store.records ==> Own(t, SlotOf(t));
      var listing := [];
      if listed {
        listing := broker.List();
      }
      var stored := AllRecords(monitor.store);
      var records;
      records, found := RecoverState(Read(stored), listing);
      forall t
        ensures OpenRecord(stored, t) == LiveRecord(SlotOf(t))
        ensures Listed(listing, t) == if listed then broker.PositionOf(t) else None
      {
      }
    }

    twostate predicate OtherSlotsKept(ticket: int)
      reads monitor, monitor.store, broker
    {
      forall t :: t != ticket ==> SlotOf(t) == old(SlotOf(t))
    }

    /** Any number of calls, all about this ticket. */
    twostate predicate CalledOnly(ticket: int)
      reads broker
    {
      && old(broker.calls) <= broker.calls
      && forall i :: |old(broker.calls)| <= i < |broker.calls| ==> broker.calls[i].ticket == ticket
    }

    method ApplyModifyAction(p: Position, a: Action, reply: Reply)
      requires a.newStop.Some?
      modifies monitor, monitor.store, broker
      ensures SlotOf(p.ticket) == ApplyModify(old(SlotOf(p.ticket)), p, a, reply)
      ensures OtherSlotsKept(p.ticket) && CalledOnly(p.ticket)
    {
      ghost var s := SlotOf(p.ticket);
      broker.Modify(s, p.ticket, a.kind, a.newStop, p.takeProfit, reply);
      assert SlotOf(p.ticket) == if reply.Happened() then BrokerModify(s, a.kind, a.newStop, p.takeProfit) else s;
      match reply
      case Lost(happened) =>
        monitor.RecordPendingAction(p.ticket, a.kind, a.newStop, None);
        broker.Learn(p.ticket, happened);
      case Done =>
        if a.kind == MOVE_TO_BREAKEVEN {
          monitor.MarkBreakevenApplied(p.ticket, a.newStop);
        } else {
          monitor.MarkTrailingApplied(p.ticket, a.newStop.value);
        }
      case Refused =>
    }

    method ApplyPartialExit(p: Position, a: Action, reply: Reply)
      requires a.partialVolume.Some?
      modifies monitor, monitor.store, broker
      ensures SlotOf(p.ticket) == ApplyPartial(old(SlotOf(p.ticket)), p, a, reply)
      ensures OtherSlotsKept(p.ticket) && CalledOnly(p.ticket)
    {
      ghost var s := SlotOf(p.ticket);
      broker.ClosePartial(s, p.ticket, a.partialVolume.value, reply);
      assert SlotOf(p.ticket) == if reply.Happened() then BrokerReduce(s, a.partialVolume.value) else s;
      match reply
      case Lost(happened) =>
        monitor.RecordPendingAction(p.ticket, PARTIAL_EXIT, None, a.partialVolume);
        broker.Learn(p.ticket, happened);
      case Done => monitor.MarkPartialTaken(p.ticket, a.partialVolume);
      case Refused =>
    }

    method CloseAndJournalPosition(p: Position, reply: Reply)
      modifies monitor, monitor.store, broker
      ensures SlotOf(p.ticket) == CloseAndJournal(old(SlotOf(p.ticket)), p, reply)
      ensures OtherSlotsKept(p.ticket) && CalledOnly(p.ticket)
    {
      broker.Close(p.ticket, reply);
      match reply
      case Lost(happened) =>
        monitor.RecordPendingAction(p.ticket, FULL_EXIT, None, None);
        broker.Learn(p.ticket, happened);
      case Done => monitor.ForgetTicket(p.ticket);
      case Refused =>
    }

    method ApplyOne(p: Position, a: Action, r: Replies)
      requires WellFormed(a)
      modifies monitor, monitor.store, broker
      ensures SlotOf(p.ticket) == ApplyAction(old(SlotOf(p.ticket)), p, a, r)
      ensures OtherSlotsKept(p.ticket) && CalledOnly(p.ticket)
    {
      match a.kind
      case MOVE_TO_BREAKEVEN => ApplyModifyAction(p, a, r.breakeven);
      case TRAIL_STOP => ApplyModifyAction(p, a, r.trail);
      case PARTIAL_EXIT => ApplyPartialExit(p, a, r.partial);
      case FULL_EXIT => CloseAndJournalPosition(p, r.close);
    }

    /** Applies the proposed actions until one is left pending. */
    method ApplyActions(p: Position, actions: seq<Action>, r: Replies) returns (pending: bool)
      requires forall a :: a in actions ==> WellFormed(a)
      requires !SlotOf(p.ticket).HasPending()
      modifies monitor, monitor.store, broker
      ensures SlotOf(p.ticket) == ApplyAll(old(SlotOf(p.ticket)), p, actions, r)
      ensures pending <==> SlotOf(p.ticket).HasPending()
      ensures OtherSlotsKept(p.ticket) && CalledOnly(p.ticket)
    {
      ghost var goal := ApplyAll(SlotOf(p.ticket), p, actions, r);
      pending := false;
      var i := 0;
      while i < |actions|
        invariant 0 <= i <= |actions|
        invariant !SlotOf(p.ticket).HasPending()
        invariant ApplyAll(SlotOf(p.ticket), p, actions[i..], r) == goal
        invariant OtherSlotsKept(p.ticket) && CalledOnly(p.ticket)
      {
        assert actions[i..][0] == actions[i] && actions[i..][1..] == actions[i + 1..];
        ApplyOne(p, actions[i], r);
        pending := monitor.HasPending(p.ticket);
        if pending {
          return;
        }
        i := i + 1;
      }
    }

    method ManagePosition(p: Position, tick: Tick, killSwitch: bool, r: Replies)
      requires tickSize > 0.0
      modifies monitor, monitor.store, broker
      ensures SlotOf(p.ticket) == Manage(monitor.config, tickSize, old(SlotOf(p.ticket)), p, tick, killSwitch, r)
      ensures OtherSlotsKept(p.ticket) && CalledOnly(p.ticket)
      ensures old(SlotOf(p.ticket)).HasPending() ==> broker.calls == old(broker.calls)
    {
      var pending := monitor.HasPending(p.ticket);
      if pending {
        return;
      }
      ghost var s := SlotOf(p.ticket);
      var actions := monitor.EvaluatePosition(p, tick, tickSize, None);
      assert SlotOf(p.ticket) == Tracked(s, p);
      ActionsWellFormed(monitor.config, p, tick, tickSize, None, monitor.store.records[p.ticket],
                        p.ticket in monitor.breakevenMoved, p.ticket in monitor.partialTaken);
      pending := ApplyActions(p, actions, r);
      if pending {
        return;
      }
      if HitsStop(p, tick) {
        CloseAndJournalPosition(p, r.close);
      } else if !killSwitch && HitsTarget(p, tick) {
        CloseAndJournalPosition(p, r.close);
      }
    }

    method ManageOrClose(p: Position, tick: Tick, force: bool, killSwitch: bool, r: Replies)
      requires tickSize > 0.0 && SlotOf(p.ticket).broker == Some(p)
      modifies monitor, monitor.store, broker
      ensures SlotOf(p.ticket) ==
              Step(monitor.config, tickSize, p.ticket, old(SlotOf(p.ticket)), PassOf(tick, force, killSwitch, r))
      ensures OtherSlotsKept(p.ticket) && CalledOnly(p.ticket)
      ensures !force && old(SlotOf(p.ticket)).HasPending() ==> broker.calls == old(broker.calls)
    {
      hide Manage, CloseAndJournal;
      if force {
        CloseAndJournalPosition(p, r.close);
      } else {
        ManagePosition(p, tick, killSwitch, r);
      }
    }

    /** The management phase: every listed ticket gets one pass, or one force-close. A ticket with
        a pending action receives no call at all except a force-close. */
    method ManageAll(tick: Tick, force: bool, killSwitch: bool, replies: int -> Replies)
      requires Valid()
      modifies monitor, monitor.store, broker
      ensures Valid()
      ensures forall t ::
                SlotOf(t) == Step(monitor.config, tickSize, t, old(SlotOf(t)),
                                  PassOf(tick, force, killSwitch, replies(t)))
      ensures forall t :: RiskNotRaised(old(broker.PositionOf(t)), broker.PositionOf(t))
      ensures old(broker.calls) <= broker.calls
      ensures forall i :: |old(broker.calls)| <= i < |broker.calls| ==>
                force || broker.calls[i].ticket !in old(Waiting())
    {
      hide Step, Own;
      var tickets := ListOf(broker.positions.Keys);
      var listed := broker.positions;
      for i := 0 to |tickets|
        invariant forall k :: 0 <= k < i ==>
                    SlotOf(tickets[k]) == Passed(old(SlotOf(tickets[k])), tickets[k], tick, force, killSwitch, replies)
        invariant forall t :: t !in tickets[..i] ==> SlotOf(t) == old(SlotOf(t))
        invariant old(broker.calls) <= broker.calls
        invariant forall c :: |old(broker.calls)| <= c < |broker.calls| ==>
                    force || broker.calls[c].ticket !in old(Waiting())
      {
        var p := listed[tickets[i]];
        assert old(SlotOf(tickets[i])).broker == Some(p);
        assert p.ticket == tickets[i] by {
          KeptUnderOwnTicket(tickets[i], old(SlotOf(tickets[i])));
        }
        assert tickets[..i + 1] == tickets[..i] + [tickets[i]];
        assert forall k :: 0 <= k < i ==> tickets[k] != tickets[i];
        ManageOrClose(p, tick, force, killSwitch, replies(p.ticket));
      }
      forall t
        ensures SlotOf(t) == Passed(old(SlotOf(t)), t, tick, force, killSwitch, replies) && Own(t, SlotOf(t))
        ensures RiskNotRaised(old(broker.PositionOf(t)), broker.PositionOf(t))
      {
        StepTightens(monitor.config, tickSize, t, old(SlotOf(t)), PassOf(tick, force, killSwitch, replies(t)));
        StepOwns(monitor.config, tickSize, t, old(SlotOf(t)), PassOf(tick, force, killSwitch, replies(t)));
        if old(SlotOf(t)).broker.None? {
          PassOverNothing(t, old(SlotOf(t)), tick, force, killSwitch, replies(t));
        }
      }
    }

    /** The calls act only on a position the broker still lists. */
    lemma PassOverNothing(ticket: int, s: Slot, tick: Tick, force: bool, killSwitch: bool, r: Replies)
      requires tickSize > 0.0 && s.broker.None?
      ensures Step(monitor.config, tickSize, ticket, s, PassOf(tick, force, killSwitch, r)) == s
    {
    }

    lemma KeptUnderOwnTicket(ticket: int, s: Slot)
      requires Own(ticket, s) && s.broker.Some?
      ensures s.broker.value.ticket == ticket
    {
    }

    ghost function Passed(
        s: Slot, ticket: int, tick: Tick, force: bool, killSwitch: bool, replies: int -> Replies): Slot
      requires tickSize > 0.0
    {
      Step(monitor.config, tickSize, ticket, s, PassOf(tick, force, killSwitch, replies(ticket)))
    }

    /** The order gets past the engine's checks and is sent. */
    ghost predicate Sends(a: Attempt)
      reads engine.store
    {
      !Protocol.Blocked(engine.store.records, a.id) && engine.Admitted(a.order, a.killSwitch, a.account)
    }

    /** Sends the order of an approved signal. The broker opens what it opens whether or not its
        reply arrives. */
    method SubmitEntry(a: Attempt) returns (ghost gained: Option<Position>)
      requires engine.Valid()
      modifies engine.store, engine.broker, broker
      ensures engine.Valid()
      ensures gained == if old(Sends(a)) then a.filled else None
      ensures engine.View() == Protocol.Apply(old(engine.View()), StepOf(a, old(Sends(a))), engine.crc)
      ensures engine.broker.fills == old(engine.broker.fills) + NewFill(a, gained)
      ensures broker.calls == old(broker.calls)
      ensures broker.positions ==
              if gained.Some? then old(broker.positions)[gained.value.ticket := gained.value] else old(broker.positions)
      ensures forall t :: SlotOf(t) == Entered(t, old(SlotOf(t)), gained)
    {
      var sent := !Protocol.Blocked(engine.store.records, a.id) && engine.Admitted(a.order, a.killSwitch, a.account);
      gained := if sent then a.filled else None;
      var outcome := engine.SubmitMarketOrder(
        a.order, a.id, a.killSwitch, a.account, a.Truth(), a.reply, a.auditOk, a.now);
      if sent && a.filled.Some? {
        broker.Open(a.filled.value);
      }
    }

    /** A position opened by the order is a fill of its id. */
    ghost function NewFill(a: Attempt, gained: Option<Position>): seq<Protocol.Fill> {
      if gained.None? then [] else [FillOf(a, gained.value)]
    }

    ghost function FillOf(a: Attempt, p: Position): Protocol.Fill {
      Protocol.Fill(a.id, p.ticket, BrokerTags.Tag(a.id, engine.crc))
    }

    ghost function StepOf(a: Attempt, admitted: bool): Protocol.Step {
      Protocol.DoSubmit(a.id, a.order, admitted, a.Truth(), a.reply, a.now)
    }

    /** One cycle. The entry is evaluated only if the cycle gets that far, nothing is open after
        management and the kill switch is off. */
    method RunOnce(c: Cycle) returns (ghost gained: Option<Position>, ghost step: Protocol.Step)
      requires Valid()
      modifies monitor, monitor.store, broker, engine.store, engine.broker
      ensures Valid()
      ensures |old(broker.positions)| <= 1 ==> |broker.positions| <= 1
      ensures c.killSwitch ==> broker.positions.Keys <= old(broker.positions.Keys)
      ensures forall t :: gained.None? || gained.value.ticket != t ==>
                RiskNotRaised(old(broker.PositionOf(t)), broker.PositionOf(t))
      ensures forall t ::
                var s := old(SlotOf(t));
                SlotOf(t) ==
                Entered(t, if c.Completes() then Step(monitor.config, tickSize, t, s, c.Pass(t)) else s, gained)
      ensures engine.View() == Protocol.Apply(old(engine.View()), step, engine.crc)
      ensures Evaluates(c, gained, step)
      ensures engine.broker.fills ==
              old(engine.broker.fills) + if gained.None? then [] else NewFill(c.entry.value, gained)
      ensures forall i :: |old(broker.calls)| <= i < |broker.calls| ==>
                (c.killSwitch && c.closePositions) || broker.calls[i].ticket !in old(Waiting())
    {
      gained, step := None, Protocol.DoRestart;
      if !c.Completes() {
        return;
      }
      ManageAll(c.tick.value, c.Forces(), c.killSwitch, c.replies);
      forall t | t in broker.positions
        ensures t in old(broker.positions)
      {
        assert RiskNotRaised(old(broker.PositionOf(t)), broker.PositionOf(t));
      }
      KeysBound(broker.positions, old(broker.positions));
      if broker.positions == map[] && !c.killSwitch && c.entry.Some? {
        step := StepOf(c.entry.value, Sends(c.entry.value));
        gained := SubmitEntry(c.entry.value);
      }
    }
  }
}
