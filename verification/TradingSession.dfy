/** The trading process over its whole life (app/runtime/loop.py): cycles, and between them whatever
    else can happen to its positions and orders. Positions are closed or changed at the broker, an
    operator clears or confirms pending actions and resolves orders, the engine reconciles, and the
    process restarts over the same stores. */
module TradingSession {
  import BrokerTags
  import opened Common
  import Engine = ExecutionEngine
  import ExecutionSafety
  import ExecutionStore
  import opened PositionModel
  import opened PositionSafety
  import Protocol = ExecutionProtocol
  import opened Reconciliation
  import opened TradingLoop

  predicate FromOutside(e: Event) {
    !e.Managed? && !e.ForceClosed? && !e.Restarted?
  }

  type OutsideEvent = e: Event | FromOutside(e) witness ClosedAtBroker

  datatype Happening =
    | Cycled(cycle: Cycle)
    | Interfered(ticket: int, event: OutsideEvent)
    | EngineReconciled(listing: Option<seq<Protocol.BrokerPosition>>, audits: nat, now: int)
    | EngineResolved(id: string, evidence: Protocol.Evidence, auditOk: bool, now: int)
    | ProcessRestarted(listed: bool)

  // ----- one ticket over a session -----------------------------------------------------------

  /** What a happening is for a ticket. */
  function EventOf(ticket: int, h: Happening): Option<Event> {
    match h
    case Cycled(c) => if c.Completes() then Some(c.Pass(ticket)) else None
    case Interfered(t, e) => if t == ticket then Some(e) else None
    case ProcessRestarted(_) => Some(Restarted)
    case _ => None
  }

  function Events(ticket: int, hs: seq<Happening>): seq<Event> {
    if hs == [] then []
    else
      var e := EventOf(ticket, hs[|hs| - 1]);
      Events(ticket, hs[..|hs| - 1]) + if e.Some? then [e.value] else []
  }

  function Advance(cfg: Config, tickSize: real, ticket: int, s: Slot, h: Happening): Slot
    requires tickSize > 0.0
  {
    var e := EventOf(ticket, h);
    if e.None? then s else Step(cfg, tickSize, ticket, s, e.value)
  }

  /** A ticket's slot over a session; `gains` says which position each happening opened. */
  function Life(
      cfg: Config, tickSize: real, ticket: int, s: Slot, hs: seq<Happening>, gains: seq<Option<Position>>): Slot
    requires tickSize > 0.0 && |gains| == |hs|
  {
    if hs == [] then s
    else
      var n := |hs| - 1;
      Entered(ticket, Advance(cfg, tickSize, ticket, Life(cfg, tickSize, ticket, s, hs[..n], gains[..n]), hs[n]),
              gains[n])
  }

  predicate Gains(ticket: int, gained: Option<Position>) {
    gained.Some? && gained.value.ticket == ticket
  }

  predicate NeverGained(ticket: int, gains: seq<Option<Position>>) {
    forall i :: 0 <= i < |gains| ==> !Gains(ticket, gains[i])
  }

  /** The last happening's share in a ticket's run. */
  lemma LastEvent(cfg: Config, tickSize: real, ticket: int, s: Slot, hs: seq<Happening>)
    requires tickSize > 0.0 && hs != []
    ensures Run(cfg, tickSize, ticket, s, Events(ticket, hs)) ==
            Advance(cfg, tickSize, ticket, Run(cfg, tickSize, ticket, s, Events(ticket, hs[..|hs| - 1])), hs[|hs| - 1])
  {
    hide Step, EventOf;
    var e, es := EventOf(ticket, hs[|hs| - 1]), Events(ticket, hs[..|hs| - 1]);
    if e.Some? {
      assert (es + [e.value])[..|es|] == es;
    } else {
      assert es + [] == es;
    }
  }

  /** A ticket that no happening opens lives a run of the single-position model. */
  lemma {:induction false} LifeIsARun(
      cfg: Config, tickSize: real, ticket: int, s: Slot, hs: seq<Happening>, gains: seq<Option<Position>>)
    requires tickSize > 0.0 && |gains| == |hs| && NeverGained(ticket, gains)
    ensures Life(cfg, tickSize, ticket, s, hs, gains) == Run(cfg, tickSize, ticket, s, Events(ticket, hs))
  {
    hide Advance;
    if hs != [] {
      LifeIsARun(cfg, tickSize, ticket, s, hs[..|hs| - 1], gains[..|hs| - 1]);
      LastEvent(cfg, tickSize, ticket, s, hs);
    }
  }

  predicate Touches(ticket: int, h: Happening) {
    h.Interfered? && h.ticket == ticket
  }

  const UNSEEN := Slot(None, None, false, false, NOTHING_YET)

  lemma {:induction false} UnseenStays(
      cfg: Config, tickSize: real, ticket: int, hs: seq<Happening>, gains: seq<Option<Position>>)
    requires tickSize > 0.0 && |gains| == |hs| && NeverGained(ticket, gains)
    requires forall i :: 0 <= i < |hs| ==> !Touches(ticket, hs[i])
    ensures Life(cfg, tickSize, ticket, UNSEEN, hs, gains) == UNSEEN
  {
    if hs != [] {
      var n := |hs| - 1;
      UnseenStays(cfg, tickSize, ticket, hs[..n], gains[..n]);
    }
  }

  lemma LaterGains(ticket: int, gains: seq<Option<Position>>, k: nat)
    requires k < |gains| - 1 && NeverGained(ticket, gains[k + 1..])
    ensures NeverGained(ticket, gains[..|gains| - 1][k + 1..]) && !Gains(ticket, gains[|gains| - 1])
  {
    var later := gains[k + 1..];
    assert gains[..|gains| - 1][k + 1..] == later[..|later| - 1];
    assert later[|later| - 1] == gains[|gains| - 1];
  }

  lemma FirstSeen(
      cfg: Config, tickSize: real, p: Position, hs: seq<Happening>, gains: seq<Option<Position>>)
    requires tickSize > 0.0 && |gains| == |hs| > 0 && gains[|hs| - 1] == Some(p)
    requires NeverGained(p.ticket, gains[..|hs| - 1])
    requires forall i :: 0 <= i < |hs| ==> !Touches(p.ticket, hs[i])
    ensures Life(cfg, tickSize, p.ticket, UNSEEN, hs, gains) == Opened(p)
    ensures Run(cfg, tickSize, p.ticket, Opened(p), Events(p.ticket, hs[|hs|..])) == Opened(p)
  {
    var n := |hs| - 1;
    UnseenStays(cfg, tickSize, p.ticket, hs[..n], gains[..n]);
    assert hs[|hs|..] == [];
  }

  /** MAIN RESULT. From the moment the loop opened it, a position under a new ticket lives a run of
      the single-position model over the rest of the session, so everything proved of such runs
      holds of it. */
  lemma {:induction false} PositionLivesARun(
      cfg: Config, tickSize: real, p: Position, hs: seq<Happening>, gains: seq<Option<Position>>, k: nat)
    requires tickSize > 0.0 && |gains| == |hs| && k < |hs| && gains[k] == Some(p)
    requires NeverGained(p.ticket, gains[..k]) && NeverGained(p.ticket, gains[k + 1..])
    requires forall i :: 0 <= i <= k ==> !Touches(p.ticket, hs[i])
    ensures Life(cfg, tickSize, p.ticket, UNSEEN, hs, gains)
            == Run(cfg, tickSize, p.ticket, Opened(p), Events(p.ticket, hs[k + 1..]))
  {
    hide NeverGained, Touches, Advance, Run, Events;
    var n := |hs| - 1;
    if k == n {
      FirstSeen(cfg, tickSize, p, hs, gains);
    } else {
      assert NeverGained(p.ticket, gains[..n][k + 1..]) && !Gains(p.ticket, gains[n]) by {
        LaterGains(p.ticket, gains, k);
      }
      assert gains[..n][..k] == gains[..k];
      PositionLivesARun(cfg, tickSize, p, hs[..n], gains[..n], k);
      var rest := hs[k + 1..];
      assert rest[..|rest| - 1] == hs[..n][k + 1..];
      LastEvent(cfg, tickSize, p.ticket, Opened(p), rest);
    }
  }

  /** So the broker applies at most one breakeven move and one partial exit to it, each under the
      discipline for its kind; the breakeven move under none if nobody pulls its stop back by hand. */
  lemma SessionMovesAtMostOnce(
      cfg: Config, tickSize: real, p: Position, hs: seq<Happening>, gains: seq<Option<Position>>, k: nat, kind: Kind)
    requires tickSize > 0.0 && |gains| == |hs| && k < |hs| && gains[k] == Some(p)
    requires NeverGained(p.ticket, gains[..k]) && NeverGained(p.ticket, gains[k + 1..])
    requires forall i :: 0 <= i <= k ==> !Touches(p.ticket, hs[i])
    ensures var s, es := Life(cfg, tickSize, p.ticket, UNSEEN, hs, gains), Events(p.ticket, hs[k + 1..]);
            && (DisciplinedRun(cfg, tickSize, p.ticket, Opened(p), kind, es) ==> TimesDone(s, kind) <= 1)
            && (NeverPulledBack(cfg, tickSize, p.ticket, Opened(p), es) ==> s.truth.breakevens <= 1)
  {
    hide NeverGained, Touches, Life, Run, Events;
    PositionLivesARun(cfg, tickSize, p, hs, gains, k);
    var es := Events(p.ticket, hs[k + 1..]);
    if DisciplinedRun(cfg, tickSize, p.ticket, Opened(p), kind, es) {
      AtMostOnce(cfg, tickSize, p, kind, es);
    }
    if NeverPulledBack(cfg, tickSize, p.ticket, Opened(p), es) {
      BreakevenMovesOnce(cfg, tickSize, p, es);
    }
  }

  predicate ChangesByHand(ticket: int, h: Happening) {
    Touches(ticket, h) && h.event.ChangedAtBroker?
  }

  lemma RiskStays(a: Option<Position>)
    ensures RiskNotRaised(a, a)
  {
  }

  lemma RiskChains(a: Option<Position>, b: Option<Position>, c: Option<Position>)
    requires RiskNotRaised(a, b) && RiskNotRaised(b, c)
    ensures RiskNotRaised(a, c)
  {
  }

  /** Over a session a stop never loosens, a volume never grows and a closed position stays closed,
      unless somebody changes the position by hand. */
  lemma {:induction false} SessionNeverRaisesRisk(
      cfg: Config, tickSize: real, ticket: int, s: Slot, hs: seq<Happening>, gains: seq<Option<Position>>)
    requires tickSize > 0.0 && |gains| == |hs| && NeverGained(ticket, gains)
    requires forall i :: 0 <= i < |hs| ==> !ChangesByHand(ticket, hs[i])
    ensures RiskNotRaised(s.broker, Life(cfg, tickSize, ticket, s, hs, gains).broker)
  {
    if hs != [] {
      hide Step, RiskNotRaised, NoLooser;
      var n := |hs| - 1;
      SessionNeverRaisesRisk(cfg, tickSize, ticket, s, hs[..n], gains[..n]);
      var mid := Life(cfg, tickSize, ticket, s, hs[..n], gains[..n]);
      var e := EventOf(ticket, hs[n]);
      if e.Some? {
        StepTightens(cfg, tickSize, ticket, mid, e.value);
        RiskChains(s.broker, mid.broker, Step(cfg, tickSize, ticket, mid, e.value).broker);
      }
    }
    if hs == [] {
      RiskStays(s.broker);
    }
  }

  // ----- what a restart reports --------------------------------------------------------------

  /** Nothing lost and nothing done behind the program's back. */
  predicate Calm(ticket: int, h: Happening) {
    match h
    case Cycled(c) => Definite(c.replies(ticket))
    case Interfered(t, _) => t != ticket
    case _ => true
  }

  /** The monitor has not seen the ticket, or its record agrees with the broker. */
  predicate Tended(s: Slot) {
    s.record.None? || Synced(s)
  }

  /** A new position comes under a new ticket. */
  predicate NewTicket(ticket: int, s: Slot, gains: seq<Option<Position>>) {
    forall i :: 0 <= i < |gains| && Gains(ticket, gains[i]) ==>
      s.broker.None? && s.record.None? && NeverGained(ticket, gains[..i])
  }

  lemma CalmStepTends(cfg: Config, tickSize: real, ticket: int, s: Slot, h: Happening)
    requires tickSize > 0.0 && Tended(s) && Calm(ticket, h)
    ensures var s' := Advance(cfg, tickSize, ticket, s, h);
            && Tended(s')
            && (s.broker.None? && s.record.None? ==> s'.broker.None? && s'.record.None?)
            && (s.broker.Some? && h.Cycled? && h.cycle.Completes() && !h.cycle.Forces() ==> Synced(s'))
  {
    hide Manage;
    if h.Cycled? && h.cycle.Completes() && !h.cycle.Forces() && s.broker.Some? {
      var c := h.cycle;
      ManagedReportsNothing(
        cfg, tickSize, s, s.broker.value, c.tick.value, c.killSwitch, c.replies(ticket), DEFAULT_TOLERANCE);
    }
  }

  lemma {:induction false} CalmLifeTends(
      cfg: Config, tickSize: real, ticket: int, s: Slot, hs: seq<Happening>, gains: seq<Option<Position>>)
    requires tickSize > 0.0 && |gains| == |hs| && Tended(s) && NewTicket(ticket, s, gains)
    requires forall i :: 0 <= i < |hs| ==> Calm(ticket, hs[i])
    ensures var s' := Life(cfg, tickSize, ticket, s, hs, gains);
            && Tended(s')
            && (s.broker.None? && s.record.None? && NeverGained(ticket, gains) ==> s'.broker.None? && s'.record.None?)
  {
    if hs != [] {
      hide Advance, Synced, Calm;
      var n := |hs| - 1;
      assert NewTicket(ticket, s, gains[..n]) by {
        forall i | 0 <= i < n && Gains(ticket, gains[i])
          ensures s.broker.None? && s.record.None? && NeverGained(ticket, gains[..n][..i])
        {
          assert gains[..n][..i] == gains[..i];
        }
      }
      CalmLifeTends(cfg, tickSize, ticket, s, hs[..n], gains[..n]);
      CalmStepTends(cfg, tickSize, ticket, Life(cfg, tickSize, ticket, s, hs[..n], gains[..n]), hs[n]);
    }
  }

  /** The session ends with a cycle that managed the positions, and a restart that could list them. */
  predicate EndsManaged(hs: seq<Happening>) {
    && |hs| >= 2 && hs[|hs| - 1] == ProcessRestarted(true) && hs[|hs| - 2].Cycled?
    && hs[|hs| - 2].cycle.Completes() && !hs[|hs| - 2].cycle.Forces()
  }

  lemma NothingAppears(cfg: Config, tickSize: real, ticket: int, s: Slot, h: Happening)
    requires tickSize > 0.0 && s.broker.None?
    ensures Advance(cfg, tickSize, ticket, s, h).broker.None?
    ensures !Touches(ticket, h) ==> Advance(cfg, tickSize, ticket, s, h).record == s.record
  {
  }

  /** After a calm session that ends so, every ticket is in agreement unless the last cycle opened it. */
  lemma ManagedThenRestarted(
      cfg: Config, tickSize: real, ticket: int, s: Slot, hs: seq<Happening>, gains: seq<Option<Position>>)
    requires tickSize > 0.0 && |gains| == |hs| && Tended(s) && NewTicket(ticket, s, gains)
    requires EndsManaged(hs) && !Gains(ticket, gains[|hs| - 1])
    requires forall i :: 0 <= i < |hs| ==> Calm(ticket, hs[i])
    ensures var s' := Life(cfg, tickSize, ticket, s, hs, gains);
            Tended(s') && (Gains(ticket, gains[|hs| - 2]) || (s'.broker.None? && s'.record.None?) || Synced(s'))
  {
    var n := |hs| - 2;
    var before := Life(cfg, tickSize, ticket, s, hs[..n], gains[..n]);
    var after := Life(cfg, tickSize, ticket, s, hs[..n + 1], gains[..n + 1]);
    assert hs[..n + 1][..n] == hs[..n] && gains[..n + 1][..n] == gains[..n];
    assert Life(cfg, tickSize, ticket, s, hs, gains) == PositionModel.Restart(after);
    assert NewTicket(ticket, s, gains[..n]) by {
      forall i | 0 <= i < n && Gains(ticket, gains[i])
        ensures s.broker.None? && s.record.None? && NeverGained(ticket, gains[..n][..i])
      {
        assert gains[..n][..i] == gains[..i];
      }
    }
    CalmLifeTends(cfg, tickSize, ticket, s, hs[..n], gains[..n]);
    CalmLifeTends(cfg, tickSize, ticket, s, hs, gains);
    CalmStepTends(cfg, tickSize, ticket, before, hs[n]);
    hide Advance, Calm, NewTicket;
    if !Gains(ticket, gains[n]) && before.broker.None? {
      NothingAppears(cfg, tickSize, ticket, before, hs[n]);
    }
  }

  /** A restart after a calm session reports a ticket only if the last cycle opened it. */
  lemma OnlyNewReported(
      cfg: Config, tickSize: real, ticket: int, s: Slot, hs: seq<Happening>, gains: seq<Option<Position>>,
      kind: DiscrepancyKind)
    requires tickSize > 0.0 && |gains| == |hs| && Tended(s) && NewTicket(ticket, s, gains)
    requires EndsManaged(hs) && !Gains(ticket, gains[|hs| - 1])
    requires forall i :: 0 <= i < |hs| ==> Calm(ticket, hs[i])
    ensures var s' := Life(cfg, tickSize, ticket, s, hs, gains);
            Reported(kind, LiveRecord(s'), s'.broker, DEFAULT_TOLERANCE) ==>
              kind == UNTRACKED_LOCALLY && Gains(ticket, gains[|hs| - 2])
  {
    hide Life, NewTicket, EndsManaged, Calm;
    ManagedThenRestarted(cfg, tickSize, ticket, s, hs, gains);
    var s' := Life(cfg, tickSize, ticket, s, hs, gains);
    if Synced(s') {
      SyncedReportsNothing(s', DEFAULT_TOLERANCE);
    }
  }

  // ----- the process itself ------------------------------------------------------------------

  /** What a happening can be for the broker and for the execution engine. */
  ghost predicate Explains(h: Happening, gained: Option<Position>, step: Protocol.Step) {
    match h
    case Cycled(c) => Evaluates(c, gained, step)
    case EngineResolved(id, e, _, now) => gained.None? && step == Protocol.DoResolve(id, e, now)
    case EngineReconciled(listing, audits, now) =>
      gained.None? &&
      if listing.None? then step == Protocol.DoRestart
      else step.DoReconcile? && step.positions == listing.value && step.audits == audits && step.now == now
    case _ => gained.None? && step == Protocol.DoRestart
  }

  /** The same stores, broker and configuration. */
  ghost predicate SameWorld(a: Loop, b: Loop) {
    && a.broker == b.broker && a.tickSize == b.tickSize
    && a.monitor.store == b.monitor.store && a.monitor.config == b.monitor.config
    && a.engine.store == b.engine.store && a.engine.broker == b.engine.broker
    && a.engine.crc == b.engine.crc
  }

  /** Something happens to one position or record outside the loop. */
  method Interfere(loop: Loop, ticket: int, e: OutsideEvent)
    requires loop.Valid()
    modifies loop.monitor, loop.monitor.store, loop.broker
    ensures loop.Valid()
    ensures loop.SlotOf(ticket) == Step(loop.monitor.config, loop.tickSize, ticket, old(loop.SlotOf(ticket)), e)
    ensures loop.OtherSlotsKept(ticket)
    ensures loop.broker.positions.Keys <= old(loop.broker.positions.Keys)
  {
    hide Own;
    ghost var s := loop.SlotOf(ticket);
    match e {
      case ClosedAtBroker => loop.broker.CloseOutside(ticket);
      case ChangedAtBroker(volume, stop, target) => loop.broker.ChangeOutside(ticket, volume, stop, target);
      case Cleared => loop.monitor.ClearPendingAction(ticket);
      case OperatorBreakeven(stop) => loop.monitor.MarkBreakevenApplied(ticket, stop);
      case OperatorPartial(volume) => loop.monitor.MarkPartialTaken(ticket, volume);
    }
    forall t | t in loop.broker.positions
      ensures t in old(loop.broker.positions)
    {
      if t != ticket {
        assert loop.SlotOf(t).broker == old(loop.SlotOf(t)).broker;
      }
    }
    forall t
      ensures Own(t, loop.SlotOf(t))
    {
      assert old(Own(t, loop.SlotOf(t)));
      if t == ticket {
        StepOwns(loop.monitor.config, loop.tickSize, t, s, e);
      }
    }
  }

  /** The startup report is the comparison of the stored records with the listed positions. */
  ghost predicate Reports(loop: Loop, listed: bool)
    reads loop, loop.monitor, loop.monitor.store, loop.broker
  {
    forall d :: d in loop.startupDiscrepancies <==>
      Reported(d.kind, LiveRecord(loop.SlotOf(d.ticket)), if listed then loop.broker.PositionOf(d.ticket) else None,
               DEFAULT_TOLERANCE)
  }

  /** The process restarts: new objects over the same stores. */
  method Restart(former: Loop, listed: bool) returns (loop: Loop)
    requires former.Valid()
    ensures loop.Valid() && SameWorld(former, loop) && fresh(loop.monitor)
    ensures forall t :: loop.SlotOf(t) == Step(former.monitor.config, former.tickSize, t, former.SlotOf(t), Restarted)
    ensures Reports(loop, listed)
  {
    hide Manage, Reported;
    forall t
      ensures Own(t, Slot(former.broker.PositionOf(t), former.monitor.store.Get(t), false, false,
                          former.broker.TruthOf(t)))
    {
      assert Own(t, former.SlotOf(t));
    }
    var engine := new Engine.Engine(
      former.engine.store, former.engine.broker, former.engine.spec, former.engine.symbolTradeAllowed,
      former.engine.crc);
    loop := new Loop(former.monitor.config, former.monitor.store, former.broker, engine, former.tickSize, listed);
  }

  function Filled(h: Happening, gained: Option<Position>, id: string): nat {
    if gained.Some? && h.Cycled? && h.cycle.entry.Some? && h.cycle.entry.value.id == id then 1 else 0
  }

  /** What a happening does to every ticket, to the engine's protocol state and to the fills. */
  twostate predicate Occurred(
      loop: Loop, new next: Loop, h: Happening, new gained: Option<Position>, new step: Protocol.Step)
    requires loop.tickSize > 0.0
    reads next, next.monitor, next.monitor.store, next.broker, next.engine.store, next.engine.broker
    reads loop, loop.monitor, loop.monitor.store, loop.broker, loop.engine.store, loop.engine.broker
  {
    && SameWorld(loop, next)
    && (forall t :: next.SlotOf(t) ==
                    Entered(t, Advance(loop.monitor.config, loop.tickSize, t, old(loop.SlotOf(t)), h), gained))
    && next.engine.View() == Protocol.Apply(old(loop.engine.View()), step, loop.engine.crc)
    && Explains(h, gained, step)
    && (forall id :: Protocol.FillCount(next.engine.broker.fills, id)
                     == old(Protocol.FillCount(loop.engine.broker.fills, id)) + Filled(h, gained, id))
  }

  method RunCycle(loop: Loop, c: Cycle) returns (ghost gained: Option<Position>, ghost step: Protocol.Step)
    requires loop.Valid() && |loop.broker.positions| <= 1
    modifies loop.monitor, loop.monitor.store, loop.broker, loop.engine.store, loop.engine.broker
    ensures loop.Valid() && |loop.broker.positions| <= 1
    ensures Occurred(loop, loop, Cycled(c), gained, step)
  {
    hide Step, Own, ExecutionStore.WellKeyed, Protocol.Apply, Protocol.FillCount;
    ghost var fills := loop.engine.broker.fills;
    gained, step := loop.RunOnce(c);
    if gained.Some? {
      forall id
        ensures Protocol.FillCount(loop.engine.broker.fills, id)
                == Protocol.FillCount(fills, id) + Filled(Cycled(c), gained, id)
      {
        Protocol.FillCountSnoc(fills, loop.FillOf(c.entry.value, gained.value), id);
      }
    } else {
      assert loop.engine.broker.fills == fills;
    }
  }

  method ActOnEngine(loop: Loop, h: Happening) returns (ghost step: Protocol.Step)
    requires h.EngineReconciled? || h.EngineResolved?
    requires loop.Valid()
    modifies loop.engine.store
    ensures loop.Valid() && Occurred(loop, loop, h, None, step)
  {
    hide Step, Own, ExecutionStore.WellKeyed, Protocol.FillCount, Protocol.Sweep, Protocol.Resolve;
    step := Protocol.DoRestart;
    if h.EngineResolved? {
      var outcome := loop.engine.ResolveUnknownExecution(h.id, h.evidence, h.auditOk, h.now);
      step := Protocol.DoResolve(h.id, h.evidence, h.now);
    } else {
      var results, raised;
      ghost var ids;
      results, raised, ids := loop.engine.ReconcileUnknown(h.listing, h.audits, h.now);
      if h.listing.Some? {
        step := Protocol.DoReconcile(ids, h.listing.value, h.audits, h.now);
      }
    }
  }

  /** One happening; a restart puts a new loop in the place of the old one. */
  method Occur(loop: Loop, h: Happening) returns (next: Loop, ghost gained: Option<Position>, ghost step: Protocol.Step)
    requires loop.Valid() && |loop.broker.positions| <= 1
    modifies loop.monitor, loop.monitor.store, loop.broker, loop.engine.store, loop.engine.broker
    ensures next.Valid() && |next.broker.positions| <= 1
    ensures next.monitor == loop.monitor || fresh(next.monitor)
    ensures Occurred(loop, next, h, gained, step)
    ensures h.ProcessRestarted? ==> Reports(next, h.listed)
  {
    hide Step, Own, ExecutionStore.WellKeyed, Protocol.FillCount, Reports;
    next, gained, step := loop, None, Protocol.DoRestart;
    match h {
      case Cycled(c) => gained, step := RunCycle(loop, c);
      case Interfered(ticket, e) =>
        Interfere(loop, ticket, e);
        KeysBound(loop.broker.positions, old(loop.broker.positions));
      case ProcessRestarted(listed) => next := Restart(loop, listed);
      case _ => step := ActOnEngine(loop, h);
    }
  }

  /** How many positions were opened by orders with this id. */
  function Openings(id: string, hs: seq<Happening>, gains: seq<Option<Position>>): nat
    requires |gains| == |hs|
  {
    if hs == [] then 0
    else
      var n := |hs| - 1;
      Openings(id, hs[..n], gains[..n]) + Filled(hs[n], gains[n], id)
  }

  lemma OpeningsSnoc(
      id: string, hs: seq<Happening>, i: nat, gains: seq<Option<Position>>, gained: Option<Position>)
    requires i < |hs| && |gains| == i
    ensures Openings(id, hs[..i + 1], gains + [gained]) == Openings(id, hs[..i], gains) + Filled(hs[i], gained, id)
  {
    assert hs[..i + 1][..i] == hs[..i] && (gains + [gained])[..i] == gains;
  }

  lemma LifeSnoc(
      cfg: Config, tickSize: real, t: int, s: Slot, hs: seq<Happening>, i: nat, gains: seq<Option<Position>>,
      gained: Option<Position>)
    requires tickSize > 0.0 && i < |hs| && |gains| == i
    ensures Life(cfg, tickSize, t, s, hs[..i + 1], gains + [gained])
            == Entered(t, Advance(cfg, tickSize, t, Life(cfg, tickSize, t, s, hs[..i], gains), hs[i]), gained)
  {
    hide Advance, Entered;
    assert hs[..i + 1][..i] == hs[..i] && (gains + [gained])[..i] == gains;
  }

  lemma RunSnoc(s: Protocol.State, steps: seq<Protocol.Step>, step: Protocol.Step, crc: BrokerTags.Checksum)
    ensures Protocol.Run(s, steps + [step], crc) == Protocol.Apply(Protocol.Run(s, steps, crc), step, crc)
  {
    assert (steps + [step])[..|steps|] == steps;
  }

  lemma Beginning(cfg: Config, tickSize: real, t: int, s: Slot)
    requires tickSize > 0.0
    ensures Life(cfg, tickSize, t, s, [], []) == s
  {
  }

  lemma NoStepsYet(s: Protocol.State, crc: BrokerTags.Checksum)
    ensures Protocol.Run(s, [], crc) == s && forall id :: Openings(id, [], []) == 0
  {
  }

  /** The process over any sequence of happenings. */
  method Iterate(first: Loop, hs: seq<Happening>)
    returns (loop: Loop, ghost gains: seq<Option<Position>>, ghost steps: seq<Protocol.Step>)
    requires first.Valid() && |first.broker.positions| <= 1
    modifies first.monitor, first.monitor.store, first.broker, first.engine.store, first.engine.broker
    ensures loop.Valid() && |loop.broker.positions| <= 1 && SameWorld(first, loop)
    ensures |gains| == |hs| && |steps| == |hs|
    ensures forall t ::
              loop.SlotOf(t) == Life(first.monitor.config, first.tickSize, t, old(first.SlotOf(t)), hs, gains)
    ensures loop.engine.View() == Protocol.Run(old(first.engine.View()), steps, first.engine.crc)
    ensures forall i :: 0 <= i < |hs| ==> Explains(hs[i], gains[i], steps[i])
    ensures forall id :: Protocol.FillCount(loop.engine.broker.fills, id)
                         == old(Protocol.FillCount(first.engine.broker.fills, id)) + Openings(id, hs, gains)
    ensures hs != [] && hs[|hs| - 1].ProcessRestarted? ==> Reports(loop, hs[|hs| - 1].listed)
  {
    hide Advance, Entered, Explains, Own, ExecutionStore.WellKeyed, Protocol.Apply, Protocol.FillCount, Reports, Filled,
      Life, Openings, Protocol.Run;
    loop, gains, steps := first, [], [];
    assert hs[..0] == [];
    NoStepsYet(first.engine.View(), first.engine.crc);
    forall t
      ensures first.SlotOf(t) == Life(first.monitor.config, first.tickSize, t, old(first.SlotOf(t)), hs[..0], gains)
    {
      Beginning(first.monitor.config, first.tickSize, t, first.SlotOf(t));
    }
    for i := 0 to |hs|
      invariant loop.Valid() && |loop.broker.positions| <= 1 && SameWorld(first, loop)
      invariant loop.monitor == first.monitor || fresh(loop.monitor)
      invariant |gains| == i && |steps| == i
      invariant forall t ::
                  loop.SlotOf(t) == Life(first.monitor.config, first.tickSize, t, old(first.SlotOf(t)), hs[..i], gains)
      invariant loop.engine.View() == Protocol.Run(old(first.engine.View()), steps, first.engine.crc)
      invariant forall k :: 0 <= k < i ==> Explains(hs[k], gains[k], steps[k])
      invariant forall id :: Protocol.FillCount(loop.engine.broker.fills, id)
                             == old(Protocol.FillCount(first.engine.broker.fills, id)) + Openings(id, hs[..i], gains)
      invariant i > 0 && hs[i - 1].ProcessRestarted? ==> Reports(loop, hs[i - 1].listed)
    {
      ghost var gained, step;
      ghost var former := loop;
      label before:
      loop, gained, step := Occur(loop, hs[i]);
      forall t
        ensures loop.SlotOf(t) ==
                Life(first.monitor.config, first.tickSize, t, old(first.SlotOf(t)), hs[..i + 1], gains + [gained])
      {
        LifeSnoc(first.monitor.config, first.tickSize, t, old(first.SlotOf(t)), hs, i, gains, gained);
      }
      forall id
        ensures Protocol.FillCount(loop.engine.broker.fills, id)
                == old(Protocol.FillCount(first.engine.broker.fills, id)) + Openings(id, hs[..i + 1], gains + [gained])
      {
        OpeningsSnoc(id, hs, i, gains, gained);
      }
      RunSnoc(old(first.engine.View()), steps, step, first.engine.crc);
      gains, steps := gains + [gained], steps + [step];
    }
    assert hs[..|hs|] == hs;
  }

  lemma {:induction false} NothingAppearsInLife(
      cfg: Config, tickSize: real, ticket: int, s: Slot, hs: seq<Happening>, gains: seq<Option<Position>>)
    requires tickSize > 0.0 && |gains| == |hs| && s.broker.None? && NeverGained(ticket, gains)
    ensures Life(cfg, tickSize, ticket, s, hs, gains).broker.None?
  {
    hide Advance;
    if hs != [] {
      var n := |hs| - 1;
      NothingAppearsInLife(cfg, tickSize, ticket, s, hs[..n], gains[..n]);
      NothingAppears(cfg, tickSize, ticket, Life(cfg, tickSize, ticket, s, hs[..n], gains[..n]), hs[n]);
    }
  }

  /** The kill switch is on in every cycle. */
  predicate Killed(hs: seq<Happening>) {
    forall i :: 0 <= i < |hs| && hs[i].Cycled? ==> hs[i].cycle.killSwitch
  }

  predicate AlwaysCalm(ticket: int, hs: seq<Happening>) {
    forall i :: 0 <= i < |hs| ==> Calm(ticket, hs[i])
  }

  predicate ByHand(ticket: int, hs: seq<Happening>) {
    exists i :: 0 <= i < |hs| && ChangesByHand(ticket, hs[i])
  }

  lemma NoFillsYet(id: string)
    ensures Protocol.FillCount(Protocol.EMPTY.fills, id) == 0
  {
  }

  lemma KilledOnlyTightens(
      cfg: Config, tickSize: real, t: int, s: Slot, hs: seq<Happening>, gains: seq<Option<Position>>,
      steps: seq<Protocol.Step>)
    requires tickSize > 0.0 && |gains| == |hs| == |steps| && Killed(hs)
    requires forall i :: 0 <= i < |hs| ==> Explains(hs[i], gains[i], steps[i])
    ensures s.broker.None? ==> Life(cfg, tickSize, t, s, hs, gains).broker.None?
    ensures !ByHand(t, hs) ==> RiskNotRaised(s.broker, Life(cfg, tickSize, t, s, hs, gains).broker)
  {
    hide Life, ChangesByHand, RiskNotRaised;
    forall i | 0 <= i < |gains|
      ensures !Gains(t, gains[i])
    {
      assert Explains(hs[i], gains[i], steps[i]);
    }
    if s.broker.None? {
      NothingAppearsInLife(cfg, tickSize, t, s, hs, gains);
    }
    if !ByHand(t, hs) {
      SessionNeverRaisesRisk(cfg, tickSize, t, s, hs, gains);
    }
  }

  /** MAIN RESULT. Started with at most one open position, the broker never holds more than one,
      whatever happens and however many replies are lost. No order id opens two positions, if
      definite replies and "not found" resolutions are truthful. While the kill switch is on, no
      position appears, no stop loosens and no volume grows, except by hand. A restart right after a
      cycle reports of the tickets that lived calmly only the one that this cycle opened. */
  method Operate(first: Loop, hs: seq<Happening>)
    returns (loop: Loop, ghost gains: seq<Option<Position>>, ghost steps: seq<Protocol.Step>)
    requires first.Valid() && |first.broker.positions| <= 1
    modifies first.monitor, first.monitor.store, first.broker, first.engine.store, first.engine.broker
    ensures loop.Valid() && |loop.broker.positions| <= 1 && SameWorld(first, loop)
    ensures |gains| == |hs| && |steps| == |hs| && forall i :: 0 <= i < |hs| ==> Explains(hs[i], gains[i], steps[i])
    ensures forall t ::
              loop.SlotOf(t) == Life(first.monitor.config, first.tickSize, t, old(first.SlotOf(t)), hs, gains)
    ensures old(first.engine.View()) == Protocol.EMPTY
            && Protocol.TrustedRun(Protocol.EMPTY, steps, first.engine.crc)
            ==>
              forall id :: Openings(id, hs, gains) <= 1
    ensures Killed(hs) ==> loop.broker.positions.Keys <= old(first.broker.positions.Keys)
    ensures Killed(hs) ==>
              forall t :: !ByHand(t, hs) ==> RiskNotRaised(old(first.broker.PositionOf(t)), loop.broker.PositionOf(t))
    ensures EndsManaged(hs) ==>
              forall d :: && d in loop.startupDiscrepancies && AlwaysCalm(d.ticket, hs)
                          && Tended(old(first.SlotOf(d.ticket)))
                          && NewTicket(d.ticket, old(first.SlotOf(d.ticket)), gains)
                          ==> d.kind == UNTRACKED_LOCALLY && Gains(d.ticket, gains[|hs| - 2])
  {
    loop, gains, steps := Iterate(first, hs);
    hide Life, Evaluates, NewTicket, Tended, Calm, Own, ExecutionStore.WellKeyed, Protocol.Run,
      Protocol.FillCount, ChangesByHand, RiskNotRaised,
      Advance, Entered, Step, Reported, NeverGained;
    ghost var cfg, tickSize := first.monitor.config, first.tickSize;
    if old(first.engine.View()) == Protocol.EMPTY && Protocol.TrustedRun(Protocol.EMPTY, steps, first.engine.crc) {
      forall id
        ensures Openings(id, hs, gains) <= 1
      {
        ExecutionSafety.AtMostOneFill(steps, first.engine.crc, id);
        NoFillsYet(id);
      }
    }
    if Killed(hs) {
      forall t
        ensures !ByHand(t, hs) ==> RiskNotRaised(old(first.broker.PositionOf(t)), loop.broker.PositionOf(t))
      {
        KilledOnlyTightens(cfg, tickSize, t, old(first.SlotOf(t)), hs, gains, steps);
        assert loop.SlotOf(t) == Life(cfg, tickSize, t, old(first.SlotOf(t)), hs, gains);
      }
      forall t | t in loop.broker.positions.Keys
        ensures t in old(first.broker.positions.Keys)
      {
        KilledOnlyTightens(cfg, tickSize, t, old(first.SlotOf(t)), hs, gains, steps);
        assert loop.SlotOf(t) == Life(cfg, tickSize, t, old(first.SlotOf(t)), hs, gains);
      }
    }
    if EndsManaged(hs) {
      forall d | d in loop.startupDiscrepancies && AlwaysCalm(d.ticket, hs)
                 && Tended(old(first.SlotOf(d.ticket))) && NewTicket(d.ticket, old(first.SlotOf(d.ticket)), gains)
        ensures d.kind == UNTRACKED_LOCALLY && Gains(d.ticket, gains[|hs| - 2])
      {
        assert loop.SlotOf(d.ticket) == Life(cfg, tickSize, d.ticket, old(first.SlotOf(d.ticket)), hs, gains);
        assert Explains(hs[|hs| - 1], gains[|hs| - 1], steps[|hs| - 1]);
        OnlyNewReported(cfg, tickSize, d.ticket, old(first.SlotOf(d.ticket)), hs, gains, d.kind);
      }
    }
  }
}
