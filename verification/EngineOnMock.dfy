/** The execution engine running on the mock broker: the assumptions that the protocol's results make
    about the broker's replies and listings are the mock's own behaviour here, so only the
    operator's statements remain to be trusted. The engine sends no order id to the broker, only
    the comment made from it. */
module EngineOnMock {
  import opened BrokerTags
  import opened ExecutionProtocol
  import opened ExecutionSafety
  import opened ExecutionStore
  import M = MockBroker
  import Sizing

  datatype World = World(state: State, mock: M.Mock)

  datatype Act =
    | Submits(id: string, order: Order, admitted: bool, market: M.Market, now: int)
    | Queues(fault: M.Fault)
    | Leaves(ticket: int)
    | Reconciles(ids: seq<string>, listing: seq<BrokerPosition>, audits: nat, now: int)
    | Resolves(id: string, evidence: Evidence, now: int)
    | Restarts

  function RequestFor(id: string, order: Order, crc: Checksum): M.Request {
    M.Request("", order.direction, order.volume, order.stopLoss, order.takeProfit, Tag(id, crc))
  }

  /** The mock's answer to the engine's order. */
  function Answer(w: World, a: Act, spec: Sizing.SymbolSpec, crc: Checksum): M.Outcome
    requires spec.volumeStep > 0.0 && a.Submits?
  {
    M.Respond(w.mock, RequestFor(a.id, a.order, crc), spec, a.market)
  }

  predicate Sent(w: World, a: Act) {
    a.Submits? && !Blocked(w.state.store, a.id) && a.admitted
  }

  /** What an act is for the protocol. */
  function StepOf(w: World, a: Act, spec: Sizing.SymbolSpec, crc: Checksum): Step
    requires spec.volumeStep > 0.0
  {
    match a
    case Submits(id, order, admitted, _, now) =>
      var o := Answer(w, a, spec, crc);
      DoSubmit(id, order, admitted, o.truth, o.reply, now)
    case Reconciles(ids, listing, audits, now) => DoReconcile(ids, listing, audits, now)
    case Resolves(id, e, now) => DoResolve(id, e, now)
    case _ => DoRestart
  }

  function MockAfter(w: World, a: Act, spec: Sizing.SymbolSpec, crc: Checksum): M.Mock
    requires spec.volumeStep > 0.0
  {
    if Sent(w, a) then Answer(w, a, spec, crc).mock
    else if a.Queues? then w.mock.(faults := w.mock.faults + [a.fault])
    else if a.Leaves? then w.mock.(positions := w.mock.positions - {a.ticket})
    else w.mock
  }

  function Do(w: World, a: Act, spec: Sizing.SymbolSpec, crc: Checksum): World
    requires spec.volumeStep > 0.0
  {
    World(Apply(w.state, StepOf(w, a, spec, crc), crc), MockAfter(w, a, spec, crc))
  }

  function DoAll(w: World, acts: seq<Act>, spec: Sizing.SymbolSpec, crc: Checksum): World
    requires spec.volumeStep > 0.0
  {
    if acts == [] then w else Do(DoAll(w, acts[..|acts| - 1], spec, crc), acts[|acts| - 1], spec, crc)
  }

  // ----- what has to be trusted -------------------------------------------------------------

  /** "Not found" is said only of orders never filled. */
  predicate HonestOperator(w: World, a: Act) {
    a.Resolves? && ClaimsNotFound(a.evidence) ==> FillCount(w.state.fills, a.id) == 0
  }

  predicate HonestRun(w: World, acts: seq<Act>, spec: Sizing.SymbolSpec, crc: Checksum)
    requires spec.volumeStep > 0.0
  {
    acts == [] ||
    (HonestRun(w, acts[..|acts| - 1], spec, crc)
      && HonestOperator(DoAll(w, acts[..|acts| - 1], spec, crc), acts[|acts| - 1]))
  }

  ghost predicate Sane(w: World, crc: Checksum) {
    Inv(w.state, crc) && M.FreshTickets(w.mock)
  }

  lemma ActIsTrusted(w: World, a: Act, spec: Sizing.SymbolSpec, crc: Checksum)
    requires spec.volumeStep > 0.0 && M.FreshTickets(w.mock) && HonestOperator(w, a)
    ensures Trusted(w.state, StepOf(w, a, spec, crc)) && M.FreshTickets(MockAfter(w, a, spec, crc))
  {
    hide M.Respond, Tag;
    if a.Submits? {
      M.MockIsHonest(w.mock, RequestFor(a.id, a.order, crc), spec, a.market);
    }
  }

  lemma {:induction false} RunIsSane(w: World, acts: seq<Act>, spec: Sizing.SymbolSpec, crc: Checksum)
    requires spec.volumeStep > 0.0 && Sane(w, crc) && HonestRun(w, acts, spec, crc)
    ensures Sane(DoAll(w, acts, spec, crc), crc)
  {
    hide Inv, StepOf, MockAfter, Apply, HonestOperator, M.FreshTickets;
    if acts != [] {
      var before, a := DoAll(w, acts[..|acts| - 1], spec, crc), acts[|acts| - 1];
      RunIsSane(w, acts[..|acts| - 1], spec, crc);
      ActIsTrusted(before, a, spec, crc);
      StepKeepsInv(before.state, StepOf(before, a, spec, crc), crc);
    }
  }

  /** MAIN RESULT. Over every run of the engine on the mock, with queued faults of every kind,
      closed positions, reconciliations, resolutions and restarts, no order id is filled twice, if
      "not found" is only said of orders never filled. The mock's own duplicate protection plays
      no part in it. */
  lemma EngineOnMockFillsOnce(m: M.Mock, acts: seq<Act>, spec: Sizing.SymbolSpec, crc: Checksum, id: string)
    requires spec.volumeStep > 0.0 && M.FreshTickets(m) && HonestRun(World(EMPTY, m), acts, spec, crc)
    ensures FillCount(DoAll(World(EMPTY, m), acts, spec, crc).state.fills, id) <= 1
  {
    hide DoAll, HonestRun;
    RunIsSane(World(EMPTY, m), acts, spec, crc);
  }

  // ----- what the engine calls filled -------------------------------------------------------

  /** Every open position was opened by one of the engine's orders and carries its comment. */
  ghost predicate OwnPositions(w: World) {
    forall t :: t in w.mock.positions ==>
      exists f :: f in w.state.fills && f.ticket == t && f.comment == w.mock.positions[t].comment
  }

  /** A listing shows open positions, each with its comment. */
  predicate Lists(listing: seq<BrokerPosition>, m: M.Mock) {
    forall p :: p in listing ==> p.ticket in m.positions && m.positions[p.ticket].comment == p.comment
  }

  /** The operator says "filled" only of orders that were, reconciliation sees the mock's own
      listing, and no two stored ids share a comment then. */
  ghost predicate Vouched(w: World, a: Act, crc: Checksum) {
    && HonestOperator(w, a)
    && (a.Resolves? && ClaimsFilled(a.evidence) ==> FillCount(w.state.fills, a.id) >= 1)
    && (a.Reconciles? ==> Lists(a.listing, w.mock) && TagsInjective(w.state.store.Keys, crc))
  }

  ghost predicate VouchedRun(w: World, acts: seq<Act>, spec: Sizing.SymbolSpec, crc: Checksum)
    requires spec.volumeStep > 0.0
  {
    acts == [] ||
    (VouchedRun(w, acts[..|acts| - 1], spec, crc)
      && Vouched(DoAll(w, acts[..|acts| - 1], spec, crc), acts[|acts| - 1], crc))
  }

  lemma ActIsAttested(w: World, a: Act, spec: Sizing.SymbolSpec, crc: Checksum)
    requires spec.volumeStep > 0.0 && M.FreshTickets(w.mock) && OwnPositions(w) && Vouched(w, a, crc)
    ensures Attested(w.state, StepOf(w, a, spec, crc), crc)
  {
    hide M.Respond, Tag, M.FreshTickets, FillCount, TagsInjective;
    ActIsTrusted(w, a, spec, crc);
  }

  lemma ActKeepsOwnPositions(w: World, a: Act, spec: Sizing.SymbolSpec, crc: Checksum)
    requires spec.volumeStep > 0.0 && M.FreshTickets(w.mock) && OwnPositions(w)
    ensures OwnPositions(Do(w, a, spec, crc))
  {
    hide M.Respond, Tag, StoreReply, Sweep, Resolve, M.FreshTickets;
    var w' := Do(w, a, spec, crc);
    assert w.state.fills <= w'.state.fills;
    if Sent(w, a) {
      M.MockIsHonest(w.mock, RequestFor(a.id, a.order, crc), spec, a.market);
      var o := Answer(w, a, spec, crc);
      if o.truth.Some? {
        assert w'.state.fills[|w.state.fills|] == Fill(a.id, o.truth.value, Tag(a.id, crc));
      }
    }
    forall t | t in w'.mock.positions
      ensures exists f :: f in w'.state.fills && f.ticket == t && f.comment == w'.mock.positions[t].comment
    {
      if t in w.mock.positions {
        var f :| f in w.state.fills && f.ticket == t && f.comment == w.mock.positions[t].comment;
        assert f in w'.state.fills;
      }
    }
  }

  ghost predicate Known(w: World, crc: Checksum) {
    Sane(w, crc) && FilledMeansFilled(w.state) && OwnPositions(w)
  }

  lemma {:induction false} RunIsKnown(w: World, acts: seq<Act>, spec: Sizing.SymbolSpec, crc: Checksum)
    requires spec.volumeStep > 0.0 && Known(w, crc) && VouchedRun(w, acts, spec, crc)
    ensures Known(DoAll(w, acts, spec, crc), crc)
  {
    hide Inv, StepOf, MockAfter, Apply, M.FreshTickets, FilledMeansFilled, OwnPositions, HonestOperator, Attested;
    if acts != [] {
      var before, a := DoAll(w, acts[..|acts| - 1], spec, crc), acts[|acts| - 1];
      RunIsKnown(w, acts[..|acts| - 1], spec, crc);
      ActIsTrusted(before, a, spec, crc);
      ActIsAttested(before, a, spec, crc);
      AttestedStepKeepsTruth(before.state, StepOf(before, a, spec, crc), crc);
      ActKeepsOwnPositions(before, a, spec, crc);
    }
  }

  /** MAIN RESULT. On the mock, started without positions, exactly the ids called FILLED or
      RESOLVED_FILLED, or still UNKNOWN, can have been filled, and the first two always have been,
      once. */
  lemma EngineOnMockKnowsItsFills(m: M.Mock, acts: seq<Act>, spec: Sizing.SymbolSpec, crc: Checksum, id: string)
    requires spec.volumeStep > 0.0 && m.positions == map[] && VouchedRun(World(EMPTY, m), acts, spec, crc)
    ensures var s := DoAll(World(EMPTY, m), acts, spec, crc).state;
            && (id in s.store && s.store[id].status in {FILLED, RESOLVED_FILLED} ==> FillCount(s.fills, id) == 1)
            && (id !in s.store || s.store[id].status == RESOLVED_NOT_FOUND ==> FillCount(s.fills, id) == 0)
  {
    hide DoAll, VouchedRun;
    RunIsKnown(World(EMPTY, m), acts, spec, crc);
  }
}
