/** The mock broker that stands in for the real one (app/mt5/mock_client.py), with its queued
    faults: the assumption that the protocol makes about brokers holds of it, and what its own
    duplicate protection does and does not promise. */
module MockBroker {
  import opened Common
  import opened ExecutionProtocol
  import PositionModel
  import opened Sizing

  datatype Target = OnSubmit | OnClose | OnClosePartial | OnModify
  datatype FaultKind = CONNECTION_LOST | UNKNOWN_RESULT | REJECTED

  /** A fault queued for the next call of one kind; `brokerFilled` concerns unknown results only. */
  datatype Fault = Fault(target: Target, kind: FaultKind, brokerFilled: bool)

  datatype Request = Request(
    id: string, direction: string, volume: real, stopLoss: Option<real>, takeProfit: Option<real>, comment: string)

  /** An open position at the mock broker. */
  datatype Held = Held(
    direction: string, volume: real, priceOpen: real, stopLoss: Option<real>, takeProfit: Option<real>, comment: string)

  /** The conditions a call meets; fetching the quote raises when there is none. */
  datatype Market = Market(
    symbolKnown: bool, tradingDisabled: bool, closed: bool, marginInsufficient: bool, tickMissing: bool,
    quote: Option<PositionModel.Tick>, stale: bool, stopsLevelPoints: int, slippage: real)

  datatype Mock = Mock(
    faults: seq<Fault>, positions: map<int, Held>, seen: set<string>, nextTicket: int)

  // ----- faults -----------------------------------------------------------------------------

  /** The oldest queued fault for a call, and the queue without it. */
  function FirstFault(fs: seq<Fault>, target: Target): Option<nat> {
    if fs == [] then None
    else if fs[0].target == target then Some(0)
    else
      var rest := FirstFault(fs[1..], target);
      if rest.Some? then Some(rest.value + 1) else None
  }

  lemma {:induction false} FirstFaultIsFirst(fs: seq<Fault>, target: Target)
    ensures var i := FirstFault(fs, target);
            && (i.None? ==> forall k :: 0 <= k < |fs| ==> fs[k].target != target)
            && (i.Some? ==> i.value < |fs| && fs[i.value].target == target
                            && forall k :: 0 <= k < i.value ==> fs[k].target != target)
  {
    if fs != [] && fs[0].target != target {
      FirstFaultIsFirst(fs[1..], target);
    }
  }

  lemma {:induction false} FirstFaultFound(fs: seq<Fault>, target: Target, i: nat)
    requires i < |fs| && fs[i].target == target && forall k :: 0 <= k < i ==> fs[k].target != target
    ensures FirstFault(fs, target) == Some(i)
  {
    if i > 0 {
      FirstFaultFound(fs[1..], target, i - 1);
    }
  }

  function Popped(m: Mock, target: Target): Option<Fault> {
    var i := FirstFault(m.faults, target);
    if i.Some? && i.value < |m.faults| then Some(m.faults[i.value]) else None
  }

  function AfterPop(m: Mock, target: Target): Mock {
    var i := FirstFault(m.faults, target);
    if i.Some? && i.value < |m.faults| then m.(faults := m.faults[..i.value] + m.faults[i.value + 1..]) else m
  }

  // ----- submission -------------------------------------------------------------------------

  predicate ValidQuote(mk: Market) {
    mk.quote.Some? && mk.quote.value.ask > mk.quote.value.bid > 0.0
  }

  predicate TooClose(r: Request, level: Option<real>, spec: SymbolSpec, mk: Market)
    requires mk.quote.Some?
  {
    var price := if r.direction == "BUY" then mk.quote.value.ask else mk.quote.value.bid;
    level.Some? && Abs(price - level.value) < mk.stopsLevelPoints as real * spec.tickSize
  }

  /** The checks of a broker before it trades. */
  predicate Accepts(r: Request, spec: SymbolSpec, mk: Market)
    requires spec.volumeStep > 0.0
  {
    && mk.symbolKnown && !mk.tradingDisabled && !mk.closed
    && OnBrokerGrid(r.volume, spec) && !mk.marginInsufficient && !mk.tickMissing
    && ValidQuote(mk) && !mk.stale
    && !TooClose(r, r.stopLoss, spec, mk) && !TooClose(r, r.takeProfit, spec, mk)
  }

  /** Fetching the quote raises before the remaining checks are made. */
  predicate QuoteRaises(r: Request, spec: SymbolSpec, mk: Market)
    requires spec.volumeStep > 0.0
  {
    && mk.symbolKnown && !mk.tradingDisabled && !mk.closed
    && OnBrokerGrid(r.volume, spec) && !mk.marginInsufficient && !mk.tickMissing && mk.quote.None?
  }

  function FillPrice(r: Request, mk: Market): real
    requires mk.quote.Some?
  {
    if r.direction == "BUY" then mk.quote.value.ask + mk.slippage else mk.quote.value.bid - mk.slippage
  }

  function Filled(m: Mock, r: Request, mk: Market): Mock
    requires mk.quote.Some?
  {
    var p := Held(r.direction, r.volume, FillPrice(r, mk), r.stopLoss, r.takeProfit, r.comment);
    m.(positions := m.positions[m.nextTicket := p], nextTicket := m.nextTicket + 1)
  }

  /** An id counts as seen from its first order whose outcome is not a clean refusal. */
  function Remember(m: Mock, id: string): Mock {
    if id == "" then m else m.(seen := m.seen + {id})
  }

  const UNCONFIRMED := Replied(false, None, true, None)
  const REFUSAL := Replied(false, None, false, None)

  /** The mock after an order, its reply, and the ticket of the position it opened, if it did. */
  datatype Outcome = Outcome(mock: Mock, reply: Reply, truth: Option<int>)

  function Respond(m: Mock, r: Request, spec: SymbolSpec, mk: Market): Outcome
    requires spec.volumeStep > 0.0
  {
    var fault, m1 := Popped(m, OnSubmit), AfterPop(m, OnSubmit);
    if fault.Some? && fault.value.kind == CONNECTION_LOST then Outcome(m1, Raised, None)
    else if fault.Some? && fault.value.kind == UNKNOWN_RESULT then
      var m2 := Remember(m1, r.id);
      if fault.value.brokerFilled && ValidQuote(mk)
      then Outcome(Filled(m2, r, mk), UNCONFIRMED, Some(m2.nextTicket))
      else Outcome(m2, UNCONFIRMED, None)
    else if fault.Some? then Outcome(m1, REFUSAL, None)
    else if r.id != "" && r.id in m1.seen then Outcome(m1, REFUSAL, None)
    else if QuoteRaises(r, spec, mk) then Outcome(m1, Raised, None)
    else if !Accepts(r, spec, mk) then Outcome(m1, REFUSAL, None)
    else
      Outcome(Filled(Remember(m1, r.id), r, mk),
              Replied(true, Some(m1.nextTicket), false, Some(r.volume)), Some(m1.nextTicket))
  }

  // ----- what the mock promises -------------------------------------------------------------

  /** Tickets are handed out in order, so a new one is never in use. */
  ghost predicate FreshTickets(m: Mock) {
    forall t :: t in m.positions ==> t < m.nextTicket
  }

  /** MAIN RESULT. The mock keeps the assumption under which an order is filled at most once: a
      clean failure opened nothing, a success names the position it opened, and that position
      carries the request's comment under a ticket never used before. */
  lemma MockIsHonest(m: Mock, r: Request, spec: SymbolSpec, mk: Market)
    requires spec.volumeStep > 0.0 && FreshTickets(m)
    ensures var o := Respond(m, r, spec, mk);
            && Honest(o.truth, o.reply) && FreshTickets(o.mock)
            && (o.truth.None? ==> o.mock.positions == m.positions)
            && (o.truth.Some? ==>
                  && o.truth.value !in m.positions && o.mock.positions.Keys == m.positions.Keys + {o.truth.value}
                  && (forall t :: t in m.positions ==> o.mock.positions[t] == m.positions[t])
                  && o.mock.positions[o.truth.value].comment == r.comment
                  && o.mock.positions[o.truth.value].volume == r.volume)
  {
    hide Accepts, QuoteRaises, ValidQuote;
  }

  /** A level is at least the broker's distance away from a price. */
  predicate FarEnough(price: real, level: Option<real>, distance: real) {
    level.Some? ==> level.value <= price - distance || level.value >= price + distance
  }

  /** RESULT. Without a queued fault a new order is filled exactly when the symbol trades, the volume
      is on the broker's grid, the margin suffices, the quote is there, fresh and sound, and both
      levels keep their distance from the side that is taken: the ask for a BUY, the bid otherwise.
      The fill is worse than that side by the slippage. */
  lemma FillsExactly(m: Mock, r: Request, spec: SymbolSpec, mk: Market)
    requires spec.volumeStep > 0.0 && m.faults == [] && (r.id == "" || r.id !in m.seen)
    ensures var o, distance := Respond(m, r, spec, mk), mk.stopsLevelPoints as real * spec.tickSize;
            && (o.truth.Some? <==>
                && mk.symbolKnown && !mk.tradingDisabled && !mk.closed && OnBrokerGrid(r.volume, spec)
                && !mk.marginInsufficient && !mk.tickMissing && !mk.stale && mk.quote.Some?
                && 0.0 < mk.quote.value.bid < mk.quote.value.ask
                && var side := if r.direction == "BUY" then mk.quote.value.ask else mk.quote.value.bid;
                   FarEnough(side, r.stopLoss, distance) && FarEnough(side, r.takeProfit, distance))
            && (o.truth.Some? ==>
                  && o.truth == Some(m.nextTicket) && o.reply == Replied(true, o.truth, false, Some(r.volume))
                  && o.mock.positions == m.positions[m.nextTicket := Held(
                       r.direction, r.volume,
                       if r.direction == "BUY" then mk.quote.value.ask + mk.slippage
                         else mk.quote.value.bid - mk.slippage,
                       r.stopLoss, r.takeProfit, r.comment)])
            && (o.truth.None? ==>
                  && o.mock.positions == m.positions
                  && (o.reply == Raised || o.reply == Replied(false, None, false, None)))
  {
    hide OnBrokerGrid;
  }

  predicate GapOpens(m: Mock, mk: Market) {
    var fault := Popped(m, OnSubmit);
    fault.Some? && fault.value.kind == UNKNOWN_RESULT && fault.value.brokerFilled && ValidQuote(mk)
  }

  /** Its own duplicate protection has one gap: an id seen before is filled again exactly when a
      queued unknown result says that the broker filled it and the quote is usable. */
  lemma SeenIdIsRefilledExactly(m: Mock, r: Request, spec: SymbolSpec, mk: Market)
    requires spec.volumeStep > 0.0 && r.id != "" && r.id in m.seen
    ensures Respond(m, r, spec, mk).truth.Some? <==> GapOpens(m, mk)
  {
  }

  datatype Event =
    | Queue(fault: Fault)
    | Send(request: Request, market: Market)
    | Gone(ticket: int)

  /** The mock and the log of its fills. */
  datatype Book = Book(mock: Mock, fills: seq<Fill>)

  function Handle(b: Book, spec: SymbolSpec, e: Event): Book
    requires spec.volumeStep > 0.0
  {
    match e
    case Queue(f) => b.(mock := b.mock.(faults := b.mock.faults + [f]))
    case Gone(t) => b.(mock := b.mock.(positions := b.mock.positions - {t}))
    case Send(r, mk) =>
      var o := Respond(b.mock, r, spec, mk);
      Book(o.mock, b.fills + if o.truth.Some? then [Fill(r.id, o.truth.value, r.comment)] else [])
  }

  function HandleAll(b: Book, spec: SymbolSpec, es: seq<Event>): Book
    requires spec.volumeStep > 0.0
  {
    if es == [] then b else Handle(HandleAll(b, spec, es[..|es| - 1]), spec, es[|es| - 1])
  }

  /** No seen id meets the gap. */
  predicate Guarded(b: Book, e: Event) {
    e.Send? && e.request.id in b.mock.seen ==> !GapOpens(b.mock, e.market)
  }

  predicate GuardedRun(b: Book, spec: SymbolSpec, es: seq<Event>)
    requires spec.volumeStep > 0.0
  {
    es == [] ||
    (GuardedRun(b, spec, es[..|es| - 1]) && Guarded(HandleAll(b, spec, es[..|es| - 1]), es[|es| - 1]))
  }

  ghost predicate SeenOnce(b: Book, id: string) {
    FillCount(b.fills, id) <= 1 && (FillCount(b.fills, id) == 1 ==> id in b.mock.seen)
  }

  lemma RespondRemembers(m: Mock, r: Request, spec: SymbolSpec, mk: Market)
    requires spec.volumeStep > 0.0
    ensures var o := Respond(m, r, spec, mk);
            && m.seen <= o.mock.seen && (o.truth.Some? && r.id != "" ==> r.id in o.mock.seen)
  {
    hide FirstFault, OnBrokerGrid;
  }

  lemma HandleKeeps(b: Book, spec: SymbolSpec, e: Event, id: string)
    requires spec.volumeStep > 0.0 && id != "" && SeenOnce(b, id) && Guarded(b, e)
    ensures SeenOnce(Handle(b, spec, e), id)
  {
    hide Respond, FillCount;
    if e.Send? {
      var o := Respond(b.mock, e.request, spec, e.market);
      RespondRemembers(b.mock, e.request, spec, e.market);
      if o.truth.Some? {
        FillCountSnoc(b.fills, Fill(e.request.id, o.truth.value, e.request.comment), id);
        if e.request.id == id && id in b.mock.seen {
          SeenIdIsRefilledExactly(b.mock, e.request, spec, e.market);
        }
      } else {
        assert b.fills + [] == b.fills;
      }
    }
  }

  /** MAIN RESULT. Apart from that gap the mock itself fills no id twice, over every sequence of
      orders, queued faults and closed positions. */
  lemma {:induction false} MockFillsOnce(b: Book, spec: SymbolSpec, es: seq<Event>, id: string)
    requires spec.volumeStep > 0.0 && id != "" && SeenOnce(b, id) && GuardedRun(b, spec, es)
    ensures SeenOnce(HandleAll(b, spec, es), id)
  {
    hide Handle, SeenOnce, Guarded;
    if es != [] {
      MockFillsOnce(b, spec, es[..|es| - 1], id);
      HandleKeeps(HandleAll(b, spec, es[..|es| - 1]), spec, es[|es| - 1], id);
    }
  }

  // ----- closing and changing ---------------------------------------------------------------

  /** A close raises before or without any change: a queued lost connection, or no quote. */
  function CloseReply(m: Mock, ticket: int, mk: Market): PositionModel.Reply {
    var fault := Popped(m, OnClose);
    if fault.Some? && fault.value.kind == CONNECTION_LOST then PositionModel.Lost(false)
    else if ticket !in m.positions then PositionModel.Refused
    else if mk.quote.None? then PositionModel.Lost(false)
    else PositionModel.Done
  }

  function PartialReply(m: Mock, ticket: int, volume: real, mk: Market): PositionModel.Reply {
    var fault := Popped(m, OnClosePartial);
    if fault.Some? && fault.value.kind == CONNECTION_LOST then PositionModel.Lost(false)
    else if ticket !in m.positions || volume <= 0.0 || volume >= m.positions[ticket].volume then PositionModel.Refused
    else if mk.quote.None? then PositionModel.Lost(false)
    else PositionModel.Done
  }

  function ModifyReply(m: Mock, ticket: int): PositionModel.Reply {
    var fault := Popped(m, OnModify);
    if fault.Some? && fault.value.kind == CONNECTION_LOST then PositionModel.Lost(false)
    else if ticket !in m.positions then PositionModel.Refused
    else PositionModel.Done
  }

  class MockClient {
    const spec: SymbolSpec
    var faults: seq<Fault>
    var positions: map<int, Held>
    var seen: set<string>
    var nextTicket: int

    function View(): Mock
      reads this
    {
      Mock(faults, positions, seen, nextTicket)
    }

    constructor (spec: SymbolSpec)
      ensures this.spec == spec && View() == Mock([], map[], {}, 100000)
    {
      this.spec := spec;
      faults, positions, seen, nextTicket := [], map[], {}, 100000;
    }

    method PopFault(target: Target) returns (f: Option<Fault>)
      modifies this`faults
      ensures f == Popped(old(View()), target) && View() == AfterPop(old(View()), target)
    {
      FirstFaultIsFirst(faults, target);
      for i := 0 to |faults|
        invariant faults == old(faults) && forall k :: 0 <= k < i ==> faults[k].target != target
      {
        if faults[i].target == target {
          FirstFaultFound(faults, target, i);
          f := Some(faults[i]);
          faults := faults[..i] + faults[i + 1..];
          return;
        }
      }
      f := None;
    }

    method Fill(r: Request, mk: Market) returns (ticket: int)
      requires mk.quote.Some?
      modifies this`positions, this`nextTicket
      ensures ticket == old(nextTicket) && View() == Filled(old(View()), r, mk)
    {
      ticket := nextTicket;
      nextTicket := nextTicket + 1;
      var price := FillPrice(r, mk);
      positions := positions[ticket := Held(r.direction, r.volume, price, r.stopLoss, r.takeProfit, r.comment)];
    }

    /** The reply to an order, and the truth about it. */
    method SubmitOrder(r: Request, mk: Market) returns (reply: Reply, ghost truth: Option<int>)
      requires spec.volumeStep > 0.0
      modifies this
      ensures Outcome(View(), reply, truth) == Respond(old(View()), r, spec, mk)
    {
      hide OnBrokerGrid, FirstFault;
      truth := None;
      var fault := PopFault(OnSubmit);
      if fault.Some? {
        match fault.value.kind
        case CONNECTION_LOST => return Raised, None;
        case REJECTED => return REFUSAL, None;
        case UNKNOWN_RESULT =>
          if r.id != "" {
            seen := seen + {r.id};
          }
          if fault.value.brokerFilled && ValidQuote(mk) {
            var hidden := Fill(r, mk);
            truth := Some(hidden);
          }
          return UNCONFIRMED, truth;
      }
      if r.id != "" && r.id in seen {
        return REFUSAL, None;
      }
      if !mk.symbolKnown || mk.tradingDisabled || mk.closed || !OnBrokerGrid(r.volume, spec)
         || mk.marginInsufficient || mk.tickMissing
      {
        return REFUSAL, None;
      }
      if mk.quote.None? {
        return Raised, None;
      }
      if !ValidQuote(mk) || mk.stale || TooClose(r, r.stopLoss, spec, mk) || TooClose(r, r.takeProfit, spec, mk) {
        return REFUSAL, None;
      }
      if r.id != "" {
        seen := seen + {r.id};
      }
      var ticket := Fill(r, mk);
      return Replied(true, Some(ticket), false, Some(r.volume)), Some(ticket);
    }

    /** The position is gone exactly when the reply says so: no close happens unseen. */
    method ClosePosition(ticket: int, mk: Market) returns (reply: PositionModel.Reply)
      modifies this
      ensures reply == CloseReply(old(View()), ticket, mk)
      ensures View() == AfterPop(old(View()), OnClose).(positions :=
                if reply.Happened() then old(positions) - {ticket} else old(positions))
      ensures reply.Happened() <==> reply.Done?
    {
      hide FirstFault;
      var fault := PopFault(OnClose);
      if fault.Some? && fault.value.kind == CONNECTION_LOST {
        return PositionModel.Lost(false);
      }
      if ticket !in positions {
        return PositionModel.Refused;
      }
      if mk.quote.None? {
        return PositionModel.Lost(false);
      }
      positions := positions - {ticket};
      reply := PositionModel.Done;
    }

    /** The volume shrinks exactly when the reply says so, by the volume asked for, and never to
        zero or below. */
    method ClosePositionPartial(ticket: int, volume: real, mk: Market) returns (reply: PositionModel.Reply)
      modifies this
      ensures reply == PartialReply(old(View()), ticket, volume, mk)
      ensures reply.Happened() ==> ticket in old(positions) && 0.0 < volume < old(positions)[ticket].volume
      ensures View() == AfterPop(old(View()), OnClosePartial).(positions :=
                if reply.Happened()
                then old(positions)[ticket := old(positions)[ticket].(volume := old(positions)[ticket].volume - volume)]
                else old(positions))
      ensures reply.Happened() <==> reply.Done?
    {
      hide FirstFault;
      var fault := PopFault(OnClosePartial);
      if fault.Some? && fault.value.kind == CONNECTION_LOST {
        return PositionModel.Lost(false);
      }
      if ticket !in positions || volume <= 0.0 || volume >= positions[ticket].volume {
        return PositionModel.Refused;
      }
      if mk.quote.None? {
        return PositionModel.Lost(false);
      }
      positions := positions[ticket := positions[ticket].(volume := positions[ticket].volume - volume)];
      reply := PositionModel.Done;
    }

    /** Given levels replace the old ones, missing ones leave them, exactly when the reply says so. */
    method ModifyPosition(ticket: int, stop: Option<real>, target: Option<real>) returns (reply: PositionModel.Reply)
      modifies this
      ensures reply == ModifyReply(old(View()), ticket)
      ensures reply.Happened() ==> ticket in old(positions)
      ensures View() == AfterPop(old(View()), OnModify).(positions :=
                if reply.Happened() then
                  var p := old(positions)[ticket];
                  old(positions)[ticket := p.(stopLoss := if stop.Some? then stop else p.stopLoss,
                                              takeProfit := if target.Some? then target else p.takeProfit)]
                else old(positions))
      ensures reply.Happened() <==> reply.Done?
    {
      hide FirstFault;
      var fault := PopFault(OnModify);
      if fault.Some? && fault.value.kind == CONNECTION_LOST {
        return PositionModel.Lost(false);
      }
      if ticket !in positions {
        return PositionModel.Refused;
      }
      var p := positions[ticket];
      if stop.Some? {
        p := p.(stopLoss := stop);
      }
      if target.Some? {
        p := p.(takeProfit := target);
      }
      positions := positions[ticket := p];
      reply := PositionModel.Done;
    }
  }
}
