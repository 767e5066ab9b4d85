/** Partial exits in the paper runtime. It never tells the monitor that one was taken, so the claim
    of at most one partial exit fails for it; here is exactly how many a session takes. */
module PaperPartials {
  import opened Common
  import Costs
  import opened ExitAgreement
  import Gates
  import opened PaperLaws
  import opened PaperLedger
  import opened PaperSession
  import PositionModel
  import opened Resampling

  // ----- when one pass sells a part ---------------------------------------------------------

  /** The part that the monitor would sell. */
  function PartFor(env: RuntimeEnv, records: MonitorRecords, p: Paper): real {
    PositionModel.PartialVolume(env.monitor, AsManaged(p), RecordFor(records, p))
  }

  /** The inputs on which a pass sells part of a position: nothing pending, the trigger reached, and
      a part smaller than what is left. Whether a part was sold before does not matter. */
  predicate Sells(env: RuntimeEnv, records: MonitorRecords, p: Paper, q: Quote) {
    var r := PositionModel.RMultiple(AsManaged(p), q, env.desk.spec.tickSize);
    && RecordFor(records, p).pending.None? && env.monitor.enablePartialExit
    && r.Some? && r.value >= env.monitor.partialExitTriggerR
    && 0.0 < PartFor(env, records, p) < p.volume
  }

  function SellAction(env: RuntimeEnv, records: MonitorRecords, p: Paper): PositionModel.Action {
    PositionModel.Action(PositionModel.PARTIAL_EXIT, None, Some(PartFor(env, records, p)))
  }

  /** The proposals: perhaps a breakeven move, then the partial exit, exactly on those inputs. */
  lemma Proposals(env: RuntimeEnv, records: MonitorRecords, p: Paper, q: Quote)
    returns (even: seq<PositionModel.Action>)
    ensures Proposed(env, records, p, q)
            == even + if Sells(env, records, p, q) then [SellAction(env, records, p)] else []
    ensures even == [] || (|even| == 1 && even[0].kind == PositionModel.MOVE_TO_BREAKEVEN)
  {
    hide PositionModel.RMultiple, PositionModel.PartialVolume, RecordFor;
    var m, rec := AsManaged(p), RecordFor(records, p);
    var r := PositionModel.RMultiple(m, q, env.desk.spec.tickSize);
    even := [];
    if rec.pending.None? && r.Some? {
      even := PositionModel.Breakeven(env.monitor, m, env.desk.spec.tickSize, r.value, false);
      assert PositionModel.Trail(env.monitor, m, q, env.desk.spec.tickSize, r.value, None, rec) == [];
    }
  }

  /** The monitor's view of a position of which part was sold. */
  function Less(p: Paper, part: real): PositionModel.Position {
    AsManaged(p).(volume := p.volume - part)
  }

  /** What a pass leaves of the position, the quote and the results. */
  ghost predicate After(d: Desk, d': Desk, t: int, view: PositionModel.Position) {
    && Find(d'.ledger.open, t).Some? && AsManaged(Find(d'.ledger.open, t).value) == view
    && d'.tick == d.tick && d'.ledger.results == d.ledger.results && |d'.ledger.open| == |d.ledger.open|
  }

  lemma StopMoved(d: Desk, t: int, stop: Option<real>, target: Option<real>)
    requires Find(d.ledger.open, t).Some?
    ensures var p, d' := Find(d.ledger.open, t).value, ModifyPosition(d, t, stop, target);
            After(d, d', t, AsManaged(p.(stopLoss := if stop.Some? then stop else p.stopLoss,
                                         takeProfit := if target.Some? then target else p.takeProfit)))
  {
    hide Replace, Find;
    var p := Find(d.ledger.open, t).value;
    FindHasTicket(d.ledger.open, t);
    FindReplaced(d.ledger.open, p.(stopLoss := if stop.Some? then stop else p.stopLoss,
                                   takeProfit := if target.Some? then target else p.takeProfit), t);
  }

  lemma PartSold(env: DeskEnv, d: Desk, t: int, part: real, now: Moment)
    requires Find(d.ledger.open, t).Some? && 0.0 < part < Find(d.ledger.open, t).value.volume && d.tick.Some?
    ensures var d' := Do(env, d, DoPartial(t, part, None, now));
            && After(d, d', t, Less(Find(d.ledger.open, t).value, part))
            && |PartOf(env, d, DoPartial(t, part, None, now))| == 1
  {
    hide UpdateFloating, Replace, PartPnl, Find;
    var p, q := Find(d.ledger.open, t).value, d.tick.value;
    var sold := SoldPart(env, d.ledger, p, part, PartPnl(env, p, part, q));
    FindHasTicket(d.ledger.open, t);
    FindReplaced(d.ledger.open, p.(volume := p.volume - part, realized := p.realized + PartPnl(env, p, part, q)), t);
    FloatingFinds(sold, env.spec, AtQuote(q), now, t);
    FloatingKeeps(sold, env.spec, AtQuote(q), now);
  }

  /** What a breakeven move makes of the view. */
  function Moved(view: PositionModel.Position, even: seq<PositionModel.Action>): PositionModel.Position {
    if even == [] || even[0].newStop.None? then view else view.(stopLoss := even[0].newStop)
  }

  lemma BreakevenApplied(env: RuntimeEnv, b: Books, t: int, even: seq<PositionModel.Action>, now: Moment)
    requires Find(b.desk.ledger.open, t).Some?
    requires even == [] || (|even| == 1 && even[0].kind == PositionModel.MOVE_TO_BREAKEVEN)
    ensures var r := ActAll(env, b, t, even, now);
            r.parts == b.parts && After(b.desk, r.desk, t, Moved(AsManaged(Find(b.desk.ledger.open, t).value), even))
  {
    hide ModifyPosition, Find;
    if even != [] {
      var p := Find(b.desk.ledger.open, t).value;
      assert even[..0] == [] && ActAll(env, b, t, [], now) == b;
      assert ActAll(env, b, t, even, now).desk == ModifyPosition(b.desk, t, even[0].newStop, p.takeProfit);
      assert b.parts + [] == b.parts;
      StopMoved(b.desk, t, even[0].newStop, p.takeProfit);
    }
  }

  lemma SoldLast(
      env: RuntimeEnv, b: Books, t: int, even: seq<PositionModel.Action>, sell: PositionModel.Action, part: real,
      now: Moment)
    requires sell == PositionModel.Action(PositionModel.PARTIAL_EXIT, None, Some(part))
    ensures ActAll(env, b, t, even + [sell], now) ==
            DoOne(env.desk, ActAll(env, b, t, even, now), DoPartial(t, part, None, now))
  {
    hide DoOne, Find;
    assert (even + [sell])[..|even|] == even;
  }

  lemma SellsSmallerPart(env: RuntimeEnv, records: MonitorRecords, p: Paper, q: Quote)
    requires Sells(env, records, p, q)
    ensures 0.0 < PartFor(env, records, p) < p.volume
  {
  }

  /** MAIN RESULT. One pass over a position adds a partial exit exactly on the inputs above, and
      leaves everything else about the position except a stop moved to breakeven. */
  lemma PassSellsExactly(env: RuntimeEnv, s: Session, t: int, q: Quote, now: Moment)
    requires s.books.desk.tick.Some? && Find(s.books.desk.ledger.open, t).Some?
    ensures var p, s' := Find(s.books.desk.ledger.open, t).value, ManageOne(env, s, t, q, now);
            && |s'.books.parts| == |s.books.parts| + (if Sells(env, s.records, p, q) then 1 else 0)
            && s'.records == s.records[t := RecordFor(s.records, p)]
            && Find(s'.books.desk.ledger.open, t).Some?
            && Find(s'.books.desk.ledger.open, t).value.volume
               == p.volume - (if Sells(env, s.records, p, q) then PartFor(env, s.records, p) else 0.0)
            && s'.books.desk.tick == s.books.desk.tick && s'.books.desk.ledger.results == s.books.desk.ledger.results
            && |s'.books.desk.ledger.open| == |s.books.desk.ledger.open|
            && (|Proposed(env, s.records, p, q)| == 1 && Sells(env, s.records, p, q) ==>
                  AsManaged(Find(s'.books.desk.ledger.open, t).value) == Less(p, PartFor(env, s.records, p)))
  {
    hide Proposed, Do, PartOf, Find, ActAll, Sells, PartFor;
    var p := Find(s.books.desk.ledger.open, t).value;
    var even := Proposals(env, s.records, p, q);
    var b := ActAll(env, s.books, t, even, now);
    BreakevenApplied(env, s.books, t, even, now);
    if Sells(env, s.records, p, q) {
      var part := PartFor(env, s.records, p);
      SellsSmallerPart(env, s.records, p, q);
      SoldLast(env, s.books, t, even, SellAction(env, s.records, p), part, now);
      PartSold(env.desk, b.desk, t, part, now);
    } else {
      assert even + [] == even;
    }
  }

  // ----- how many a candle sells ------------------------------------------------------------

  /** How many of the tickets have a position that a pass would sell part of. */
  function SellCount(env: RuntimeEnv, s: Session, tickets: seq<int>, q: Quote): nat {
    if tickets == [] then 0
    else
      var found := Find(s.books.desk.ledger.open, tickets[|tickets| - 1]);
      SellCount(env, s, tickets[..|tickets| - 1], q)
      + if found.Some? && Sells(env, s.records, found.value, q) then 1 else 0
  }

  lemma SameTermsSells(env: RuntimeEnv, a: MonitorRecords, b: MonitorRecords, p: Paper, p': Paper, q: Quote)
    requires SameTerms(p, p') && p.ticket == p'.ticket && SameRecord(a, b, p.ticket)
    ensures Sells(env, a, p, q) == Sells(env, b, p', q)
  {
    hide PositionModel.RMultiple, PositionModel.PartialVolume;
  }

  lemma {:induction false} ActionsKeepTick(
      env: RuntimeEnv, b: Books, ticket: int, actions: seq<PositionModel.Action>, now: Moment)
    ensures ActAll(env, b, ticket, actions, now).desk.tick == b.desk.tick
  {
    hide UpdateFloating, PaperLedger.ApplyClose, Replace, Find, PartOf;
    if actions != [] {
      ActionsKeepTick(env, b, ticket, actions[..|actions| - 1], now);
    }
  }

  /** A pass over other positions leaves this one, its record and the quote alone. */
  lemma {:induction false} PassesElsewhere(
      env: RuntimeEnv, s: Session, tickets: seq<int>, q: Quote, now: Moment, t: int)
    requires t !in tickets
    ensures var r := ManageAll(env, s, tickets, q, now);
            && Untouched(s.books.desk, r.books.desk, t) && SameRecord(s.records, r.records, t)
            && r.books.desk.tick == s.books.desk.tick
  {
    hide Untouched, Proposed, RecordFor, Find, ActAll;
    SameTermsRefl(s.books.desk, t);
    if tickets != [] {
      var init, ticket := tickets[..|tickets| - 1], tickets[|tickets| - 1];
      assert ticket in tickets && forall x :: x in init ==> x in tickets;
      PassesElsewhere(env, s, init, q, now, t);
      var before := ManageAll(env, s, init, q, now);
      var found := Find(before.books.desk.ledger.open, ticket);
      if found.Some? {
        var actions := Proposed(env, before.records, found.value, q);
        ActionsElsewhere(env, before.books, ticket, actions, now, t);
        ActionsKeepTick(env, before.books, ticket, actions, now);
        UntouchedTwice(s.books.desk, before.books.desk, ActAll(env, before.books, ticket, actions, now).desk, t);
      }
    }
  }

  lemma NothingToManage(env: RuntimeEnv, s: Session, t: int, q: Quote, now: Moment)
    requires Find(s.books.desk.ledger.open, t).None?
    ensures ManageOne(env, s, t, q, now) == s
  {
  }

  lemma {:induction false} PassesSellExactly(env: RuntimeEnv, s: Session, tickets: seq<int>, q: Quote, now: Moment)
    requires s.books.desk.tick.Some? && NoRepeat(tickets)
    ensures |ManageAll(env, s, tickets, q, now).books.parts| == |s.books.parts| + SellCount(env, s, tickets, q)
  {
    hide ManageOne, Sells, Find, SameTerms;
    if tickets != [] {
      var init, t := tickets[..|tickets| - 1], tickets[|tickets| - 1];
      PassesSellExactly(env, s, init, q, now);
      assert t !in init;
      PassesElsewhere(env, s, init, q, now, t);
      var before := ManageAll(env, s, init, q, now);
      var was, found := Find(s.books.desk.ledger.open, t), Find(before.books.desk.ledger.open, t);
      if found.Some? {
        FindHasTicket(s.books.desk.ledger.open, t);
        FindHasTicket(before.books.desk.ledger.open, t);
        SameTermsSells(env, s.records, before.records, was.value, found.value, q);
        PassSellsExactly(env, before, t, q, now);
      } else {
        NothingToManage(env, before, t, q, now);
      }
    }
  }

  lemma {:induction false} ExitsSellNoPart(env: RuntimeEnv, b: Books, tickets: seq<int>, bar: Bar, now: Moment)
    ensures ExitAll(env, b, tickets, bar, now).parts == b.parts
  {
    hide Do, Find, ExitFor, MarkOverBar;
    if tickets != [] {
      ExitsSellNoPart(env, b, tickets[..|tickets| - 1], bar, now);
      assert b.parts + [] == b.parts;
    }
  }

  /** How many partial exits a candle makes. */
  function CandleSells(env: RuntimeEnv, s: Session, bar: Bar, killSwitch: bool, stale: bool, now: Moment): nat {
    if !Processes(env, s, killSwitch, stale) then 0
    else
      var m := BeforeManaging(env, s, bar, now);
      SellCount(env, m, Tickets(m.books.desk.ledger.open), CloseQuote(env, bar))
  }

  lemma TickSets(env: RuntimeEnv, s: Session, bar: Bar, now: Moment)
    ensures AfterTick(env, s, bar, now).books.parts == s.books.parts
    ensures AfterTick(env, s, bar, now).books.desk.tick == Some(CloseQuote(env, bar))
  {
    hide UpdateFloating;
    assert s.books.parts + [] == s.books.parts;
  }

  /** MAIN RESULT. A candle makes exactly as many partial exits as there are open positions, after
      its stops and targets, on which a pass sells. */
  lemma CandleSellsExactly(env: RuntimeEnv, s: Session, bar: Bar, killSwitch: bool, stale: bool, now: Moment)
    requires Kept(s.books.desk, s.books.parts)
    ensures |StepBar(env, s, bar, killSwitch, stale, now).books.parts|
            == |s.books.parts| + CandleSells(env, s, bar, killSwitch, stale, now)
  {
    hide ExitAll, ManageAll, Do, SellCount, TicketsUnique, Agrees, FilledOnce;
    if Processes(env, s, killSwitch, stale) {
      var tickets := Tickets(s.books.desk.ledger.open);
      ExitsSellNoPart(env, s.books, tickets, bar, now);
      ExitsKeep(env, s.books, tickets, bar, now);
      var s1 := AfterExits(env, s, bar, now);
      TickIsSound(env, s1.books, CloseQuote(env, bar), now);
      TickSets(env, s1, bar, now);
      var m := BeforeManaging(env, s, bar, now);
      NoRepeatOpen(m.books.desk);
      PassesSellExactly(env, m, Tickets(m.books.desk.ledger.open), CloseQuote(env, bar), now);
    }
  }

  // ----- how many a session takes -----------------------------------------------------------

  function EventSells(env: RuntimeEnv, s: Session, e: Event): nat {
    match e
    case Call(op) => |PartOf(env.desk, s.books.desk, op)|
    case Candle(bar, ks, stale, now) => CandleSells(env, s, bar, ks, stale, now)
  }

  function SessionSells(env: RuntimeEnv, s: Session, es: seq<Event>): nat {
    if es == [] then 0
    else
      var init := es[..|es| - 1];
      SessionSells(env, s, init) + EventSells(env, HandleAll(env, s, init), es[|es| - 1])
  }

  /** MAIN RESULT. Over every session from a new account the number of partial exits is the sum
      over its candles of the positions on which a pass sells, plus those asked for directly. So a
      session without direct requests takes at most one exactly when that sum is at most one;
      nothing else limits it. */
  lemma {:induction false} SessionSellsExactly(env: RuntimeEnv, s: Session, es: seq<Event>)
    requires Kept(s.books.desk, s.books.parts) && FloatingLaw(s.books.desk.ledger)
    ensures |HandleAll(env, s, es).books.parts| == |s.books.parts| + SessionSells(env, s, es)
  {
    hide Kept, FloatingLaw, StepBar, CandleSells, Do, PartOf;
    if es != [] {
      var init := es[..|es| - 1];
      SessionSellsExactly(env, s, init);
      SessionKeeps(env, s, init);
      var before := HandleAll(env, s, init);
      match es[|es| - 1]
      case Call(op) =>
      case Candle(bar, ks, stale, now) => CandleSellsExactly(env, before, bar, ks, stale, now);
    }
  }

  // ----- an example: two partial exits of one position --------------------------------------

  const EXAMPLE: RuntimeEnv := Settings(
    DeskEnv(PaperSpec(1.0, 1.0, 1.0, 0.25, 10.0, 0.25, true), Costs.ExecutionCosts(0.0, 0.0, 0.0, 0.0, 0.0), true),
    PositionModel.Config(100.0, 0.0, false, 0.0, 0.0, true, 1.0, 0.25), 5)

  const ACCOUNT: Ledger := Ledger(
    1000000, 100.0, Money(1000000, 1000000, 0, 1000000, 0, 0, 0, 0), Period(None, None, 0, 0),
    Results(0, 0, 0, 0, 0), [], [])

  const NEW_SESSION: Session := Session(Books(Desk(ACCOUNT, map[], None, 1), []), map[], 0)

  const RISE: Bar := Bar(0, 100.0, 116.0, 100.0, 115.0, 1.0, 1.0)

  /** A quote, an order, and the same rising candle twice. */
  function ExampleRun(now: Moment): seq<Event> {
    [Call(DoTick(PositionModel.Tick(99.0, 100.0), now)),
     Call(DoSubmit(Order("BUY", 1.0, Some(90.0), None, "a"), false, None, now, 0)),
     Candle(RISE, false, false, now), Candle(RISE, false, false, now)]
  }

  /** One open position, bought at 100 with the stop at 90, first seen with one lot. */
  ghost predicate Holding1(s: Session, volume: real) {
    var found := Find(s.books.desk.ledger.open, 1);
    && Kept(s.books.desk, s.books.parts) && FloatingLaw(s.books.desk.ledger)
    && s.books.desk.ledger.results.consecutiveLosses == 0
    && |s.books.desk.ledger.open| == 1 && found.Some?
    && AsManaged(found.value) == PositionModel.Position(1, Buy, volume, 100.0, Some(90.0), None)
    && RecordFor(s.records, found.value).initialVolume == Some(1.0) && RecordFor(s.records, found.value).pending.None?
  }

  lemma OneAndAHalfR(p: PositionModel.Position, q: Quote)
    requires p.direction == Buy && p.priceOpen == 100.0 && p.stopLoss == Some(90.0) && q.bid == 115.0
    ensures PositionModel.RMultiple(p, q, 1.0) == Some(1.5)
  {
    assert Abs(100.0 - 90.0) == 10.0;
  }

  /** The position on the rising candle: no exit, and a quarter of the first volume to sell. */
  lemma QuarterIsSold(s: Session, volume: real, p: Paper, records: MonitorRecords, q: Quote)
    requires AsManaged(p) == PositionModel.Position(1, Buy, volume, 100.0, Some(90.0), None) && volume > 0.25
    requires RecordFor(records, p).initialVolume == Some(1.0) && RecordFor(records, p).pending.None? && q.bid == 115.0
    ensures Sells(EXAMPLE, records, p, q) && PartFor(EXAMPLE, records, p) == 0.25
            && |Proposed(EXAMPLE, records, p, q)| == 1
  {
    OneAndAHalfR(AsManaged(p), q);
    assert 1.0 * EXAMPLE.monitor.partialExitFraction == 0.25;
    var even := Proposals(EXAMPLE, records, p, q);
  }

  lemma RiseExitsNothing(p: Paper)
    requires p.direction == Buy && p.stopLoss == Some(90.0) && p.takeProfit == None
    ensures ExitOfPaper(p, RISE) == None
  {
  }

  lemma ExitsKeepOne(s: Session, t: int, p: Paper, now: Moment)
    requires Find(s.books.desk.ledger.open, t) == Some(p) && |s.books.desk.ledger.open| == 1
             && ExitOfPaper(p, RISE) == None
    ensures var m := BeforeManaging(EXAMPLE, s, RISE, now);
            && |m.books.desk.ledger.open| == 1 && m.books.desk.ledger.results == s.books.desk.ledger.results
            && m.records == s.records && m.bars == s.bars
  {
    hide Find, Replace, RepriceAll, ExitFor;
    var open := s.books.desk.ledger.open;
    OpenTickets(open, t);
    assert Tickets(open) == [t];
    assert [t][..0] == [];
    assert ExitAll(EXAMPLE, s.books, [t], RISE, now) == ExitOne(EXAMPLE, s.books, t, RISE, now);
  }

  lemma SameRecordFor(records: MonitorRecords, p: Paper, p': Paper)
    requires SameTerms(p, p')
    ensures RecordFor(records, p') == RecordFor(records, p)
  {
  }

  lemma KeptRecord(records: MonitorRecords, p: Paper, p': Paper)
    requires p'.ticket == p.ticket
    ensures RecordFor(records[p.ticket := RecordFor(records, p)], p') == RecordFor(records, p)
  {
  }

  lemma OnePass(m: Session, q: Quote, now: Moment)
    ensures ManageAll(EXAMPLE, m, [1], q, now) == ManageOne(EXAMPLE, m, 1, q, now)
  {
    hide ManageOne;
    assert [1][..0] == [];
  }

  lemma RisingCandle(s: Session, volume: real, now: Moment)
    requires Holding1(s, volume) && volume > 0.25
    ensures var s' := StepBar(EXAMPLE, s, RISE, false, false, now);
            Holding1(s', volume - 0.25) && |s'.books.parts| == |s.books.parts| + 1
  {
    hide Find, ExitAll, Do, Sells, PartFor, Proposed, TicketsUnique, Agrees, FilledOnce, FloatingLaw, ExitOfPaper,
      ManageOne;
    var p := Find(s.books.desk.ledger.open, 1).value;
    var q := CloseQuote(EXAMPLE, RISE);
    RiseExitsNothing(p);
    ExitsKeepOne(s, 1, p, now);
    ExitsDecide(EXAMPLE, s, RISE, now, 1, p);
    var m := BeforeManaging(EXAMPLE, s, RISE, now);
    var p' := Find(m.books.desk.ledger.open, 1).value;
    TickSets(EXAMPLE, AfterExits(EXAMPLE, s, RISE, now), RISE, now);
    ExitsSellNoPart(EXAMPLE, s.books, Tickets(s.books.desk.ledger.open), RISE, now);
    SameRecordFor(s.records, p, p');
    QuarterIsSold(m, volume, p', m.records, q);
    PassSellsExactly(EXAMPLE, m, 1, q, now);
    OpenTickets(m.books.desk.ledger.open, 1);
    assert Tickets(m.books.desk.ledger.open) == [1];
    OnePass(m, q, now);
    BarKeeps(EXAMPLE, s, RISE, false, false, now);
    var s' := StepBar(EXAMPLE, s, RISE, false, false, now);
    KeptRecord(m.records, p', Find(s'.books.desk.ledger.open, 1).value);
  }

  lemma TwoEvents(s: Session, a: Event, b: Event)
    ensures HandleAll(EXAMPLE, s, [a, b]) == Handle(EXAMPLE, Handle(EXAMPLE, s, a), b)
  {
    hide Handle;
    assert [a, b][..1] == [a] && [a][..0] == [];
    assert HandleAll(EXAMPLE, s, []) == s;
    assert HandleAll(EXAMPLE, s, [a]) == Handle(EXAMPLE, s, a);
  }

  lemma NewRecordFor(p: Paper)
    ensures RecordFor(map[], p).initialVolume == Some(p.volume) && RecordFor(map[], p).pending.None?
  {
  }

  lemma NewSessionKept()
    ensures Kept(NEW_SESSION.books.desk, []) && FloatingLaw(ACCOUNT)
  {
    hide TicketsUnique, Agrees, FilledOnce;
    NewAccountIsSound(NEW_SESSION.books.desk, "");
    forall id
      ensures FilledOnce(NEW_SESSION.books.desk, id)
    {
      NewAccountIsSound(NEW_SESSION.books.desk, id);
    }
  }

  lemma FirstTick(now: Moment)
    ensures var s := Handle(EXAMPLE, NEW_SESSION, ExampleRun(now)[0]);
            && s.books.desk.ledger.open == [] && s.books.desk.ledger.money.freeMargin == 1000000
            && s.books.desk.ledger.leverage == 100.0 && s.books.desk.ledger.results == Results(0, 0, 0, 0, 0)
            && s.books.desk.tick == Some(PositionModel.Tick(99.0, 100.0)) && s.books.desk.nextTicket == 1
            && s.books.desk.records == map[] && s.records == map[] && s.books.parts == []
  {
  }

  lemma OneFound(p: Paper)
    ensures Find([p], p.ticket) == Some(p)
  {
  }

  lemma SameView(a: Paper, b: Paper)
    requires SameTerms(a, b)
    ensures AsManaged(a) == AsManaged(b)
  {
  }

  lemma MarginOfOne()
    ensures MarginCents(100.0, 1.0, 100.0, EXAMPLE.desk.spec) == 100
  {
    RoundOfInt(100);
  }

  lemma OneLotIsOnGrid()
    ensures Gates.MatchesStep(1.0, 0.25)
  {
    RoundOfInt(4);
  }

  lemma OrderIsJudged(d: Desk, o: Order)
    requires d.ledger.money.freeMargin == 1000000 && d.ledger.leverage == 100.0 && d.records == map[]
             && d.nextTicket == 1
    requires d.tick == Some(PositionModel.Tick(99.0, 100.0)) && o == Order("BUY", 1.0, Some(90.0), None, "a")
    ensures Judge(EXAMPLE.desk, d, o, false, None) == Filled(1, 100.0)
  {
    hide Gates.MatchesStep, MarginCents;
    MarginOfOne();
    OneLotIsOnGrid();
  }

  lemma FirstOrder(s: Session, now: Moment)
    requires s.books.desk.ledger.open == [] && s.books.desk.ledger.money.freeMargin == 1000000
    requires s.books.desk.ledger.leverage == 100.0 && s.books.desk.ledger.results == Results(0, 0, 0, 0, 0)
    requires s.books.desk.tick == Some(PositionModel.Tick(99.0, 100.0)) && s.books.desk.nextTicket == 1
    requires s.books.desk.records == map[] && s.records == map[] && s.books.parts == []
    ensures var s' := Handle(EXAMPLE, s, ExampleRun(now)[1]);
            var found := Find(s'.books.desk.ledger.open, 1);
            && |s'.books.desk.ledger.open| == 1 && found.Some? && s'.books.parts == []
            && AsManaged(found.value) == PositionModel.Position(1, Buy, 1.0, 100.0, Some(90.0), None)
            && s'.books.desk.ledger.results == Results(0, 0, 0, 0, 0) && s'.records == map[]
  {
    hide Judge, UpdateFloating, HalfCommission, Find, SameTerms;
    var o, d := Order("BUY", 1.0, Some(90.0), None, "a"), s.books.desk;
    OrderIsJudged(d, o);
    var p := NewPosition(EXAMPLE.desk, o, 1, 100.0);
    OneFound(p);
    assert d.ledger.open + [p] == [p] && s.books.parts + [] == [];
    var l := d.ledger.(open := [p], period := Today(d.ledger.period, now));
    FloatingKeeps(l, EXAMPLE.desk.spec, AtPrice(100.0), now);
    FloatingFinds(l, EXAMPLE.desk.spec, AtPrice(100.0), now, 1);
    SameView(p, Find(UpdateFloating(l, EXAMPLE.desk.spec, AtPrice(100.0), now).open, 1).value);
  }

  /** The order fills one lot at 100. */
  lemma OrderFills(now: Moment)
    ensures Holding1(HandleAll(EXAMPLE, NEW_SESSION, ExampleRun(now)[..2]), 1.0)
    ensures HandleAll(EXAMPLE, NEW_SESSION, ExampleRun(now)[..2]).books.parts == []
  {
    hide Handle, HandleAll, Kept, FloatingLaw, Find, RecordFor;
    var es := ExampleRun(now);
    assert es[..2] == [es[0], es[1]];
    var s1 := Handle(EXAMPLE, NEW_SESSION, es[0]);
    var s2 := Handle(EXAMPLE, s1, es[1]);
    TwoEvents(NEW_SESSION, es[0], es[1]);
    NewSessionKept();
    SessionKeeps(EXAMPLE, NEW_SESSION, es[..2]);
    FirstTick(now);
    FirstOrder(s1, now);
    NewRecordFor(Find(s2.books.desk.ledger.open, 1).value);
  }

  lemma HalfIsLeft(s: Session)
    requires Holding1(s, 0.5)
    ensures Find(s.books.desk.ledger.open, 1).Some? && Find(s.books.desk.ledger.open, 1).value.volume == 0.5
  {
  }

  /** RESULT. From a new account: one lot bought at 100 with the stop at 90, and two candles closing
      at 115, make two partial exits of the same position, where the trading loop and the backtest
      allow one. */
  lemma TwoPartialExits(now: Moment)
    ensures var s := HandleAll(EXAMPLE, NEW_SESSION, ExampleRun(now));
            && Unused(NEW_SESSION.books.desk.ledger) && |s.books.parts| == 2
            && Find(s.books.desk.ledger.open, 1).Some? && Find(s.books.desk.ledger.open, 1).value.volume == 0.5
  {
    var es := ExampleRun(now);
    OrderFills(now);
    assert es[..3][..2] == es[..2] && es[..4] == es && es[..4][..3] == es[..3];
    hide StepBar, Holding1;
    var s2 := HandleAll(EXAMPLE, NEW_SESSION, es[..2]);
    var s3 := StepBar(EXAMPLE, s2, RISE, false, false, now);
    var s4 := StepBar(EXAMPLE, s3, RISE, false, false, now);
    assert HandleAll(EXAMPLE, NEW_SESSION, es[..3]) == s3;
    assert HandleAll(EXAMPLE, NEW_SESSION, es) == s4;
    RisingCandle(s2, 1.0, now);
    RisingCandle(s3, 0.75, now);
    HalfIsLeft(s4);
  }
}
