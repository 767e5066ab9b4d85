/** The paper trading runtime on values: what one candle does to the account
    (app/paper/runtime.py). */
module PaperSession {
  import opened Common
  import opened Costs
  import opened PaperLaws
  import opened PaperLedger
  import PositionModel
  import opened Resampling

  /** The runtime's settings; the monitor divides by the tick size. */
  datatype Settings = Settings(desk: DeskEnv, monitor: PositionModel.Config, maxConsecutiveLosses: int)

  type RuntimeEnv = e: Settings | e.desk.spec.tickSize > 0.0
    witness Settings(
      DeskEnv(PaperSpec(1.0, 1.0, 1.0, 1.0, 1.0, 1.0, true), ExecutionCosts(0.0, 0.0, 0.0, 0.0, 0.0), true),
      PositionModel.Config(0.0, 0.0, false, 0.0, 0.0, false, 0.0, 0.0), 1)

  type MonitorRecords = map<int, PositionModel.MonitorRecord>

  datatype Session = Session(books: Books, records: MonitorRecords, bars: int)

  datatype PaperExit = PaperExit(price: real, reason: string)

  // ----- stop and target --------------------------------------------------------------------

  predicate StopHit(d: Direction, stop: Option<real>, bar: Bar) {
    stop.Some? && if d.Buy? then bar.low <= stop.value else bar.high >= stop.value
  }

  predicate TargetHit(d: Direction, target: Option<real>, bar: Bar) {
    target.Some? && if d.Buy? then bar.high >= target.value else bar.low <= target.value
  }

  /** The runtime's own exit rule; either level may be missing. */
  function ExitFor(d: Direction, stop: Option<real>, target: Option<real>, bar: Bar): Option<PaperExit> {
    if StopHit(d, stop, bar) then
      var gapped := if d.Buy? then bar.open < stop.value else bar.open > stop.value;
      Some(PaperExit(if gapped then bar.open else stop.value, "SL"))
    else if TargetHit(d, target, bar) then
      var gapped := if d.Buy? then bar.open > target.value else bar.open < target.value;
      Some(PaperExit(if gapped then bar.open else target.value, "TP"))
    else None
  }

  /** Marks a position over a candle without touching the account's totals. */
  function MarkOverBar(d: Desk, ticket: int, bar: Bar): Desk {
    var found := Find(d.ledger.open, ticket);
    if found.None? then d
    else d.(ledger := d.ledger.(open := Replace(d.ledger.open,
                                                RepriceOverBar(found.value, bar.high, bar.low, bar.close))))
  }

  function DoOne(env: DeskEnv, b: Books, op: Op): Books {
    Books(Do(env, b.desk, op), b.parts + PartOf(env, b.desk, op))
  }

  function ExitOp(d: Desk, ticket: int, bar: Bar, now: Moment): Option<Op> {
    var found := Find(d.ledger.open, ticket);
    if found.None? then None
    else
      var e := ExitFor(found.value.direction, found.value.stopLoss, found.value.takeProfit, bar);
      if e.None? then None else Some(DoClose(ticket, e.value.reason, Some(e.value.price), None, now))
  }

  function ExitOne(env: RuntimeEnv, b: Books, ticket: int, bar: Bar, now: Moment): Books {
    var marked := Books(MarkOverBar(b.desk, ticket, bar), b.parts);
    var op := ExitOp(b.desk, ticket, bar, now);
    if op.None? then marked else DoOne(env.desk, marked, op.value)
  }

  function ExitAll(env: RuntimeEnv, b: Books, tickets: seq<int>, bar: Bar, now: Moment): Books {
    if tickets == [] then b
    else ExitOne(env, ExitAll(env, b, tickets[..|tickets| - 1], bar, now), tickets[|tickets| - 1], bar, now)
  }

  function Tickets(ps: seq<Paper>): (ts: seq<int>)
    ensures |ts| == |ps|
  {
    seq(|ps|, i requires 0 <= i < |ps| => ps[i].ticket)
  }

  // ----- position management ----------------------------------------------------------------

  /** The candle's close with its spread on top. */
  function CloseQuote(env: RuntimeEnv, bar: Bar): Quote {
    PositionModel.Tick(bar.close, bar.close + bar.spread * env.desk.spec.tickSize)
  }

  function AsManaged(p: Paper): PositionModel.Position {
    PositionModel.Position(p.ticket, p.direction, p.volume, p.priceOpen, p.stopLoss, p.takeProfit)
  }

  /** After a candle the monitor and the account measure a BUY at the close, and a SELL at the close
      plus the candle's spread in ticks. */
  lemma MeasuredAtClose(env: RuntimeEnv, p: Paper, bar: Bar)
    ensures var price := match p.direction
                         case Buy => bar.close
                         case Sell => bar.close + bar.spread * env.desk.spec.tickSize;
            && PositionModel.ClosePrice(AsManaged(p), CloseQuote(env, bar)) == price
            && PriceFor(p, AtQuote(CloseQuote(env, bar))) == price
  {
  }

  function RecordFor(records: MonitorRecords, p: Paper): PositionModel.MonitorRecord {
    if p.ticket in records then records[p.ticket] else PositionModel.FirstRecord(AsManaged(p))
  }

  /** What the monitor proposes. The runtime never tells it that an action was applied, so its two
      sets stay empty, and it gets no ATR. */
  function Proposed(env: RuntimeEnv, records: MonitorRecords, p: Paper, q: Quote): seq<PositionModel.Action> {
    PositionModel.Evaluate(
      env.monitor, AsManaged(p), q, env.desk.spec.tickSize, None, RecordFor(records, p), false, false)
  }

  function ActionOp(d: Desk, ticket: int, a: PositionModel.Action, now: Moment): Option<Op> {
    var found := Find(d.ledger.open, ticket);
    var target := if found.Some? then found.value.takeProfit else None;
    match a.kind
    case MOVE_TO_BREAKEVEN => Some(DoModify(ticket, a.newStop, target))
    case TRAIL_STOP => Some(DoModify(ticket, a.newStop, target))
    case PARTIAL_EXIT =>
      if a.partialVolume.Some? then Some(DoPartial(ticket, a.partialVolume.value, None, now)) else None
    case FULL_EXIT => Some(DoClose(ticket, "FULL_EXIT", None, None, now))
  }

  function Act(env: RuntimeEnv, b: Books, ticket: int, a: PositionModel.Action, now: Moment): Books {
    var op := ActionOp(b.desk, ticket, a, now);
    if op.None? then b else DoOne(env.desk, b, op.value)
  }

  function ActAll(env: RuntimeEnv, b: Books, ticket: int, actions: seq<PositionModel.Action>, now: Moment): Books {
    if actions == [] then b
    else Act(env, ActAll(env, b, ticket, actions[..|actions| - 1], now), ticket, actions[|actions| - 1], now)
  }

  function ManageOne(env: RuntimeEnv, s: Session, ticket: int, q: Quote, now: Moment): Session {
    var found := Find(s.books.desk.ledger.open, ticket);
    if found.None? then s
    else
      var actions := Proposed(env, s.records, found.value, q);
      s.(books := ActAll(env, s.books, ticket, actions, now),
         records := s.records[ticket := RecordFor(s.records, found.value)])
  }

  function ManageAll(env: RuntimeEnv, s: Session, tickets: seq<int>, q: Quote, now: Moment): Session {
    if tickets == [] then s
    else ManageOne(env, ManageAll(env, s, tickets[..|tickets| - 1], q, now), tickets[|tickets| - 1], q, now)
  }

  // ----- one candle -------------------------------------------------------------------------

  /** A candle is skipped while the kill switch is on, after too many losses, and when it is
      stale. */
  predicate Processes(env: RuntimeEnv, s: Session, killSwitch: bool, stale: bool) {
    !killSwitch && s.books.desk.ledger.results.consecutiveLosses < env.maxConsecutiveLosses && !stale
  }

  function AfterExits(env: RuntimeEnv, s: Session, bar: Bar, now: Moment): Session {
    s.(books := ExitAll(env, s.books, Tickets(s.books.desk.ledger.open), bar, now))
  }

  function AfterTick(env: RuntimeEnv, s: Session, bar: Bar, now: Moment): Session {
    s.(books := DoOne(env.desk, s.books, DoTick(CloseQuote(env, bar), now)))
  }

  function StepBar(env: RuntimeEnv, s: Session, bar: Bar, killSwitch: bool, stale: bool, now: Moment): Session {
    if !Processes(env, s, killSwitch, stale) then s
    else
      var s2 := AfterTick(env, AfterExits(env, s, bar, now), bar, now);
      var s3 := ManageAll(env, s2, Tickets(s2.books.desk.ledger.open), CloseQuote(env, bar), now);
      s3.(bars := s3.bars + 1)
  }

  // ----- the account stays sound ------------------------------------------------------------

  /** The account's totals agree with its history, and no order id was filled twice. */
  ghost predicate Kept(d: Desk, parts: seq<int>) {
    Sound(d, parts) && forall id :: FilledOnce(d, id)
  }

  lemma OneKeeps(env: DeskEnv, b: Books, op: Op)
    requires Kept(b.desk, b.parts)
    ensures var r := DoOne(env, b, op); Kept(r.desk, r.parts)
    ensures FloatingLaw(b.desk.ledger) ==> FloatingLaw(DoOne(env, b, op).desk.ledger)
  {
    hide Do, FilledOnce, Agrees, FloatingLaw, PartOf, TicketsUnique;
    DoKeeps(env, b.desk, op, b.parts);
    DoCounts(env, b.desk, op, "");
    forall id
      ensures FilledOnce(Do(env, b.desk, op), id)
    {
      assert FilledOnce(b.desk, id);
      DoCounts(env, b.desk, op, id);
    }
  }

  lemma MarkKeeps(d: Desk, ticket: int, bar: Bar, parts: seq<int>)
    requires Kept(d, parts)
    ensures Kept(MarkOverBar(d, ticket, bar), parts)
  {
    hide Replace, CountTicket, CountId, Find, Agrees;
    var open := d.ledger.open;
    var found := Find(open, ticket);
    if found.Some? {
      FoundIsTheOne(open, ticket);
      var p := RepriceOverBar(found.value, bar.high, bar.low, bar.close);
      var d' := MarkOverBar(d, ticket, bar);
      forall t
        ensures CountTicket(d'.ledger.open, t) == CountTicket(open, t)
      {
        ReplaceKeepsCounts(open, p, t, "");
      }
      forall id
        ensures FilledOnce(d', id)
      {
        assert FilledOnce(d, id);
        ReplaceKeepsCounts(open, p, 0, id);
      }
      AgreesMeans(d.ledger, parts);
      HistoryIsEnough(d.ledger, d'.ledger, parts);
    }
  }

  lemma {:induction false} ExitsKeep(env: RuntimeEnv, b: Books, tickets: seq<int>, bar: Bar, now: Moment)
    requires Kept(b.desk, b.parts)
    ensures var r := ExitAll(env, b, tickets, bar, now); Kept(r.desk, r.parts)
  {
    hide Kept, MarkOverBar, DoOne, ExitOp;
    if tickets != [] {
      ExitsKeep(env, b, tickets[..|tickets| - 1], bar, now);
      var before, ticket := ExitAll(env, b, tickets[..|tickets| - 1], bar, now), tickets[|tickets| - 1];
      MarkKeeps(before.desk, ticket, bar, before.parts);
      var op := ExitOp(before.desk, ticket, bar, now);
      if op.Some? {
        OneKeeps(env.desk, Books(MarkOverBar(before.desk, ticket, bar), before.parts), op.value);
      }
    }
  }

  lemma {:induction false} ActionsKeep(
      env: RuntimeEnv, b: Books, ticket: int, actions: seq<PositionModel.Action>, now: Moment)
    requires Kept(b.desk, b.parts) && FloatingLaw(b.desk.ledger)
    ensures var r := ActAll(env, b, ticket, actions, now); Kept(r.desk, r.parts) && FloatingLaw(r.desk.ledger)
  {
    hide Kept, FloatingLaw, DoOne, ActionOp;
    if actions != [] {
      ActionsKeep(env, b, ticket, actions[..|actions| - 1], now);
      var before := ActAll(env, b, ticket, actions[..|actions| - 1], now);
      var op := ActionOp(before.desk, ticket, actions[|actions| - 1], now);
      if op.Some? {
        OneKeeps(env.desk, before, op.value);
      }
    }
  }

  lemma {:induction false} ManagingKeeps(env: RuntimeEnv, s: Session, tickets: seq<int>, q: Quote, now: Moment)
    requires Kept(s.books.desk, s.books.parts) && FloatingLaw(s.books.desk.ledger)
    ensures var r := ManageAll(env, s, tickets, q, now).books; Kept(r.desk, r.parts) && FloatingLaw(r.desk.ledger)
  {
    hide Kept, FloatingLaw, ActAll, Proposed, RecordFor;
    if tickets != [] {
      ManagingKeeps(env, s, tickets[..|tickets| - 1], q, now);
      var before, ticket := ManageAll(env, s, tickets[..|tickets| - 1], q, now), tickets[|tickets| - 1];
      var found := Find(before.books.desk.ledger.open, ticket);
      if found.Some? {
        ActionsKeep(env, before.books, ticket, Proposed(env, before.records, found.value, q), now);
      }
    }
  }

  /** The tick at the candle's close restores the floating total. */
  lemma TickIsSound(env: RuntimeEnv, b: Books, q: Quote, now: Moment)
    requires Kept(b.desk, b.parts)
    ensures var r := DoOne(env.desk, b, DoTick(q, now)); Kept(r.desk, r.parts) && FloatingLaw(r.desk.ledger)
  {
    hide FilledOnce, Agrees, TicketsUnique, UpdateFloating;
    OneKeeps(env.desk, b, DoTick(q, now));
    FloatingKeeps(b.desk.ledger, env.desk.spec, AtQuote(q), now);
  }

  lemma BarKeeps(env: RuntimeEnv, s: Session, bar: Bar, killSwitch: bool, stale: bool, now: Moment)
    requires Kept(s.books.desk, s.books.parts) && FloatingLaw(s.books.desk.ledger)
    ensures var r := StepBar(env, s, bar, killSwitch, stale, now).books;
            Kept(r.desk, r.parts) && FloatingLaw(r.desk.ledger)
  {
    hide Kept, FloatingLaw, ExitAll, ManageAll, Do, PartOf;
    if Processes(env, s, killSwitch, stale) {
      ExitsKeep(env, s.books, Tickets(s.books.desk.ledger.open), bar, now);
      var s1 := AfterExits(env, s, bar, now);
      TickIsSound(env, s1.books, CloseQuote(env, bar), now);
      var s2 := AfterTick(env, s1, bar, now);
      ManagingKeeps(env, s2, Tickets(s2.books.desk.ledger.open), CloseQuote(env, bar), now);
    }
  }

  // ----- whole sessions ---------------------------------------------------------------------

  /** What happens to a session: orders and other adapter calls, and candles. */
  datatype Event =
    | Call(op: Op)
    | Candle(bar: Bar, killSwitch: bool, stale: bool, now: Moment)

  function Handle(env: RuntimeEnv, s: Session, e: Event): Session {
    match e
    case Call(op) => s.(books := DoOne(env.desk, s.books, op))
    case Candle(bar, ks, stale, now) => StepBar(env, s, bar, ks, stale, now)
  }

  function HandleAll(env: RuntimeEnv, s: Session, es: seq<Event>): Session {
    if es == [] then s else Handle(env, HandleAll(env, s, es[..|es| - 1]), es[|es| - 1])
  }

  lemma {:induction false} SessionKeeps(env: RuntimeEnv, s: Session, es: seq<Event>)
    requires Kept(s.books.desk, s.books.parts) && FloatingLaw(s.books.desk.ledger)
    ensures var r := HandleAll(env, s, es).books; Kept(r.desk, r.parts) && FloatingLaw(r.desk.ledger)
  {
    hide Kept, FloatingLaw, StepBar, DoOne;
    if es != [] {
      SessionKeeps(env, s, es[..|es| - 1]);
      var before := HandleAll(env, s, es[..|es| - 1]);
      match es[|es| - 1]
      case Call(op) => OneKeeps(env.desk, before.books, op);
      case Candle(bar, ks, stale, now) => BarKeeps(env, before, bar, ks, stale, now);
    }
  }

  /** MAIN RESULT. The account's totals agree with its history, and no order id has been filled
      twice, after any mix of adapter calls and candles with their exits and management. */
  lemma SessionAgreesWithHistory(env: RuntimeEnv, d: Desk, es: seq<Event>, id: string)
    requires Unused(d.ledger)
    ensures var r := HandleAll(env, Session(Books(d, []), map[], 0), es).books;
            Agrees(r.desk.ledger, r.parts) && FloatingLaw(r.desk.ledger) && Fills(r.desk.ledger, id) <= 1
  {
    hide HandleAll, Agrees, FloatingLaw, TicketsUnique;
    NewAccountIsSound(d, id);
    forall x
      ensures FilledOnce(d, x)
    {
      NewAccountIsSound(d, x);
    }
    var s := Session(Books(d, []), map[], 0);
    SessionKeeps(env, s, es);
    assert FilledOnce(HandleAll(env, s, es).books.desk, id);
  }
}
