/** The backtest and the paper runtime were written separately; with management out of the way
    they leave a position on the same candle at the same raw price. */
module ExitAgreement {
  import opened Backtest
  import BacktestRuns
  import opened Common
  import Costs
  import opened PaperLaws
  import opened PaperLedger
  import PaperSession
  import opened PositionLife
  import PositionModel
  import opened Resampling

  // ----- one candle -------------------------------------------------------------------------

  ghost predicate ValidOhlc(b: Bar) {
    b.low <= b.open <= b.high && b.low <= b.close <= b.high
  }

  /** Both rules pick the same price, and the same reason under their own names. */
  lemma SameRule(d: Direction, stop: real, target: real, bar: Bar)
    ensures var a, b := ExitOf(d, stop, target, bar), PaperSession.ExitFor(d, Some(stop), Some(target), bar);
            && (a.Some? <==> b.Some?)
            && (a.Some? ==> a.value.price == b.value.price && a.value.reason in {STOP_LOSS, TAKE_PROFIT}
                            && (a.value.reason == STOP_LOSS <==> b.value.reason == "SL")
                            && (a.value.reason == TAKE_PROFIT <==> b.value.reason == "TP"))
  {
    assert "SL" != "TP" by {
      assert "SL"[0] != "TP"[0];
    }
  }

  /** MAIN RESULT. On a well-formed candle the exit price was traded, is never better for the
      holder than a stop that was hit, and never worse than a target that was hit; a target only
      counts when the stop was not touched. */
  lemma ExitPriceIsFair(d: Direction, stop: real, target: real, bar: Bar)
    requires ValidOhlc(bar) && ExitOf(d, stop, target, bar).Some?
    ensures var e := ExitOf(d, stop, target, bar).value;
            && bar.low <= e.price <= bar.high
            && (e.reason == STOP_LOSS ==> HitsStop(d, stop, bar) && Worse(d, e.price, stop) == e.price)
            && (e.reason == TAKE_PROFIT ==>
                !HitsStop(d, stop, bar) && HitsTarget(d, target, bar) && Better(d, e.price, target) == e.price)
            && e.reason in {STOP_LOSS, TAKE_PROFIT}
            && ((e.price == stop && e.reason == STOP_LOSS) || (e.price == target && e.reason == TAKE_PROFIT)
                || e.price == bar.open)
  {
  }

  // ----- the first exit of a sequence -------------------------------------------------------

  /** The first candle that reaches a level, and the exit there. */
  datatype Hit = Hit(at: nat, exit: Exit)

  function FirstExit(d: Direction, stop: real, target: real, bars: seq<Bar>): (r: Option<Hit>)
    ensures r.Some? ==> r.value.at < |bars|
  {
    if bars == [] then None
    else
      var before := FirstExit(d, stop, target, bars[..|bars| - 1]);
      var now := ExitOf(d, stop, target, bars[|bars| - 1]);
      if before.Some? then before
      else if now.Some? then Some(Hit(|bars| - 1, now.value))
      else None
  }

  // ----- the backtest -----------------------------------------------------------------------

  lemma UnmanagedUpdate(env: Env, h: Holding, bar: Bar)
    requires !env.settings.management
    ensures var o, e := Update(env, h, bar), ExitOf(h.direction, h.stopLoss, h.takeProfit, bar);
            && o.holding.direction == h.direction && o.holding.stopLoss == h.stopLoss
            && o.holding.takeProfit == h.takeProfit
            && (o.exit.Some? <==> e.Some?)
            && (e.Some? ==> o.exit.value.closeTime == bar.time && o.exit.value.reason == e.value.reason
                            && BacktestRuns.RawExit(env, h.direction, o.exit.value.exitPrice) == e.value.price)
  {
    hide ExitOf, Costs.Value;
    var e := ExitOf(h.direction, h.stopLoss, h.takeProfit, bar);
    if e.Some? {
      BacktestRuns.RawPricesAreRaw(env, h.direction, e.value.price);
    }
  }

  /** What an unmanaged position's life shows of the first exit. */
  ghost predicate LeavesAt(env: Env, h: Holding, bars: seq<Bar>, first: Option<Hit>, l: Life) {
    && l.holding.direction == h.direction && l.holding.stopLoss == h.stopLoss && l.holding.takeProfit == h.takeProfit
    && (l.exit.Some? <==> first.Some?)
    && (first.Some? ==>
          && first.value.at < |bars| && l.exit.value.closeTime == bars[first.value.at].time
          && l.exit.value.reason == first.value.exit.reason
          && BacktestRuns.RawExit(env, h.direction, l.exit.value.exitPrice) == first.value.exit.price)
  }

  lemma {:induction false} BacktestLeavesAtFirstExit(env: Env, h: Holding, bars: seq<Bar>)
    requires !env.settings.management
    ensures LeavesAt(env, h, bars, FirstExit(h.direction, h.stopLoss, h.takeProfit, bars), Live(env, h, bars))
  {
    hide Update, ExitOf, BacktestRuns.RawExit;
    if bars != [] {
      BacktestLeavesAtFirstExit(env, h, bars[..|bars| - 1]);
      UnmanagedUpdate(env, Live(env, h, bars[..|bars| - 1]).holding, bars[|bars| - 1]);
    }
  }

  // ----- finding a position after an operation ----------------------------------------------

  lemma {:induction false} FindReplaced(ps: seq<Paper>, p: Paper, t: int)
    ensures Find(Replace(ps, p), t) == if t == p.ticket && Find(ps, t).Some? then Some(p) else Find(ps, t)
  {
    if ps != [] {
      FindReplaced(ps[..|ps| - 1], p, t);
      assert Replace(ps, p)[..|ps| - 1] == Replace(ps[..|ps| - 1], p);
    }
  }

  /** Everything about a position that exits and the monitor look at. */
  ghost predicate SameTerms(a: Paper, b: Paper) {
    PaperSession.AsManaged(a) == PaperSession.AsManaged(b) && a.closePrice == b.closePrice
  }

  lemma RepriceKeepsTerms(p: Paper, price: real, spec: PaperSpec)
    ensures SameTerms(p, Reprice(p, price, spec)) && Reprice(p, price, spec).ticket == p.ticket
  {
  }

  lemma {:induction false} FindRepriced(ps: seq<Paper>, mark: Mark, spec: PaperSpec, t: int)
    ensures var f, r := Find(ps, t), Find(RepriceAll(ps, mark, spec), t);
            r == if f.Some? then Some(Reprice(f.value, PriceFor(f.value, mark), spec)) else None
  {
    hide Reprice, PriceFor;
    if ps != [] {
      var init, last := ps[..|ps| - 1], ps[|ps| - 1];
      FindRepriced(init, mark, spec, t);
      assert RepriceAll(ps, mark, spec)[..|ps| - 1] == RepriceAll(init, mark, spec);
      RepriceKeepsTerms(last, PriceFor(last, mark), spec);
    }
  }

  lemma {:induction false} FindRemoved(ps: seq<Paper>, ticket: int, t: int)
    ensures Find(Remove(ps, ticket), t) == if t == ticket then None else Find(ps, t)
  {
    if ps != [] {
      var init, last := ps[..|ps| - 1], ps[|ps| - 1];
      FindRemoved(init, ticket, t);
      if last.ticket == ticket {
        assert Remove(ps, ticket) == Remove(init, ticket);
      } else {
        assert Remove(ps, ticket)[..|Remove(init, ticket)|] == Remove(init, ticket);
      }
    }
  }

  lemma {:induction false} FindHasTicket(ps: seq<Paper>, t: int)
    ensures Find(ps, t).Some? ==> Find(ps, t).value.ticket == t
  {
    if ps != [] {
      FindHasTicket(ps[..|ps| - 1], t);
    }
  }

  // ----- the paper runtime ------------------------------------------------------------------

  ghost predicate Still(d: Desk, t: int, p: Paper) {
    Find(d.ledger.open, t).Some? && SameTerms(p, Find(d.ledger.open, t).value)
  }

  ghost predicate ClosedAs(c: Paper, t: int, e: PaperSession.PaperExit) {
    c.ticket == t && c.closePrice == Some(e.price) && c.closeReason == e.reason
  }

  ghost predicate Gone(d: Desk, t: int, e: PaperSession.PaperExit) {
    Find(d.ledger.open, t).None? && exists i :: 0 <= i < |d.ledger.closed| && ClosedAs(d.ledger.closed[i], t, e)
  }

  /** Still open on the same terms, or gone through the given exit. */
  ghost predicate Fate(d: Desk, t: int, p: Paper, e: Option<PaperSession.PaperExit>) {
    if e.None? then Still(d, t, p) else Gone(d, t, e.value)
  }

  /** Anything the adapter can be asked to do without changing, selling or closing position t. */
  predicate Elsewhere(op: Op, t: int) {
    match op
    case DoModify(ticket, _, _) => ticket != t
    case DoPartial(ticket, _, _, _) => ticket != t
    case DoClose(ticket, _, _, _, _) => ticket != t
    case _ => true
  }

  lemma FloatingFinds(l: Ledger, spec: PaperSpec, mark: Mark, now: Moment, t: int)
    ensures var u := UpdateFloating(l, spec, mark, now);
            && u.closed == l.closed
            && (Find(u.open, t).Some? <==> Find(l.open, t).Some?)
            && (Find(l.open, t).Some? ==> SameTerms(Find(l.open, t).value, Find(u.open, t).value))
  {
    hide UpdateFloating, Reprice;
    FloatingKeeps(l, spec, mark, now);
    FindRepriced(l.open, mark, spec, t);
    if Find(l.open, t).Some? {
      RepriceKeepsTerms(Find(l.open, t).value, PriceFor(Find(l.open, t).value, mark), spec);
    }
  }

  /** Closed lists only grow at their end, and the ticket is found as before. */
  ghost predicate Untouched(d: Desk, d': Desk, t: int) {
    && d.ledger.closed <= d'.ledger.closed
    && (Find(d'.ledger.open, t).Some? <==> Find(d.ledger.open, t).Some?)
    && (Find(d.ledger.open, t).Some? ==> SameTerms(Find(d.ledger.open, t).value, Find(d'.ledger.open, t).value))
  }

  lemma CloseElsewhere(
      l: Ledger, ticket: int, exit: real, spec: PaperSpec, reason: string, now: Moment, commission: int, t: int)
    requires Find(l.open, ticket).Some?
    ensures var l' := ApplyClose(l, ticket, exit, spec, reason, now, commission, 0);
            && l'.closed == l.closed + [Filed(Find(l.open, ticket).value, exit, spec, reason, commission, 0)]
            && (t == ticket ==> Find(l'.open, t).None?)
            && (t != ticket ==> (Find(l'.open, t).Some? <==> Find(l.open, t).Some?))
            && (t != ticket && Find(l.open, t).Some? ==> SameTerms(Find(l.open, t).value, Find(l'.open, t).value))
  {
    hide UpdateFloating, Filed, SameTerms, Remove, Today, CountResult;
    var filed := Filed(Find(l.open, ticket).value, exit, spec, reason, commission, 0);
    FindRemoved(l.open, ticket, t);
    FloatingFinds(Settled(l, filed, ticket, now, 0), spec, AtPrice(exit), now, t);
  }

  lemma JudgedTicket(env: DeskEnv, d: Desk, op: Op)
    requires op.DoSubmit?
    ensures var a := Judge(env, d, op.order, op.killSwitch, op.offered); a.Filled? ==> a.ticket == d.nextTicket
  {
  }

  lemma SameTermsRefl(d: Desk, t: int)
    ensures Untouched(d, d, t)
  {
  }

  lemma EntryElsewhere(env: DeskEnv, d: Desk, op: Op, t: int)
    requires op.DoSubmit? && t < d.nextTicket
    ensures Untouched(d, Do(env, d, op), t)
  {
    hide UpdateFloating, Judge, HalfCommission, SameTerms;
    SameTermsRefl(d, t);
    var a := Judge(env, d, op.order, op.killSwitch, op.offered);
    if a.Filled? {
      JudgedTicket(env, d, op);
      var p := NewPosition(env, op.order, a.ticket, a.price);
      var l := d.ledger.(open := d.ledger.open + [p], period := Today(d.ledger.period, op.now));
      assert (d.ledger.open + [p])[..|d.ledger.open|] == d.ledger.open;
      FloatingFinds(l, env.spec, AtPrice(a.price), op.now, t);
    }
  }

  lemma SwapKeepsTerms(p: Paper, amount: int)
    ensures SameTerms(p, p.(swap := p.swap + amount))
  {
  }

  lemma ElsewhereLeavesAlone(env: DeskEnv, d: Desk, op: Op, t: int)
    requires Elsewhere(op, t) && (op.DoSubmit? ==> t < d.nextTicket)
    ensures Untouched(d, Do(env, d, op), t)
  {
    hide UpdateFloating, ApplyClose, Replace, Find, SameTerms, PartPnl, LeavePrice, HalfCommission, Judge;
    var open := d.ledger.open;
    SameTermsRefl(d, t);
    match op
    case DoSubmit(_, _, _, _, _) => EntryElsewhere(env, d, op, t);
    case DoSwap(ticket, amount) =>
      if Find(open, ticket).Some? {
        var p := Find(open, ticket).value;
        FindHasTicket(open, ticket);
        FindReplaced(open, p.(swap := p.swap + amount), t);
        SwapKeepsTerms(p, amount);
      }
    case DoTick(q, now) => FloatingFinds(d.ledger, env.spec, AtQuote(q), now, t);
    case DoModify(ticket, stop, target) =>
      if Find(open, ticket).Some? {
        var p := Find(open, ticket).value;
        FindHasTicket(open, ticket);
        FindReplaced(open, p.(stopLoss := if stop.Some? then stop else p.stopLoss,
                              takeProfit := if target.Some? then target else p.takeProfit), t);
      }
    case DoPartial(ticket, volume, offered, now) =>
      if SellsPart(d, ticket, volume, offered) {
        var p, q := Find(open, ticket).value, QuoteOf(d, offered).value;
        var pnl := PartPnl(env, p, volume, q);
        FindHasTicket(open, ticket);
        FindReplaced(open, p.(volume := p.volume - volume, realized := p.realized + pnl), t);
        FloatingFinds(SoldPart(env, d.ledger, p, volume, pnl), env.spec, AtQuote(q), now, t);
      }
    case DoClose(ticket, reason, x, offered, now) =>
      var found := Find(open, ticket);
      if found.Some? && (x.Some? || QuoteOf(d, offered).Some?) {
        var exit := if x.Some? then x.value else LeavePrice(env, found.value.direction, QuoteOf(d, offered).value);
        CloseElsewhere(d.ledger, ticket, exit, env.spec, if reason == "" then "PAPER_CLOSED" else reason, now,
                       HalfCommission(env, found.value.volume), t);
      }
  }

  lemma FateKept(d: Desk, d': Desk, t: int, p: Paper, e: Option<PaperSession.PaperExit>)
    requires Fate(d, t, p, e) && Untouched(d, d', t)
    ensures Fate(d', t, p, e)
  {
    hide Find;
    if e.Some? {
      var i :| 0 <= i < |d.ledger.closed| && ClosedAs(d.ledger.closed[i], t, e.value);
      assert d'.ledger.closed[i] == d.ledger.closed[i];
    }
  }

  lemma MarkIsElsewhere(d: Desk, ticket: int, bar: Bar, t: int)
    ensures Untouched(d, PaperSession.MarkOverBar(d, ticket, bar), t)
  {
    hide Find, Replace;
    SameTermsRefl(d, t);
    var found := Find(d.ledger.open, ticket);
    if found.Some? {
      FindHasTicket(d.ledger.open, ticket);
      FindReplaced(d.ledger.open, RepriceOverBar(found.value, bar.high, bar.low, bar.close), t);
    }
  }

  /** The exit rule applied to a position's own terms. */
  function ExitOfPaper(p: Paper, bar: Bar): Option<PaperSession.PaperExit> {
    PaperSession.ExitFor(p.direction, p.stopLoss, p.takeProfit, bar)
  }

  lemma FiledAs(p: Paper, exit: real, spec: PaperSpec, reason: string, commission: int)
    ensures ClosedAs(Filed(p, exit, spec, reason, commission, 0), p.ticket, PaperSession.PaperExit(exit, reason))
  {
  }

  lemma ReasonNamed(p: Paper, bar: Bar)
    ensures var e := ExitOfPaper(p, bar); e.Some? ==> e.value.reason != ""
  {
  }

  lemma OwnExit(env: PaperSession.RuntimeEnv, b: Books, t: int, p: Paper, bar: Bar, now: Moment)
    requires Still(b.desk, t, p)
    ensures Fate(PaperSession.ExitOne(env, b, t, bar, now).desk, t, p, ExitOfPaper(p, bar))
  {
    hide Find, Replace, ApplyClose, PaperSession.ExitFor, PaperSession.MarkOverBar, HalfCommission, Filed;
    var d := PaperSession.MarkOverBar(b.desk, t, bar);
    MarkIsElsewhere(b.desk, t, bar, t);
    var e := ExitOfPaper(p, bar);
    if e.Some? {
      var m := Find(d.ledger.open, t).value;
      var reason := if e.value.reason == "" then "PAPER_CLOSED" else e.value.reason;
      CloseElsewhere(d.ledger, t, e.value.price, env.desk.spec, reason, now, HalfCommission(env.desk, m.volume), t);
      FindHasTicket(d.ledger.open, t);
      var filed := Filed(m, e.value.price, env.desk.spec, reason, HalfCommission(env.desk, m.volume), 0);
      FiledAs(m, e.value.price, env.desk.spec, reason, HalfCommission(env.desk, m.volume));
      ReasonNamed(p, bar);
      var d' := PaperSession.ExitOne(env, b, t, bar, now).desk;
      assert d'.ledger.closed[|d.ledger.closed|] == filed;
      assert ClosedAs(d'.ledger.closed[|d.ledger.closed|], t, e.value);
    }
  }

  lemma UntouchedTwice(a: Desk, b: Desk, c: Desk, t: int)
    requires Untouched(a, b, t) && Untouched(b, c, t)
    ensures Untouched(a, c, t)
  {
    hide Find;
  }

  lemma OtherExit(env: PaperSession.RuntimeEnv, b: Books, ticket: int, bar: Bar, now: Moment, t: int)
    requires ticket != t
    ensures Untouched(b.desk, PaperSession.ExitOne(env, b, ticket, bar, now).desk, t)
  {
    hide Do, Find, SameTerms, PaperSession.MarkOverBar, PaperSession.ExitFor;
    var d := PaperSession.MarkOverBar(b.desk, ticket, bar);
    MarkIsElsewhere(b.desk, ticket, bar, t);
    var op := PaperSession.ExitOp(b.desk, ticket, bar, now);
    if op.Some? {
      ElsewhereLeavesAlone(env.desk, d, op.value, t);
      UntouchedTwice(b.desk, d, Do(env.desk, d, op.value), t);
    }
  }

  ghost predicate NoRepeat(ts: seq<int>) {
    forall i, j :: 0 <= i < j < |ts| ==> ts[i] != ts[j]
  }

  /** In the exit pass a position meets its own rule exactly once, whatever the others do. */
  lemma {:induction false} ExitPass(
      env: PaperSession.RuntimeEnv, b: Books, tickets: seq<int>, bar: Bar, now: Moment, t: int, p: Paper)
    requires Still(b.desk, t, p) && NoRepeat(tickets)
    ensures Fate(PaperSession.ExitAll(env, b, tickets, bar, now).desk, t, p,
                 if t in tickets then ExitOfPaper(p, bar) else None)
  {
    hide PaperSession.ExitOne, ExitOfPaper, Still, Gone;
    if tickets != [] {
      var init, ticket := tickets[..|tickets| - 1], tickets[|tickets| - 1];
      ExitPass(env, b, init, bar, now, t, p);
      var before := PaperSession.ExitAll(env, b, init, bar, now);
      if ticket == t {
        assert t !in init;
        OwnExit(env, before, t, p, bar, now);
      } else {
        assert t in tickets <==> t in init;
        OtherExit(env, before, ticket, bar, now, t);
        FateKept(before.desk, PaperSession.ExitOne(env, before, ticket, bar, now).desk, t, p,
                 if t in init then ExitOfPaper(p, bar) else None);
      }
    }
  }

  // ----- the management pass ----------------------------------------------------------------

  /** The monitor proposes nothing for the position at this quote. */
  ghost predicate Quiet(env: PaperSession.RuntimeEnv, s: PaperSession.Session, t: int, q: Quote) {
    var found := Find(s.books.desk.ledger.open, t);
    found.Some? ==> PaperSession.Proposed(env, s.records, found.value, q) == []
  }

  lemma {:induction false} ActionsElsewhere(
      env: PaperSession.RuntimeEnv, b: Books, ticket: int, actions: seq<PositionModel.Action>, now: Moment, t: int)
    requires ticket != t
    ensures Untouched(b.desk, PaperSession.ActAll(env, b, ticket, actions, now).desk, t)
  {
    hide Do, Untouched;
    SameTermsRefl(b.desk, t);
    if actions != [] {
      var init, a := actions[..|actions| - 1], actions[|actions| - 1];
      ActionsElsewhere(env, b, ticket, init, now, t);
      var before := PaperSession.ActAll(env, b, ticket, init, now);
      var op := PaperSession.ActionOp(before.desk, ticket, a, now);
      if op.Some? {
        ElsewhereLeavesAlone(env.desk, before.desk, op.value, t);
        UntouchedTwice(b.desk, before.desk, Do(env.desk, before.desk, op.value), t);
      }
    }
  }

  ghost predicate SameRecord(a: PaperSession.MonitorRecords, b: PaperSession.MonitorRecords, t: int) {
    (t in a <==> t in b) && (t in a ==> a[t] == b[t])
  }

  lemma SameProposal(
      env: PaperSession.RuntimeEnv, s: PaperSession.Session, s': PaperSession.Session, t: int, q: Quote)
    requires Untouched(s.books.desk, s'.books.desk, t) && SameRecord(s.records, s'.records, t)
    requires Quiet(env, s, t, q)
    ensures Quiet(env, s', t, q)
  {
    hide Find, PositionModel.Evaluate;
    FindHasTicket(s.books.desk.ledger.open, t);
    FindHasTicket(s'.books.desk.ledger.open, t);
  }

  lemma {:induction false} ManagePass(
      env: PaperSession.RuntimeEnv, s: PaperSession.Session, tickets: seq<int>, q: Quote, now: Moment, t: int)
    requires NoRepeat(tickets) && Quiet(env, s, t, q)
    ensures var r := PaperSession.ManageAll(env, s, tickets, q, now);
            Untouched(s.books.desk, r.books.desk, t) && (t !in tickets ==> SameRecord(s.records, r.records, t))
  {
    hide Untouched, PaperSession.Proposed, PaperSession.RecordFor, Find;
    SameTermsRefl(s.books.desk, t);
    if tickets != [] {
      var init, ticket := tickets[..|tickets| - 1], tickets[|tickets| - 1];
      ManagePass(env, s, init, q, now, t);
      var before := PaperSession.ManageAll(env, s, init, q, now);
      var found := Find(before.books.desk.ledger.open, ticket);
      if ticket == t {
        assert t !in init;
        SameProposal(env, s, before, t, q);
      } else if found.Some? {
        var actions := PaperSession.Proposed(env, before.records, found.value, q);
        ActionsElsewhere(env, before.books, ticket, actions, now, t);
        UntouchedTwice(s.books.desk, before.books.desk,
                       PaperSession.ActAll(env, before.books, ticket, actions, now).desk, t);
      }
    }
  }

  // ----- whole candles ----------------------------------------------------------------------

  lemma {:induction false} UniqueTickets(ps: seq<Paper>)
    requires forall t :: CountTicket(ps, t) <= 1
    ensures NoRepeat(PaperSession.Tickets(ps))
  {
    if ps != [] {
      var init, last := ps[..|ps| - 1], ps[|ps| - 1];
      forall t
        ensures CountTicket(init, t) <= 1
      {
        assert CountTicket(ps, t) <= 1;
      }
      UniqueTickets(init);
      assert CountTicket(ps, last.ticket) <= 1;
      NotCounted(init, last.ticket);
      assert forall i :: 0 <= i < |init| ==> PaperSession.Tickets(init)[i] == PaperSession.Tickets(ps)[i];
    }
  }

  lemma {:induction false} OpenTickets(ps: seq<Paper>, t: int)
    ensures t in PaperSession.Tickets(ps) <==> Find(ps, t).Some?
  {
    if ps != [] {
      var init := ps[..|ps| - 1];
      OpenTickets(init, t);
      assert PaperSession.Tickets(ps) == PaperSession.Tickets(init) + [ps[|ps| - 1].ticket];
    }
  }

  lemma NoRepeatOpen(d: Desk)
    requires TicketsUnique(d)
    ensures NoRepeat(PaperSession.Tickets(d.ledger.open))
  {
    hide CountTicket;
    assert forall t :: CountTicket(d.ledger.open, t) <= 1;
    UniqueTickets(d.ledger.open);
  }

  /** The session right before the management of a candle. */
  function BeforeManaging(
      env: PaperSession.RuntimeEnv, s: PaperSession.Session, bar: Bar, now: Moment): PaperSession.Session {
    PaperSession.AfterTick(env, PaperSession.AfterExits(env, s, bar, now), bar, now)
  }

  /** While the position is open, a candle is processed and the monitor leaves it alone; any other
      call is about something else. */
  ghost predicate Undisturbed(env: PaperSession.RuntimeEnv, s: PaperSession.Session, e: PaperSession.Event, t: int) {
    match e
    case Call(op) => Elsewhere(op, t)
    case Candle(bar, killSwitch, stale, now) =>
      Find(s.books.desk.ledger.open, t).Some? ==>
        && PaperSession.Processes(env, s, killSwitch, stale)
        && Quiet(env, BeforeManaging(env, s, bar, now), t, PaperSession.CloseQuote(env, bar))
  }

  /** Before anything is managed, the candle has decided the position's fate. */
  lemma ExitsDecide(
      env: PaperSession.RuntimeEnv, s: PaperSession.Session, bar: Bar, now: Moment, t: int, p: Paper)
    requires PaperSession.Kept(s.books.desk, s.books.parts) && Still(s.books.desk, t, p)
    ensures Fate(BeforeManaging(env, s, bar, now).books.desk, t, p, ExitOfPaper(p, bar))
    ensures TicketsUnique(BeforeManaging(env, s, bar, now).books.desk)
  {
    hide Do, Find, PaperSession.ExitAll, ExitOfPaper, FilledOnce, Agrees, TicketsUnique, Fate, Untouched;
    var tickets := PaperSession.Tickets(s.books.desk.ledger.open);
    NoRepeatOpen(s.books.desk);
    OpenTickets(s.books.desk.ledger.open, t);
    ExitPass(env, s.books, tickets, bar, now, t, p);
    var s1 := PaperSession.AfterExits(env, s, bar, now);
    PaperSession.ExitsKeep(env, s.books, tickets, bar, now);
    var tick := DoTick(PaperSession.CloseQuote(env, bar), now);
    ElsewhereLeavesAlone(env.desk, s1.books.desk, tick, t);
    FateKept(s1.books.desk, BeforeManaging(env, s, bar, now).books.desk, t, p, ExitOfPaper(p, bar));
    PaperSession.OneKeeps(env.desk, s1.books, tick);
  }

  lemma CandleDecides(env: PaperSession.RuntimeEnv, s: PaperSession.Session, e: PaperSession.Event, t: int, p: Paper)
    requires PaperSession.Kept(s.books.desk, s.books.parts)
    requires e.Candle? && Undisturbed(env, s, e, t) && Still(s.books.desk, t, p)
    ensures Fate(PaperSession.Handle(env, s, e).books.desk, t, p, ExitOfPaper(p, e.bar))
  {
    hide Do, Find, PaperSession.ExitAll, PaperSession.ManageAll, ExitOfPaper, FilledOnce, Agrees, TicketsUnique,
      Quiet, Fate, Untouched;
    var q := PaperSession.CloseQuote(env, e.bar);
    ExitsDecide(env, s, e.bar, e.now, t, p);
    var s2 := BeforeManaging(env, s, e.bar, e.now);
    NoRepeatOpen(s2.books.desk);
    var tickets2 := PaperSession.Tickets(s2.books.desk.ledger.open);
    ManagePass(env, s2, tickets2, q, e.now, t);
    FateKept(s2.books.desk, PaperSession.ManageAll(env, s2, tickets2, q, e.now).books.desk, t, p,
             ExitOfPaper(p, e.bar));
  }

  lemma {:induction false} ExitPassElsewhere(
      env: PaperSession.RuntimeEnv, b: Books, tickets: seq<int>, bar: Bar, now: Moment, t: int)
    requires t !in tickets
    ensures Untouched(b.desk, PaperSession.ExitAll(env, b, tickets, bar, now).desk, t)
  {
    hide PaperSession.ExitOne, Untouched;
    SameTermsRefl(b.desk, t);
    if tickets != [] {
      var init, ticket := tickets[..|tickets| - 1], tickets[|tickets| - 1];
      assert ticket in tickets && forall x :: x in init ==> x in tickets;
      ExitPassElsewhere(env, b, init, bar, now, t);
      var before := PaperSession.ExitAll(env, b, init, bar, now);
      OtherExit(env, before, ticket, bar, now, t);
      UntouchedTwice(b.desk, before.desk, PaperSession.ExitOne(env, before, ticket, bar, now).desk, t);
    }
  }

  /** A closed position stays as it was filed. */
  lemma CandleKeepsGone(
      env: PaperSession.RuntimeEnv, s: PaperSession.Session, e: PaperSession.Event, t: int, p: Paper,
      x: PaperSession.PaperExit)
    requires PaperSession.Kept(s.books.desk, s.books.parts)
    requires e.Candle? && Gone(s.books.desk, t, x)
    ensures Gone(PaperSession.Handle(env, s, e).books.desk, t, x)
  {
    if PaperSession.Processes(env, s, e.killSwitch, e.stale) {
      hide Do, Find, PaperSession.ExitAll, PaperSession.ManageAll, FilledOnce, Agrees, TicketsUnique, Untouched,
        ClosedAs;
      var tickets := PaperSession.Tickets(s.books.desk.ledger.open);
      var q := PaperSession.CloseQuote(env, e.bar);
      OpenTickets(s.books.desk.ledger.open, t);
      ExitPassElsewhere(env, s.books, tickets, e.bar, e.now, t);
      var s1 := PaperSession.AfterExits(env, s, e.bar, e.now);
      PaperSession.ExitsKeep(env, s.books, tickets, e.bar, e.now);
      var tick := DoTick(q, e.now);
      ElsewhereLeavesAlone(env.desk, s1.books.desk, tick, t);
      var s2 := BeforeManaging(env, s, e.bar, e.now);
      PaperSession.OneKeeps(env.desk, s1.books, tick);
      NoRepeatOpen(s2.books.desk);
      FateKept(s.books.desk, s1.books.desk, t, p, Some(x));
      FateKept(s1.books.desk, s2.books.desk, t, p, Some(x));
      var tickets2 := PaperSession.Tickets(s2.books.desk.ledger.open);
      ManagePass(env, s2, tickets2, q, e.now, t);
      FateKept(s2.books.desk, PaperSession.ManageAll(env, s2, tickets2, q, e.now).books.desk, t, p, Some(x));
    }
  }

  // ----- whole sequences --------------------------------------------------------------------

  /** The candles among the events. */
  function BarsOf(es: seq<PaperSession.Event>): seq<Bar> {
    if es == [] then []
    else
      var last := es[|es| - 1];
      BarsOf(es[..|es| - 1]) + if last.Candle? then [last.bar] else []
  }

  ghost predicate UndisturbedRun(
      env: PaperSession.RuntimeEnv, s: PaperSession.Session, es: seq<PaperSession.Event>, t: int) {
    forall k :: 0 <= k < |es| ==> Undisturbed(env, PaperSession.HandleAll(env, s, es[..k]), es[k], t)
  }

  /** The paper exit that corresponds to a hit. */
  ghost predicate Matches(first: Option<Hit>, x: Option<PaperSession.PaperExit>) {
    && (first.Some? <==> x.Some?)
    && (x.Some? ==> x.value.price == first.value.exit.price
                    && (x.value.reason == "SL" <==> first.value.exit.reason == STOP_LOSS))
  }

  lemma OpKeepsNextTicket(env: DeskEnv, d: Desk, op: Op)
    ensures Do(env, d, op).nextTicket >= d.nextTicket
  {
    hide UpdateFloating, ApplyClose, Judge, Find, Replace;
  }

  lemma {:induction false} ExitsKeepNextTicket(
      env: PaperSession.RuntimeEnv, b: Books, tickets: seq<int>, bar: Bar, now: Moment)
    ensures PaperSession.ExitAll(env, b, tickets, bar, now).desk.nextTicket >= b.desk.nextTicket
  {
    hide Do, Find, PaperSession.ExitFor;
    if tickets != [] {
      var init, ticket := tickets[..|tickets| - 1], tickets[|tickets| - 1];
      ExitsKeepNextTicket(env, b, init, bar, now);
      var before := PaperSession.ExitAll(env, b, init, bar, now);
      var op := PaperSession.ExitOp(before.desk, ticket, bar, now);
      if op.Some? {
        OpKeepsNextTicket(env.desk, PaperSession.MarkOverBar(before.desk, ticket, bar), op.value);
      }
    }
  }

  lemma {:induction false} ActionsKeepNextTicket(
      env: PaperSession.RuntimeEnv, b: Books, ticket: int, actions: seq<PositionModel.Action>, now: Moment)
    ensures PaperSession.ActAll(env, b, ticket, actions, now).desk.nextTicket >= b.desk.nextTicket
  {
    hide Do;
    if actions != [] {
      ActionsKeepNextTicket(env, b, ticket, actions[..|actions| - 1], now);
      var before := PaperSession.ActAll(env, b, ticket, actions[..|actions| - 1], now);
      var op := PaperSession.ActionOp(before.desk, ticket, actions[|actions| - 1], now);
      if op.Some? {
        OpKeepsNextTicket(env.desk, before.desk, op.value);
      }
    }
  }

  lemma {:induction false} ManagingKeepsNextTicket(
      env: PaperSession.RuntimeEnv, s: PaperSession.Session, tickets: seq<int>, q: Quote, now: Moment)
    ensures PaperSession.ManageAll(env, s, tickets, q, now).books.desk.nextTicket >= s.books.desk.nextTicket
  {
    hide PaperSession.ActAll, PaperSession.Proposed, Find;
    if tickets != [] {
      var init, ticket := tickets[..|tickets| - 1], tickets[|tickets| - 1];
      ManagingKeepsNextTicket(env, s, init, q, now);
      var before := PaperSession.ManageAll(env, s, init, q, now);
      var found := Find(before.books.desk.ledger.open, ticket);
      if found.Some? {
        ActionsKeepNextTicket(env, before.books, ticket, PaperSession.Proposed(env, before.records, found.value, q),
                              now);
      }
    }
  }

  lemma NextTicketGrows(env: PaperSession.RuntimeEnv, s: PaperSession.Session, e: PaperSession.Event)
    ensures PaperSession.Handle(env, s, e).books.desk.nextTicket >= s.books.desk.nextTicket
  {
    hide Do, PaperSession.ExitAll, PaperSession.ManageAll;
    match e
    case Call(op) => OpKeepsNextTicket(env.desk, s.books.desk, op);
    case Candle(bar, _, _, now) =>
      var s1 := PaperSession.AfterExits(env, s, bar, now);
      ExitsKeepNextTicket(env, s.books, PaperSession.Tickets(s.books.desk.ledger.open), bar, now);
      OpKeepsNextTicket(env.desk, s1.books.desk, DoTick(PaperSession.CloseQuote(env, bar), now));
      var s2 := BeforeManaging(env, s, bar, now);
      ManagingKeepsNextTicket(
        env, s2, PaperSession.Tickets(s2.books.desk.ledger.open), PaperSession.CloseQuote(env, bar), now);
  }

  lemma {:induction false} TicketsOnlyGrow(
      env: PaperSession.RuntimeEnv, s: PaperSession.Session, es: seq<PaperSession.Event>)
    ensures PaperSession.HandleAll(env, s, es).books.desk.nextTicket >= s.books.desk.nextTicket
  {
    hide PaperSession.Handle;
    if es != [] {
      var init := es[..|es| - 1];
      TicketsOnlyGrow(env, s, init);
      NextTicketGrows(env, PaperSession.HandleAll(env, s, init), es[|es| - 1]);
    }
  }

  /** A position on the books: its ticket has been issued. */
  ghost predicate OnTheBooks(s: PaperSession.Session, t: int, p: Paper) {
    && PaperSession.Kept(s.books.desk, s.books.parts) && FloatingLaw(s.books.desk.ledger)
    && Still(s.books.desk, t, p) && p.stopLoss.Some? && p.takeProfit.Some?
  }

  lemma OpenTicketIsIssued(d: Desk, t: int)
    requires TicketsUnique(d) && Find(d.ledger.open, t).Some?
    ensures t < d.nextTicket
  {
    hide CountTicket, Find;
    NotCounted(d.ledger.open, t);
    assert CountTicket(d.ledger.open, t) <= if t < d.nextTicket then 1 else 0;
  }

  lemma TicketStaysIssued(
      env: PaperSession.RuntimeEnv, s: PaperSession.Session, es: seq<PaperSession.Event>, t: int, p: Paper)
    requires OnTheBooks(s, t, p)
    ensures t < PaperSession.HandleAll(env, s, es).books.desk.nextTicket
  {
    hide PaperSession.HandleAll, TicketsUnique, Agrees, FilledOnce, Find, SameTerms, FloatingLaw;
    OpenTicketIsIssued(s.books.desk, t);
    TicketsOnlyGrow(env, s, es);
  }

  lemma CallElsewhere(
      env: PaperSession.RuntimeEnv, s: PaperSession.Session, e: PaperSession.Event, t: int, p: Paper,
      x: Option<PaperSession.PaperExit>)
    requires e.Call? && Undisturbed(env, s, e, t) && t < s.books.desk.nextTicket && Fate(s.books.desk, t, p, x)
    ensures Fate(PaperSession.Handle(env, s, e).books.desk, t, p, x)
  {
    hide Do, Fate, Untouched;
    ElsewhereLeavesAlone(env.desk, s.books.desk, e.op, t);
    FateKept(s.books.desk, Do(env.desk, s.books.desk, e.op), t, p, x);
  }

  lemma ShorterRun(env: PaperSession.RuntimeEnv, s: PaperSession.Session, es: seq<PaperSession.Event>, t: int)
    requires es != [] && UndisturbedRun(env, s, es, t)
    ensures UndisturbedRun(env, s, es[..|es| - 1], t)
    ensures Undisturbed(env, PaperSession.HandleAll(env, s, es[..|es| - 1]), es[|es| - 1], t)
  {
    hide Undisturbed, PaperSession.HandleAll;
    var init := es[..|es| - 1];
    forall k | 0 <= k < |init|
      ensures Undisturbed(env, PaperSession.HandleAll(env, s, init[..k]), init[k], t)
    {
      assert init[..k] == es[..k] && init[k] == es[k];
    }
  }

  lemma {:induction false} PaperLeavesAtFirstExit(
      env: PaperSession.RuntimeEnv, s: PaperSession.Session, es: seq<PaperSession.Event>, t: int, p: Paper)
    returns (x: Option<PaperSession.PaperExit>)
    requires OnTheBooks(s, t, p) && UndisturbedRun(env, s, es, t)
    ensures Fate(PaperSession.HandleAll(env, s, es).books.desk, t, p, x)
    ensures Matches(FirstExit(p.direction, p.stopLoss.value, p.takeProfit.value, BarsOf(es)), x)
  {
    hide PaperSession.Kept, FloatingLaw, PaperSession.Handle, Undisturbed, Still, Gone, ExitOf, PaperSession.ExitFor;
    if es == [] {
      x := None;
    } else {
      var init, e := es[..|es| - 1], es[|es| - 1];
      ShorterRun(env, s, es, t);
      x := PaperLeavesAtFirstExit(env, s, init, t, p);
      PaperSession.SessionKeeps(env, s, init);
      var before := PaperSession.HandleAll(env, s, init);
      if e.Call? {
        TicketStaysIssued(env, s, init, t, p);
        CallElsewhere(env, before, e, t, p, x);
        assert BarsOf(es) == BarsOf(init);
      } else {
        assert BarsOf(es)[..|BarsOf(es)| - 1] == BarsOf(init);
        if x.None? {
          CandleDecides(env, before, e, t, p);
          SameRule(p.direction, p.stopLoss.value, p.takeProfit.value, e.bar);
          x := ExitOfPaper(p, e.bar);
        } else {
          CandleKeepsGone(env, before, e, t, p, x.value);
        }
      }
    }
  }

  /** The paper session has the position that the backtest holds. */
  ghost predicate SamePosition(h: Holding, s: PaperSession.Session, t: int, p: Paper) {
    && OnTheBooks(s, t, p) && p.direction == h.direction
    && p.stopLoss == Some(h.stopLoss) && p.takeProfit == Some(h.takeProfit)
  }

  /** Left in the one exactly when left in the other, at the same raw price through the same level. */
  ghost predicate LeftAlike(benv: Env, h: Holding, trade: Option<Trade>, paper: Desk, t: int) {
    && (trade.None? <==> Find(paper.ledger.open, t).Some?)
    && (trade.Some? ==>
          exists x ::
            && Gone(paper, t, x)
            && x.price == BacktestRuns.RawExit(benv, h.direction, trade.value.exitPrice)
            && (x.reason == "SL" <==> trade.value.reason == STOP_LOSS))
  }

  /** MAIN RESULT. Given the same levels and the same candles, with the backtest's management off
      and the paper monitor proposing nothing for the position, the backtest has left the
      position after these candles exactly when the paper runtime has, through the same level at
      the same raw price, whatever other orders, changes, closes, swaps and ticks the paper account
      sees in between. It holds for every number of candles, so they leave on the same one. */
  lemma ExitsAgree(
      benv: Env, h: Holding, renv: PaperSession.RuntimeEnv, s: PaperSession.Session,
      es: seq<PaperSession.Event>, t: int, p: Paper)
    requires !benv.settings.management && SamePosition(h, s, t, p) && UndisturbedRun(renv, s, es, t)
    ensures LeftAlike(benv, h, Live(benv, h, BarsOf(es)).exit, PaperSession.HandleAll(renv, s, es).books.desk, t)
  {
    hide Live, PaperSession.HandleAll, PaperSession.Kept, FloatingLaw, UndisturbedRun, FirstExit,
      BacktestRuns.RawExit, Find;
    BacktestLeavesAtFirstExit(benv, h, BarsOf(es));
    var x := PaperLeavesAtFirstExit(renv, s, es, t, p);
    if x.Some? {
      assert Gone(PaperSession.HandleAll(renv, s, es).books.desk, t, x.value);
    }
  }

  // ----- a condition that a caller can check ------------------------------------------------

  /** At this quote the position has not gained enough for any trigger of the monitor. */
  predicate BelowTriggers(env: PaperSession.RuntimeEnv, p: Paper, q: Quote)
    requires p.stopLoss.Some?
  {
    var gain := Gain(p.direction, p.priceOpen, if p.direction.Buy? then q.bid else q.ask);
    var risk := Abs(p.priceOpen - p.stopLoss.value);
    && gain < env.monitor.breakevenTriggerR * risk
    && (env.monitor.enablePartialExit ==> gain < env.monitor.partialExitTriggerR * risk)
  }

  lemma RatioBelow(gain: real, risk: real, tick: real, trigger: real)
    requires tick > 0.0 && risk > 0.0 && gain < trigger * risk
    ensures risk / tick > 0.0 && gain / tick / (risk / tick) < trigger
  {
    var m := gain / risk;
    assert m * risk == gain;
    var g, r := gain / tick, risk / tick;
    assert r * tick == risk && g * tick == gain;
    assert m * r * tick == m * risk;
    assert g == m * r;
    assert g / r == m;
    if m >= trigger {
      MulMono(trigger, m, risk);
    }
  }

  lemma ProposesNothingBelowTriggers(
      env: PaperSession.RuntimeEnv, records: PaperSession.MonitorRecords, p: Paper, q: Quote)
    requires p.stopLoss.Some? && BelowTriggers(env, p, q)
    ensures PaperSession.Proposed(env, records, p, q) == []
  {
    var tick := env.desk.spec.tickSize;
    var gain := Gain(p.direction, p.priceOpen, if p.direction.Buy? then q.bid else q.ask);
    var risk := Abs(p.priceOpen - p.stopLoss.value);
    if risk > 0.0 {
      RatioBelow(gain, risk, tick, env.monitor.breakevenTriggerR);
      if env.monitor.enablePartialExit {
        RatioBelow(gain, risk, tick, env.monitor.partialExitTriggerR);
      }
    }
  }

  lemma SameTermsSameTriggers(env: PaperSession.RuntimeEnv, a: Paper, b: Paper, q: Quote)
    requires SameTerms(a, b) && a.stopLoss.Some?
    ensures b.stopLoss.Some? && (BelowTriggers(env, a, q) <==> BelowTriggers(env, b, q))
  {
  }

  ghost predicate Calm(
      env: PaperSession.RuntimeEnv, s: PaperSession.Session, e: PaperSession.Event, t: int, p: Paper)
    requires p.stopLoss.Some?
  {
    match e
    case Call(op) => Elsewhere(op, t)
    case Candle(bar, killSwitch, stale, _) =>
      && BelowTriggers(env, p, PaperSession.CloseQuote(env, bar))
      && (Find(s.books.desk.ledger.open, t).Some? ==> PaperSession.Processes(env, s, killSwitch, stale))
  }

  /** Each candle closes below the triggers and is processed while the position is open, and no
      other call is about the position. */
  ghost predicate CalmRun(
      env: PaperSession.RuntimeEnv, s: PaperSession.Session, es: seq<PaperSession.Event>, t: int, p: Paper)
    requires p.stopLoss.Some?
  {
    forall k :: 0 <= k < |es| ==> Calm(env, PaperSession.HandleAll(env, s, es[..k]), es[k], t, p)
  }

  lemma CalmIsUndisturbed(
      env: PaperSession.RuntimeEnv, s: PaperSession.Session, e: PaperSession.Event, t: int, p: Paper,
      x: Option<PaperSession.PaperExit>)
    requires PaperSession.Kept(s.books.desk, s.books.parts) && p.stopLoss.Some?
    requires Fate(s.books.desk, t, p, x) && Calm(env, s, e, t, p)
    ensures Undisturbed(env, s, e, t)
  {
    hide BeforeManaging, PaperSession.Proposed, BelowTriggers, SameTerms, Find, PaperSession.Kept, ExitOfPaper;
    if e.Candle? && x.None? {
      ExitsDecide(env, s, e.bar, e.now, t, p);
      var s2, q := BeforeManaging(env, s, e.bar, e.now), PaperSession.CloseQuote(env, e.bar);
      var found := Find(s2.books.desk.ledger.open, t);
      if found.Some? {
        SameTermsSameTriggers(env, p, found.value, q);
        ProposesNothingBelowTriggers(env, s2.records, found.value, q);
      }
    }
  }

  lemma {:induction false} CalmRunIsUndisturbed(
      env: PaperSession.RuntimeEnv, s: PaperSession.Session, es: seq<PaperSession.Event>, t: int, p: Paper)
    requires OnTheBooks(s, t, p) && CalmRun(env, s, es, t, p)
    ensures UndisturbedRun(env, s, es, t)
  {
    hide PaperSession.Kept, FloatingLaw, Calm, Undisturbed, Still, Fate, PaperSession.HandleAll;
    if es != [] {
      var init := es[..|es| - 1];
      forall k | 0 <= k < |init|
        ensures Calm(env, PaperSession.HandleAll(env, s, init[..k]), init[k], t, p)
      {
        assert init[..k] == es[..k] && init[k] == es[k];
      }
      CalmRunIsUndisturbed(env, s, init, t, p);
      var x := PaperLeavesAtFirstExit(env, s, init, t, p);
      PaperSession.SessionKeeps(env, s, init);
      CalmIsUndisturbed(env, PaperSession.HandleAll(env, s, init), es[|es| - 1], t, p, x);
      forall k | 0 <= k < |es|
        ensures Undisturbed(env, PaperSession.HandleAll(env, s, es[..k]), es[k], t)
      {
        if k < |init| {
          assert init[..k] == es[..k] && init[k] == es[k];
          assert Undisturbed(env, PaperSession.HandleAll(env, s, init[..k]), init[k], t);
        }
      }
    }
  }

  lemma SamePositionOnBooks(h: Holding, s: PaperSession.Session, t: int, p: Paper)
    requires SamePosition(h, s, t, p)
    ensures OnTheBooks(s, t, p)
  {
  }

  /** MAIN RESULT. In particular while the closes stay below the monitor's triggers. */
  lemma ExitsAgreeBelowTriggers(
      benv: Env, h: Holding, renv: PaperSession.RuntimeEnv, s: PaperSession.Session,
      es: seq<PaperSession.Event>, t: int, p: Paper)
    requires !benv.settings.management && SamePosition(h, s, t, p) && CalmRun(renv, s, es, t, p)
    ensures LeftAlike(benv, h, Live(benv, h, BarsOf(es)).exit, PaperSession.HandleAll(renv, s, es).books.desk, t)
  {
    hide *;
    SamePositionOnBooks(h, s, t, p);
    CalmRunIsUndisturbed(renv, s, es, t, p);
    ExitsAgree(benv, h, renv, s, es, t, p);
  }
}
