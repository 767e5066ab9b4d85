/** The paper account's totals agree with its history after any sequence of adapter operations. */
module PaperLaws {
  import opened Common
  import opened ExecutionStore
  import opened PaperLedger

  function TotalRealized(ps: seq<Paper>): int {
    if ps == [] then 0 else TotalRealized(ps[..|ps| - 1]) + ps[|ps| - 1].realized
  }

  function Total(xs: seq<int>): int {
    if xs == [] then 0 else Total(xs[..|xs| - 1]) + xs[|xs| - 1]
  }

  /** The run of results that were not gains at the end of a list of closed positions. */
  function TrailingNonGains(ps: seq<Paper>): nat {
    if ps == [] || ps[|ps| - 1].realized > 0 then 0 else TrailingNonGains(ps[..|ps| - 1]) + 1
  }

  function TrailingGains(ps: seq<Paper>): nat {
    if ps == [] || ps[|ps| - 1].realized <= 0 then 0 else TrailingGains(ps[..|ps| - 1]) + 1
  }

  function Gains(ps: seq<Paper>): nat {
    if ps == [] then 0 else Gains(ps[..|ps| - 1]) + if ps[|ps| - 1].realized > 0 then 1 else 0
  }

  // ----- the laws ---------------------------------------------------------------------------

  ghost predicate BalanceLaw(l: Ledger) {
    l.money.balance == l.starting + l.money.realized + l.money.swap
  }

  ghost predicate EquityLaw(l: Ledger) {
    l.money.equity == l.money.balance + l.money.unrealized
  }

  ghost predicate FloatingLaw(l: Ledger) {
    l.money.unrealized == TotalUnrealized(l.open)
  }

  /** `parts` are the results of the partial exits so far: closing a position overwrites them in
      the position itself, so they survive in the account's total only. */
  ghost predicate RealizedLaw(l: Ledger, parts: seq<int>) {
    l.money.realized == TotalRealized(l.closed) + Total(parts)
  }

  ghost predicate CountLaw(l: Ledger) {
    l.results.trades == l.results.wins + l.results.losses == |l.closed| && l.results.wins == Gains(l.closed)
  }

  ghost predicate StreakLaw(l: Ledger) {
    l.results.consecutiveLosses == TrailingNonGains(l.closed) && l.results.consecutiveWins == TrailingGains(l.closed)
  }

  /** What a closed position contributes to the laws does not depend on later revaluations. */
  ghost predicate Agrees(l: Ledger, parts: seq<int>) {
    BalanceLaw(l) && EquityLaw(l) && RealizedLaw(l, parts) && CountLaw(l) && StreakLaw(l)
  }

  // ----- operations -------------------------------------------------------------------------

  datatype Op =
    | DoSubmit(order: Order, killSwitch: bool, offered: Option<Quote>, now: Moment, clock: int)
    | DoModify(ticket: int, stop: Option<real>, target: Option<real>)
    | DoPartial(ticket: int, volume: real, offered: Option<Quote>, now: Moment)
    | DoClose(ticket: int, reason: string, exitPrice: Option<real>, offered: Option<Quote>, now: Moment)
    | DoSwap(ticket: int, amount: int)
    | DoTick(quote: Quote, now: Moment)

  function Do(env: DeskEnv, d: Desk, op: Op): Desk {
    match op
    case DoSubmit(o, ks, offered, now, clock) => Submit(env, d, o, ks, offered, now, clock)
    case DoModify(t, s, g) => ModifyPosition(d, t, s, g)
    case DoPartial(t, v, offered, now) => ClosePartial(env, d, t, v, offered, now)
    case DoClose(t, r, x, offered, now) => ClosePosition(env, d, t, r, x, offered, now)
    case DoSwap(t, a) => ApplySwap(d, t, a)
    case DoTick(q, now) => SetTick(env, d, q, now)
  }

  /** The result of the partial exit that an operation makes, if it makes one. */
  function PartOf(env: DeskEnv, d: Desk, op: Op): seq<int> {
    if op.DoPartial? && SellsPart(d, op.ticket, op.volume, op.offered)
    then [PartPnl(env, Find(d.ledger.open, op.ticket).value, op.volume, QuoteOf(d, op.offered).value)]
    else []
  }

  /** The adapter and the log of its partial exits. */
  datatype Books = Books(desk: Desk, parts: seq<int>)

  function DoAll(env: DeskEnv, b: Books, ops: seq<Op>): Books {
    if ops == [] then b
    else
      var before, op := DoAll(env, b, ops[..|ops| - 1]), ops[|ops| - 1];
      Books(Do(env, before.desk, op), before.parts + PartOf(env, before.desk, op))
  }

  /** A new account. */
  ghost predicate Unused(l: Ledger) {
    && l.money.balance == l.starting && l.money.equity == l.starting
    && l.money.realized == 0 && l.money.unrealized == 0 && l.money.swap == 0
    && l.results == Results(0, 0, 0, 0, 0) && l.open == [] && l.closed == []
  }

  // ----- what each building block keeps -----------------------------------------------------

  /** Everything the laws other than the equity law look at. */
  ghost predicate SameHistory(a: Ledger, b: Ledger) {
    && b.starting == a.starting && b.closed == a.closed && b.results == a.results
    && b.money.balance == a.money.balance && b.money.realized == a.money.realized && b.money.swap == a.money.swap
  }

  lemma FloatingKeeps(l: Ledger, spec: PaperSpec, mark: Mark, now: Moment)
    ensures var u := UpdateFloating(l, spec, mark, now);
            && SameHistory(l, u) && EquityLaw(u) && FloatingLaw(u)
            && u.open == RepriceAll(l.open, mark, spec)
  {
    hide RepriceAll, TotalMargin;
  }

  lemma HistoryIsEnough(a: Ledger, b: Ledger, parts: seq<int>)
    requires SameHistory(a, b) && BalanceLaw(a) && RealizedLaw(a, parts) && CountLaw(a) && StreakLaw(a) && EquityLaw(b)
    ensures Agrees(b, parts)
  {
  }

  lemma AgreesMeans(l: Ledger, parts: seq<int>)
    requires Agrees(l, parts)
    ensures BalanceLaw(l) && EquityLaw(l) && RealizedLaw(l, parts) && CountLaw(l) && StreakLaw(l)
  {
  }

  lemma EntryKeeps(l: Ledger, p: Paper, spec: PaperSpec, now: Moment, parts: seq<int>)
    requires Agrees(l, parts)
    ensures Agrees(ApplyEntry(l, p, spec, now), parts) && FloatingLaw(ApplyEntry(l, p, spec, now))
  {
    hide UpdateFloating, Agrees;
    AgreesMeans(l, parts);
    FloatingKeeps(l.(open := l.open + [p], period := Today(l.period, now)), spec, AtPrice(p.priceOpen), now);
    HistoryIsEnough(l, ApplyEntry(l, p, spec, now), parts);
  }

  lemma ClosedSnoc(ps: seq<Paper>, p: Paper)
    ensures TotalRealized(ps + [p]) == TotalRealized(ps) + p.realized
    ensures Gains(ps + [p]) == Gains(ps) + if p.realized > 0 then 1 else 0
    ensures TrailingNonGains(ps + [p]) == if p.realized > 0 then 0 else TrailingNonGains(ps) + 1
    ensures TrailingGains(ps + [p]) == if p.realized > 0 then TrailingGains(ps) + 1 else 0
  {
    assert (ps + [p])[..|ps|] == ps;
  }

  lemma SettledAgrees(l: Ledger, filed: Paper, ticket: int, now: Moment, parts: seq<int>)
    requires Agrees(l, parts)
    ensures var s := Settled(l, filed, ticket, now, 0);
            BalanceLaw(s) && RealizedLaw(s, parts) && CountLaw(s) && StreakLaw(s)
  {
    hide Remove, Today, TotalRealized, TrailingNonGains, TrailingGains, Gains;
    ClosedSnoc(l.closed, filed);
  }

  lemma CloseKeeps(
      l: Ledger, ticket: int, exit: real, spec: PaperSpec, reason: string, now: Moment, commission: int,
      parts: seq<int>)
    requires Agrees(l, parts)
    ensures Agrees(ApplyClose(l, ticket, exit, spec, reason, now, commission, 0), parts)
    ensures FloatingLaw(l) ==> FloatingLaw(ApplyClose(l, ticket, exit, spec, reason, now, commission, 0))
  {
    if Find(l.open, ticket).Some? {
      hide UpdateFloating, Settled, Filed;
      var filed := Filed(Find(l.open, ticket).value, exit, spec, reason, commission, 0);
      SettledAgrees(l, filed, ticket, now, parts);
      FloatingKeeps(Settled(l, filed, ticket, now, 0), spec, AtPrice(exit), now);
      HistoryIsEnough(Settled(l, filed, ticket, now, 0),
                      ApplyClose(l, ticket, exit, spec, reason, now, commission, 0), parts);
    }
  }

  /** Closing with a swap amount would break the balance law by that amount: it is subtracted
      from the result and added to the swap total. The law survives exactly when the amount is
      zero, which is what the adapter always passes. */
  lemma SwapAtCloseBreaksBalance(
      l: Ledger, ticket: int, exit: real, spec: PaperSpec, reason: string, now: Moment, commission: int, swap: int)
    requires BalanceLaw(l) && Find(l.open, ticket).Some?
    ensures BalanceLaw(ApplyClose(l, ticket, exit, spec, reason, now, commission, swap)) <==> swap == 0
  {
    hide UpdateFloating, Filed, Remove, Today;
    var filed := Filed(Find(l.open, ticket).value, exit, spec, reason, commission, swap);
    FloatingKeeps(Settled(l, filed, ticket, now, swap), spec, AtPrice(exit), now);
  }

  lemma {:induction false} ReplaceKeepsTotal(ps: seq<Paper>, p: Paper)
    requires forall i :: 0 <= i < |ps| ==> ps[i].ticket == p.ticket ==> ps[i].unrealized == p.unrealized
    ensures TotalUnrealized(Replace(ps, p)) == TotalUnrealized(ps)
  {
    if ps != [] {
      ReplaceKeepsTotal(ps[..|ps| - 1], p);
      assert Replace(ps, p)[..|ps| - 1] == Replace(ps[..|ps| - 1], p);
    }
  }

  function CountTicket(ps: seq<Paper>, ticket: int): nat {
    if ps == [] then 0 else CountTicket(ps[..|ps| - 1], ticket) + if ps[|ps| - 1].ticket == ticket then 1 else 0
  }

  lemma {:induction false} NotCounted(ps: seq<Paper>, ticket: int)
    ensures CountTicket(ps, ticket) == 0 <==> forall i :: 0 <= i < |ps| ==> ps[i].ticket != ticket
    ensures CountTicket(ps, ticket) == 0 <==> Find(ps, ticket).None?
  {
    if ps != [] {
      NotCounted(ps[..|ps| - 1], ticket);
    }
  }

  /** A ticket is on at most one open position, so the one found is the only one. */
  lemma {:induction false} FoundIsTheOne(ps: seq<Paper>, ticket: int)
    requires Find(ps, ticket).Some? && CountTicket(ps, ticket) <= 1
    ensures Find(ps, ticket).value.ticket == ticket
    ensures forall i :: 0 <= i < |ps| && ps[i].ticket == ticket ==> ps[i] == Find(ps, ticket).value
  {
    var init, last := ps[..|ps| - 1], ps[|ps| - 1];
    if last.ticket == ticket {
      NotCounted(init, ticket);
    } else {
      FoundIsTheOne(init, ticket);
    }
  }

  ghost predicate TicketsUnique(d: Desk) {
    forall t :: CountTicket(d.ledger.open, t) <= if t < d.nextTicket then 1 else 0
  }

  lemma ModifyKeeps(d: Desk, ticket: int, stop: Option<real>, target: Option<real>, parts: seq<int>)
    requires Agrees(d.ledger, parts) && TicketsUnique(d)
    ensures Agrees(ModifyPosition(d, ticket, stop, target).ledger, parts)
    ensures FloatingLaw(d.ledger) ==> FloatingLaw(ModifyPosition(d, ticket, stop, target).ledger)
  {
    hide Replace, TotalUnrealized, Agrees;
    var l, l' := d.ledger, ModifyPosition(d, ticket, stop, target).ledger;
    AgreesMeans(l, parts);
    if Find(l.open, ticket).Some? {
      FoundIsTheOne(l.open, ticket);
      var p := Find(l.open, ticket).value;
      ReplaceKeepsTotal(l.open, p.(stopLoss := if stop.Some? then stop else p.stopLoss,
                                   takeProfit := if target.Some? then target else p.takeProfit));
    }
    HistoryIsEnough(l, l', parts);
  }

  lemma SwapKeeps(d: Desk, ticket: int, amount: int, parts: seq<int>)
    requires Agrees(d.ledger, parts) && TicketsUnique(d)
    ensures Agrees(ApplySwap(d, ticket, amount).ledger, parts)
    ensures FloatingLaw(d.ledger) ==> FloatingLaw(ApplySwap(d, ticket, amount).ledger)
  {
    hide Replace, TotalUnrealized, TrailingNonGains, TrailingGains, Gains, TotalRealized;
    var l := d.ledger;
    if Find(l.open, ticket).Some? {
      FoundIsTheOne(l.open, ticket);
      var p := Find(l.open, ticket).value;
      ReplaceKeepsTotal(l.open, p.(swap := p.swap + amount));
    }
  }

  lemma PartAgrees(env: DeskEnv, l: Ledger, p: Paper, volume: real, pnl: int, parts: seq<int>)
    requires Agrees(l, parts)
    ensures var s := SoldPart(env, l, p, volume, pnl);
            BalanceLaw(s) && RealizedLaw(s, parts + [pnl]) && CountLaw(s) && StreakLaw(s)
  {
    hide Replace, TotalRealized, TrailingNonGains, TrailingGains, Gains;
    assert (parts + [pnl])[..|parts|] == parts;
  }

  lemma PartialKeeps(env: DeskEnv, d: Desk, op: Op, parts: seq<int>)
    requires op.DoPartial? && Agrees(d.ledger, parts)
    ensures Agrees(Do(env, d, op).ledger, parts + PartOf(env, d, op))
    ensures FloatingLaw(d.ledger) ==> FloatingLaw(Do(env, d, op).ledger)
  {
    hide UpdateFloating, Agrees, Find, PartPnl;
    var l := d.ledger;
    if SellsPart(d, op.ticket, op.volume, op.offered) {
      var p, q := Find(l.open, op.ticket).value, QuoteOf(d, op.offered).value;
      var pnl := PartPnl(env, p, op.volume, q);
      var sold := SoldPart(env, l, p, op.volume, pnl);
      PartAgrees(env, l, p, op.volume, pnl, parts);
      FloatingKeeps(sold, env.spec, AtQuote(q), op.now);
      HistoryIsEnough(sold, Do(env, d, op).ledger, parts + [pnl]);
    } else {
      assert parts + [] == parts;
    }
  }

  // ----- tickets and ids --------------------------------------------------------------------

  function CountId(ps: seq<Paper>, id: string): nat {
    if ps == [] then 0 else CountId(ps[..|ps| - 1], id) + if ps[|ps| - 1].orderId == id then 1 else 0
  }

  /** How many positions, open or closed, were filled for an order id. */
  function Fills(l: Ledger, id: string): nat {
    CountId(l.open, id) + CountId(l.closed, id)
  }

  ghost predicate FilledOnce(d: Desk, id: string) {
    && Fills(d.ledger, id) <= 1
    && (Fills(d.ledger, id) == 1 ==> id in d.records && Blocking(d.records[id].status))
  }

  lemma {:induction false} RepriceKeepsCounts(ps: seq<Paper>, mark: Mark, spec: PaperSpec, t: int, id: string)
    ensures CountTicket(RepriceAll(ps, mark, spec), t) == CountTicket(ps, t)
    ensures CountId(RepriceAll(ps, mark, spec), id) == CountId(ps, id)
  {
    if ps != [] {
      var init := ps[..|ps| - 1];
      RepriceKeepsCounts(init, mark, spec, t, id);
      assert RepriceAll(ps, mark, spec)[..|ps| - 1] == RepriceAll(init, mark, spec);
    }
  }

  lemma {:induction false} ReplaceKeepsCounts(ps: seq<Paper>, p: Paper, t: int, id: string)
    requires forall i :: 0 <= i < |ps| && ps[i].ticket == p.ticket ==> ps[i].orderId == p.orderId
    ensures CountTicket(Replace(ps, p), t) == CountTicket(ps, t)
    ensures CountId(Replace(ps, p), id) == CountId(ps, id)
  {
    if ps != [] {
      var init := ps[..|ps| - 1];
      ReplaceKeepsCounts(init, p, t, id);
      assert Replace(ps, p)[..|ps| - 1] == Replace(init, p);
    }
  }

  lemma CountsSnoc(ps: seq<Paper>, p: Paper, t: int, id: string)
    ensures CountTicket(ps + [p], t) == CountTicket(ps, t) + if p.ticket == t then 1 else 0
    ensures CountId(ps + [p], id) == CountId(ps, id) + if p.orderId == id then 1 else 0
  {
    assert (ps + [p])[..|ps|] == ps;
  }

  lemma {:induction false} RemoveCounts(ps: seq<Paper>, ticket: int, t: int, id: string)
    requires CountTicket(ps, ticket) <= 1
    ensures CountTicket(Remove(ps, ticket), t) == if t == ticket then 0 else CountTicket(ps, t)
    ensures CountId(Remove(ps, ticket), id)
            + (if Find(ps, ticket).Some? && Find(ps, ticket).value.orderId == id then 1 else 0)
            == CountId(ps, id)
  {
    if ps != [] {
      var init, last := ps[..|ps| - 1], ps[|ps| - 1];
      RemoveCounts(init, ticket, t, id);
      if last.ticket == ticket {
        NotCounted(init, ticket);
        assert Remove(init, ticket) + [] == Remove(init, ticket);
      } else {
        CountsSnoc(Remove(init, ticket), last, t, id);
      }
    }
  }

  lemma SubmitCounts(env: DeskEnv, d: Desk, op: Op, t: int, id: string)
    requires op.DoSubmit? && TicketsUnique(d)
    ensures var d' := Do(env, d, op);
            && CountTicket(d'.ledger.open, t) <= (if t < d'.nextTicket then 1 else 0)
            && (FilledOnce(d, id) ==> FilledOnce(d', id))
  {
    hide RepriceAll, TotalMargin, TotalUnrealized, CountTicket, CountId, HalfCommission, EntryPrice;
    var a := Judge(env, d, op.order, op.killSwitch, op.offered);
    if a.Filled? {
      var p := NewPosition(env, op.order, a.ticket, a.price);
      CountsSnoc(d.ledger.open, p, t, id);
      RepriceKeepsCounts(d.ledger.open + [p], AtPrice(a.price), env.spec, t, id);
    }
  }

  lemma FiledKeepsId(p: Paper, exit: real, spec: PaperSpec, reason: string, commission: int, swap: int)
    ensures Filed(p, exit, spec, reason, commission, swap).orderId == p.orderId
    ensures Filed(p, exit, spec, reason, commission, swap).ticket == p.ticket
  {
  }

  lemma CloseCounts(env: DeskEnv, d: Desk, op: Op, t: int, id: string)
    requires op.DoClose? && TicketsUnique(d)
    ensures var d' := Do(env, d, op);
            && CountTicket(d'.ledger.open, t) <= (if t < d'.nextTicket then 1 else 0)
            && (FilledOnce(d, id) ==> FilledOnce(d', id))
  {
    hide UpdateFloating, RepriceAll, Remove, CountTicket, CountId, HalfCommission, LeavePrice, Filed, Find;
    var found := Find(d.ledger.open, op.ticket);
    if found.Some? && (op.exitPrice.Some? || QuoteOf(d, op.offered).Some?) {
      var p := found.value;
      var exit :=
        if op.exitPrice.Some? then op.exitPrice.value
        else LeavePrice(env, p.direction, QuoteOf(d, op.offered).value);
      var reason := if op.reason == "" then "PAPER_CLOSED" else op.reason;
      var commission := HalfCommission(env, p.volume);
      var filed := Filed(p, exit, env.spec, reason, commission, 0);
      FloatingKeeps(Settled(d.ledger, filed, op.ticket, op.now, 0), env.spec, AtPrice(exit), op.now);
      FiledKeepsId(p, exit, env.spec, reason, commission, 0);
      RemoveCounts(d.ledger.open, op.ticket, t, id);
      RepriceKeepsCounts(Remove(d.ledger.open, op.ticket), AtPrice(exit), env.spec, t, id);
      CountsSnoc(d.ledger.closed, filed, t, id);
    }
  }

  lemma OtherCounts(env: DeskEnv, d: Desk, op: Op, t: int, id: string)
    requires !op.DoSubmit? && !op.DoClose? && TicketsUnique(d)
    ensures var d' := Do(env, d, op);
            && CountTicket(d'.ledger.open, t) <= (if t < d'.nextTicket then 1 else 0)
            && (FilledOnce(d, id) ==> FilledOnce(d', id))
  {
    hide RepriceAll, Replace, TotalMargin, TotalUnrealized, CountTicket, CountId, Find, PartPnl;
    var open := d.ledger.open;
    match op
    case DoTick(q, now) => RepriceKeepsCounts(open, AtQuote(q), env.spec, t, id);
    case DoModify(ticket, stop, target) =>
      if Find(open, ticket).Some? {
        FoundIsTheOne(open, ticket);
        var p := Find(open, ticket).value;
        ReplaceKeepsCounts(open, p.(stopLoss := if stop.Some? then stop else p.stopLoss,
                                    takeProfit := if target.Some? then target else p.takeProfit), t, id);
      }
    case DoSwap(ticket, amount) =>
      if Find(open, ticket).Some? {
        FoundIsTheOne(open, ticket);
        var p := Find(open, ticket).value;
        ReplaceKeepsCounts(open, p.(swap := p.swap + amount), t, id);
      }
    case DoPartial(ticket, volume, offered, now) =>
      if SellsPart(d, ticket, volume, offered) {
        FoundIsTheOne(open, ticket);
        var p, q := Find(open, ticket).value, QuoteOf(d, offered).value;
        var less := p.(volume := p.volume - volume, realized := p.realized + PartPnl(env, p, volume, q));
        ReplaceKeepsCounts(open, less, t, id);
        RepriceKeepsCounts(Replace(open, less), AtQuote(q), env.spec, t, id);
      }
  }

  lemma DoCounts(env: DeskEnv, d: Desk, op: Op, id: string)
    requires TicketsUnique(d)
    ensures TicketsUnique(Do(env, d, op)) && (FilledOnce(d, id) ==> FilledOnce(Do(env, d, op), id))
  {
    hide Do, CountTicket, FilledOnce;
    forall t
      ensures CountTicket(Do(env, d, op).ledger.open, t) <= if t < Do(env, d, op).nextTicket then 1 else 0
      ensures FilledOnce(d, id) ==> FilledOnce(Do(env, d, op), id)
    {
      if op.DoSubmit? {
        SubmitCounts(env, d, op, t, id);
      } else if op.DoClose? {
        CloseCounts(env, d, op, t, id);
      } else {
        OtherCounts(env, d, op, t, id);
      }
    }
  }

  // ----- runs -------------------------------------------------------------------------------

  ghost predicate Sound(d: Desk, parts: seq<int>) {
    Agrees(d.ledger, parts) && TicketsUnique(d)
  }

  lemma TickKeeps(env: DeskEnv, d: Desk, q: Quote, now: Moment, parts: seq<int>)
    requires Agrees(d.ledger, parts)
    ensures Agrees(SetTick(env, d, q, now).ledger, parts) && FloatingLaw(SetTick(env, d, q, now).ledger)
  {
    hide UpdateFloating, Agrees;
    AgreesMeans(d.ledger, parts);
    FloatingKeeps(d.ledger, env.spec, AtQuote(q), now);
    HistoryIsEnough(d.ledger, SetTick(env, d, q, now).ledger, parts);
  }

  lemma DoKeeps(env: DeskEnv, d: Desk, op: Op, parts: seq<int>)
    requires Sound(d, parts)
    ensures Agrees(Do(env, d, op).ledger, parts + PartOf(env, d, op))
    ensures FloatingLaw(d.ledger) ==> FloatingLaw(Do(env, d, op).ledger)
  {
    hide Agrees, UpdateFloating, Find, Judge, NewPosition, FillRecord, LeavePrice, HalfCommission, TotalUnrealized,
      Replace;
    assert !op.DoPartial? ==> parts + PartOf(env, d, op) == parts;
    match op
    case DoSubmit(o, ks, offered, now, clock) =>
      var a := Judge(env, d, o, ks, offered);
      if a.Filled? {
        EntryKeeps(d.ledger, NewPosition(env, o, a.ticket, a.price), env.spec, now, parts);
      }
    case DoModify(ticket, stop, target) => ModifyKeeps(d, ticket, stop, target, parts);
    case DoPartial(ticket, volume, offered, now) => PartialKeeps(env, d, op, parts);
    case DoClose(ticket, reason, x, offered, now) =>
      var found := Find(d.ledger.open, ticket);
      if found.Some? && (x.Some? || QuoteOf(d, offered).Some?) {
        var exit := if x.Some? then x.value else LeavePrice(env, found.value.direction, QuoteOf(d, offered).value);
        CloseKeeps(d.ledger, ticket, exit, env.spec, if reason == "" then "PAPER_CLOSED" else reason, now,
                   HalfCommission(env, found.value.volume), parts);
      }
    case DoSwap(ticket, amount) => SwapKeeps(d, ticket, amount, parts);
    case DoTick(q, now) => TickKeeps(env, d, q, now, parts);
  }

  lemma {:induction false} RunKeeps(env: DeskEnv, b: Books, ops: seq<Op>, id: string)
    requires Sound(b.desk, b.parts) && FloatingLaw(b.desk.ledger) && FilledOnce(b.desk, id)
    ensures var r := DoAll(env, b, ops); Sound(r.desk, r.parts) && FloatingLaw(r.desk.ledger) && FilledOnce(r.desk, id)
  {
    hide Do, FilledOnce, Agrees, FloatingLaw, TicketsUnique, PartOf;
    if ops != [] {
      var init, op := ops[..|ops| - 1], ops[|ops| - 1];
      RunKeeps(env, b, init, id);
      var before := DoAll(env, b, init);
      DoKeeps(env, before.desk, op, before.parts);
      DoCounts(env, before.desk, op, id);
    }
  }

  lemma NewAccountIsSound(d: Desk, id: string)
    requires Unused(d.ledger)
    ensures Sound(d, []) && FloatingLaw(d.ledger) && FilledOnce(d, id)
  {
  }

  /** MAIN RESULT. After any sequence of orders, stop changes, partial exits, closes, swaps and
      ticks on a new account: the balance is the starting balance plus realized results and
      swaps, equity is the balance plus the floating result of the open positions, the realized
      total is that of the closed positions and all partial exits, trades are wins plus losses
      plus nothing else, and the streaks are those at the end of the closed list. */
  lemma AccountAgreesWithHistory(env: DeskEnv, d: Desk, ops: seq<Op>)
    requires Unused(d.ledger)
    ensures var r := DoAll(env, Books(d, []), ops); Agrees(r.desk.ledger, r.parts) && FloatingLaw(r.desk.ledger)
  {
    hide Agrees, FloatingLaw, DoAll, FilledOnce;
    NewAccountIsSound(d, "");
    RunKeeps(env, Books(d, []), ops, "");
  }

  /** MAIN RESULT. However often an id is submitted, the adapter fills it at most once. */
  lemma OrdersFillOnce(env: DeskEnv, d: Desk, ops: seq<Op>, id: string)
    requires Unused(d.ledger)
    ensures Fills(DoAll(env, Books(d, []), ops).desk.ledger, id) <= 1
  {
    hide DoAll, Sound;
    NewAccountIsSound(d, id);
    RunKeeps(env, Books(d, []), ops, id);
  }
}
