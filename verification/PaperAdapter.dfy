/** The paper order adapter as an object over an account and a record store (app/paper/broker.py). */
module PaperAdapter {
  import opened Common
  import opened Costs
  import opened ExecutionStore
  import Gates
  import opened PaperAccount
  import opened PaperLaws
  import opened PaperLedger

  lemma NewTicketIsFree(d: Desk)
    requires TicketsUnique(d)
    ensures Find(d.ledger.open, d.nextTicket).None?
  {
    hide CountTicket, Find;
    assert CountTicket(d.ledger.open, d.nextTicket) <= 0;
    NotCounted(d.ledger.open, d.nextTicket);
  }

  class Adapter {
    const env: DeskEnv
    const account: Account
    const store: ExecutionStateStore
    var latestTick: Option<Quote>
    var nextTicket: int

    function View(): Desk
      reads this, account, store
    {
      Desk(account.View(), store.records, latestTick, nextTicket)
    }

    ghost predicate Valid()
      reads this, account, store
    {
      account.Valid() && !store.sqlite && TicketsUnique(View())
    }

    constructor (env: DeskEnv, starting: int, leverage: real, firstTicket: int)
      ensures Valid() && fresh(account) && fresh(store) && this.env == env
      ensures Unused(View().ledger) && View().records == map[] && View().tick == None
              && View().nextTicket == firstTicket
    {
      this.env := env;
      account := new Account(starting, leverage);
      store := new ExecutionStateStore(false);
      latestTick, nextTicket := None, firstTicket;
    }

    /** The answer is the judgement on the order; only a filled order changes anything. */
    method SubmitMarketOrder(o: Order, killSwitch: bool, offered: Option<Quote>, now: Moment, clock: int)
      returns (a: Answer)
      requires Valid()
      modifies this`nextTicket, account, store
      ensures Valid() && View() == Do(env, old(View()), DoSubmit(o, killSwitch, offered, now, clock))
      ensures a == Judge(env, old(View()), o, killSwitch, offered)
    {
      hide PaperLedger.ApplyEntry, MarginCents, Gates.Submittable, Gates.Justified, TicketsUnique, HalfCommission;
      DoCounts(env, View(), DoSubmit(o, killSwitch, offered, now, clock), o.orderId);
      NewTicketIsFree(View());
      var existing := store.Get(o.orderId);
      if existing.Some? && Blocking(existing.value.status) {
        return DuplicateRejected;
      }
      var gate := Gates.EvaluateExecutionGate(GateInputOf(env, o, killSwitch));
      if !gate.approved {
        return GateRejected;
      }
      var tick := if latestTick.Some? then latestTick else offered;
      if tick.None? || tick.value.ask <= tick.value.bid || tick.value.bid <= 0.0 {
        return InvalidQuote;
      }
      var side := Side(o.direction);
      var raw := if side.Buy? then tick.value.ask else tick.value.bid;
      var required := MarginCents(account.leverage, o.volume, raw, env.spec);
      if account.money.freeMargin < required {
        return InsufficientMargin;
      }
      var price := EntryPrice(env, side, tick.value);
      var ticket := nextTicket;
      nextTicket := nextTicket + 1;
      store.Put(FillRecord(o, ticket), clock);
      account.ApplyEntry(NewPosition(env, o, ticket, price), env.spec, now);
      return Filled(ticket, price);
    }

    method Modify(ticket: int, stop: Option<real>, target: Option<real>) returns (found: bool)
      requires Valid()
      modifies account
      ensures Valid() && View() == Do(env, old(View()), DoModify(ticket, stop, target))
      ensures found <==> Find(old(View()).ledger.open, ticket).Some?
    {
      hide Find, Replace, TicketsUnique;
      DoCounts(env, View(), DoModify(ticket, stop, target), "");
      var i := account.IndexOf(ticket);
      if i == -1 {
        return false;
      }
      var p := account.open[i];
      if stop.Some? {
        p := p.(stopLoss := stop);
      }
      if target.Some? {
        p := p.(takeProfit := target);
      }
      account.Store(p);
      return true;
    }

    method ClosePositionPartial(ticket: int, volume: real, offered: Option<Quote>, now: Moment)
      returns (pnl: Option<int>)
      requires Valid()
      modifies account
      ensures Valid() && View() == Do(env, old(View()), DoPartial(ticket, volume, offered, now))
      ensures (if pnl.Some? then [pnl.value] else []) ==
              PartOf(env, old(View()), DoPartial(ticket, volume, offered, now))
    {
      hide Find, Replace, TicketsUnique, PaperLedger.UpdateFloating, Cents, LeavePrice;
      DoCounts(env, View(), DoPartial(ticket, volume, offered, now), "");
      pnl := None;
      var i := account.IndexOf(ticket);
      if i == -1 {
        return;
      }
      var p := account.open[i];
      if volume <= 0.0 || volume >= p.volume {
        return;
      }
      var tick := if latestTick.Some? then latestTick else offered;
      if tick.None? {
        return;
      }
      var net := PartPnl(env, p, volume, tick.value);
      account.Store(p.(volume := p.volume - volume, realized := p.realized + net));
      var m := account.money;
      account.money := m.(balance := m.balance + net, realized := m.realized + net,
                          commission := Round(m.commission as real + CommissionCost(volume, env.costs) * 100.0));
      account.UpdateFloating(env.spec, AtQuote(tick.value), now);
      pnl := Some(net);
    }

    method Close(ticket: int, reason: string, exitPrice: Option<real>, offered: Option<Quote>, now: Moment)
      returns (done: bool)
      requires Valid()
      modifies account
      ensures Valid() && View() == Do(env, old(View()), DoClose(ticket, reason, exitPrice, offered, now))
      ensures done <==>
              Find(old(View()).ledger.open, ticket).Some? && (exitPrice.Some? || QuoteOf(old(View()), offered).Some?)
    {
      hide Find, TicketsUnique, PaperLedger.ApplyClose, LeavePrice, HalfCommission;
      DoCounts(env, View(), DoClose(ticket, reason, exitPrice, offered, now), "");
      var i := account.IndexOf(ticket);
      if i == -1 {
        return false;
      }
      var p := account.open[i];
      var fill: real;
      if exitPrice.Some? {
        fill := exitPrice.value;
      } else {
        var tick := if latestTick.Some? then latestTick else offered;
        if tick.None? {
          return false;
        }
        fill := LeavePrice(env, p.direction, tick.value);
      }
      account.ApplyClose(ticket, fill, env.spec, if reason == "" then "PAPER_CLOSED" else reason, now,
                         HalfCommission(env, p.volume), 0);
      return true;
    }

    method AddSwap(ticket: int, amount: int)
      requires Valid()
      modifies account
      ensures Valid() && View() == Do(env, old(View()), DoSwap(ticket, amount))
    {
      hide Find, Replace, TicketsUnique;
      DoCounts(env, View(), DoSwap(ticket, amount), "");
      var i := account.IndexOf(ticket);
      if i != -1 {
        var p := account.open[i];
        account.Store(p.(swap := p.swap + amount));
        var m := account.money;
        account.money := m.(swap := m.swap + amount, balance := m.balance + amount);
        account.money := account.money.(equity := account.money.balance + account.money.unrealized);
      }
    }

    method SetCurrentTick(q: Quote, now: Moment)
      requires Valid()
      modifies this`latestTick, account
      ensures Valid() && View() == Do(env, old(View()), DoTick(q, now))
    {
      hide TicketsUnique, PaperLedger.UpdateFloating;
      DoCounts(env, View(), DoTick(q, now), "");
      latestTick := Some(q);
      account.UpdateFloating(env.spec, AtQuote(q), now);
    }
  }
}
