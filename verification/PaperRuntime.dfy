/** The paper trading runtime as an object: one candle drives the adapter and the position monitor
    (app/paper/runtime.py). */
module PaperRuntime {
  import opened Common
  import opened PaperAccount
  import opened PaperAdapter
  import opened PaperLaws
  import opened PaperLedger
  import opened PaperSession
  import PositionModel
  import opened PositionMonitor
  import opened Resampling

  lemma NothingRemembered(m: Monitor)
    requires m.store.records == map[]
    requires forall t, b, truth ::
               m.SlotOf(t, b, truth) ==
                 PositionModel.Restart(PositionModel.Slot(b, m.store.Get(t), false, false, truth))
    ensures m.breakevenMoved == {} && m.partialTaken == {}
  {
    forall t
      ensures t !in m.breakevenMoved && t !in m.partialTaken
    {
      assert m.SlotOf(t, None, PositionModel.NOTHING_YET).breakevenMoved == (t in m.breakevenMoved);
      assert m.SlotOf(t, None, PositionModel.NOTHING_YET).partialTaken == (t in m.partialTaken);
    }
  }

  lemma NoPart(env: DeskEnv, d: Desk, op: Op)
    requires !op.DoPartial?
    ensures PartOf(env, d, op) == []
  {
  }

  lemma MarkIsUnique(d: Desk, ticket: int, bar: Bar)
    requires TicketsUnique(d)
    ensures TicketsUnique(MarkOverBar(d, ticket, bar))
  {
    hide Replace, CountTicket, Find;
    var open := d.ledger.open;
    var found := Find(open, ticket);
    if found.Some? {
      FoundIsTheOne(open, ticket);
      var p := RepriceOverBar(found.value, bar.high, bar.low, bar.close);
      forall t
        ensures CountTicket(MarkOverBar(d, ticket, bar).ledger.open, t) == CountTicket(open, t)
      {
        ReplaceKeepsCounts(open, p, t, "");
      }
    }
  }

  class Runtime {
    const env: RuntimeEnv
    const adapter: Adapter
    const monitor: Monitor
    var bars: int
    ghost var parts: seq<int>

    ghost function BooksNow(): Books
      reads this, adapter, adapter.account, adapter.store
    {
      Books(adapter.View(), parts)
    }

    ghost function View(): Session
      reads this, adapter, adapter.account, adapter.store, monitor, monitor.store
    {
      Session(BooksNow(), monitor.store.records, bars)
    }

    /** Nothing ever tells the monitor that an action was applied. */
    ghost predicate Valid()
      reads this, adapter, adapter.account, adapter.store, monitor
    {
      && adapter.Valid() && adapter.env == env.desk && monitor.config == env.monitor
      && monitor.breakevenMoved == {} && monitor.partialTaken == {}
    }

    constructor (env: RuntimeEnv, starting: int, leverage: real, firstTicket: int)
      ensures Valid() && this.env == env
      ensures fresh({adapter, adapter.account, adapter.store, monitor, monitor.store})
      ensures Unused(View().books.desk.ledger) && View().books.parts == [] && View().records == map[]
              && View().bars == 0
    {
      this.env := env;
      adapter := new Adapter(env.desk, starting, leverage, firstTicket);
      var store := new MonitorStore();
      monitor := new Monitor(env.monitor, store);
      bars, parts := 0, [];
      new;
      NothingRemembered(monitor);
    }

    /** Marks one position over the candle, then closes it if a level was reached. */
    method ExitPosition(ticket: int, bar: Bar, now: Moment)
      requires Valid()
      modifies this`parts, adapter.account
      ensures Valid() && BooksNow() == ExitOne(env, old(BooksNow()), ticket, bar, now)
    {
      hide Do, PartOf, Find, Replace, ExitFor, TicketsUnique;
      var i := adapter.account.IndexOf(ticket);
      if i == -1 {
        return;
      }
      var p := adapter.account.open[i];
      MarkIsUnique(adapter.View(), ticket, bar);
      p := RevaluedOver(p, bar.high, bar.low, bar.close);
      adapter.account.Store(p);
      var e := ExitFor(p.direction, p.stopLoss, p.takeProfit, bar);
      if e.Some? {
        NoPart(env.desk, adapter.View(), DoClose(ticket, e.value.reason, Some(e.value.price), None, now));
        var done := adapter.Close(ticket, e.value.reason, Some(e.value.price), None, now);
        assert parts + [] == parts;
      }
    }

    method ExitPositions(bar: Bar, now: Moment)
      requires Valid()
      modifies this`parts, adapter.account
      ensures Valid() && BooksNow() == ExitAll(env, old(BooksNow()), Tickets(old(adapter.account.open)), bar, now)
    {
      hide ExitOne, TicketsUnique, Tickets;
      var tickets := Tickets(adapter.account.open);
      assert tickets[..0] == [];
      for i := 0 to |tickets|
        invariant Valid() && BooksNow() == ExitAll(env, old(BooksNow()), tickets[..i], bar, now)
      {
        assert tickets[..i + 1][..i] == tickets[..i];
        ExitPosition(tickets[i], bar, now);
      }
      assert tickets[..|tickets|] == tickets;
    }

    method Perform(ticket: int, a: PositionModel.Action, now: Moment)
      requires Valid()
      modifies this`parts, adapter.account
      ensures Valid() && BooksNow() == Act(env, old(BooksNow()), ticket, a, now)
    {
      hide Do, PartOf, Find, TicketsUnique;
      var i := adapter.account.IndexOf(ticket);
      var target := if i == -1 then None else adapter.account.open[i].takeProfit;
      assert parts + [] == parts;
      match a.kind
      case MOVE_TO_BREAKEVEN =>
        NoPart(env.desk, adapter.View(), DoModify(ticket, a.newStop, target));
        var done := adapter.Modify(ticket, a.newStop, target);
      case TRAIL_STOP =>
        NoPart(env.desk, adapter.View(), DoModify(ticket, a.newStop, target));
        var done := adapter.Modify(ticket, a.newStop, target);
      case PARTIAL_EXIT =>
        if a.partialVolume.Some? {
          var pnl := adapter.ClosePositionPartial(ticket, a.partialVolume.value, None, now);
          parts := parts + if pnl.Some? then [pnl.value] else [];
        }
      case FULL_EXIT =>
        NoPart(env.desk, adapter.View(), DoClose(ticket, "FULL_EXIT", None, None, now));
        var done := adapter.Close(ticket, "FULL_EXIT", None, None, now);
    }

    method ManagePosition(ticket: int, q: Quote, now: Moment)
      requires Valid()
      modifies this`parts, adapter.account, monitor.store
      ensures Valid() && View() == ManageOne(env, old(View()), ticket, q, now)
    {
      hide Act, Find, TicketsUnique, PositionModel.Evaluate;
      var i := adapter.account.IndexOf(ticket);
      if i == -1 {
        return;
      }
      var p := adapter.account.open[i];
      ghost var b := BooksNow();
      ghost var records := monitor.store.records;
      var actions := monitor.EvaluatePosition(AsManaged(p), q, env.desk.spec.tickSize, None);
      assert monitor.store.records == records[ticket := RecordFor(records, p)];
      assert actions == Proposed(env, records, p, q);
      assert actions[..0] == [];
      for k := 0 to |actions|
        invariant Valid() && BooksNow() == ActAll(env, b, ticket, actions[..k], now)
        invariant monitor.store.records == records[ticket := RecordFor(records, p)]
      {
        assert actions[..k + 1][..k] == actions[..k];
        Perform(ticket, actions[k], now);
      }
      assert actions[..|actions|] == actions;
    }

    method ManagePositions(q: Quote, now: Moment)
      requires Valid()
      modifies this`parts, adapter.account, monitor.store
      ensures Valid() && View() == ManageAll(env, old(View()), Tickets(old(adapter.account.open)), q, now)
    {
      hide ManageOne, TicketsUnique, Tickets;
      var tickets := Tickets(adapter.account.open);
      assert tickets[..0] == [];
      for i := 0 to |tickets|
        invariant Valid() && View() == ManageAll(env, old(View()), tickets[..i], q, now)
      {
        assert tickets[..i + 1][..i] == tickets[..i];
        ManagePosition(tickets[i], q, now);
      }
      assert tickets[..|tickets|] == tickets;
    }

    method StepBar(bar: Bar, killSwitch: bool, stale: bool, now: Moment)
      requires Valid()
      modifies this`parts, this`bars, adapter`latestTick, adapter.account, monitor.store
      ensures Valid() && View() == PaperSession.StepBar(env, old(View()), bar, killSwitch, stale, now)
    {
      hide ExitAll, ManageAll, Do, PartOf, TicketsUnique;
      if killSwitch || adapter.account.results.consecutiveLosses >= env.maxConsecutiveLosses || stale {
        return;
      }
      ghost var s := View();
      ExitPositions(bar, now);
      assert View() == AfterExits(env, s, bar, now);
      NoPart(env.desk, adapter.View(), DoTick(CloseQuote(env, bar), now));
      assert parts + [] == parts;
      adapter.SetCurrentTick(CloseQuote(env, bar), now);
      assert View() == AfterTick(env, AfterExits(env, s, bar, now), bar, now);
      ManagePositions(CloseQuote(env, bar), now);
      bars := bars + 1;
    }
  }
}
