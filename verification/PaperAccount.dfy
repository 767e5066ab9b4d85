/** The paper account as an object updated in place (app/paper/account.py), and the revaluation of
    one position (app/paper/positions.py). The account keeps its positions as values, the open
    ones in the order in which the dictionary received them. */
module PaperAccount {
  import opened Common
  import opened PaperLaws
  import opened PaperLedger

  class PaperPosition {
    const ticket: int
    const orderId: string
    const direction: Direction
    const priceOpen: real
    var volume: real
    var stopLoss: Option<real>
    var takeProfit: Option<real>
    var realized: int
    var unrealized: int
    var mae: real
    var mfe: real
    var commission: int
    var swap: int
    var closePrice: Option<real>
    var closeReason: string

    function View(): Paper
      reads this
    {
      Paper(ticket, orderId, direction, volume, priceOpen, stopLoss, takeProfit, realized, unrealized, mae, mfe,
            commission, swap, closePrice, closeReason)
    }

    constructor (p: Paper)
      ensures View() == p
    {
      ticket, orderId, direction, priceOpen := p.ticket, p.orderId, p.direction, p.priceOpen;
      volume, stopLoss, takeProfit := p.volume, p.stopLoss, p.takeProfit;
      realized, unrealized, mae, mfe := p.realized, p.unrealized, p.mae, p.mfe;
      commission, swap, closePrice, closeReason := p.commission, p.swap, p.closePrice, p.closeReason;
    }

    method UpdatePrice(price: real, spec: PaperSpec)
      modifies this`unrealized, this`mae, this`mfe
      ensures View() == Reprice(old(View()), price, spec)
    {
      if closePrice.Some? {
        return;
      }
      unrealized := FloatingCents(spec, Gain(direction, priceOpen, price), volume);
      var u := unrealized as real / 100.0;
      if u > mfe {
        mfe := u;
      }
      if -u > mae {
        mae := -u;
      }
    }

    method UpdateOverBar(high: real, low: real, close: real)
      modifies this`unrealized, this`mae, this`mfe
      ensures View() == RepriceOverBar(old(View()), high, low, close)
    {
      if closePrice.Some? {
        return;
      }
      var adverse, favorable;
      if direction.Buy? {
        adverse, favorable := Max(0.0, priceOpen - low), Max(0.0, high - priceOpen);
      } else {
        adverse, favorable := Max(0.0, high - priceOpen), Max(0.0, priceOpen - low);
      }
      unrealized := BarCents(Gain(direction, priceOpen, close), volume);
      if adverse > mae {
        mae := adverse;
      }
      if favorable > mfe {
        mfe := favorable;
      }
    }
  }

  method RevaluedAt(p: Paper, price: real, spec: PaperSpec) returns (r: Paper)
    ensures r == Reprice(p, price, spec)
  {
    var position := new PaperPosition(p);
    position.UpdatePrice(price, spec);
    r := position.View();
  }

  method RevaluedOver(p: Paper, high: real, low: real, close: real) returns (r: Paper)
    ensures r == RepriceOverBar(p, high, low, close)
  {
    var position := new PaperPosition(p);
    position.UpdateOverBar(high, low, close);
    r := position.View();
  }

  // ----- lists of positions with distinct tickets -------------------------------------------

  ghost predicate DistinctTickets(vs: seq<Paper>) {
    forall i, j :: 0 <= i < j < |vs| ==> vs[i].ticket != vs[j].ticket
  }

  lemma {:induction false} FindAt(vs: seq<Paper>, i: nat)
    requires i < |vs| && DistinctTickets(vs)
    ensures Find(vs, vs[i].ticket) == Some(vs[i])
  {
    if i < |vs| - 1 {
      FindAt(vs[..|vs| - 1], i);
    }
  }

  lemma {:induction false} FindNone(vs: seq<Paper>, ticket: int)
    requires forall i :: 0 <= i < |vs| ==> vs[i].ticket != ticket
    ensures Find(vs, ticket).None? && Remove(vs, ticket) == vs
  {
    if vs != [] {
      FindNone(vs[..|vs| - 1], ticket);
    }
  }

  lemma {:induction false} RemoveAt(vs: seq<Paper>, i: nat)
    requires i < |vs| && DistinctTickets(vs)
    ensures Remove(vs, vs[i].ticket) == vs[..i] + vs[i + 1..]
  {
    var init, last := vs[..|vs| - 1], vs[|vs| - 1];
    if i == |vs| - 1 {
      FindNone(init, last.ticket);
    } else {
      RemoveAt(init, i);
      assert vs[i + 1..] == init[i + 1..] + [last];
      assert init[..i] == vs[..i];
    }
  }

  lemma {:induction false} ReplaceNothing(vs: seq<Paper>, p: Paper)
    requires forall i :: 0 <= i < |vs| ==> vs[i].ticket != p.ticket
    ensures Replace(vs, p) == vs
  {
    if vs != [] {
      ReplaceNothing(vs[..|vs| - 1], p);
    }
  }

  lemma {:induction false} ReplaceAt(vs: seq<Paper>, i: nat, p: Paper)
    requires i < |vs| && DistinctTickets(vs) && p.ticket == vs[i].ticket
    ensures Replace(vs, p) == vs[i := p]
  {
    var init, last := vs[..|vs| - 1], vs[|vs| - 1];
    if i == |vs| - 1 {
      ReplaceNothing(init, p);
    } else {
      ReplaceAt(init, i, p);
    }
  }

  // ----- the account ------------------------------------------------------------------------

  lemma {:induction false} AbsentTicket(vs: seq<Paper>, ticket: int)
    requires Find(vs, ticket).None?
    ensures forall i :: 0 <= i < |vs| ==> vs[i].ticket != ticket
  {
    if vs != [] {
      AbsentTicket(vs[..|vs| - 1], ticket);
    }
  }

  lemma {:induction false} RepriceKeepsTickets(vs: seq<Paper>, mark: Mark, spec: PaperSpec)
    ensures forall i :: 0 <= i < |vs| ==> RepriceAll(vs, mark, spec)[i].ticket == vs[i].ticket
  {
    if vs != [] {
      RepriceKeepsTickets(vs[..|vs| - 1], mark, spec);
    }
  }

  class Account {
    const starting: int
    const leverage: real
    var money: Money
    var period: Period
    var results: Results
    var open: seq<Paper>
    var closed: seq<Paper>

    /** The keys of a dictionary are distinct. */
    ghost predicate Valid()
      reads this`open
    {
      DistinctTickets(open)
    }

    function View(): Ledger
      reads this
    {
      Ledger(starting, leverage, money, period, results, open, closed)
    }

    constructor (starting: int, leverage: real)
      ensures Valid() && this.starting == starting && this.leverage == leverage && Unused(View())
      ensures money.freeMargin == starting
    {
      this.starting, this.leverage := starting, leverage;
      money := Money(starting, starting, 0, starting, 0, 0, 0, 0);
      period, results := Period(None, None, 0, 0), Results(0, 0, 0, 0, 0);
      open, closed := [], [];
    }

    method RefreshBaselines(now: Moment)
      modifies this`period
      ensures period == Today(old(period), now)
    {
      if period.day != Some(now.day) {
        period := period.(day := Some(now.day), daily := 0);
      }
      if period.week != Some(now.week) {
        period := period.(week := Some(now.week), weekly := 0);
      }
    }

    method IndexOf(ticket: int) returns (i: int)
      requires Valid()
      ensures i == -1 <==> Find(open, ticket).None?
      ensures i != -1 ==> 0 <= i < |open| && open[i].ticket == ticket && Find(open, ticket) == Some(open[i])
    {
      for k := 0 to |open|
        invariant forall j :: 0 <= j < k ==> open[j].ticket != ticket
      {
        if open[k].ticket == ticket {
          FindAt(open, k);
          return k;
        }
      }
      FindNone(open, ticket);
      return -1;
    }

    /** Revalues the open positions one by one and adds up the totals. */
    method Revalue(spec: PaperSpec, mark: Mark) returns (floating: int, margin: int)
      requires Valid()
      modifies this`open
      ensures Valid() && open == RepriceAll(old(open), mark, spec)
      ensures floating == TotalUnrealized(open) && margin == TotalMargin(open, leverage, spec)
    {
      hide Reprice, MarginCents;
      floating, margin := 0, 0;
      ghost var was := open;
      var done: seq<Paper> := [];
      for i := 0 to |open|
        invariant open == was && done == RepriceAll(was[..i], mark, spec)
        invariant floating == TotalUnrealized(done) && margin == TotalMargin(done, leverage, spec)
      {
        assert was[..i + 1][..i] == was[..i];
        var p := RevaluedAt(open[i], PriceFor(open[i], mark), spec);
        assert (done + [p])[..i] == done;
        done := done + [p];
        floating := floating + p.unrealized;
        margin := margin + MarginCents(leverage, p.volume, p.priceOpen, spec);
      }
      assert was[..|was|] == was;
      open := done;
      RepriceKeepsTickets(was, mark, spec);
    }

    method UpdateFloating(spec: PaperSpec, mark: Mark, now: Moment)
      requires Valid()
      modifies this`period, this`money, this`open
      ensures Valid() && View() == PaperLedger.UpdateFloating(old(View()), spec, mark, now)
    {
      hide RepriceAll, TotalUnrealized, TotalMargin;
      RefreshBaselines(now);
      var floating, margin := Revalue(spec, mark);
      var equity := money.balance + floating;
      money := money.(unrealized := floating, usedMargin := margin, equity := equity,
                      freeMargin := if equity - margin < 0 then 0 else equity - margin);
    }

    method ApplyEntry(p: Paper, spec: PaperSpec, now: Moment)
      requires Valid() && Find(open, p.ticket).None?
      modifies this
      ensures Valid() && View() == PaperLedger.ApplyEntry(old(View()), p, spec, now)
    {
      hide PaperLedger.UpdateFloating;
      AbsentTicket(open, p.ticket);
      RefreshBaselines(now);
      open := open + [p];
      UpdateFloating(spec, AtPrice(p.priceOpen), now);
    }

    method ApplyClose(ticket: int, exit: real, spec: PaperSpec, reason: string, now: Moment, commission: int, swap: int)
      requires Valid()
      modifies this
      ensures Valid() && View() ==
              PaperLedger.ApplyClose(old(View()), ticket, exit, spec, reason, now, commission, swap)
    {
      hide PaperLedger.UpdateFloating, Find, Remove;
      var i := IndexOf(ticket);
      if i == -1 {
        return;
      }
      var p := open[i];
      RemoveAt(open, i);
      open := open[..i] + open[i + 1..];
      RefreshBaselines(now);
      var gross := GrossCents(spec, Gain(p.direction, p.priceOpen, exit), p.volume);
      var totalCommission := p.commission + commission;
      var net := gross - totalCommission - swap;
      p := p.(closePrice := Some(exit), closeReason := reason, realized := net, unrealized := 0,
              commission := totalCommission, swap := p.swap + swap);
      money := money.(balance := money.balance + net, realized := money.realized + net,
                      commission := money.commission + totalCommission, swap := money.swap + swap);
      period := period.(daily := period.daily + net, weekly := period.weekly + net);
      if net > 0 {
        results := Results(results.trades + 1, results.wins + 1, results.losses, 0, results.consecutiveWins + 1);
      } else {
        results := Results(results.trades + 1, results.wins, results.losses + 1, results.consecutiveLosses + 1, 0);
      }
      closed := closed + [p];
      UpdateFloating(spec, AtPrice(exit), now);
    }

    /** Puts a changed position in its place. */
    method Store(p: Paper)
      requires Valid() && Find(open, p.ticket).Some?
      modifies this`open
      ensures Valid() && open == Replace(old(open), p)
    {
      var i := IndexOf(p.ticket);
      ReplaceAt(open, i, p);
      open := open[i := p];
    }
  }
}
