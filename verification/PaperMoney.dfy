/** What the paper account's amounts of money are worth, without naming how they are computed: every
    one is the exact arithmetic of the trade, rounded once to the nearest cent
    (app/paper/account.py, app/paper/broker.py, app/paper/positions.py). */
module PaperMoney {
  import opened Common
  import opened Costs
  import opened ExecutionStore
  import Gates
  import opened PaperLedger

  /** Rounding goes to the nearest integer, and from a tie to the even one. */
  lemma RoundIsNearest(x: real)
    ensures Abs(x - Round(x) as real) <= 0.5
    ensures Abs(x - Round(x) as real) == 0.5 ==> Round(x) % 2 == 0
  {
  }

  /** Some cents are the amount `num / den` of money, rounded to the nearest cent. */
  predicate Nearest(cents: int, num: real, den: real) {
    -den / 2.0 <= cents as real * den - 100.0 * num <= den / 2.0
  }

  lemma Scaled(off: real, den: real)
    requires den > 0.0 && Abs(off) <= 0.5
    ensures -den / 2.0 <= off * den <= den / 2.0
  {
    MulMono(off, 0.5, den);
    MulMono(-off, 0.5, den);
    assert -off * den == -(off * den);
  }

  lemma Spread(off: real, c: real, amount: real, den: real)
    requires off == c - amount * 100.0
    ensures off * den == c * den - 100.0 * (amount * den)
  {
    assert (c - amount * 100.0) * den == c * den - amount * 100.0 * den;
  }

  lemma CentsAreNearest(amount: real, num: real, den: real)
    requires den > 0.0 && amount * den == num
    ensures Nearest(Cents(amount), num, den)
  {
    RoundIsNearest(amount * 100.0);
    var off := Cents(amount) as real - amount * 100.0;
    Scaled(off, den);
    Spread(off, Cents(amount) as real, amount, den);
  }

  /** Per tick and per lot, multiplied out. */
  lemma TicksMultiplied(spec: PaperSpec, move: real, volume: real)
    requires spec.tickSize > 0.0
    ensures TickWorth(spec, move, volume) * spec.tickSize == move * spec.tickValue * volume
  {
    var q := move / spec.tickSize;
    assert q * spec.tickSize == move;
    Regroup(q, spec.tickValue, volume, spec.tickSize);
  }

  /** The result of a closed position before costs: the move in ticks, times the tick's value, times
      the volume; without a usable tick size, the move times the contract. */
  lemma GrossIsNearest(spec: PaperSpec, move: real, volume: real)
    ensures spec.tickSize > 0.0 ==>
              Nearest(GrossCents(spec, move, volume), move * spec.tickValue * volume, spec.tickSize)
    ensures spec.tickSize <= 0.0 ==> Nearest(GrossCents(spec, move, volume), move * volume * spec.contractSize, 1.0)
  {
    hide Cents;
    if spec.tickSize > 0.0 {
      TicksMultiplied(spec, move, volume);
      hide TickWorth;
      CentsAreNearest(TickWorth(spec, move, volume), move * spec.tickValue * volume, spec.tickSize);
    } else {
      var worth := ContractWorth(move, volume, spec.contractSize);
      CentsAreNearest(worth, worth, 1.0);
    }
  }

  /** The floating result of an open position at one price, and over a candle. */
  lemma FloatingIsNearest(spec: PaperSpec, move: real, volume: real)
    ensures spec.tickSize > 0.0 ==>
              Nearest(FloatingCents(spec, move, volume), move * spec.tickValue * volume, spec.tickSize)
    ensures spec.tickSize <= 0.0 ==> Nearest(FloatingCents(spec, move, volume), move * volume * 100.0, 1.0)
    ensures Nearest(BarCents(move, volume), move * volume * 100.0, 1.0)
  {
    hide Cents;
    var worth := ContractWorth(move, volume, 100.0);
    CentsAreNearest(worth, worth, 1.0);
    if spec.tickSize > 0.0 {
      TicksMultiplied(spec, move, volume);
      hide TickWorth;
      CentsAreNearest(TickWorth(spec, move, volume), move * spec.tickValue * volume, spec.tickSize);
    }
  }

  /** The margin is the contract's worth over the leverage, or nothing without leverage. */
  lemma MarginIsNearest(leverage: real, volume: real, price: real, spec: PaperSpec)
    ensures leverage > 0.0 ==>
              Nearest(MarginCents(leverage, volume, price, spec),
                      volume * (if spec.contractSize > 0.0 then spec.contractSize else 100.0) * price, leverage)
    ensures leverage <= 0.0 ==> MarginCents(leverage, volume, price, spec) == 0
  {
    hide Cents;
    if leverage > 0.0 {
      var contract := if spec.contractSize > 0.0 then spec.contractSize else 100.0;
      var worth := volume * contract * price;
      assert MarginWorth(leverage, volume, price, contract) * leverage == worth;
      hide MarginWorth;
      CentsAreNearest(MarginWorth(leverage, volume, price, contract), worth, leverage);
    }
  }

  /** Half of a round trip's commission. */
  lemma CommissionIsNearest(env: DeskEnv, volume: real)
    ensures Nearest(HalfCommission(env, volume), volume * env.costs.commissionPerLot, 2.0)
  {
    var whole := CommissionCost(volume, env.costs);
    assert whole == volume * env.costs.commissionPerLot;
    hide Cents, CommissionCost;
    CentsAreNearest(whole / 2.0, whole, 2.0);
  }

  /** What a SELL gains when it goes from one price to another, a BUY loses. */
  function Move(d: Direction, entry: real, exit: real): real {
    match d
    case Buy => exit - entry
    case Sell => entry - exit
  }

  /** RESULT. Closing a position files the exact result of its move, rounded to the nearest cent, less
      its commission and swap; and with a usable tick size closing realizes exactly what was floating
      at the exit price. */
  lemma ClosingRealizesFloating(p: Paper, exit: real, spec: PaperSpec, reason: string, commission: int, swap: int)
    requires p.closePrice.None?
    ensures var f := Filed(p, exit, spec, reason, commission, swap);
            var gross := f.realized + f.commission + swap;
            && f.commission == p.commission + commission && f.swap == p.swap + swap
            && f.closePrice == Some(exit) && f.unrealized == 0 && f.volume == p.volume
            && (spec.tickSize > 0.0 ==>
                  && Nearest(gross, Move(p.direction, p.priceOpen, exit) * spec.tickValue * p.volume, spec.tickSize)
                  && gross == Reprice(p, exit, spec).unrealized)
            && (spec.tickSize <= 0.0 ==>
                  Nearest(gross, Move(p.direction, p.priceOpen, exit) * p.volume * spec.contractSize, 1.0))
  {
    GrossIsNearest(spec, Gain(p.direction, p.priceOpen, exit), p.volume);
  }

  lemma LessFee(gross: real, fee: real, size: real)
    ensures (gross - fee) * size == gross * size - fee * size
  {
  }

  /** The worth of a move less a fee: scaled by the tick size, and by the contract. */
  function TickNet(spec: PaperSpec, move: real, volume: real, fee: real): real {
    move * spec.tickValue * volume - fee * spec.tickSize
  }

  function ContractNet(spec: PaperSpec, move: real, volume: real, fee: real): real {
    move * volume * spec.contractSize - fee
  }

  /** Some cents are the worth of a move of a part less a fee. */
  predicate PartRounded(spec: PaperSpec, cents: int, move: real, volume: real, fee: real) {
    if spec.tickSize > 0.0 then Nearest(cents, TickNet(spec, move, volume, fee), spec.tickSize)
    else Nearest(cents, ContractNet(spec, move, volume, fee), 1.0)
  }

  lemma TicksLessFee(spec: PaperSpec, move: real, volume: real, fee: real)
    requires spec.tickSize > 0.0
    ensures Nearest(Cents(TickWorth(spec, move, volume) - fee), TickNet(spec, move, volume, fee), spec.tickSize)
  {
    TicksMultiplied(spec, move, volume);
    LessFee(TickWorth(spec, move, volume), fee, spec.tickSize);
    var net, num := TickWorth(spec, move, volume) - fee, TickNet(spec, move, volume, fee);
    assert net * spec.tickSize == num;
    hide *;
    CentsAreNearest(net, num, spec.tickSize);
  }

  lemma ContractLessFee(spec: PaperSpec, move: real, volume: real, fee: real)
    ensures Nearest(Cents(ContractWorth(move, volume, spec.contractSize) - fee),
                    ContractNet(spec, move, volume, fee), 1.0)
  {
    var net := ContractWorth(move, volume, spec.contractSize) - fee;
    assert net == ContractNet(spec, move, volume, fee);
    hide *;
    CentsAreNearest(net, net, 1.0);
  }

  lemma PartAmount(env: DeskEnv, move: real, volume: real)
    ensures PartRounded(env.spec, PartCents(env, move, volume), move, volume, CommissionCost(volume, env.costs))
  {
    hide Cents, CommissionCost, Nearest, TickWorth, ContractWorth, TickNet, ContractNet;
    var fee := CommissionCost(volume, env.costs);
    if env.spec.tickSize > 0.0 {
      TicksLessFee(env.spec, move, volume, fee);
    } else {
      ContractLessFee(env.spec, move, volume, fee);
    }
  }

  /** RESULT. A partial exit realizes the result of the part sold, at the quote's side less slippage,
      with the whole commission of that part, rounded once. */
  lemma PartIsNearest(env: DeskEnv, p: Paper, volume: real, q: Quote)
    ensures var slip, fee := env.costs.slippagePoints * env.spec.tickSize, volume * env.costs.commissionPerLot;
            var price := if p.direction.Buy? then q.bid - slip else q.ask + slip;
            PartRounded(env.spec, PartPnl(env, p, volume, q), Move(p.direction, p.priceOpen, price), volume, fee)
  {
    var slip := env.costs.slippagePoints * env.spec.tickSize;
    var price := if p.direction.Buy? then q.bid - slip else q.ask + slip;
    var move := Move(p.direction, p.priceOpen, price);
    assert Gain(p.direction, p.priceOpen, LeavePrice(env, p.direction, q)) == move;
    assert CommissionCost(volume, env.costs) == volume * env.costs.commissionPerLot;
    hide PartCents, PartRounded, Gain, LeavePrice, Move, CommissionCost;
    PartAmount(env, move, volume);
  }

  /** Entering and leaving at one quote costs the spread and twice the slippage, on either side. */
  lemma RoundTripCosts(env: DeskEnv, d: Direction, q: Quote)
    ensures Move(d, EntryPrice(env, d, q), LeavePrice(env, d, q))
            == q.bid - q.ask - 2.0 * (env.costs.slippagePoints * env.spec.tickSize)
    ensures EntryPrice(env, d, q) == if d.Buy? then q.ask + env.costs.slippagePoints * env.spec.tickSize
                                     else q.bid - env.costs.slippagePoints * env.spec.tickSize
  {
  }

  // ----- over a candle, a day, a quote ------------------------------------------------------

  /** Over a candle the floating result is taken at the close, with 100 for the contract. */
  lemma CandleIsNearest(p: Paper, high: real, low: real, close: real)
    requires p.closePrice.None?
    ensures Nearest(RepriceOverBar(p, high, low, close).unrealized,
                    Move(p.direction, p.priceOpen, close) * p.volume * 100.0, 1.0)
  {
    var move := Move(p.direction, p.priceOpen, close);
    assert Gain(p.direction, p.priceOpen, close) == move;
    hide Gain, Move, BarCents, Nearest;
    FloatingIsNearest(PaperSpec(1.0, 1.0, 1.0, 1.0, 1.0, 1.0, true), move, p.volume);
  }

  /** A closed position's result counts for the day and the week of its close: the running results
      begin anew with a new day or week. */
  lemma PeriodsRun(l: Ledger, ticket: int, exit: real, spec: PaperSpec, reason: string, now: Moment, commission: int)
    requires Find(l.open, ticket).Some?
    ensures var l' := ApplyClose(l, ticket, exit, spec, reason, now, commission, 0);
            var net := Filed(Find(l.open, ticket).value, exit, spec, reason, commission, 0).realized;
            && l'.period.day == Some(now.day) && l'.period.week == Some(now.week)
            && l'.period.daily == net + (if l.period.day == Some(now.day) then l.period.daily else 0)
            && l'.period.weekly == net + (if l.period.week == Some(now.week) then l.period.weekly else 0)
            && l'.money.balance == l.money.balance + net
            && l'.results.wins == l.results.wins + (if net > 0 then 1 else 0)
            && l'.results.losses == l.results.losses + (if net > 0 then 0 else 1)
  {
    hide Find, Remove, RepriceAll, TotalUnrealized, TotalMargin, GrossCents;
  }

  /** Equity, and the margin that is free, after every revaluation. */
  lemma MoneyAfterRevaluation(l: Ledger, spec: PaperSpec, mark: Mark, now: Moment)
    ensures var u := UpdateFloating(l, spec, mark, now);
            && u.money.equity == u.money.balance + u.money.unrealized
            && u.money.unrealized == TotalUnrealized(u.open)
            && u.money.usedMargin == TotalMargin(u.open, u.leverage, spec)
            && u.money.freeMargin >= 0
            && (u.money.freeMargin > 0 ==> u.money.freeMargin == u.money.equity - u.money.usedMargin)
            && (u.money.freeMargin == 0 ==> u.money.equity <= u.money.usedMargin)
  {
    hide RepriceAll, TotalUnrealized, TotalMargin;
  }

  /** RESULT. An order is filled exactly when its id is not blocked, both permissions and the order's
      own fields pass the gate, the quote is sound, and the free margin covers the margin at the side
      that is taken; the fill is that side, worse by the slippage. */
  lemma OrderFillsExactly(env: DeskEnv, d: Desk, o: Order, killSwitch: bool, offered: Option<Quote>)
    ensures var q, spec := if d.tick.Some? then d.tick else offered, env.spec;
            var slip := env.costs.slippagePoints * spec.tickSize;
            && (Judge(env, d, o, killSwitch, offered).Filled? <==>
                && !(o.orderId in d.records && Blocking(d.records[o.orderId].status))
                && !killSwitch && env.accountTradeAllowed && spec.tradeAllowed
                && (o.direction == "BUY" || o.direction == "SELL") && o.stopLoss.Some?
                && spec.volumeMin <= o.volume <= spec.volumeMax && o.volume > 0.0
                && Gates.MatchesStep(o.volume, spec.volumeStep)
                && q.Some? && 0.0 < q.value.bid < q.value.ask
                && d.ledger.money.freeMargin >= MarginCents(
                     d.ledger.leverage, o.volume, if o.direction == "BUY" then q.value.ask else q.value.bid, spec))
            && (Judge(env, d, o, killSwitch, offered).Filled? ==>
                  Judge(env, d, o, killSwitch, offered)
                  == Filled(d.nextTicket, if o.direction == "BUY" then q.value.ask + slip else q.value.bid - slip))
  {
    hide MarginCents, Gates.MatchesStep, Blocking;
  }

  /** RESULT. At a quote every open position floats at what leaving it there would make before costs:
      a BUY at the bid, a SELL at the ask; a filled order revalues all positions at its fill price. */
  lemma {:induction false} FloatsAtItsSide(ps: seq<Paper>, mark: Mark, spec: PaperSpec, i: nat)
    requires i < |ps| && ps[i].closePrice.None? && spec.tickSize > 0.0
    ensures var p, r := ps[i], RepriceAll(ps, mark, spec)[i];
            var price := match mark
                         case AtPrice(x) => x
                         case AtQuote(q) => match p.direction
                                            case Buy => q.bid
                                            case Sell => q.ask;
            && r.ticket == p.ticket && r.volume == p.volume
            && Nearest(r.unrealized, Move(p.direction, p.priceOpen, price) * spec.tickValue * p.volume, spec.tickSize)
  {
    var n := |ps| - 1;
    if i < n {
      FloatsAtItsSide(ps[..n], mark, spec, i);
    } else {
      var p := ps[i];
      var move := Gain(p.direction, p.priceOpen, PriceFor(p, mark));
      FloatingIsNearest(spec, move, p.volume);
      hide FloatingCents, Nearest;
    }
  }

  /** Each position counts once in the account's floating total. */
  lemma {:induction false} TotalIsTheSum(ps: seq<Paper>, i: nat)
    requires i < |ps|
    ensures TotalUnrealized(ps) == TotalUnrealized(ps[..i] + ps[i + 1..]) + ps[i].unrealized
  {
    var n := |ps| - 1;
    if i == n {
      assert ps[..i] + ps[i + 1..] == ps[..n];
    } else {
      TotalIsTheSum(ps[..n], i);
      var rest := ps[..i] + ps[i + 1..];
      assert rest[..|rest| - 1] == ps[..n][..i] + ps[..n][i + 1..];
    }
  }
}
