/** The paper trading account and its order adapter on values (app/paper/account.py,
    app/paper/broker.py, app/paper/positions.py). Money is counted in whole cents; prices and
    volumes are exact. */
module PaperLedger {
  import opened Common
  import opened Costs
  import opened ExecutionStore
  import Gates
  import PositionModel

  type Quote = PositionModel.Tick

  datatype PaperSpec = PaperSpec(
    tickSize: real, tickValue: real, contractSize: real,
    volumeMin: real, volumeMax: real, volumeStep: real, tradeAllowed: bool)

  datatype Paper = Paper(
    ticket: int, orderId: string, direction: Direction, volume: real, priceOpen: real,
    stopLoss: Option<real>, takeProfit: Option<real>, realized: int, unrealized: int,
    mae: real, mfe: real, commission: int, swap: int, closePrice: Option<real>, closeReason: string)

  datatype Money = Money(
    balance: int, equity: int, usedMargin: int, freeMargin: int,
    realized: int, unrealized: int, commission: int, swap: int)

  /** The running results of the current day and week. */
  datatype Period = Period(day: Option<int>, week: Option<int>, daily: int, weekly: int)

  datatype Results = Results(trades: int, wins: int, losses: int, consecutiveLosses: int, consecutiveWins: int)

  datatype Ledger = Ledger(
    starting: int, leverage: real, money: Money, period: Period, results: Results, open: seq<Paper>, closed: seq<Paper>)

  // ----- amounts ----------------------------------------------------------------------------

  function Cents(amount: real): int {
    Round(amount * 100.0)
  }

  /** What a move is worth: its ticks times the tick's value, for every lot. */
  function TickWorth(spec: PaperSpec, move: real, volume: real): real
    requires spec.tickSize > 0.0
  {
    move / spec.tickSize * spec.tickValue * volume
  }

  function ContractWorth(move: real, volume: real, contract: real): real {
    move * volume * contract
  }

  function GrossCents(spec: PaperSpec, move: real, volume: real): int {
    if spec.tickSize > 0.0 then Cents(TickWorth(spec, move, volume))
    else Cents(ContractWorth(move, volume, spec.contractSize))
  }

  /** Without a usable tick size, 100 stands in for the contract size. */
  function FloatingCents(spec: PaperSpec, move: real, volume: real): int {
    if spec.tickSize > 0.0 then Cents(TickWorth(spec, move, volume))
    else Cents(ContractWorth(move, volume, 100.0))
  }

  /** Over a candle 100 always stands in for the contract size. */
  function BarCents(move: real, volume: real): int {
    Cents(ContractWorth(move, volume, 100.0))
  }

  function MarginWorth(leverage: real, volume: real, price: real, contract: real): real
    requires leverage > 0.0
  {
    volume * contract * price / leverage
  }

  function MarginCents(leverage: real, volume: real, price: real, spec: PaperSpec): int {
    if leverage <= 0.0 then 0
    else Cents(MarginWorth(leverage, volume, price, if spec.contractSize > 0.0 then spec.contractSize else 100.0))
  }

  // ----- positions --------------------------------------------------------------------------

  /** Revaluation at one price; the excursions are then counted in money. */
  function Reprice(p: Paper, price: real, spec: PaperSpec): Paper {
    if p.closePrice.Some? then p
    else
      var u := FloatingCents(spec, Gain(p.direction, p.priceOpen, price), p.volume);
      p.(unrealized := u, mfe := Max(p.mfe, u as real / 100.0), mae := Max(p.mae, -(u as real / 100.0)))
  }

  /** Revaluation over a candle; the excursions are then counted in price. */
  function RepriceOverBar(p: Paper, high: real, low: real, close: real): Paper {
    if p.closePrice.Some? then p
    else
      var adverse := Max(0.0, if p.direction.Buy? then p.priceOpen - low else high - p.priceOpen);
      var favorable := Max(0.0, if p.direction.Buy? then high - p.priceOpen else p.priceOpen - low);
      p.(unrealized := BarCents(Gain(p.direction, p.priceOpen, close), p.volume),
         mae := Max(p.mae, adverse), mfe := Max(p.mfe, favorable))
  }

  /** The position with a ticket among the open ones. */
  function Find(ps: seq<Paper>, ticket: int): Option<Paper> {
    if ps == [] then None
    else if ps[|ps| - 1].ticket == ticket then Some(ps[|ps| - 1])
    else Find(ps[..|ps| - 1], ticket)
  }

  function Remove(ps: seq<Paper>, ticket: int): seq<Paper> {
    if ps == [] then []
    else Remove(ps[..|ps| - 1], ticket) + if ps[|ps| - 1].ticket == ticket then [] else [ps[|ps| - 1]]
  }

  /** Puts a changed position in the place of the one with its ticket. */
  function Replace(ps: seq<Paper>, p: Paper): (r: seq<Paper>)
    ensures |r| == |ps|
  {
    if ps == [] then []
    else Replace(ps[..|ps| - 1], p) + [if ps[|ps| - 1].ticket == p.ticket then p else ps[|ps| - 1]]
  }

  // ----- the account ------------------------------------------------------------------------

  /** A moment: its calendar day and week. */
  datatype Moment = Moment(day: int, week: int)

  function Today(p: Period, now: Moment): Period {
    var p1 := if p.day == Some(now.day) then p else p.(day := Some(now.day), daily := 0);
    if p1.week == Some(now.week) then p1 else p1.(week := Some(now.week), weekly := 0)
  }

  /** What open positions are valued at: each at its side of a quote, or all at one price. */
  datatype Mark = AtQuote(quote: Quote) | AtPrice(price: real)

  function PriceFor(p: Paper, mark: Mark): real {
    match mark
    case AtPrice(price) => price
    case AtQuote(q) => if p.direction.Buy? then q.bid else q.ask
  }

  function RepriceAll(ps: seq<Paper>, mark: Mark, spec: PaperSpec): (r: seq<Paper>)
    ensures |r| == |ps|
  {
    if ps == [] then []
    else
      var last := ps[|ps| - 1];
      RepriceAll(ps[..|ps| - 1], mark, spec) + [Reprice(last, PriceFor(last, mark), spec)]
  }

  function TotalUnrealized(ps: seq<Paper>): int {
    if ps == [] then 0 else TotalUnrealized(ps[..|ps| - 1]) + ps[|ps| - 1].unrealized
  }

  function TotalMargin(ps: seq<Paper>, leverage: real, spec: PaperSpec): int {
    if ps == [] then 0
    else
      var last := ps[|ps| - 1];
      TotalMargin(ps[..|ps| - 1], leverage, spec) + MarginCents(leverage, last.volume, last.priceOpen, spec)
  }

  function Valued(m: Money, unrealized: int, used: int): Money {
    var equity := m.balance + unrealized;
    m.(unrealized := unrealized, usedMargin := used, equity := equity,
       freeMargin := if equity - used < 0 then 0 else equity - used)
  }

  /** Revalues every open position, then the account's totals. */
  function UpdateFloating(l: Ledger, spec: PaperSpec, mark: Mark, now: Moment): Ledger {
    var open := RepriceAll(l.open, mark, spec);
    l.(open := open, period := Today(l.period, now),
       money := Valued(l.money, TotalUnrealized(open), TotalMargin(open, l.leverage, spec)))
  }

  /** A new position; all open ones are revalued at its fill price. */
  function ApplyEntry(l: Ledger, p: Paper, spec: PaperSpec, now: Moment): Ledger {
    UpdateFloating(l.(open := l.open + [p], period := Today(l.period, now)), spec, AtPrice(p.priceOpen), now)
  }

  /** A position as it is filed when it closes. */
  function Filed(p: Paper, exit: real, spec: PaperSpec, reason: string, commission: int, swap: int): Paper {
    var gross := GrossCents(spec, Gain(p.direction, p.priceOpen, exit), p.volume);
    p.(closePrice := Some(exit), closeReason := reason, unrealized := 0,
       realized := gross - (p.commission + commission) - swap,
       commission := p.commission + commission, swap := p.swap + swap)
  }

  function CountResult(r: Results, net: int): Results {
    if net > 0
    then Results(r.trades + 1, r.wins + 1, r.losses, 0, r.consecutiveWins + 1)
    else Results(r.trades + 1, r.wins, r.losses + 1, r.consecutiveLosses + 1, 0)
  }

  /** A closed position's result enters every total. */
  function Realize(m: Money, net: int, commission: int, swap: int): Money {
    m.(balance := m.balance + net, realized := m.realized + net, commission := m.commission + commission,
       swap := m.swap + swap)
  }

  function Earn(p: Period, net: int): Period {
    p.(daily := p.daily + net, weekly := p.weekly + net)
  }

  /** The account after closing, before its positions are revalued. */
  function Settled(l: Ledger, filed: Paper, ticket: int, now: Moment, swap: int): Ledger {
    l.(open := Remove(l.open, ticket), closed := l.closed + [filed],
       money := Realize(l.money, filed.realized, filed.commission, swap),
       period := Earn(Today(l.period, now), filed.realized), results := CountResult(l.results, filed.realized))
  }

  function ApplyClose(
      l: Ledger, ticket: int, exit: real, spec: PaperSpec, reason: string, now: Moment, commission: int,
      swap: int): Ledger
  {
    var found := Find(l.open, ticket);
    if found.None? then l
    else
      var filed := Filed(found.value, exit, spec, reason, commission, swap);
      UpdateFloating(Settled(l, filed, ticket, now, swap), spec, AtPrice(exit), now)
  }

  // ----- the adapter ------------------------------------------------------------------------

  datatype DeskEnv = DeskEnv(spec: PaperSpec, costs: ExecutionCosts, accountTradeAllowed: bool)

  /** Everything the adapter remembers. */
  datatype Desk = Desk(ledger: Ledger, records: Records, tick: Option<Quote>, nextTicket: int)

  datatype Order = Order(
    direction: string, volume: real, stopLoss: Option<real>, takeProfit: Option<real>, orderId: string)

  datatype Answer =
    | DuplicateRejected | GateRejected | InvalidQuote | InsufficientMargin
    | Filled(ticket: int, price: real)

  function Side(direction: string): Direction {
    if direction == "BUY" then Buy else Sell
  }

  function Slippage(env: DeskEnv): real {
    env.costs.slippagePoints * env.spec.tickSize
  }

  function HalfCommission(env: DeskEnv, volume: real): int {
    Cents(CommissionCost(volume, env.costs) / 2.0)
  }

  /** Buying pays the ask, selling gets the bid, and slippage makes either worse. */
  function EntryPrice(env: DeskEnv, d: Direction, q: Quote): real {
    if d.Buy? then q.ask + Slippage(env) else q.bid - Slippage(env)
  }

  function LeavePrice(env: DeskEnv, d: Direction, q: Quote): real {
    if d.Buy? then q.bid - Slippage(env) else q.ask + Slippage(env)
  }

  /** The adapter's own last quote, else whatever the market data client offers. */
  function QuoteOf(d: Desk, offered: Option<Quote>): Option<Quote> {
    if d.tick.Some? then d.tick else offered
  }

  function GateInputOf(env: DeskEnv, o: Order, killSwitch: bool): Gates.ExecutionGateInput {
    Gates.ExecutionGateInput(
      false, killSwitch, env.accountTradeAllowed, env.spec.tradeAllowed, o.direction, o.volume,
      env.spec.volumeMin, env.spec.volumeMax, env.spec.volumeStep, o.stopLoss, true)
  }

  function Judge(env: DeskEnv, d: Desk, o: Order, killSwitch: bool, offered: Option<Quote>): Answer {
    var q := QuoteOf(d, offered);
    if o.orderId in d.records && Blocking(d.records[o.orderId].status) then DuplicateRejected
    else if !Gates.Submittable(GateInputOf(env, o, killSwitch)) then GateRejected
    else if q.None? || q.value.ask <= q.value.bid || q.value.bid <= 0.0 then InvalidQuote
    else if d.ledger.money.freeMargin <
            MarginCents(d.ledger.leverage, o.volume,
                        if Side(o.direction).Buy? then q.value.ask else q.value.bid, env.spec)
    then InsufficientMargin
    else Filled(d.nextTicket, EntryPrice(env, Side(o.direction), q.value))
  }

  function NewPosition(env: DeskEnv, o: Order, ticket: int, price: real): Paper {
    Paper(ticket, o.orderId, Side(o.direction), o.volume, price, o.stopLoss, o.takeProfit, 0, 0, 0.0, 0.0,
          HalfCommission(env, o.volume), 0, None, "")
  }

  function FillRecord(o: Order, ticket: int): Record {
    Record(o.orderId, FILLED, Some(ticket), o.direction, o.volume, None, "")
  }

  function Submit(
      env: DeskEnv, d: Desk, o: Order, killSwitch: bool, offered: Option<Quote>, now: Moment, clock: int): Desk {
    var a := Judge(env, d, o, killSwitch, offered);
    if !a.Filled? then d
    else d.(nextTicket := d.nextTicket + 1,
            records := InMemoryPut(d.records, FillRecord(o, a.ticket), clock),
            ledger := ApplyEntry(d.ledger, NewPosition(env, o, a.ticket, a.price), env.spec, now))
  }

  function ModifyPosition(d: Desk, ticket: int, stop: Option<real>, target: Option<real>): Desk {
    var found := Find(d.ledger.open, ticket);
    if found.None? then d
    else
      var p := found.value.(stopLoss := if stop.Some? then stop else found.value.stopLoss,
                            takeProfit := if target.Some? then target else found.value.takeProfit);
      d.(ledger := d.ledger.(open := Replace(d.ledger.open, p)))
  }

  predicate SellsPart(d: Desk, ticket: int, volume: real, offered: Option<Quote>) {
    var found := Find(d.ledger.open, ticket);
    found.Some? && 0.0 < volume < found.value.volume && QuoteOf(d, offered).Some?
  }

  /** The result of a part, its full commission included. */
  function PartCents(env: DeskEnv, move: real, volume: real): int {
    var fee := CommissionCost(volume, env.costs);
    if env.spec.tickSize > 0.0 then Cents(TickWorth(env.spec, move, volume) - fee)
    else Cents(ContractWorth(move, volume, env.spec.contractSize) - fee)
  }

  /** The result of selling part of a position at the quote. */
  function PartPnl(env: DeskEnv, p: Paper, volume: real, q: Quote): int {
    PartCents(env, Gain(p.direction, p.priceOpen, LeavePrice(env, p.direction, q)), volume)
  }

  /** The account after part of a position is sold, before its positions are revalued. */
  function SoldPart(env: DeskEnv, l: Ledger, p: Paper, volume: real, pnl: int): Ledger {
    l.(open := Replace(l.open, p.(volume := p.volume - volume, realized := p.realized + pnl)),
       money := l.money.(balance := l.money.balance + pnl, realized := l.money.realized + pnl,
                         commission := Round(l.money.commission as real + CommissionCost(volume, env.costs) * 100.0)))
  }

  function ClosePartial(env: DeskEnv, d: Desk, ticket: int, volume: real, offered: Option<Quote>, now: Moment): Desk {
    if !SellsPart(d, ticket, volume, offered) then d
    else
      var p, q := Find(d.ledger.open, ticket).value, QuoteOf(d, offered).value;
      var sold := SoldPart(env, d.ledger, p, volume, PartPnl(env, p, volume, q));
      d.(ledger := UpdateFloating(sold, env.spec, AtQuote(q), now))
  }

  function ClosePosition(
      env: DeskEnv, d: Desk, ticket: int, reason: string, exitPrice: Option<real>, offered: Option<Quote>,
      now: Moment): Desk
  {
    var found := Find(d.ledger.open, ticket);
    if found.None? || (exitPrice.None? && QuoteOf(d, offered).None?) then d
    else
      var p := found.value;
      var exit := if exitPrice.Some? then exitPrice.value else LeavePrice(env, p.direction, QuoteOf(d, offered).value);
      d.(ledger := ApplyClose(d.ledger, ticket, exit, env.spec, if reason == "" then "PAPER_CLOSED" else reason,
                              now, HalfCommission(env, p.volume), 0))
  }

  /** The equity follows at once, the free margin only with the next revaluation. */
  function Swapped(m: Money, amount: int): Money {
    m.(swap := m.swap + amount, balance := m.balance + amount, equity := m.balance + amount + m.unrealized)
  }

  function ApplySwap(d: Desk, ticket: int, amount: int): Desk {
    var found := Find(d.ledger.open, ticket);
    if found.None? then d
    else
      var p := found.value.(swap := found.value.swap + amount);
      d.(ledger := d.ledger.(open := Replace(d.ledger.open, p), money := Swapped(d.ledger.money, amount)))
  }

  function SetTick(env: DeskEnv, d: Desk, q: Quote, now: Moment): Desk {
    d.(tick := Some(q), ledger := UpdateFloating(d.ledger, env.spec, AtQuote(q), now))
  }
}
