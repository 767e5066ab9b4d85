/** Order submission under lost confirmations, on values: what one call of the execution engine
    does to the stored records and, unseen by the engine, to the fills at the broker.
    LIVE mode (app/execution/engine.py). */
module ExecutionProtocol {
  import opened Common
  import opened ExecutionStore
  import opened BrokerTags

  datatype Order = Order(direction: string, volume: real, stopLoss: Option<real>, takeProfit: Option<real>)

  /** What the client call returns, or that it raised. */
  datatype Reply =
    | Raised
    | Replied(success: bool, orderId: Option<int>, taggedUnknown: bool, volume: Option<real>)

  /** A fill that happened at the broker, with the id of the order behind it. */
  datatype Fill = Fill(id: string, ticket: int, comment: string)

  /** How the engine classifies a reply. */
  datatype Verdict = Uncertain | Refused | Confirmed(ticket: int)

  function Classify(reply: Reply): Verdict {
    if reply.Raised? || reply.taggedUnknown then Uncertain
    else if !reply.success || reply.orderId.None? then Refused
    else Confirmed(reply.orderId.value)
  }

  /** The assumption on the broker: a definite reply tells the truth. A clean failure means that
      nothing was filled, a success carries the ticket of the fill; an uncertain reply says nothing. */
  predicate Honest(truth: Option<int>, reply: Reply) {
    match Classify(reply)
    case Uncertain => true
    case Refused => truth.None?
    case Confirmed(ticket) => truth == Some(ticket)
  }

  datatype State = State(store: Records, fills: seq<Fill>)

  const EMPTY := State(map[], [])

  /** How often the broker filled the order with this id. */
  function FillCount(fills: seq<Fill>, id: string): nat {
    if fills == [] then 0
    else FillCount(fills[..|fills| - 1], id) + if fills[|fills| - 1].id == id then 1 else 0
  }

  lemma FillCountSnoc(fills: seq<Fill>, f: Fill, id: string)
    ensures FillCount(fills + [f], id) == FillCount(fills, id) + if f.id == id then 1 else 0
  {
    assert (fills + [f])[..|fills|] == fills;
  }

  lemma {:induction false} CountedIsPresent(fills: seq<Fill>, f: Fill)
    requires f in fills
    ensures FillCount(fills, f.id) >= 1
  {
    var last := |fills| - 1;
    if fills[last] != f {
      CountedIsPresent(fills[..last], f);
    }
  }

  // ----- submission ------------------------------------------------------------------------

  function FilledVolume(order: Order, reply: Reply): real {
    if reply.Replied? && reply.volume.Some? && reply.volume.value != 0.0 then reply.volume.value else order.volume
  }

  predicate Blocked(store: Records, id: string) {
    id in store && Blocking(store[id].status)
  }

  function NewRecord(id: string, order: Order, status: Status, ticket: Option<int>, volume: real): Record {
    Record(id, status, ticket, order.direction, volume, None, "")
  }

  /** The records after a submission whose order reached the broker. */
  function StoreReply(store: Records, id: string, order: Order, reply: Reply, now: int): Records {
    match Classify(reply)
    case Uncertain => SqlitePut(store, NewRecord(id, order, UNKNOWN, None, order.volume), now)
    case Refused => store
    case Confirmed(ticket) =>
      SqlitePut(store, NewRecord(id, order, FILLED, Some(ticket), FilledVolume(order, reply)), now)
  }

  /** One submission. `admitted` says that the account could be read and the gate approved. */
  function Submit(
      s: State, id: string, order: Order, admitted: bool, truth: Option<int>, reply: Reply, now: int,
      crc: Checksum): State
  {
    if Blocked(s.store, id) || !admitted then s
    else
      State(
        StoreReply(s.store, id, order, reply, now),
        s.fills + if truth.Some? then [Fill(id, truth.value, Tag(id, crc))] else [])
  }

  // ----- reconciliation against open positions ---------------------------------------------

  datatype BrokerPosition = BrokerPosition(ticket: int, comment: string)

  /** The last listed position with this comment, as a dictionary built in list order keeps it. */
  function ByTag(positions: seq<BrokerPosition>, tag: string): Option<BrokerPosition> {
    if positions == [] then None
    else
      var last := positions[|positions| - 1];
      if last.comment == tag then Some(last) else ByTag(positions[..|positions| - 1], tag)
  }

  lemma {:induction false} ByTagFinds(positions: seq<BrokerPosition>, tag: string)
    ensures ByTag(positions, tag).Some? ==>
              ByTag(positions, tag).value in positions && ByTag(positions, tag).value.comment == tag
    ensures ByTag(positions, tag).None? ==> forall p :: p in positions ==> p.comment != tag
  {
    if positions != [] {
      ByTagFinds(positions[..|positions| - 1], tag);
      var last := positions[|positions| - 1];
      assert positions == positions[..|positions| - 1] + [last];
    }
  }

  function Match(store: Records, id: string, positions: seq<BrokerPosition>, crc: Checksum): Option<BrokerPosition> {
    if id in store && store[id].status == UNKNOWN then ByTag(positions, Tag(id, crc)) else None
  }

  const AUTO_NOTE := "auto-resolved by reconcile_unknown(): a matching open position was found at the broker."

  function Adopt(store: Records, id: string, ticket: int, now: int): Records
    requires id in store
  {
    var r := store[id];
    SqlitePut(store, Record(id, RESOLVED_FILLED, Some(ticket), r.direction, r.volume, r.createdAt, AUTO_NOTE), now)
  }

  /** The records after a pass, and whether an audit write ended it early. */
  datatype Pass = Pass(store: Records, raised: bool)

  /** Visits the ids in order; `audits` critical audit writes succeed, the next one raises and
      ends the pass after its record was stored. */
  function Sweep(
      store: Records, ids: seq<string>, positions: seq<BrokerPosition>, audits: nat, now: int, crc: Checksum): Pass
  {
    if ids == [] then Pass(store, false)
    else
      var m := Match(store, ids[0], positions, crc);
      if m.None? then Sweep(store, ids[1..], positions, audits, now, crc)
      else
        var store' := Adopt(store, ids[0], m.value.ticket, now);
        if audits == 0 then Pass(store', true)
        else Sweep(store', ids[1..], positions, audits - 1, now, crc)
  }

  // ----- operator resolution ---------------------------------------------------------------

  datatype StatusArg = NoStatus | SaysFilled | SaysNotFound | SaysUnknown | Unrecognised

  /** What the operator passes; `noteRejects` says that the note names a rejection and nothing
      inconclusive. */
  datatype Evidence = Evidence(
    ticket: Option<int>, status: StatusArg, confirmedNonExecution: bool, noteRejects: bool, note: string)

  /** The evidence names a ticket. */
  predicate NamesTicket(e: Evidence) {
    e.ticket.Some? && e.ticket.value > 0
  }

  /** The evidence claims that the order was filled: by its status, or without one by a ticket. */
  predicate ClaimsFilled(e: Evidence) {
    e.status.SaysFilled? || (e.status.NoStatus? && !e.confirmedNonExecution && NamesTicket(e))
  }

  /** The evidence claims that the order never executed: by its status, or without one by a
      confirmation or by a rejecting note that comes without a ticket. */
  predicate ClaimsNotFound(e: Evidence) {
    || e.status.SaysNotFound?
    || (e.status.NoStatus? && (e.confirmedNonExecution || (!NamesTicket(e) && e.noteRejects)))
  }

  datatype Decision = DecideFilled | DecideNotFound | DecideUnknown | DecideError

  function Decide(e: Evidence): Decision {
    match e.status
    case SaysFilled => DecideFilled
    case SaysNotFound => DecideNotFound
    case SaysUnknown => DecideUnknown
    case Unrecognised => DecideError
    case NoStatus =>
      if e.confirmedNonExecution then DecideNotFound
      else if e.ticket.Some? && e.ticket.value > 0 then DecideFilled
      else if e.noteRejects then DecideNotFound
      else DecideUnknown
  }

  function Resolve(store: Records, id: string, e: Evidence, now: int): Records {
    if id !in store || store[id].status != UNKNOWN then store
    else
      var r := store[id];
      match Decide(e)
      case DecideError => store
      case DecideFilled =>
        SqlitePut(store, Record(id, RESOLVED_FILLED, e.ticket, r.direction, r.volume, r.createdAt, e.note), now)
      case DecideNotFound =>
        SqlitePut(store, Record(id, RESOLVED_NOT_FOUND, e.ticket, r.direction, r.volume, r.createdAt, e.note), now)
      case DecideUnknown =>
        var note := if e.note != "" then e.note else r.note;
        SqlitePut(store, Record(id, UNKNOWN, r.ticket, r.direction, r.volume, r.createdAt, note), now)
  }

  /** What the operator's evidence does to the record of an UNKNOWN order, field by field. */
  lemma ResolutionFollowsEvidence(store: Records, id: string, e: Evidence, now: int)
    requires id in store && store[id].status == UNKNOWN
    ensures var r := Resolve(store, id, e, now);
            && r.Keys == store.Keys && (forall k :: k in store && k != id ==> r[k] == store[k])
            && r[id].direction == store[id].direction && r[id].volume == store[id].volume
            && r[id].createdAt == store[id].createdAt
            && (e.status.SaysFilled? ==> r[id].status == RESOLVED_FILLED && r[id].ticket == e.ticket)
            && (e.status.SaysNotFound? ==> r[id].status == RESOLVED_NOT_FOUND && r[id].ticket == e.ticket)
            && (e.status.SaysUnknown? ==> r[id].status == UNKNOWN && r[id].ticket == store[id].ticket)
            && (e.status.Unrecognised? ==> r[id] == store[id])
            && (e.status.NoStatus? ==>
                  var named := e.ticket.Some? && e.ticket.value > 0;
                  && (r[id].status == RESOLVED_NOT_FOUND <==> e.confirmedNonExecution || (!named && e.noteRejects))
                  && (r[id].status == RESOLVED_FILLED <==> !e.confirmedNonExecution && named)
                  && (r[id].status == UNKNOWN <==> !e.confirmedNonExecution && !named && !e.noteRejects)
                  && r[id].ticket == if r[id].status == UNKNOWN then store[id].ticket else e.ticket)
            && (r[id].status != UNKNOWN ==> r[id].note == e.note)
            && (r[id].status == UNKNOWN && !e.status.Unrecognised? ==>
                  r[id].note == if e.note == "" then store[id].note else e.note)
  {
  }

  /** The decision is what the evidence claims. */
  lemma DecidesAsClaimed(e: Evidence)
    ensures Decide(e) == DecideFilled <==> ClaimsFilled(e)
    ensures Decide(e) == DecideNotFound <==> ClaimsNotFound(e)
    ensures Decide(e) == DecideError <==> e.status.Unrecognised?
  {
  }

  // ----- runs ------------------------------------------------------------------------------

  datatype Step =
    | DoSubmit(id: string, order: Order, admitted: bool, truth: Option<int>, reply: Reply, now: int)
    | DoReconcile(ids: seq<string>, positions: seq<BrokerPosition>, audits: nat, now: int)
    | DoResolve(id: string, evidence: Evidence, now: int)
    | DoRestart

  /** A restart builds a new engine over the same table, so it changes nothing stored. */
  function Apply(s: State, step: Step, crc: Checksum): State {
    match step
    case DoSubmit(id, order, admitted, truth, reply, now) => Submit(s, id, order, admitted, truth, reply, now, crc)
    case DoReconcile(ids, positions, audits, now) => s.(store := Sweep(s.store, ids, positions, audits, now, crc).store)
    case DoResolve(id, e, now) => s.(store := Resolve(s.store, id, e, now))
    case DoRestart => s
  }

  function Run(s: State, steps: seq<Step>, crc: Checksum): State {
    if steps == [] then s else Apply(Run(s, steps[..|steps| - 1], crc), steps[|steps| - 1], crc)
  }

  /** The operator says "not found" only about orders the broker never filled. */
  predicate TruthfulNotFound(s: State, step: Step) {
    step.DoResolve? && ClaimsNotFound(step.evidence) ==> FillCount(s.fills, step.id) == 0
  }

  predicate Trusted(s: State, step: Step) {
    && (step.DoSubmit? ==> Honest(step.truth, step.reply))
    && TruthfulNotFound(s, step)
  }

  predicate TrustedRun(s: State, steps: seq<Step>, crc: Checksum) {
    steps == [] ||
    (TrustedRun(s, steps[..|steps| - 1], crc) && Trusted(Run(s, steps[..|steps| - 1], crc), steps[|steps| - 1]))
  }
}
