/** Comparing what the monitor believes with what the broker lists
    (app/positions/reconciliation.py). */
module Reconciliation {
  import opened Common
  import opened PositionModel
  import opened PositionSafety

  datatype DiscrepancyKind =
    | MISSING_AT_BROKER | UNTRACKED_LOCALLY | STOP_LOSS_CHANGED | TAKE_PROFIT_CHANGED
    | VOLUME_CHANGED | UNRESOLVED_PENDING

  datatype Discrepancy = Discrepancy(kind: DiscrepancyKind, ticket: int)

  datatype Tolerance = Tolerance(stop: real, volume: real)

  const DEFAULT_TOLERANCE := Tolerance(0.000001, 0.000001)

  predicate StopDrifted(r: MonitorRecord, p: Position, tol: Tolerance) {
    r.lastConfirmedStop.Some? && p.stopLoss.Some? && Abs(r.lastConfirmedStop.value - p.stopLoss.value) > tol.stop
  }

  predicate VolumeDrifted(r: MonitorRecord, p: Position, tol: Tolerance) {
    r.initialVolume.Some? && r.partialExitVolume.Some?
    && Abs(r.initialVolume.value - r.partialExitVolume.value - p.volume) > tol.volume
  }

  /** What is reported about a ticket with this open record and this listed position. */
  predicate Reported(kind: DiscrepancyKind, record: Option<MonitorRecord>, broker: Option<Position>, tol: Tolerance) {
    match kind
    case UNRESOLVED_PENDING => record.Some? && record.value.pending.Some?
    case MISSING_AT_BROKER => record.Some? && broker.None?
    case UNTRACKED_LOCALLY => record.None? && broker.Some?
    case STOP_LOSS_CHANGED => record.Some? && broker.Some? && StopDrifted(record.value, broker.value, tol)
    case VOLUME_CHANGED => record.Some? && broker.Some? && VolumeDrifted(record.value, broker.value, tol)
    case TAKE_PROFIT_CHANGED => false
  }

  /** The last record of a ticket that is not closed, and the last listed position of a ticket. */
  function OpenRecord(records: seq<MonitorRecord>, ticket: int): Option<MonitorRecord> {
    if records == [] then None
    else
      var last := records[|records| - 1];
      if last.ticket == ticket && !last.closed then Some(last) else OpenRecord(records[..|records| - 1], ticket)
  }

  function Listed(positions: seq<Position>, ticket: int): Option<Position> {
    if positions == [] then None
    else
      var last := positions[|positions| - 1];
      if last.ticket == ticket then Some(last) else Listed(positions[..|positions| - 1], ticket)
  }

  lemma ListedSnoc(positions: seq<Position>, p: Position, ticket: int)
    ensures Listed(positions + [p], ticket) == if ticket == p.ticket then Some(p) else Listed(positions, ticket)
  {
    assert (positions + [p])[..|positions|] == positions;
  }

  lemma OpenRecordSnoc(records: seq<MonitorRecord>, r: MonitorRecord, ticket: int)
    ensures OpenRecord(records + [r], ticket) ==
            if ticket == r.ticket && !r.closed then Some(r) else OpenRecord(records, ticket)
  {
    assert (records + [r])[..|records|] == records;
  }

  ghost predicate Holds<V>(m: map<int, V>, f: int -> Option<V>) {
    forall t :: (t in m <==> f(t).Some?) && (t in m ==> Some(m[t]) == f(t))
  }

  method IndexPositions(positions: seq<Position>) returns (m: map<int, Position>)
    ensures Holds(m, t => Listed(positions, t))
  {
    m := map[];
    for i := 0 to |positions|
      invariant Holds(m, t => Listed(positions[..i], t))
    {
      assert positions[..i + 1][..i] == positions[..i];
      m := m[positions[i].ticket := positions[i]];
    }
    assert positions[..|positions|] == positions;
  }

  method IndexOpenRecords(records: seq<MonitorRecord>) returns (m: map<int, MonitorRecord>)
    ensures Holds(m, t => OpenRecord(records, t))
  {
    m := map[];
    for i := 0 to |records|
      invariant Holds(m, t => OpenRecord(records[..i], t))
    {
      assert records[..i + 1][..i] == records[..i];
      if !records[i].closed {
        m := m[records[i].ticket := records[i]];
      }
    }
    assert records[..|records|] == records;
  }

  method CompareOne(ticket: int, r: MonitorRecord, broker: Option<Position>, tol: Tolerance)
    returns (found: seq<Discrepancy>)
    ensures forall d :: d in found <==>
              d.ticket == ticket && d.kind != UNTRACKED_LOCALLY && Reported(d.kind, Some(r), broker, tol)
  {
    found := [];
    if r.pending.Some? {
      found := found + [Discrepancy(UNRESOLVED_PENDING, ticket)];
    }
    if broker.None? {
      found := found + [Discrepancy(MISSING_AT_BROKER, ticket)];
      return;
    }
    if StopDrifted(r, broker.value, tol) {
      found := found + [Discrepancy(STOP_LOSS_CHANGED, ticket)];
    }
    if VolumeDrifted(r, broker.value, tol) {
      found := found + [Discrepancy(VOLUME_CHANGED, ticket)];
    }
  }

  /** The report lists exactly the pending, missing, untracked, stop-drifted and volume-drifted
      tickets, and never a changed target. */
  method ReconcilePositions(records: seq<MonitorRecord>, positions: seq<Position>, tol: Tolerance)
    returns (found: seq<Discrepancy>)
    ensures forall d :: d in found <==>
            Reported(d.kind, OpenRecord(records, d.ticket), Listed(positions, d.ticket), tol)
  {
    var byTicket := IndexPositions(positions);
    var tracked := IndexOpenRecords(records);
    found := [];
    var tickets := ListOf(tracked.Keys);
    for i := 0 to |tickets|
      invariant forall d :: d in found <==>
                  d.ticket in tickets[..i] && d.kind != UNTRACKED_LOCALLY
                  && Reported(d.kind, OpenRecord(records, d.ticket), Listed(positions, d.ticket), tol)
    {
      var t := tickets[i];
      var broker := if t in byTicket then Some(byTicket[t]) else None;
      var more := CompareOne(t, tracked[t], broker, tol);
      assert tickets[..i + 1] == tickets[..i] + [t];
      assert OpenRecord(records, t) == Some(tracked[t]) && Listed(positions, t) == broker;
      found := found + more;
    }
    var listed := ListOf(byTicket.Keys);
    ghost var before := found;
    for i := 0 to |listed|
      invariant forall d :: d in found <==>
                  d in before || (d.kind == UNTRACKED_LOCALLY && d.ticket in listed[..i] && d.ticket !in tracked)
    {
      assert listed[..i + 1] == listed[..i] + [listed[i]];
      if listed[i] !in tracked {
        found := found + [Discrepancy(UNTRACKED_LOCALLY, listed[i])];
      }
    }
    assert listed[..|listed|] == listed && tickets[..|tickets|] == tickets;
  }

  datatype StoreRead = NoStore | Unreadable | Read(records: seq<MonitorRecord>)

  /** Recovery at startup fails closed: an unreadable store yields no records and one warning. */
  method RecoverState(store: StoreRead, positions: seq<Position>)
    returns (records: seq<MonitorRecord>, found: seq<Discrepancy>)
    ensures store.NoStore? ==> records == [] && found == []
    ensures store.Unreadable? ==> records == [] && found == [Discrepancy(UNRESOLVED_PENDING, -1)]
    ensures store.Read? ==>
              records == store.records
              && forall d :: d in found <==>
                   Reported(d.kind, OpenRecord(records, d.ticket), Listed(positions, d.ticket), DEFAULT_TOLERANCE)
  {
    match store
    case NoStore => return [], [];
    case Unreadable => return [], [Discrepancy(UNRESOLVED_PENDING, -1)];
    case Read(rs) =>
      records := rs;
      found := ReconcilePositions(rs, positions, DEFAULT_TOLERANCE);
  }

  // ----- after a pass with definite replies there is nothing to report ----------------------

  function LiveRecord(s: Slot): Option<MonitorRecord> {
    if s.Closed() then None else s.record
  }

  predicate NothingToReport(s: Slot, tol: Tolerance) {
    forall kind :: !Reported(kind, LiveRecord(s), s.broker, tol)
  }

  function ClosedSoFar(r: MonitorRecord): real {
    if r.partialExitVolume.Some? then r.partialExitVolume.value else 0.0
  }

  /** The record agrees with the broker's position: the volumes confirmed so far account for the
      present volume and the confirmed stop is the present stop. */
  predicate Synced(s: Slot) {
    if s.broker.None? then s.record.None? || s.Closed()
    else
      && s.record.Some? && !s.Closed() && !s.HasPending()
      && (s.record.value.lastConfirmedStop.Some? && s.broker.value.stopLoss.Some? ==>
            s.record.value.lastConfirmedStop == s.broker.value.stopLoss)
      && (s.record.value.initialVolume.Some? ==>
          s.record.value.initialVolume.value - ClosedSoFar(s.record.value) == s.broker.value.volume)
  }

  predicate Definite(r: Replies) {
    !r.breakeven.Lost? && !r.partial.Lost? && !r.trail.Lost? && !r.close.Lost?
  }

  lemma SyncedReportsNothing(s: Slot, tol: Tolerance)
    requires Synced(s) && tol.stop >= 0.0 && tol.volume >= 0.0
    ensures NothingToReport(s, tol)
  {
  }

  lemma BreakevenSyncs(cfg: Config, tickSize: real, s: Slot, p: Position, tick: Tick, r: Replies)
    requires tickSize > 0.0 && s.broker.Some? && Synced(s) && Definite(r)
    ensures var s' := AfterBreakeven(cfg, tickSize, s, p, tick, r);
            Synced(s') && s'.broker.Some?
  {
  }

  lemma PartialSyncs(cfg: Config, tickSize: real, s: Slot, t: Slot, p: Position, tick: Tick, r: Replies)
    requires tickSize > 0.0 && s.broker.Some? && Synced(s) && Definite(r) && t.record.Some?
    ensures var s' := AfterPartial(cfg, tickSize, s, t, p, tick, r);
            Synced(s') && s'.broker.Some?
  {
  }

  /** MAIN RESULT. A management pass in which every reply was definite leaves a ticket about which
      reconciliation reports nothing, if that was so before or the monitor had not seen it. */
  lemma ManagedReportsNothing(
      cfg: Config, tickSize: real, s: Slot, p: Position, tick: Tick, kill: bool, r: Replies, tol: Tolerance)
    requires tickSize > 0.0 && s.broker == Some(p) && (s.record.None? || Synced(s)) && Definite(r)
    requires tol.stop >= 0.0 && tol.volume >= 0.0
    ensures var s' := Manage(cfg, tickSize, s, p, tick, kill, r);
            Synced(s') && NothingToReport(s', tol)
  {
    ManageByCases(cfg, tickSize, s, p, tick, kill, r);
    var t := Tracked(s, p);
    BreakevenSyncs(cfg, tickSize, t, p, tick, r);
    var s1 := AfterBreakeven(cfg, tickSize, t, p, tick, r);
    PartialSyncs(cfg, tickSize, s1, t, p, tick, r);
    SyncedReportsNothing(Manage(cfg, tickSize, s, p, tick, kill, r), tol);
  }

  /** RESULT. A change by hand of a ticket in agreement is reported, exactly when it goes beyond the
      tolerance: a stop moved by more, or a volume changed by more once a partial exit is on record.
      A moved target never is. */
  lemma HandChangeReported(s: Slot, volume: real, stop: Option<real>, target: Option<real>, tol: Tolerance)
    requires s.broker.Some? && Synced(s) && tol.stop >= 0.0 && tol.volume >= 0.0
    ensures var p := s.broker.value;
            var changed := s.(broker := Some(p.(volume := volume, stopLoss := stop, takeProfit := target)));
            && (Reported(STOP_LOSS_CHANGED, LiveRecord(changed), changed.broker, tol) <==>
                && s.record.value.lastConfirmedStop.Some? && stop.Some?
                && (stop.value > s.record.value.lastConfirmedStop.value + tol.stop
                    || stop.value < s.record.value.lastConfirmedStop.value - tol.stop))
            && (p.stopLoss.Some? && s.record.value.lastConfirmedStop.Some? && stop.Some? ==>
                  (Reported(STOP_LOSS_CHANGED, LiveRecord(changed), changed.broker, tol) <==>
                   stop.value > p.stopLoss.value + tol.stop || stop.value < p.stopLoss.value - tol.stop))
            && (Reported(VOLUME_CHANGED, LiveRecord(changed), changed.broker, tol) <==>
                && s.record.value.initialVolume.Some? && s.record.value.partialExitVolume.Some?
                && (volume > p.volume + tol.volume || volume < p.volume - tol.volume))
            && !Reported(TAKE_PROFIT_CHANGED, LiveRecord(changed), changed.broker, tol)
            && !Reported(MISSING_AT_BROKER, LiveRecord(changed), changed.broker, tol)
            && !Reported(UNTRACKED_LOCALLY, LiveRecord(changed), changed.broker, tol)
            && !Reported(UNRESOLVED_PENDING, LiveRecord(changed), changed.broker, tol)
  {
  }

  /** A ticket that left the broker without the program is reported missing, one that the program
      does not know untracked, and one that waits for a reply unresolved. */
  lemma GapsReported(s: Slot, tol: Tolerance)
    ensures s.broker.None? ==>
              (Reported(MISSING_AT_BROKER, LiveRecord(s), s.broker, tol) <==> s.record.Some? && !s.record.value.closed)
    ensures s.broker.Some? ==>
              (Reported(UNTRACKED_LOCALLY, LiveRecord(s), s.broker, tol) <==> s.record.None? || s.record.value.closed)
    ensures Reported(UNRESOLVED_PENDING, LiveRecord(s), s.broker, tol) <==>
              s.record.Some? && !s.record.value.closed && s.record.value.pending.Some?
  {
  }

  /** A definite force-close keeps this too, except that a refused one leaves a ticket the monitor
      had not seen open and untracked. */
  lemma ForceClosedReport(s: Slot, p: Position, reply: Reply, tol: Tolerance)
    requires s.broker == Some(p) && (s.record.None? || Synced(s)) && !reply.Lost?
    requires tol.stop >= 0.0 && tol.volume >= 0.0
    ensures var s' := CloseAndJournal(s, p, reply);
            NothingToReport(s', tol) <==> s.record.Some? || reply.Done?
  {
    var s' := CloseAndJournal(s, p, reply);
    if s.record.None? && reply.Refused? {
      assert Reported(UNTRACKED_LOCALLY, LiveRecord(s'), s'.broker, tol);
    } else {
      SyncedReportsNothing(s', tol);
    }
  }
}
