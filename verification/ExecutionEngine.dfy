/** The execution engine in LIVE mode (app/execution/engine.py): methods over the persisted store,
    proved against the protocol functions. Every broker reply and every failure of an audit
    write is an argument chosen by the caller. */
module ExecutionEngine {
  import opened Common
  import opened ExecutionStore
  import opened BrokerTags
  import opened ExecutionProtocol
  import opened ExecutionSafety
  import Gates
  import Sizing

  datatype Comment =
    | DUPLICATE_ORDER_REJECTED | DUPLICATE_OF_UNKNOWN | NO_ACCOUNT_INFO | GATE_REJECTED
    | UNKNOWN_EXECUTION_RESULT | BROKER_REPLY

  datatype OrderResult = OrderResult(success: bool, orderId: Option<int>, taggedUnknown: bool, comment: Comment)

  datatype ManagedPosition = ManagedPosition(
    ticket: int, direction: string, volume: real, stopLoss: Option<real>, takeProfit: Option<real>)

  /** A call returns, or a critical audit write raises out of it. */
  datatype SubmitOutcome = Returned(result: OrderResult, position: Option<ManagedPosition>) | AuditRaised

  datatype ReconciliationResult = ResolvedFilled(id: string, ticket: int) | StillUnknown(id: string) | ListingFailed

  datatype ResolveOutcome = Resolved | ValueError | ResolveAuditRaised

  datatype ReconcileNote = Unresolved(count: nat) | NoLongerOpen(ticket: int) | NotTracked(ticket: int)

  /** The dictionary holds, for every comment, the position a search would find. */
  ghost predicate Indexes(byTag: map<string, BrokerPosition>, positions: seq<BrokerPosition>) {
    forall t ::
      (t in byTag <==> ByTag(positions, t).Some?) && (t in byTag ==> Some(byTag[t]) == ByTag(positions, t))
  }

  /** The broker's side of submission: what it filled is known to the reader only. */
  class Broker {
    ghost var fills: seq<Fill>

    constructor ()
      ensures fills == []
    {
      fills := [];
    }

    method SubmitOrder(ghost id: string, comment: string, ghost truth: Option<int>, reply: Reply) returns (r: Reply)
      modifies this
      ensures r == reply
      ensures fills == old(fills) + if truth.Some? then [Fill(id, truth.value, comment)] else []
    {
      if truth.Some? {
        fills := fills + [Fill(id, truth.value, comment)];
      }
      r := reply;
    }
  }

  class Engine {
    const store: ExecutionStateStore
    const broker: Broker
    const spec: Sizing.SymbolSpec
    const symbolTradeAllowed: bool
    const crc: Checksum

    ghost predicate Valid()
      reads store
    {
      WellKeyed(store.records)
    }

    ghost function View(): State
      reads store, broker
    {
      State(store.records, broker.fills)
    }

    /** A restart: a new engine over the same store and broker. */
    constructor (
        store: ExecutionStateStore, broker: Broker, spec: Sizing.SymbolSpec, symbolTradeAllowed: bool, crc: Checksum)
      ensures this.store == store && this.broker == broker && this.spec == spec
      ensures this.symbolTradeAllowed == symbolTradeAllowed && this.crc == crc
    {
      this.store, this.broker, this.spec := store, broker, spec;
      this.symbolTradeAllowed, this.crc := symbolTradeAllowed, crc;
    }

    /** The account could be read and the gate inside submission approves. */
    predicate Admitted(order: Order, killSwitch: bool, account: Option<bool>)
    {
      account.Some? && Gates.Submittable(GateInput(order, killSwitch, account.value))
    }

    function GateInput(order: Order, killSwitch: bool, accountTradeAllowed: bool): Gates.ExecutionGateInput {
      Gates.ExecutionGateInput(
        false, killSwitch, accountTradeAllowed, symbolTradeAllowed, order.direction, order.volume,
        spec.volumeMin, spec.volumeMax, spec.volumeStep, order.stopLoss, true)
    }

    /** The gate inside submission asks for both permissions, a kill switch that is off, a side, a stop
        and a volume on the symbol's grid; nothing else of the order matters to it. */
    lemma AdmittedExactly(order: Order, killSwitch: bool, account: Option<bool>)
      ensures Admitted(order, killSwitch, account) <==>
              && account == Some(true) && symbolTradeAllowed && !killSwitch
              && (order.direction == "BUY" || order.direction == "SELL") && order.stopLoss.Some?
              && spec.volumeMin <= order.volume <= spec.volumeMax && order.volume > 0.0
              && Gates.MatchesStep(order.volume, spec.volumeStep)
    {
      hide Gates.MatchesStep;
    }

    /** A position is returned exactly when this call stored FILLED and its last audit write did
        not raise; it carries the stored ticket. A call that raises has still stored its record. */
    method SubmitMarketOrder(
        order: Order, id: string, killSwitch: bool, account: Option<bool>,
        ghost truth: Option<int>, reply: Reply, auditOk: bool, now: int)
      returns (out: SubmitOutcome)
      requires Valid()
      modifies store, broker
      ensures Valid()
      ensures View() == Submit(old(View()), id, order, Admitted(order, killSwitch, account), truth, reply, now, crc)
      ensures var reached := !Blocked(old(store.records), id) && Admitted(order, killSwitch, account);
              && (out.AuditRaised? <==> reached && !auditOk)
              && (out.Returned? && out.position.Some? <==> reached && Classify(reply).Confirmed? && auditOk)
              && (out.Returned? && out.position.Some? ==>
                    && out.result.success && store.records[id].status == FILLED
                    && store.records[id].ticket == Some(out.position.value.ticket)
                    && out.position.value.direction == order.direction
                    && out.position.value.stopLoss == order.stopLoss
                    && out.position.value.takeProfit == order.takeProfit
                    && out.position.value.volume == store.records[id].volume
                    && store.records[id].volume ==
                       match reply.volume
                       case None => order.volume
                       case Some(v) => if v == 0.0 then order.volume else v)
              && (out.Returned? && out.result.success && out.position.None? ==>
                    reached && reply.Replied? && !reply.taggedUnknown && reply.success && reply.orderId.None?)
    {
      hide Gates.Submittable, Gates.Justified, Gates.ExecutionChecks;
      var existing := store.Get(id);
      if existing.Some? && Blocking(existing.value.status) {
        var comment := if existing.value.status == UNKNOWN then DUPLICATE_OF_UNKNOWN else DUPLICATE_ORDER_REJECTED;
        return Returned(OrderResult(false, existing.value.ticket, false, comment), None);
      }
      if account.None? {
        return Returned(OrderResult(false, None, false, NO_ACCOUNT_INFO), None);
      }
      var gate := Gates.EvaluateExecutionGate(GateInput(order, killSwitch, account.value));
      if !gate.approved {
        return Returned(OrderResult(false, None, false, GATE_REJECTED), None);
      }

      var result := broker.SubmitOrder(id, Tag(id, crc), truth, reply);
      if result.Raised? || result.taggedUnknown {
        PutsAgree(store.records, NewRecord(id, order, UNKNOWN, None, order.volume), now);
        store.Put(NewRecord(id, order, UNKNOWN, None, order.volume), now);
        if !auditOk {
          return AuditRaised;
        }
        var orderId := if result.Replied? then result.orderId else None;
        return Returned(OrderResult(false, orderId, true, UNKNOWN_EXECUTION_RESULT), None);
      }
      if !result.success || result.orderId.None? {
        if !auditOk {
          return AuditRaised;
        }
        return Returned(OrderResult(result.success, result.orderId, false, BROKER_REPLY), None);
      }
      var ticket, volume := result.orderId.value, FilledVolume(order, result);
      PutsAgree(store.records, NewRecord(id, order, FILLED, Some(ticket), volume), now);
      store.Put(NewRecord(id, order, FILLED, Some(ticket), volume), now);
      if !auditOk {
        return AuditRaised;
      }
      out := Returned(
        OrderResult(true, Some(ticket), false, BROKER_REPLY),
        Some(ManagedPosition(ticket, order.direction, volume, order.stopLoss, order.takeProfit)));
    }

    method IndexByTag(positions: seq<BrokerPosition>) returns (byTag: map<string, BrokerPosition>)
      ensures Indexes(byTag, positions)
    {
      byTag := map[];
      for i := 0 to |positions|
        invariant Indexes(byTag, positions[..i])
      {
        assert positions[..i + 1][..i] == positions[..i];
        byTag := byTag[positions[i].comment := positions[i]];
      }
      assert positions[..|positions|] == positions;
    }

    /** The pass covers every stored id once. If no audit write raises, exactly the UNKNOWN orders
        whose tag some listed position carries end RESOLVED_FILLED and are reported with the stored
        ticket, exactly the other UNKNOWN orders are reported as still unknown, and nothing else is
        reported. */
    method ReconcileUnknown(listing: Option<seq<BrokerPosition>>, audits: nat, now: int)
      returns (results: seq<ReconciliationResult>, raised: bool, ghost ids: seq<string>)
      requires Valid()
      modifies store
      ensures Valid()
      ensures listing.None? ==> store.records == old(store.records) && results == [ListingFailed]
      ensures listing.Some? ==> View() == Apply(old(View()), DoReconcile(ids, listing.value, audits, now), crc)
      ensures listing.Some? && !raised ==>
                forall id :: id in old(store.records) && old(store.records)[id].status == UNKNOWN ==>
                  id in store.records && (store.records[id].status == RESOLVED_FILLED <==> Shown(id, listing.value))
      ensures listing.Some? && !raised ==>
                && ListingFailed !in results
                && (forall id :: StillUnknown(id) in results <==>
                      id in old(store.records) && old(store.records)[id].status == UNKNOWN && !Shown(id, listing.value))
                && (forall id, t :: ResolvedFilled(id, t) in results <==>
                      && id in old(store.records) && old(store.records)[id].status == UNKNOWN
                      && Shown(id, listing.value)
                      && id in store.records && store.records[id].ticket == Some(t))
    {
      results, raised, ids := [], false, [];
      if listing.None? {
        return [ListingFailed], false, [];
      }
      var positions := listing.value;
      var byTag := IndexByTag(positions);
      var order := store.All();
      ids := order;
      ghost var was := store.records;
      results, raised := SweepRecords(order, byTag, positions, audits, now);
      if !raised {
        SweepComplete(was, order, positions, audits, now, crc);
        forall id | id in was && was[id].status == UNKNOWN
          ensures Tag(id, crc) in byTag <==> Shown(id, positions)
          ensures Shown(id, positions) ==> store.records[id].ticket == Some(byTag[Tag(id, crc)].ticket)
        {
          ByTagFinds(positions, Tag(id, crc));
        }
      }
    }

    /** Some listed position carries the tag of the id. */
    ghost predicate Shown(id: string, positions: seq<BrokerPosition>) {
      exists p :: p in positions && p.comment == Tag(id, crc)
    }

    method SweepRecords(
        order: seq<string>, byTag: map<string, BrokerPosition>, ghost positions: seq<BrokerPosition>, audits: nat,
        now: int)
      returns (results: seq<ReconciliationResult>, raised: bool)
      requires Valid()
      requires forall i :: 0 <= i < |order| ==> order[i] in store.records
      requires forall i, j :: 0 <= i < j < |order| ==> order[i] != order[j]
      requires Indexes(byTag, positions)
      modifies store
      ensures Valid()
      ensures Pass(store.records, raised) == Sweep(old(store.records), order, positions, audits, now, crc)
      ensures !raised ==> forall id :: StillUnknown(id) in results <==>
                id in order && old(store.records)[id].status == UNKNOWN && Tag(id, crc) !in byTag
      ensures !raised ==> ListingFailed !in results && forall id, t :: ResolvedFilled(id, t) in results <==>
                && id in order && old(store.records)[id].status == UNKNOWN
                && Tag(id, crc) in byTag && byTag[Tag(id, crc)].ticket == t
    {
      hide Tag, Sweep, WellKeyed, Adopt, Indexes, Match;
      results, raised := [], false;
      var left := audits;
      ghost var was := store.records;
      assert order[0..] == order;
      for i := 0 to |order|
        invariant Valid() && !raised && left >= 0
        invariant forall k :: i <= k < |order| ==> order[k] in store.records && store.records[order[k]] == was[order[k]]
        invariant Sweep(was, order, positions, audits, now, crc) ==
                  Sweep(store.records, order[i..], positions, left, now, crc)
        invariant forall id :: StillUnknown(id) in results <==>
                    id in order[..i] && was[id].status == UNKNOWN && Tag(id, crc) !in byTag
        invariant ListingFailed !in results && forall id, t :: ResolvedFilled(id, t) in results <==>
                    && id in order[..i] && was[id].status == UNKNOWN
                    && Tag(id, crc) in byTag && byTag[Tag(id, crc)].ticket == t
        modifies store
      {
        SweepStep(store.records, order, i, positions, left, now, crc);
        assert order[..i + 1] == order[..i] + [order[i]];
        var found := SweepOne(order[i], byTag, positions, now);
        if found.Some? && found.value.ResolvedFilled? {
          if left == 0 {
            raised := true;
            return;
          }
          left := left - 1;
        }
        if found.Some? {
          results := results + [found.value];
        }
      }
      assert order[|order|..] == [] && order[..|order|] == order;
      SweepNothing(store.records, positions, left, now, crc);
    }

    /** Looks at one record: a matching position resolves it. */
    method SweepOne(id: string, byTag: map<string, BrokerPosition>, ghost positions: seq<BrokerPosition>, now: int)
      returns (found: Option<ReconciliationResult>)
      requires Valid() && id in store.records
      requires Indexes(byTag, positions)
      modifies store
      ensures Valid()
      ensures var m := Match(old(store.records), id, positions, crc);
              && (m.None? ==> store.records == old(store.records))
              && (m.Some? ==> store.records == Adopt(old(store.records), id, m.value.ticket, now))
              && (m.Some? <==> found.Some? && found.value.ResolvedFilled?)
              && (found == Some(StillUnknown(id)) <==> old(store.records)[id].status == UNKNOWN && m.None?)
              && (found.Some? && !found.value.ResolvedFilled? ==> found == Some(StillUnknown(id)))
              && (m.Some? ==> Tag(id, crc) in byTag && found == Some(ResolvedFilled(id, byTag[Tag(id, crc)].ticket)))
              && (m.Some? <==> old(store.records)[id].status == UNKNOWN && Tag(id, crc) in byTag)
      ensures forall k :: k in old(store.records) && k != id ==>
              k in store.records && store.records[k] == old(store.records)[k]
    {
      var record := store.records[id];
      if record.status != UNKNOWN {
        return None;
      }
      var tag := Tag(id, crc);
      if tag !in byTag {
        return Some(StillUnknown(id));
      }
      var ticket := byTag[tag].ticket;
      var resolved := Record(id, RESOLVED_FILLED, Some(ticket), record.direction, record.volume, record.createdAt,
                             AUTO_NOTE);
      PutsAgree(store.records, resolved, now);
      store.Put(resolved, now);
      found := Some(ResolvedFilled(id, ticket));
    }

    /** Only an UNKNOWN record can be resolved; anything else is an error that changes nothing. */
    method ResolveUnknownExecution(id: string, e: Evidence, auditOk: bool, now: int) returns (out: ResolveOutcome)
      requires Valid()
      modifies store
      ensures Valid()
      ensures View() == Apply(old(View()), DoResolve(id, e, now), crc)
      ensures out.ValueError? <==>
                id !in old(store.records) || old(store.records)[id].status != UNKNOWN || e.status.Unrecognised?
      ensures out.ValueError? ==> store.records == old(store.records)
      ensures !out.ValueError? ==>
                && id in store.records
                && store.records[id].status ==
                   (if ClaimsFilled(e) then RESOLVED_FILLED
                    else if ClaimsNotFound(e) then RESOLVED_NOT_FOUND
                    else UNKNOWN)
                && store.records[id].ticket ==
                   (if ClaimsFilled(e) || ClaimsNotFound(e) then e.ticket else old(store.records)[id].ticket)
      ensures out.ResolveAuditRaised? <==> !out.ValueError? && !auditOk && (ClaimsFilled(e) || ClaimsNotFound(e))
    {
      var existing := store.Get(id);
      if existing.None? || existing.value.status != UNKNOWN {
        return ValueError;
      }
      var r := existing.value;
      var decision := Decide(e);
      if decision == DecideError {
        return ValueError;
      }
      var updated := match decision
        case DecideFilled => Record(id, RESOLVED_FILLED, e.ticket, r.direction, r.volume, r.createdAt, e.note)
        case DecideNotFound => Record(id, RESOLVED_NOT_FOUND, e.ticket, r.direction, r.volume, r.createdAt, e.note)
        case _ =>
          Record(id, UNKNOWN, r.ticket, r.direction, r.volume, r.createdAt, if e.note != "" then e.note else r.note);
      PutsAgree(store.records, updated, now);
      store.Put(updated, now);
      if decision != DecideUnknown && !auditOk {
        return ResolveAuditRaised;
      }
      out := Resolved;
    }

    /** The ids whose outcome is unknown. */
    function UnknownIds(): set<string>
      reads store
    {
      set id | id in store.records && store.records[id].status == UNKNOWN
    }

    /** Compares the tickets the engine knows with the tickets open at the broker, and counts the
        outcomes still unknown. */
    method Reconcile(open: set<int>) returns (notes: seq<ReconcileNote>)
      ensures forall t :: NoLongerOpen(t) in notes <==>
                t !in open && exists id :: id in store.records && store.records[id].ticket == Some(t)
      ensures forall t :: NotTracked(t) in notes <==>
                t in open && forall id :: id in store.records ==> store.records[id].ticket != Some(t)
      ensures forall n :: Unresolved(n) in notes <==>
                n > 0 && n == |set id | id in store.records && store.records[id].status == UNKNOWN|
    {
      notes := [];
      var unresolved := UnknownIds();
      var known := set id | id in store.records && store.records[id].ticket.Some? :: store.records[id].ticket.value;
      if |unresolved| > 0 {
        notes := [Unresolved(|unresolved|)];
      }
      var gone := ListOf(known - open);
      var extra := ListOf(open - known);
      for i := 0 to |gone|
        invariant forall t :: NoLongerOpen(t) in notes <==> t in gone[..i]
        invariant forall t :: NotTracked(t) !in notes
        invariant forall n :: Unresolved(n) in notes <==> n > 0 && n == |unresolved|
      {
        notes := notes + [NoLongerOpen(gone[i])];
      }
      for i := 0 to |extra|
        invariant forall t :: NoLongerOpen(t) in notes <==> t in gone
        invariant forall t :: NotTracked(t) in notes <==> t in extra[..i]
        invariant forall n :: Unresolved(n) in notes <==> n > 0 && n == |unresolved|
      {
        notes := notes + [NotTracked(extra[i])];
      }
      assert extra[..|extra|] == extra && gone[..|gone|] == gone;
    }
  }
}
