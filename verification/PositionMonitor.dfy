/** The position monitor and its store as objects (app/positions/monitor.py,
    app/positions/state_store.py). The store is the source of truth; the two sets are a mirror
    that a new monitor rebuilds from it. */
module PositionMonitor {
  import opened Common
  import opened PositionModel

  class MonitorStore {
    var records: map<int, MonitorRecord>

    constructor ()
      ensures records == map[]
    {
      records := map[];
    }

    function Get(ticket: int): Option<MonitorRecord>
      reads this
    {
      if ticket in records then Some(records[ticket]) else None
    }

    /** put() inserts or replaces the record of its ticket. */
    method Put(ticket: int, r: MonitorRecord)
      modifies this
      ensures records == old(records)[ticket := r]
    {
      records := records[ticket := r];
    }
  }

  class Monitor {
    const config: Config
    const store: MonitorStore
    var breakevenMoved: set<int>
    var partialTaken: set<int>

    /** One ticket as the monitor sees it, completed by what the broker holds. */
    ghost function SlotOf(ticket: int, broker: Option<Position>, truth: Truth): Slot
      reads this, store
    {
      Slot(broker, store.Get(ticket), ticket in breakevenMoved, ticket in partialTaken, truth)
    }

    /** Startup: the sets are rebuilt from the records that are not closed. */
    constructor (config: Config, store: MonitorStore)
      ensures this.config == config && this.store == store
      ensures forall t, b, truth ::
                SlotOf(t, b, truth) == Restart(Slot(b, store.Get(t), false, false, truth))
    {
      this.config, this.store := config, store;
      breakevenMoved, partialTaken := {}, {};
      new;
      var tickets := ListOf(store.records.Keys);
      for i := 0 to |tickets|
        invariant store.records == old(store.records)
        invariant forall t :: t in breakevenMoved <==>
                    t in tickets[..i] && !store.records[t].closed && store.records[t].breakevenApplied
        invariant forall t :: t in partialTaken <==>
                    t in tickets[..i] && !store.records[t].closed && store.records[t].partialExitTaken
      {
        var t := tickets[i];
        assert tickets[..i + 1] == tickets[..i] + [t];
        var r := store.records[t];
        if r.closed {
          continue;
        }
        if r.breakevenApplied {
          breakevenMoved := breakevenMoved + {t};
        }
        if r.partialExitTaken {
          partialTaken := partialTaken + {t};
        }
      }
      assert tickets[..|tickets|] == tickets;
    }

    method GetOrCreateRecord(p: Position) returns (r: MonitorRecord)
      modifies store
      ensures store.records == if p.ticket in old(store.records) then old(store.records)
              else old(store.records)[p.ticket := FirstRecord(p)]
      ensures p.ticket in store.records && r == store.records[p.ticket]
    {
      if p.ticket !in store.records {
        store.Put(p.ticket, FirstRecord(p));
      }
      r := store.records[p.ticket];
    }

    /** Proposes actions; the only effect is that a ticket seen for the first time gets a record. */
    method EvaluatePosition(p: Position, tick: Tick, tickSize: real, atr: Option<real>) returns (actions: seq<Action>)
      requires tickSize > 0.0
      modifies store
      ensures store.records == if p.ticket in old(store.records) then old(store.records)
              else old(store.records)[p.ticket := FirstRecord(p)]
      ensures p.ticket in store.records
      ensures actions ==
              Evaluate(config, p, tick, tickSize, atr, store.records[p.ticket], p.ticket in breakevenMoved,
                       p.ticket in partialTaken)
    {
      hide RMultiple, BreakevenStop, PartialVolume, TrailingStop, Improves;
      actions := [];
      var record := GetOrCreateRecord(p);
      if record.pending.Some? {
        return;
      }
      var r := RMultiple(p, tick, tickSize);
      if r.None? {
        return;
      }
      if p.ticket !in breakevenMoved && r.value >= config.breakevenTriggerR {
        var stop := BreakevenStop(config, p, tickSize);
        if Improves(p.direction, p.stopLoss, stop) {
          actions := actions + [Action(MOVE_TO_BREAKEVEN, Some(stop), None)];
        }
      }
      if config.enablePartialExit && p.ticket !in partialTaken && r.value >= config.partialExitTriggerR {
        var volume := PartialVolume(config, p, record);
        if 0.0 < volume < p.volume {
          actions := actions + [Action(PARTIAL_EXIT, None, Some(volume))];
        }
      }
      if config.enableTrailing && atr.Some? && atr.value > 0.0 && r.value >= config.trailingTriggerR {
        var stop := TrailingStop(config, p, tick, atr.value);
        var settled := record.lastTrailingStop.Some? && Abs(stop - record.lastTrailingStop.value) < tickSize / 2.0;
        if Improves(p.direction, p.stopLoss, stop) && !settled {
          actions := actions + [Action(TRAIL_STOP, Some(stop), None)];
        }
      }
    }

    /** The update touches one ticket only. */
    twostate predicate OthersKept(ticket: int)
      reads this, store
    {
      forall t, b, truth :: t != ticket ==> SlotOf(t, b, truth) == old(SlotOf(t, b, truth))
    }

    method MarkBreakevenApplied(ticket: int, stop: Option<real>)
      modifies this, store
      ensures forall b, truth :: SlotOf(ticket, b, truth) == MarkBreakeven(old(SlotOf(ticket, b, truth)), ticket, stop)
      ensures OthersKept(ticket)
    {
      breakevenMoved := breakevenMoved + {ticket};
      var r := if ticket in store.records then store.records[ticket] else BlankRecord(ticket);
      r := r.(breakevenApplied := true);
      if stop.Some? {
        r := r.(lastConfirmedStop := stop);
      }
      r := r.(pending := None);
      store.Put(ticket, r);
    }

    method MarkTrailingApplied(ticket: int, stop: real)
      modifies this, store
      ensures forall b, truth :: SlotOf(ticket, b, truth) == MarkTrailing(old(SlotOf(ticket, b, truth)), ticket, stop)
      ensures OthersKept(ticket)
    {
      var r := if ticket in store.records then store.records[ticket] else BlankRecord(ticket);
      store.Put(ticket, r.(lastTrailingStop := Some(stop), lastConfirmedStop := Some(stop), pending := None));
    }

    method MarkPartialTaken(ticket: int, volume: Option<real>)
      modifies this, store
      ensures forall b, truth :: SlotOf(ticket, b, truth) == MarkPartial(old(SlotOf(ticket, b, truth)), ticket, volume)
      ensures OthersKept(ticket)
    {
      partialTaken := partialTaken + {ticket};
      var r := if ticket in store.records then store.records[ticket] else BlankRecord(ticket);
      r := r.(partialExitTaken := true);
      if volume.Some? {
        var before := if r.partialExitVolume.Some? then r.partialExitVolume.value else 0.0;
        r := r.(partialExitVolume := Some(before + volume.value));
      }
      store.Put(ticket, r.(pending := None));
    }

    method RecordPendingAction(ticket: int, kind: Kind, stop: Option<real>, volume: Option<real>)
      modifies this, store
      ensures forall b, truth: Truth, happened ::
                SlotOf(ticket, b, truth.(pendingHappened := happened))
                == RecordPending(old(SlotOf(ticket, b, truth)), ticket, kind, stop, volume, happened)
      ensures OthersKept(ticket)
    {
      var r := if ticket in store.records then store.records[ticket] else BlankRecord(ticket);
      store.Put(ticket, r.(pending := Some(PendingAction(kind, stop, volume))));
    }

    method HasPending(ticket: int) returns (b: bool)
      ensures b <==> ticket in store.records && store.records[ticket].pending.Some?
    {
      var r := store.Get(ticket);
      b := r.Some? && r.value.pending.Some?;
    }

    method ClearPendingAction(ticket: int)
      modifies this, store
      ensures forall b, truth :: SlotOf(ticket, b, truth) == ClearPending(old(SlotOf(ticket, b, truth)))
      ensures OthersKept(ticket)
    {
      if ticket in store.records && store.records[ticket].pending.Some? {
        store.Put(ticket, store.records[ticket].(pending := None));
      }
    }

    method ForgetTicket(ticket: int)
      modifies this, store
      ensures forall b, truth :: SlotOf(ticket, b, truth) == Forget(old(SlotOf(ticket, b, truth)))
      ensures OthersKept(ticket)
    {
      partialTaken := partialTaken - {ticket};
      breakevenMoved := breakevenMoved - {ticket};
      if ticket in store.records {
        store.Put(ticket, store.records[ticket].(closed := true, pending := None));
      }
    }
  }
}
