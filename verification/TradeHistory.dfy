/** The closed trades that the risk guards look at (app/risk/history.py). */
module TradeHistory {

  datatype TradeRecord = TradeRecord(closedAt: int, pnl: real)

  /** Appending and then sorting by closing time, stably: the new record goes after all records
      that closed no later. */
  function InsertByTime(ts: seq<TradeRecord>, t: TradeRecord): (r: seq<TradeRecord>)
    ensures |r| == |ts| + 1
  {
    if ts == [] || ts[|ts| - 1].closedAt <= t.closedAt then ts + [t]
    else InsertByTime(ts[..|ts| - 1], t) + [ts[|ts| - 1]]
  }

  ghost predicate Ordered(ts: seq<TradeRecord>) {
    forall i, j :: 0 <= i < j < |ts| ==> ts[i].closedAt <= ts[j].closedAt
  }

  lemma {:induction false} InsertKeepsAll(ts: seq<TradeRecord>, t: TradeRecord)
    ensures multiset(InsertByTime(ts, t)) == multiset(ts) + multiset{t}
  {
    if ts != [] && ts[|ts| - 1].closedAt > t.closedAt {
      assert ts == ts[..|ts| - 1] + [ts[|ts| - 1]];
      InsertKeepsAll(ts[..|ts| - 1], t);
    }
  }

  lemma {:induction false} InsertKeepsOrder(ts: seq<TradeRecord>, t: TradeRecord)
    requires Ordered(ts)
    ensures Ordered(InsertByTime(ts, t))
  {
    if ts != [] && ts[|ts| - 1].closedAt > t.closedAt {
      var init, last := ts[..|ts| - 1], ts[|ts| - 1];
      InsertKeepsOrder(init, t);
      InsertKeepsAll(init, t);
      var r := InsertByTime(init, t);
      forall i | 0 <= i < |r|
        ensures r[i].closedAt <= last.closedAt
      {
        assert r[i] in multiset(r);
      }
    }
  }

  /** The place where a record goes. */
  lemma {:induction false} InsertAt(ts: seq<TradeRecord>, t: TradeRecord, i: nat)
    requires i <= |ts| && (i > 0 ==> ts[i - 1].closedAt <= t.closedAt)
    requires forall k :: i <= k < |ts| ==> ts[k].closedAt > t.closedAt
    ensures InsertByTime(ts, t) == ts[..i] + [t] + ts[i..]
  {
    if i < |ts| {
      var init, last := ts[..|ts| - 1], ts[|ts| - 1];
      InsertAt(init, t, i);
      assert ts[i..] == init[i..] + [last] && init[..i] == ts[..i];
      assert InsertByTime(ts, t) == InsertByTime(init, t) + [last];
    } else {
      assert ts[..i] == ts && ts[i..] == [];
    }
  }

  /** The records that closed at `since` or later. */
  function TradesSince(ts: seq<TradeRecord>, since: int): seq<TradeRecord> {
    if ts == [] then []
    else TradesSince(ts[..|ts| - 1], since) + if ts[|ts| - 1].closedAt >= since then [ts[|ts| - 1]] else []
  }

  /** The last `limit` records, oldest first. */
  function RecentTrades(ts: seq<TradeRecord>, limit: nat): seq<TradeRecord> {
    if |ts| <= limit then ts else ts[|ts| - limit..]
  }

  class InMemoryTradeHistory {
    var trades: seq<TradeRecord>

    constructor ()
      ensures trades == []
    {
      trades := [];
    }

    /** The list stays ordered by closing time. */
    method Record(t: TradeRecord)
      requires Ordered(trades)
      modifies this
      ensures trades == InsertByTime(old(trades), t) && Ordered(trades)
    {
      InsertKeepsOrder(trades, t);
      var i := |trades|;
      while i > 0 && trades[i - 1].closedAt > t.closedAt
        invariant 0 <= i <= |trades|
        invariant forall k :: i <= k < |trades| ==> trades[k].closedAt > t.closedAt
      {
        i := i - 1;
      }
      InsertAt(trades, t, i);
      trades := trades[..i] + [t] + trades[i..];
    }
  }
}
