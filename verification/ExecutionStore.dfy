/** What the execution engine remembers about every client order id
    (app/execution/state_store.py). */
module ExecutionStore {
  import opened Common

  datatype Status = FILLED | UNKNOWN | RESOLVED_FILLED | RESOLVED_NOT_FOUND

  /** Statuses under which a second submission of the same id is refused. */
  predicate Blocking(s: Status) {
    s in {FILLED, UNKNOWN, RESOLVED_FILLED}
  }

  datatype Record = Record(
    clientOrderId: string,
    status: Status,
    ticket: Option<int>,
    direction: string,
    volume: real,
    createdAt: Option<int>,
    note: string)

  type Records = map<string, Record>

  /** The dictionary store: a missing creation time comes from the old record, else from the clock. */
  function InMemoryPut(m: Records, r: Record, now: int): Records {
    var created :=
      if r.createdAt.Some? then r.createdAt
      else if r.clientOrderId in m then m[r.clientOrderId].createdAt
      else Some(now);
    m[r.clientOrderId := r.(createdAt := created)]
  }

  /** The table store: the creation time of an existing row always wins. */
  function SqlitePut(m: Records, r: Record, now: int): Records {
    var created :=
      if r.clientOrderId in m then m[r.clientOrderId].createdAt
      else if r.createdAt.Some? then r.createdAt
      else Some(now);
    m[r.clientOrderId := r.(createdAt := created)]
  }

  /** Every record sits under its own id and carries a creation time. */
  ghost predicate WellKeyed(m: Records) {
    forall id :: id in m ==> m[id].clientOrderId == id && m[id].createdAt.Some?
  }

  class ExecutionStateStore {
    var records: Records
    const sqlite: bool

    constructor (sqlite: bool)
      ensures records == map[] && this.sqlite == sqlite
    {
      records := map[];
      this.sqlite := sqlite;
    }

    function Get(id: string): (r: Option<Record>)
      reads this
      ensures r.Some? <==> id in records
      ensures r.Some? ==> r.value == records[id]
    {
      if id in records then Some(records[id]) else None
    }

    method Put(r: Record, now: int)
      modifies this
      ensures records == if sqlite then SqlitePut(old(records), r, now) else InMemoryPut(old(records), r, now)
    {
      var created := r.createdAt;
      if sqlite {
        if r.clientOrderId in records {
          created := records[r.clientOrderId].createdAt;
        } else if created.None? {
          created := Some(now);
        }
      } else if created.None? {
        if r.clientOrderId in records {
          created := records[r.clientOrderId].createdAt;
        } else {
          created := Some(now);
        }
      }
      records := records[r.clientOrderId := r.(createdAt := created)];
    }

    /** The ids of all records, in some order, each exactly once. */
    method All() returns (ids: seq<string>)
      ensures forall id :: id in ids <==> id in records
      ensures forall i, j :: 0 <= i < j < |ids| ==> ids[i] != ids[j]
    {
      ids := ListOf(records.Keys);
    }
  }
}
