/**
 * The three tables the sync routes share, as the datastore holds them: the
 * lock row of `sync_locks`, the `application_records` row of `sync_state`
 * (a `last_synced_at` stamp and the resume cursor) and the
 * `application_records` table keyed by id. Each write the routes make is one
 * method; a write that can fail takes the datastore's answer as a parameter.
 */
module SyncStore {
  import opened Js
  import opened Records

  /** The resume point `{ last_timestamp, last_id }`: the last record committed, in (update_time, id) order. */
  datatype Cursor = Cursor(last_timestamp: Option<int>, last_id: int)

  /** The cursor a run starts from when the state row holds none. */
  const DEFAULT_CURSOR: Cursor := Cursor(None, 0)

  /** The `sync_state` row with id `application_records`. */
  datatype SyncState = SyncState(last_synced_at: Option<int>, sync_cursor: Option<Cursor>)

  /** One row of an `upsert(rows, { onConflict: "id" })`: the supplied columns replace the stored ones, `branch_uuid` stays. */
  function UpsertRow(table: map<int, TableRow>, row: RecordColumns): map<int, TableRow>
  {
    var keep := if row.id in table then table[row.id].branch_uuid else Null;
    table[row.id := TableRow(row, keep)]
  }

  /** The ids a batch supplies. */
  function Ids(rows: seq<RecordColumns>): set<int>
  {
    if rows == [] then {} else Ids(rows[..|rows| - 1]) + {rows[|rows| - 1].id}
  }

  /** The upsert of a whole batch, row after row. */
  function UpsertRows(table: map<int, TableRow>, rows: seq<RecordColumns>): map<int, TableRow>
    decreases |rows|
  {
    if rows == [] then table
    else UpsertRow(UpsertRows(table, rows[..|rows| - 1]), rows[|rows| - 1])
  }

  /** After the upsert the table holds exactly the ids it held and the ids the batch supplies. */
  lemma {:induction false} UpsertRowsKeys(table: map<int, TableRow>, rows: seq<RecordColumns>)
    ensures UpsertRows(table, rows).Keys == table.Keys + Ids(rows)
    decreases |rows|
  {
    if rows != [] {
      UpsertRowsKeys(table, rows[..|rows| - 1]);
    }
  }

  /** `Ids` is the set of ids occurring in the batch. */
  lemma {:induction false} IdsMembers(rows: seq<RecordColumns>, id: int)
    ensures id in Ids(rows) <==> exists i :: 0 <= i < |rows| && rows[i].id == id
    decreases |rows|
  {
    if rows != [] {
      var n := |rows| - 1;
      IdsMembers(rows[..n], id);
      if id in Ids(rows[..n]) {
        var i :| 0 <= i < n && rows[..n][i].id == id;
        assert rows[i].id == id;
      }
      if exists i :: 0 <= i < |rows| && rows[i].id == id {
        var i :| 0 <= i < |rows| && rows[i].id == id;
        if i < n {
          assert rows[..n][i].id == id;
        }
      }
    }
  }

  /**
   * No two rows of the batch share an id. The datastore refuses an
   * `ON CONFLICT (id) DO UPDATE` statement that would update one row twice,
   * so only such a batch can be written.
   */
  predicate DistinctIds(rows: seq<RecordColumns>)
  {
    forall i, j :: 0 <= i < j < |rows| ==> rows[i].id != rows[j].id
  }

  /** In a batch with distinct ids every row is stored with exactly the columns it supplies. */
  lemma {:induction false} UpsertRowsStored(table: map<int, TableRow>, rows: seq<RecordColumns>, i: int)
    requires DistinctIds(rows) && 0 <= i < |rows|
    ensures rows[i].id in UpsertRows(table, rows)
    ensures UpsertRows(table, rows)[rows[i].id].columns == rows[i]
    decreases |rows|
  {
    var n := |rows| - 1;
    if i < n {
      assert rows[i].id != rows[n].id;
      var init := rows[..n];
      assert init[i] == rows[i];
      assert DistinctIds(init) by {
        forall a, b | 0 <= a < b < n ensures init[a].id != init[b].id {
          assert init[a] == rows[a] && init[b] == rows[b];
        }
      }
      UpsertRowsStored(table, init, i);
    }
  }

  /** A stored row keeps its `branch_uuid`; a new row gets null. */
  lemma {:induction false} UpsertRowsKeepsBranch(table: map<int, TableRow>, rows: seq<RecordColumns>, id: int)
    requires id in UpsertRows(table, rows)
    ensures UpsertRows(table, rows)[id].branch_uuid == if id in table then table[id].branch_uuid else Null
    decreases |rows|
  {
    if rows != [] {
      var n := |rows| - 1;
      var before := UpsertRows(table, rows[..n]);
      if id in before {
        UpsertRowsKeepsBranch(table, rows[..n], id);
      } else {
        UpsertRowsKeys(table, rows[..n]);
      }
    }
  }

  /** A row whose id the batch does not supply is left as it was. */
  lemma {:induction false} UpsertRowsUntouched(table: map<int, TableRow>, rows: seq<RecordColumns>, id: int)
    requires id in table && id !in Ids(rows)
    ensures id in UpsertRows(table, rows) && UpsertRows(table, rows)[id] == table[id]
    decreases |rows|
  {
    if rows != [] {
      UpsertRowsUntouched(table, rows[..|rows| - 1], id);
    }
  }

  class Store {
    /** `locked_at` of the `sync_locks` row `sync_application_records`, if the row exists. */
    var lock: Option<int>
    /** The `sync_state` row `application_records`, if it exists. */
    var state: Option<SyncState>
    /** The `application_records` table, by id. */
    var records: map<int, TableRow>

    constructor (lock: Option<int>, state: Option<SyncState>, records: map<int, TableRow>)
      ensures this.lock == lock && this.state == state && this.records == records
    {
      this.lock := lock;
      this.state := state;
      this.records := records;
    }

    /**
     * `sync_locks.upsert({ id: lockKey, locked_at: now })`. `failed` is the
     * datastore's answer, which the route never reads: a failed write leaves
     * the row as it was.
     */
    method WriteLock(now: int, failed: bool)
      modifies this`lock
      ensures lock == if failed then old(lock) else Some(now)
    {
      if !failed {
        lock := Some(now);
      }
    }

    /** `sync_locks.delete().eq("id", lockKey)`; a failed delete, which the route never notices, leaves the lock row. */
    method DeleteLock(failed: bool)
      modifies this`lock
      ensures lock == if failed then old(lock) else None
    {
      if !failed {
        lock := None;
      }
    }

    /** `sync_state.upsert({ id, last_synced_at, sync_cursor })`: the whole row; a failed write, never noticed, leaves the old row. */
    method WriteState(s: SyncState, failed: bool)
      modifies this`state
      ensures state == if failed then old(state) else Some(s)
    {
      if !failed {
        state := Some(s);
      }
    }

    /**
     * `sync_state.upsert({ id, last_synced_at: now })`: only the stamp is
     * supplied, so a stored cursor stays. `rejected` is the datastore's answer.
     */
    method StampSyncedAt(now: int, rejected: bool) returns (error: bool)
      modifies this`state
      ensures error == rejected
      ensures rejected ==> state == old(state)
      ensures !rejected ==> state == Some(SyncState(Some(now), if old(state).Some? then old(state).value.sync_cursor else None))
    {
      error := rejected;
      if !rejected {
        var cursor := if state.Some? then state.value.sync_cursor else None;
        state := Some(SyncState(Some(now), cursor));
      }
    }

    /**
     * `application_records.upsert(rows, { onConflict: "id" })`. The statement
     * fails, and writes nothing, when the datastore rejects it (`rejected`) or
     * when two rows of the batch share an id.
     */
    method UpsertRecords(rows: seq<RecordColumns>, rejected: bool) returns (error: bool)
      modifies this`records
      ensures error <==> rejected || !DistinctIds(rows)
      ensures records == if error then old(records) else UpsertRows(old(records), rows)
    {
      error := rejected || !DistinctIds(rows);
      if !error {
        records := UpsertRows(records, rows);
      }
    }
  }
}
