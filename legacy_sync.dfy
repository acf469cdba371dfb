/**
 * The single-request sync route (`POST /api/application/sync`): it reads the
 * `last_synced_at` stamp, asks the upstream once for the records changed since
 * then (or created since 2025-01-01 when there is no stamp), upserts all of
 * them and stamps the state row. It takes no lock and keeps no cursor.
 */
module LegacySync {
  import opened Js
  import opened Records
  import opened SyncStore

  /** The lower bound used when no sync has been recorded yet. */
  const INITIAL_CREATE_DATE: string := "2025-01-01"

  /** The datastore code for "no rows returned", which the route treats as "no state yet". */
  const NO_ROWS_CODE: string := "PGRST116"

  /** The upstream's answer to the one request: its `rows`, a `rows` that is not an array, or a non-2xx answer. */
  datatype Answer = Rows(rows: seq<UpstreamRecord>) | NotArray | HttpError(status: int)

  datatype Response =
    | ConfigMissing                                   // 500 "NEXT_PUBLIC_API_URL is not configured"
    | StateReadFailed(code: string)                   // 500 "Failed to fetch sync state"
    | NoNewRecords                                    // 200, synced_count 0
    | UpsertFailed                                    // 500 "Failed to upsert records"
    | Synced(synced_count: nat, last_synced_at: int)  // 200 "Sync completed successfully"
    | SyncFailed                                      // 500 "Failed to sync application records"
  {
    function Status(): int
    {
      match this
      case NoNewRecords => 200
      case Synced(_, _) => 200
      case _ => 500
    }

    /** The `synced_count` of a 200 answer. */
    function SyncedCount(): nat
    {
      match this
      case Synced(n, _) => n
      case _ => 0
    }
  }

  /** `sync?.last_synced_at`: the stamp of the state row, when the read found one. */
  function LastSyncedAt(state: Option<SyncState>): Option<int>
  {
    if state.Some? then state.value.last_synced_at else None
  }

  /**
   * The `filterObj` sent upstream: `update_time__gte` the last stamp, or
   * `create_time__date__gte` the initial date when there is none.
   */
  function FilterObject(lastSyncedAt: Option<int>): (f: map<string, Value>)
    ensures |f.Keys| == 1
    ensures "update_time__gte" in f <==> lastSyncedAt.Some?
    ensures lastSyncedAt.Some? ==> f["update_time__gte"] == Time(lastSyncedAt.value)
    ensures lastSyncedAt.None? ==> "create_time__date__gte" in f && f["create_time__date__gte"] == Str(INITIAL_CREATE_DATE)
  {
    match lastSyncedAt
    case Some(t) => map["update_time__gte" := Time(t)]
    case None => map["create_time__date__gte" := Str(INITIAL_CREATE_DATE)]
  }

  /**
   * The route. `readError` is the error code of the state read, if it failed;
   * `answer` the upstream's answer; `upsertRejected` and `stampRejected` the
   * datastore's answers to the two writes (a list that repeats an id is
   * refused whatever `upsertRejected` says); `now` the time of the stamp.
   * `filter` is the filter object of the upstream request, if one was made.
   */
  method Post(store: Store, apiUrl: Option<string>, readError: Option<string>, answer: Answer,
              upsertRejected: bool, stampRejected: bool, now: int)
    returns (response: Response, filter: Option<map<string, Value>>)
    modifies store`records, store`state
    ensures apiUrl.None? ==> response == ConfigMissing && filter == None
    ensures apiUrl.Some? && readError.Some? && readError.value != NO_ROWS_CODE ==>
      response == StateReadFailed(readError.value) && filter == None
    ensures apiUrl.Some? && (readError.None? || readError.value == NO_ROWS_CODE) ==>
      filter == Some(FilterObject(if readError.None? then LastSyncedAt(old(store.state)) else None))
    // Only a non-empty list that the datastore accepts changes anything; a list that repeats an id is refused.
    ensures filter.Some? && answer.Rows? && answer.rows != [] && !upsertRejected && DistinctIds(MapRecords(answer.rows)) ==>
      && response == Synced(|answer.rows|, now)
      && store.records == UpsertRows(old(store.records), MapRecords(answer.rows))
      && store.state == if stampRejected then old(store.state)
                        else Some(SyncState(Some(now), if old(store.state).Some? then old(store.state).value.sync_cursor else None))
    ensures filter.Some? && answer.Rows? && answer.rows != [] && (upsertRejected || !DistinctIds(MapRecords(answer.rows))) ==>
      response == UpsertFailed && unchanged(store)
    ensures filter.Some? && (answer.NotArray? || answer == Rows([])) ==> response == NoNewRecords && unchanged(store)
    ensures filter.Some? && answer.HttpError? ==> response == SyncFailed && unchanged(store)
    ensures filter.None? ==> unchanged(store)
  {
    filter := None;
    if apiUrl.None? {
      return ConfigMissing, filter;
    }
    if readError.Some? && readError.value != NO_ROWS_CODE {
      return StateReadFailed(readError.value), filter;
    }
    var lastSyncedAt := if readError.None? then LastSyncedAt(store.state) else None;
    filter := Some(FilterObject(lastSyncedAt));
    if answer.HttpError? {
      // `throw`, caught by the route's catch
      return SyncFailed, filter;
    }
    var list := if answer.Rows? then answer.rows else [];
    if |list| == 0 {
      return NoNewRecords, filter;
    }
    var rows := MapRecords(list);
    var upsertError := store.UpsertRecords(rows, upsertRejected);
    if upsertError {
      return UpsertFailed, filter;
    }
    // A failed stamp is only logged: the answer is still a success.
    var stampError := store.StampSyncedAt(now, stampRejected);
    response := Synced(|rows|, now);
  }
}
