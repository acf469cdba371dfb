/**
 * The incremental sync route (`POST /api/application/sync/super`): behind a
 * time-boxed lock row it pages through the upstream `Application` records
 * changed since the stored cursor, drops the ones at or before the cursor,
 * upserts the rest and moves the stored cursor to the last record of each
 * page.
 *
 * The upstream is the sequence of answers it gives to the page requests
 * 1, 2, 3, ...; a page past the end of that sequence is empty. The
 * datastore's answers to the route's statements are a parameter too
 * (`Faults`). `Plan` is the
 * reference description of a run (which filtered batches it commits, how many
 * pages it requests, whether it aborts); `Post` is the route, proved to carry
 * out exactly that plan.
 */
module SuperSync {
  import opened Js
  import opened Records
  import opened SyncStore

  /** The page size asked of the upstream, and the length below which a filtered batch ends the run. */
  const BATCH_SIZE: nat := 500
  /** The look-back used as the lower bound while no cursor timestamp is stored (one hour). */
  const RE_SYNC_WINDOW_MS: int := 60 * 60 * 1000
  /** A lock row younger than this rejects the run. */
  const LOCK_TIMEOUT_MS: int := 300_000

  /**
   * What one page request yields: its `rows` array; a `rows` without a
   * truthy `length` (missing, null, a number, a boolean, `""`, a plain
   * object), which `apiData?.rows || []` and `!batchData.length` read as an
   * empty page; a `rows` with a truthy `length` that is not an array (a
   * non-empty string, an array-like object), on which `.filter` throws; or a
   * non-2xx answer, which throws.
   */
  datatype Fetch = Rows(rows: seq<UpstreamRecord>) | NoRows | NotFilterable | HttpError(status: int)

  /** An answer that sends the run to the catch path: a non-2xx status, or a `rows` that `.filter` cannot be called on. */
  predicate Throws(f: Fetch)
  {
    f.HttpError? || f.NotFilterable?
  }

  /** One page request: `page`, `limit` and the `update_time__gte` filter. */
  datatype Request = Request(page: nat, limit: nat, update_time__gte: int)

  datatype Response =
    | ConfigMissing            // 500 "API_URL not configured"
    | AlreadyRunning           // 429 "Sync already running"
    | Completed(synced_count: nat)
    | Failed                   // 500 "Sync failed"
  {
    function Status(): int
    {
      match this
      case ConfigMissing => 500
      case AlreadyRunning => 429
      case Completed(_) => 200
      case Failed => 500
    }
  }

  /** A lock row that rejects the run: it exists and is less than five minutes old. */
  predicate LockHeld(lock: Option<int>, now: int)
  {
    lock.Some? && now - lock.value < LOCK_TIMEOUT_MS
  }

  /**
   * The datastore's answers to the statements of a run, `true` meaning an
   * error: the lock read, the lock write, the state read, the upsert and the
   * state write of each page (page k at index k - 1), and the lock delete.
   * The route reads no error but the upsert's, and that one only to log it.
   */
  datatype Faults = Faults(lockRead: bool, lockWrite: bool, stateRead: bool,
                           upserts: seq<bool>, stateWrites: seq<bool>, lockDelete: bool)

  /** `existingLock`: the lock row the read returns; a failed read returns none. */
  function SeenLock(lock: Option<int>, readFailed: bool): Option<int>
  {
    if readFailed then None else lock
  }

  /**
   * `syncState?.sync_cursor || { last_timestamp: null, last_id: 0 }`: the
   * stored cursor, or the default one when there is none or the read failed.
   */
  function StartCursor(state: Option<SyncState>, readFailed: bool): Cursor
  {
    if !readFailed && state.Some? && state.value.sync_cursor.Some? then state.value.sync_cursor.value else DEFAULT_CURSOR
  }

  /** The `update_time__gte` bound: the cursor timestamp, or one hour before now. */
  function Threshold(c: Cursor, now: int): int
  {
    match c.last_timestamp
    case Some(t) => t
    case None => now - RE_SYNC_WINDOW_MS
  }

  /** The client-side cursor test: the record lies strictly after the cursor in (update_time, id) order. */
  predicate After(c: Cursor, r: UpstreamRecord)
  {
    || c.last_timestamp.None?
    || r.update_time > c.last_timestamp.value
    || (r.update_time == c.last_timestamp.value && r.id > c.last_id)
  }

  /** `batchData.filter(...)`: the records after the cursor, in the page's order. */
  function CursorFilter(c: Cursor, rows: seq<UpstreamRecord>): (kept: seq<UpstreamRecord>)
    ensures |kept| <= |rows|
    ensures c.last_timestamp.None? ==> kept == rows
  {
    if rows == [] then []
    else (if After(c, rows[0]) then [rows[0]] else []) + CursorFilter(c, rows[1..])
  }

  /** The filter keeps exactly the records after the cursor. */
  lemma {:induction false} CursorFilterMembers(c: Cursor, rows: seq<UpstreamRecord>, r: UpstreamRecord)
    ensures r in CursorFilter(c, rows) <==> r in rows && After(c, r)
  {
    if rows != [] {
      CursorFilterMembers(c, rows[1..], r);
      assert rows == [rows[0]] + rows[1..];
    }
  }

  /** The cursor written after a batch: the `update_time` and `id` of its last record. */
  function CursorAt(r: UpstreamRecord): Cursor
  {
    Cursor(Some(r.update_time), r.id)
  }

  /** The answer to request `page` (pages count from 1). */
  function FetchAt(upstream: seq<Fetch>, page: nat): Fetch
  {
    if 1 <= page <= |upstream| then upstream[page - 1] else Rows([])
  }

  /** Whether the datastore answers the statement of page `page` with an error. */
  predicate RejectedAt(rejections: seq<bool>, page: nat)
  {
    1 <= page <= |rejections| && rejections[page - 1]
  }

  /** What one page contributes to a run: it stops the run (aborting it or not), or yields a non-empty filtered batch. */
  datatype Step = Stop(aborted: bool) | Commit(batch: seq<UpstreamRecord>)

  /**
   * Page `page` of a run from cursor `c`: an error answer or a `rows` that
   * cannot be filtered aborts; a `rows` with no length, an empty page or an
   * empty filtered batch ends the run; otherwise the page yields its
   * filtered batch.
   */
  function PageStep(c: Cursor, upstream: seq<Fetch>, page: nat): (step: Step)
    ensures step.Stop? ==> (step.aborted <==> Throws(FetchAt(upstream, page)))
    ensures step.Commit? <==> FetchAt(upstream, page).Rows? && CursorFilter(c, FetchAt(upstream, page).rows) != []
    ensures step.Commit? ==> step.batch == CursorFilter(c, FetchAt(upstream, page).rows)
  {
    match FetchAt(upstream, page)
    case HttpError(_) => Stop(true)
    case NoRows => Stop(false)
    case NotFilterable => Stop(true)
    case Rows(rows) =>
      var batch := CursorFilter(c, rows);
      if |rows| == 0 || |batch| == 0 then Stop(false) else Commit(batch)
  }

  /** A run, read off the upstream: the filtered batches it commits, the pages it requests, whether it aborts. */
  datatype Plan = Plan(batches: seq<seq<UpstreamRecord>>, fetches: nat, aborted: bool)

  /**
   * The run from page `page` on: a stopping page ends it; a batch shorter
   * than `BATCH_SIZE` is committed and ends it; a full one is committed and
   * the next page is requested.
   */
  function PlanFrom(c: Cursor, upstream: seq<Fetch>, page: nat): Plan
    requires page >= 1
    decreases |upstream| + 1 - page
  {
    match PageStep(c, upstream, page)
    case Stop(aborted) => Plan([], 1, aborted)
    case Commit(batch) =>
      if |batch| < BATCH_SIZE then Plan([batch], 1, false)
      else
        var rest := PlanFrom(c, upstream, page + 1);
        Plan([batch] + rest.batches, 1 + rest.fetches, rest.aborted)
  }

  /** The record table after committing `batches` (batch k comes from page k + 1); a rejected upsert writes nothing. */
  function ApplyBatches(table: map<int, TableRow>, batches: seq<seq<UpstreamRecord>>, rejections: seq<bool>): map<int, TableRow>
    decreases |batches|
  {
    if batches == [] then table
    else
      var n := |batches| - 1;
      CommitRecords(ApplyBatches(table, batches[..n], rejections), batches[n], RejectedAt(rejections, n + 1))
  }

  /**
   * The state row after committing `batches` (batch k from page k + 1): the
   * row the last state write that succeeded left, stamped and pointing at its
   * batch's last record; the row as it was when every write failed.
   */
  function FinalState(state: Option<SyncState>, batches: seq<seq<UpstreamRecord>>, writeFailures: seq<bool>, now: int): Option<SyncState>
    decreases |batches|
  {
    if batches == [] then state
    else
      var n := |batches| - 1;
      if batches[n] == [] || RejectedAt(writeFailures, n + 1) then FinalState(state, batches[..n], writeFailures, now)
      else CommitState(batches[n], now)
  }

  function SumLengths(batches: seq<seq<UpstreamRecord>>): nat
  {
    if batches == [] then 0 else SumLengths(batches[..|batches| - 1]) + |batches[|batches| - 1]|
  }

  /** The first `n` page requests of a run starting from cursor `c`. */
  function Requests(c: Cursor, now: int, n: nat): (rs: seq<Request>)
  {
    if n == 0 then [] else Requests(c, now, n - 1) + [Request(n, BATCH_SIZE, Threshold(c, now))]
  }

  /** Committing one more batch: the table, state row and count after `done + [batch]`. */
  lemma CommitOneMore(table: map<int, TableRow>, state: Option<SyncState>, done: seq<seq<UpstreamRecord>>,
                      batch: seq<UpstreamRecord>, faults: Faults, now: int)
    requires batch != []
    ensures ApplyBatches(table, done + [batch], faults.upserts) ==
      CommitRecords(ApplyBatches(table, done, faults.upserts), batch, RejectedAt(faults.upserts, |done| + 1))
    ensures FinalState(state, done + [batch], faults.stateWrites, now) ==
      CommitStateUnless(FinalState(state, done, faults.stateWrites, now), batch, RejectedAt(faults.stateWrites, |done| + 1), now)
    ensures SumLengths(done + [batch]) == SumLengths(done) + |batch|
  {
    assert (done + [batch])[..|done|] == done;
  }

  /** The plan of a run that has committed `done` and continues with `rest`. */
  function Join(done: seq<seq<UpstreamRecord>>, rest: Plan): Plan
  {
    Plan(done + rest.batches, |done| + rest.fetches, rest.aborted)
  }

  /** The plan of a run that has committed `done`, read one page further. */
  lemma JoinStep(c: Cursor, upstream: seq<Fetch>, page: nat, done: seq<seq<UpstreamRecord>>)
    requires page >= 1
    ensures PageStep(c, upstream, page).Stop? ==>
      Join(done, PlanFrom(c, upstream, page)) == Plan(done, |done| + 1, PageStep(c, upstream, page).aborted)
    ensures PageStep(c, upstream, page).Commit? ==>
      var batch := PageStep(c, upstream, page).batch;
      Join(done, PlanFrom(c, upstream, page)) ==
        if |batch| < BATCH_SIZE then Plan(done + [batch], |done| + 1, false)
        else Join(done + [batch], PlanFrom(c, upstream, page + 1))
  {
    var step := PageStep(c, upstream, page);
    if step.Stop? {
      assert done + [] == done;
    } else if |step.batch| >= BATCH_SIZE {
      var rest := PlanFrom(c, upstream, page + 1);
      assert done + ([step.batch] + rest.batches) == done + [step.batch] + rest.batches;
    }
  }

  /**
   * The table after one page's upsert: the mapped batch merged in, unless the
   * datastore rejects the statement or the batch repeats an id.
   */
  function CommitRecords(table: map<int, TableRow>, batch: seq<UpstreamRecord>, rejected: bool): map<int, TableRow>
  {
    if !rejected && DistinctIds(MapRecords(batch)) then UpsertRows(table, MapRecords(batch)) else table
  }

  /** The state row written after a page: stamped, with the cursor at the batch's last record. */
  function CommitState(batch: seq<UpstreamRecord>, now: int): Option<SyncState>
    requires batch != []
  {
    Some(SyncState(Some(now), Some(CursorAt(batch[|batch| - 1]))))
  }

  /** The state row after a page's state write: `CommitState`, unless the write failed. */
  function CommitStateUnless(state: Option<SyncState>, batch: seq<UpstreamRecord>, failed: bool, now: int): Option<SyncState>
    requires batch != []
  {
    if failed then state else CommitState(batch, now)
  }

  /** Where a run stands: the table, the state row, the count so far, the pages requested and whether it aborted. */
  datatype Outcome = Outcome(records: map<int, TableRow>, state: Option<SyncState>, synced: nat, fetches: nat, aborted: bool)

  /**
   * The rest of a run from page `page`, page by page, from the standing `acc`:
   * each page is requested; a stopping page ends the run; a batch is
   * committed, and ends the run when it is short.
   */
  function RunFrom(c: Cursor, upstream: seq<Fetch>, faults: Faults, now: int, page: nat, acc: Outcome): Outcome
    requires page >= 1
    decreases |upstream| + 1 - page
  {
    match PageStep(c, upstream, page)
    case Stop(aborted) => acc.(fetches := acc.fetches + 1, aborted := aborted)
    case Commit(batch) =>
      var next := Outcome(CommitRecords(acc.records, batch, RejectedAt(faults.upserts, page)),
                          CommitStateUnless(acc.state, batch, RejectedAt(faults.stateWrites, page), now),
                          acc.synced + |batch|, acc.fetches + 1, false);
      if |batch| < BATCH_SIZE then next else RunFrom(c, upstream, faults, now, page + 1, next)
  }

  /** The standing of a run that has committed `done`, one page request per batch. */
  function Committed(records0: map<int, TableRow>, state0: Option<SyncState>, done: seq<seq<UpstreamRecord>>,
                     faults: Faults, now: int): Outcome
  {
    Outcome(ApplyBatches(records0, done, faults.upserts), FinalState(state0, done, faults.stateWrites, now),
            SumLengths(done), |done|, false)
  }

  /** The end of a run that carries out `plan`. */
  function Settled(records0: map<int, TableRow>, state0: Option<SyncState>, plan: Plan, faults: Faults, now: int): Outcome
  {
    Outcome(ApplyBatches(records0, plan.batches, faults.upserts), FinalState(state0, plan.batches, faults.stateWrites, now),
            SumLengths(plan.batches), plan.fetches, plan.aborted)
  }

  /** A stopping page: the run ends where the plan does. */
  lemma RunFromStop(c: Cursor, upstream: seq<Fetch>, faults: Faults, now: int,
                    records0: map<int, TableRow>, state0: Option<SyncState>, page: nat, done: seq<seq<UpstreamRecord>>)
    requires page >= 1 && |done| == page - 1 && PageStep(c, upstream, page).Stop?
    ensures RunFrom(c, upstream, faults, now, page, Committed(records0, state0, done, faults, now))
      == Settled(records0, state0, Join(done, PlanFrom(c, upstream, page)), faults, now)
  {
    JoinStep(c, upstream, page, done);
  }

  /** A short batch: the run commits it and ends, as the plan does. */
  lemma RunFromShort(c: Cursor, upstream: seq<Fetch>, faults: Faults, now: int,
                     records0: map<int, TableRow>, state0: Option<SyncState>, page: nat, done: seq<seq<UpstreamRecord>>)
    requires page >= 1 && |done| == page - 1
    requires PageStep(c, upstream, page).Commit? && |PageStep(c, upstream, page).batch| < BATCH_SIZE
    ensures RunFrom(c, upstream, faults, now, page, Committed(records0, state0, done, faults, now))
      == Settled(records0, state0, Join(done, PlanFrom(c, upstream, page)), faults, now)
  {
    var batch := PageStep(c, upstream, page).batch;
    JoinStep(c, upstream, page, done);
    CommitOneMore(records0, state0, done, batch, faults, now);
  }

  /** A full batch: the run and the plan both commit it and go on with the next page. */
  lemma RunFromFull(c: Cursor, upstream: seq<Fetch>, faults: Faults, now: int,
                    records0: map<int, TableRow>, state0: Option<SyncState>, page: nat, done: seq<seq<UpstreamRecord>>)
    requires page >= 1 && |done| == page - 1
    requires PageStep(c, upstream, page).Commit? && |PageStep(c, upstream, page).batch| >= BATCH_SIZE
    ensures var batch := PageStep(c, upstream, page).batch;
      && RunFrom(c, upstream, faults, now, page, Committed(records0, state0, done, faults, now))
         == RunFrom(c, upstream, faults, now, page + 1, Committed(records0, state0, done + [batch], faults, now))
      && Join(done, PlanFrom(c, upstream, page)) == Join(done + [batch], PlanFrom(c, upstream, page + 1))
  {
    var batch := PageStep(c, upstream, page).batch;
    JoinStep(c, upstream, page, done);
    CommitOneMore(records0, state0, done, batch, faults, now);
  }

  /**
   * The page-by-page run carries out the plan: from a standing that has
   * committed `done`, it ends with the table, state row, count, request
   * count and verdict of `done` followed by the plan from `page`.
   */
  lemma {:induction false} RunFromPlan(c: Cursor, upstream: seq<Fetch>, faults: Faults, now: int,
                                       records0: map<int, TableRow>, state0: Option<SyncState>,
                                       page: nat, done: seq<seq<UpstreamRecord>>)
    requires page >= 1 && |done| == page - 1
    ensures RunFrom(c, upstream, faults, now, page, Committed(records0, state0, done, faults, now))
      == Settled(records0, state0, Join(done, PlanFrom(c, upstream, page)), faults, now)
    decreases |upstream| + 1 - page
  {
    var step := PageStep(c, upstream, page);
    if step.Stop? {
      RunFromStop(c, upstream, faults, now, records0, state0, page, done);
    } else if |step.batch| < BATCH_SIZE {
      RunFromShort(c, upstream, faults, now, records0, state0, page, done);
    } else {
      RunFromFull(c, upstream, faults, now, records0, state0, page, done);
      RunFromPlan(c, upstream, faults, now, records0, state0, page + 1, done + [step.batch]);
    }
  }

  /** What page `page` does to the standing `acc` of a run. */
  lemma RunFromOnePage(c: Cursor, upstream: seq<Fetch>, faults: Faults, now: int, page: nat, acc: Outcome)
    requires page >= 1
    ensures PageStep(c, upstream, page).Commit? ==> page <= |upstream|
    ensures var step := PageStep(c, upstream, page);
      && (step.Stop? ==> RunFrom(c, upstream, faults, now, page, acc) == acc.(fetches := acc.fetches + 1, aborted := step.aborted))
      && (step.Commit? ==>
            var next := Outcome(CommitRecords(acc.records, step.batch, RejectedAt(faults.upserts, page)),
                                CommitStateUnless(acc.state, step.batch, RejectedAt(faults.stateWrites, page), now),
                                acc.synced + |step.batch|, acc.fetches + 1, false);
            RunFrom(c, upstream, faults, now, page, acc) == if |step.batch| < BATCH_SIZE then next else RunFrom(c, upstream, faults, now, page + 1, next))
  {
  }

  /** A run from page 1 with nothing committed yet ends where the plan from page 1 does. */
  lemma RunSettles(c: Cursor, upstream: seq<Fetch>, faults: Faults, now: int,
                   records0: map<int, TableRow>, state0: Option<SyncState>)
    ensures RunFrom(c, upstream, faults, now, 1, Outcome(records0, state0, 0, 0, false))
      == Settled(records0, state0, PlanFrom(c, upstream, 1), faults, now)
  {
    RunFromPlan(c, upstream, faults, now, records0, state0, 1, []);
    assert Join([], PlanFrom(c, upstream, 1)) == PlanFrom(c, upstream, 1);
  }

  /**
   * One pass of the page loop: request page `page`, filter it by the cursor
   * and, when a batch remains, upsert its mapped rows and move the stored
   * cursor to its last record. An upsert error is only logged and a state
   * write error not even that, so the cursor moves past a rejected batch too,
   * and a failed state write leaves the cursor where it was.
   */
  method SyncPage(store: Store, syncCursor: Cursor, upstream: seq<Fetch>, page: nat, faults: Faults, now: int)
    returns (step: Step)
    modifies store`records, store`state
    ensures step == PageStep(syncCursor, upstream, page)
    ensures step.Stop? ==> store.records == old(store.records) && store.state == old(store.state)
    ensures step.Commit? ==>
      && store.records == CommitRecords(old(store.records), step.batch, RejectedAt(faults.upserts, page))
      && store.state == CommitStateUnless(old(store.state), step.batch, RejectedAt(faults.stateWrites, page), now)
  {
    var fetched := FetchAt(upstream, page);
    if fetched.HttpError? {
      // `throw` on a non-2xx answer
      return Stop(true);
    }
    if fetched.NotFilterable? {
      // `batchData.filter` is not a function: the catch path
      return Stop(true);
    }
    var batchData := if fetched.Rows? then fetched.rows else [];
    var filteredBatch := CursorFilter(syncCursor, batchData);
    if |batchData| == 0 || |filteredBatch| == 0 {
      return Stop(false);
    }
    var rows := MapRecords(filteredBatch);
    var upsertError := store.UpsertRecords(rows, RejectedAt(faults.upserts, page));
    var lastRecord := filteredBatch[|filteredBatch| - 1];
    store.WriteState(SyncState(Some(now), Some(CursorAt(lastRecord))), RejectedAt(faults.stateWrites, page));
    step := Commit(filteredBatch);
  }

  /**
   * The page loop of the route, from page 1 with the cursor read at the start
   * of the run: it commits exactly the batches of `PlanFrom(syncCursor,
   * upstream, 1)` and reports their total length, or that the run aborted.
   */
  method SyncPages(store: Store, syncCursor: Cursor, now: int, upstream: seq<Fetch>, faults: Faults)
    returns (failed: bool, totalSynced: nat, requests: seq<Request>)
    modifies store`records, store`state
    ensures failed == PlanFrom(syncCursor, upstream, 1).aborted
    ensures totalSynced == SumLengths(PlanFrom(syncCursor, upstream, 1).batches)
    ensures requests == Requests(syncCursor, now, PlanFrom(syncCursor, upstream, 1).fetches)
    ensures store.records == ApplyBatches(old(store.records), PlanFrom(syncCursor, upstream, 1).batches, faults.upserts)
    ensures store.state == FinalState(old(store.state), PlanFrom(syncCursor, upstream, 1).batches, faults.stateWrites, now)
  {
    ghost var records0, state0 := store.records, store.state;
    ghost var final := RunFrom(syncCursor, upstream, faults, now, 1, Outcome(records0, state0, 0, 0, false));
    var hasMore := true;
    var page := 1;
    totalSynced := 0;
    failed := false;
    requests := [];
    ghost var fetched := 0;

    while hasMore
      invariant 1 <= page <= |upstream| + 1
      invariant requests == Requests(syncCursor, now, fetched)
      invariant hasMore ==> fetched == page - 1 && !failed
      invariant hasMore ==>
        RunFrom(syncCursor, upstream, faults, now, page, Outcome(store.records, store.state, totalSynced, fetched, failed)) == final
      invariant !hasMore ==> Outcome(store.records, store.state, totalSynced, fetched, failed) == final
      decreases |upstream| + 1 - page, hasMore
    {
      ghost var acc := Outcome(store.records, store.state, totalSynced, fetched, failed);
      var step := SyncPage(store, syncCursor, upstream, page, faults, now);
      RunFromOnePage(syncCursor, upstream, faults, now, page, acc);
      assert Requests(syncCursor, now, page) == Requests(syncCursor, now, fetched) + [Request(page, BATCH_SIZE, Threshold(syncCursor, now))];
      requests := requests + [Request(page, BATCH_SIZE, Threshold(syncCursor, now))];
      fetched := page;
      if step.Stop? {
        // `throw` on an error answer or a `rows` that cannot be filtered, `break` on a page that yields no batch
        failed := step.aborted;
        hasMore := false;
        assert Outcome(store.records, store.state, totalSynced, fetched, failed) == acc.(fetches := acc.fetches + 1, aborted := step.aborted);
      } else {
        totalSynced := totalSynced + |step.batch|;
        page := page + 1;
        if |step.batch| < BATCH_SIZE {
          hasMore := false;
        }
      }
    }
    RunSettles(syncCursor, upstream, faults, now, records0, state0);
  }

  /**
   * The route. A missing API URL answers 500 and a live lock 429, both
   * without touching the datastore. Otherwise the lock row is written, the
   * run carries out `PlanFrom(StartCursor(...), upstream, 1)` with every
   * request filtered from the same threshold, and the lock row is deleted on
   * the way out, whether the run completed or aborted. The datastore's errors
   * on the lock and state statements are never looked at: a failed lock read
   * sees no lock, a failed state read starts from the default cursor, and a
   * failed write or delete leaves its row as it was.
   */
  method Post(store: Store, apiUrl: Option<string>, now: int, upstream: seq<Fetch>, faults: Faults)
    returns (response: Response, requests: seq<Request>)
    modifies store
    ensures apiUrl.None? ==> response == ConfigMissing && requests == [] && unchanged(store)
    ensures apiUrl.Some? && LockHeld(SeenLock(old(store.lock), faults.lockRead), now) ==>
      response == AlreadyRunning && requests == [] && unchanged(store)
    ensures apiUrl.Some? && !LockHeld(SeenLock(old(store.lock), faults.lockRead), now) ==>
      var c := StartCursor(old(store.state), faults.stateRead);
      var plan := PlanFrom(c, upstream, 1);
      var locked := if faults.lockWrite then old(store.lock) else Some(now);
      && store.lock == (if faults.lockDelete then locked else None)
      && requests == Requests(c, now, plan.fetches)
      && store.records == ApplyBatches(old(store.records), plan.batches, faults.upserts)
      && store.state == FinalState(old(store.state), plan.batches, faults.stateWrites, now)
      && response == (if plan.aborted then Failed else Completed(SumLengths(plan.batches)))
  {
    requests := [];
    if apiUrl.None? {
      return ConfigMissing, requests;
    }
    var existingLock := SeenLock(store.lock, faults.lockRead);
    if LockHeld(existingLock, now) {
      return AlreadyRunning, requests;
    }
    store.WriteLock(now, faults.lockWrite);
    var syncCursor := StartCursor(store.state, faults.stateRead);
    var failed, totalSynced;
    failed, totalSynced, requests := SyncPages(store, syncCursor, now, upstream, faults);
    // Released on the success path and on the catch path alike.
    store.DeleteLock(faults.lockDelete);
    if failed {
      response := Failed;
    } else {
      response := Completed(totalSynced);
    }
  }
}
