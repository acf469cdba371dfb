/**
 * What a run of the incremental sync guarantees, stated about the plan it is
 * proved to carry out (`SuperSync.PlanFrom`) and about the effect of that plan
 * on the record table and the state row.
 */
module SuperSyncProperties {
  import opened Js
  import opened Records
  import opened SyncStore
  import opened SuperSync

  // ------------------------------------------------------------ the lock

  /** A lock row written at `t` rejects a run at `t` and, once five minutes have passed, no longer does. */
  lemma LockExpires(t: int, now: int)
    ensures LockHeld(Some(t), t)
    ensures now >= t + LOCK_TIMEOUT_MS ==> !LockHeld(Some(t), now)
    ensures t <= now < t + LOCK_TIMEOUT_MS ==> LockHeld(Some(t), now)
    ensures !LockHeld(None, now)
  {
  }

  /**
   * A lock delete that fails after a successful lock write leaves a lock row
   * that turns away, for five minutes, every run whose lock read succeeds;
   * a run whose lock read fails sees no lock and is never turned away.
   */
  lemma FailedReleaseBlocks(lock: Option<int>, now: int, later: int)
    ensures now <= later < now + LOCK_TIMEOUT_MS ==> LockHeld(SeenLock(Some(now), false), later)
    ensures later >= now + LOCK_TIMEOUT_MS ==> !LockHeld(SeenLock(Some(now), false), later)
    ensures !LockHeld(SeenLock(lock, true), later)
  {
  }

  /**
   * A failed state read starts the run from the default cursor whatever is
   * stored: the requests look back one hour from now and every batch is its
   * whole page.
   */
  lemma StateReadFailureRewinds(state: Option<SyncState>, upstream: seq<Fetch>, now: int)
    ensures StartCursor(state, true) == DEFAULT_CURSOR
    ensures Threshold(StartCursor(state, true), now) == now - RE_SYNC_WINDOW_MS
    ensures forall k :: 0 <= k < |PlanFrom(DEFAULT_CURSOR, upstream, 1).batches| ==>
      FetchAt(upstream, 1 + k) == Rows(PlanFrom(DEFAULT_CURSOR, upstream, 1).batches[k])
  {
    forall k | 0 <= k < |PlanFrom(DEFAULT_CURSOR, upstream, 1).batches|
      ensures FetchAt(upstream, 1 + k) == Rows(PlanFrom(DEFAULT_CURSOR, upstream, 1).batches[k])
    {
      PlanBatches(DEFAULT_CURSOR, upstream, 1, k);
    }
  }

  // ------------------------------------------------------ the cursor filter

  /** The boundary of the client-side filter: at the cursor's timestamp only larger ids pass. */
  lemma FilterBoundary(t: int, id: int, r: UpstreamRecord)
    ensures r.update_time == t ==> (After(Cursor(Some(t), id), r) <==> r.id > id)
    ensures r.update_time > t ==> After(Cursor(Some(t), id), r)
    ensures r.update_time < t ==> !After(Cursor(Some(t), id), r)
  {
  }

  /** Without a cursor timestamp the filter keeps the whole page, and the request looks back one hour. */
  lemma NoCursorTimestamp(c: Cursor, rows: seq<UpstreamRecord>, now: int)
    requires c.last_timestamp.None?
    ensures CursorFilter(c, rows) == rows
    ensures Threshold(c, now) == now - RE_SYNC_WINDOW_MS
  {
  }

  /** The filter keeps the page's order: the kept records form a subsequence of the page. */
  lemma {:induction false} FilterIsSubsequence(c: Cursor, rows: seq<UpstreamRecord>, i: int, j: int)
    requires 0 <= i < j < |CursorFilter(c, rows)|
    ensures exists p, q :: 0 <= p < q < |rows| && rows[p] == CursorFilter(c, rows)[i] && rows[q] == CursorFilter(c, rows)[j]
  {
    var kept := CursorFilter(c, rows);
    var rest := CursorFilter(c, rows[1..]);
    if After(c, rows[0]) {
      assert kept == [rows[0]] + rest;
      if i == 0 {
        assert kept[j] == rest[j - 1];
        CursorFilterMembers(c, rows[1..], rest[j - 1]);
        var q :| 0 <= q < |rows[1..]| && rows[1..][q] == rest[j - 1];
        assert rows[q + 1] == kept[j];
      } else {
        FilterIsSubsequence(c, rows[1..], i - 1, j - 1);
        var p, q :| 0 <= p < q < |rows[1..]| && rows[1..][p] == rest[i - 1] && rows[1..][q] == rest[j - 1];
        assert rows[p + 1] == kept[i] && rows[q + 1] == kept[j];
      }
    } else {
      assert kept == rest;
      FilterIsSubsequence(c, rows[1..], i, j);
      var p, q :| 0 <= p < q < |rows[1..]| && rows[1..][p] == rest[i] && rows[1..][q] == rest[j];
      assert rows[p + 1] == kept[i] && rows[q + 1] == kept[j];
    }
  }

  // ---------------------------------------------------------- the plan

  /**
   * The batches of a run from page `page`: batch k is the filtered page
   * `page + k`, which answered with rows, and it is never empty.
   */
  lemma {:induction false} PlanBatches(c: Cursor, upstream: seq<Fetch>, page: nat, k: int)
    requires page >= 1 && 0 <= k < |PlanFrom(c, upstream, page).batches|
    ensures FetchAt(upstream, page + k).Rows?
    ensures PlanFrom(c, upstream, page).batches[k] == CursorFilter(c, FetchAt(upstream, page + k).rows)
    ensures PlanFrom(c, upstream, page).batches[k] != []
    ensures k < |PlanFrom(c, upstream, page).batches| - 1 ==> |PlanFrom(c, upstream, page).batches[k]| >= BATCH_SIZE
    decreases |upstream| + 1 - page
  {
    var step := PageStep(c, upstream, page);
    if k > 0 {
      assert step.Commit? && |step.batch| >= BATCH_SIZE;
      var rest := PlanFrom(c, upstream, page + 1);
      assert PlanFrom(c, upstream, page).batches == [step.batch] + rest.batches;
      PlanBatches(c, upstream, page + 1, k - 1);
      assert page + 1 + (k - 1) == page + k;
    }
  }

  /**
   * The pages a run requests: one per batch, plus the page that stopped it
   * unless its last batch was short; it aborts exactly when that stopping
   * page was an error answer or a `rows` that cannot be filtered.
   */
  lemma {:induction false} PlanFetches(c: Cursor, upstream: seq<Fetch>, page: nat)
    requires page >= 1
    ensures var plan := PlanFrom(c, upstream, page);
      var n := |plan.batches|;
      && plan.fetches == (if n > 0 && |plan.batches[n - 1]| < BATCH_SIZE then n else n + 1)
      && (plan.aborted <==> plan.fetches == n + 1 && Throws(FetchAt(upstream, page + n)))
    decreases |upstream| + 1 - page
  {
    var step := PageStep(c, upstream, page);
    if step.Commit? && |step.batch| >= BATCH_SIZE {
      var rest := PlanFrom(c, upstream, page + 1);
      PlanFetches(c, upstream, page + 1);
      assert PlanFrom(c, upstream, page).batches == [step.batch] + rest.batches;
      assert page + 1 + |rest.batches| == page + |rest.batches| + 1;
    }
  }

  /** A run that requested one page more than it has batches ended on a page that stopped it. */
  lemma {:induction false} PlanStopPage(c: Cursor, upstream: seq<Fetch>, page: nat)
    requires page >= 1
    ensures var plan := PlanFrom(c, upstream, page);
      plan.fetches == |plan.batches| + 1 ==> PageStep(c, upstream, page + |plan.batches|).Stop?
    decreases |upstream| + 1 - page
  {
    var step := PageStep(c, upstream, page);
    if step.Commit? && |step.batch| >= BATCH_SIZE {
      var rest := PlanFrom(c, upstream, page + 1);
      PlanStopPage(c, upstream, page + 1);
      assert PlanFrom(c, upstream, page).batches == [step.batch] + rest.batches;
      assert page + 1 + |rest.batches| == page + |[step.batch] + rest.batches|;
    }
  }

  /** Whether page `p` answers with rows whose filtered batch is full. */
  predicate FullPage(c: Cursor, upstream: seq<Fetch>, p: nat)
  {
    FetchAt(upstream, p).Rows? && |CursorFilter(c, FetchAt(upstream, p).rows)| >= BATCH_SIZE
  }

  /** Pagination does not stop early: while pages keep yielding full batches, the run keeps requesting pages. */
  lemma {:induction false} FullPagesKeepFetching(c: Cursor, upstream: seq<Fetch>, page: nat, n: nat)
    requires page >= 1
    requires forall p :: page <= p < page + n ==> FullPage(c, upstream, p)
    ensures |PlanFrom(c, upstream, page).batches| >= n
    ensures PlanFrom(c, upstream, page).fetches > n
    decreases n
  {
    if n > 0 {
      assert FullPage(c, upstream, page);
      var step := PageStep(c, upstream, page);
      assert step.Commit? && |step.batch| >= BATCH_SIZE;
      FullPagesKeepFetching(c, upstream, page + 1, n - 1);
    }
  }

  /** Every committed record lies after the cursor the run started from. */
  lemma CommittedAfterCursor(c: Cursor, upstream: seq<Fetch>, k: int, r: UpstreamRecord)
    requires 0 <= k < |PlanFrom(c, upstream, 1).batches| && r in PlanFrom(c, upstream, 1).batches[k]
    ensures After(c, r)
  {
    PlanBatches(c, upstream, 1, k);
    CursorFilterMembers(c, FetchAt(upstream, 1 + k).rows, r);
  }

  /** Nothing after the cursor: the run commits nothing, leaves the table and state row alone and reports 0. */
  lemma NothingNew(c: Cursor, upstream: seq<Fetch>, table: map<int, TableRow>, state: Option<SyncState>,
                   faults: Faults, now: int)
    requires forall r :: FetchAt(upstream, 1).Rows? && r in FetchAt(upstream, 1).rows ==> !After(c, r)
    ensures PlanFrom(c, upstream, 1).batches == []
    ensures ApplyBatches(table, PlanFrom(c, upstream, 1).batches, faults.upserts) == table
    ensures FinalState(state, PlanFrom(c, upstream, 1).batches, faults.stateWrites, now) == state
    ensures SumLengths(PlanFrom(c, upstream, 1).batches) == 0
  {
    var f := FetchAt(upstream, 1);
    if f.Rows? && CursorFilter(c, f.rows) != [] {
      var r := CursorFilter(c, f.rows)[0];
      CursorFilterMembers(c, f.rows, r);
      assert false;
    }
  }

  /** The end-to-end example: cursor (T, 42) and a page holding id 42 at T and id 43 one second later. */
  lemma BoundaryScenario(t: int, a: UpstreamRecord, b: UpstreamRecord, table: map<int, TableRow>,
                         state: Option<SyncState>, now: int)
    requires a.id == 42 && a.update_time == t
    requires b.id == 43 && b.update_time == t + 1000
    ensures var plan := PlanFrom(Cursor(Some(t), 42), [Rows([a, b])], 1);
      && plan == Plan([[b]], 1, false)
      && SumLengths(plan.batches) == 1
      && FinalState(state, plan.batches, [], now) == Some(SyncState(Some(now), Some(Cursor(Some(t + 1000), 43))))
      && 43 in ApplyBatches(table, plan.batches, [])
      && ApplyBatches(table, plan.batches, [])[43].columns == MapRecord(b)
  {
    var c := Cursor(Some(t), 42);
    assert CursorFilter(c, [a, b]) == [b] by {
      assert [a, b][1..] == [b];
      assert [b][1..] == [];
    }
    var plan := PlanFrom(c, [Rows([a, b])], 1);
    assert plan.batches == [[b]];
    assert [[b]][..0] == [];
    assert MapRecords([b]) == [MapRecord(b)];
    assert [MapRecord(b)][..0] == [];
  }

  // ------------------------------------------------- cursor and re-runs

  /** `r` comes no later than `s` in the upstream order (update_time, then id). */
  predicate KeyLe(r: UpstreamRecord, s: UpstreamRecord)
  {
    r.update_time < s.update_time || (r.update_time == s.update_time && r.id <= s.id)
  }

  /** A page as the upstream sorts it: by update_time, then id. */
  predicate SortedPage(rows: seq<UpstreamRecord>)
  {
    forall i, j :: 0 <= i < j < |rows| ==> KeyLe(rows[i], rows[j])
  }

  /** The cursor written for a record is strictly after the cursor the record passed. */
  lemma CursorAdvances(c: Cursor, r: UpstreamRecord, s: UpstreamRecord)
    requires After(c, r)
    ensures !After(CursorAt(r), r)
    ensures c.last_timestamp.Some? ==>
      var n := CursorAt(r);
      n.last_timestamp.value > c.last_timestamp.value
      || (n.last_timestamp.value == c.last_timestamp.value && n.last_id > c.last_id)
    ensures KeyLe(s, r) ==> !After(CursorAt(r), s)
  {
  }

  /** On a sorted page the filter keeps a suffix: once a record passes, every later one does. */
  lemma FilterUpwardClosed(c: Cursor, rows: seq<UpstreamRecord>, i: int, j: int)
    requires SortedPage(rows) && 0 <= i < j < |rows| && After(c, rows[i])
    ensures After(c, rows[j])
  {
    assert KeyLe(rows[i], rows[j]);
  }

  /** On a sorted page a non-empty batch ends with the page's last record. */
  lemma {:induction false} FilterKeepsLast(c: Cursor, rows: seq<UpstreamRecord>)
    requires SortedPage(rows) && CursorFilter(c, rows) != []
    ensures rows != [] && CursorFilter(c, rows)[|CursorFilter(c, rows)| - 1] == rows[|rows| - 1]
  {
    var kept := CursorFilter(c, rows);
    var rest := CursorFilter(c, rows[1..]);
    assert SortedPage(rows[1..]) by {
      forall i, j | 0 <= i < j < |rows[1..]| ensures KeyLe(rows[1..][i], rows[1..][j]) {
        assert rows[1..][i] == rows[i + 1] && rows[1..][j] == rows[j + 1];
      }
    }
    if |rows| == 1 {
      assert rows[1..] == [];
      assert kept == [rows[0]];
    } else if rest != [] {
      FilterKeepsLast(c, rows[1..]);
      assert kept == (if After(c, rows[0]) then [rows[0]] else []) + rest;
    } else {
      assert false;
    }
  }

  /**
   * Idempotence: after a batch from a sorted page is committed, the same page
   * filtered from the new cursor yields nothing, so a second run over
   * unchanged data commits nothing.
   */
  lemma RerunSyncsNothing(c: Cursor, rows: seq<UpstreamRecord>)
    requires SortedPage(rows) && CursorFilter(c, rows) != []
    ensures var batch := CursorFilter(c, rows);
      CursorFilter(CursorAt(batch[|batch| - 1]), rows) == []
  {
    var batch := CursorFilter(c, rows);
    FilterKeepsLast(c, rows);
    var last := rows[|rows| - 1];
    var kept := CursorFilter(CursorAt(last), rows);
    if kept != [] {
      CursorFilterMembers(CursorAt(last), rows, kept[0]);
      var i :| 0 <= i < |rows| && rows[i] == kept[0];
      assert false;
    }
  }

  /** Whether the statements of pages 1 to `n` all failed. */
  predicate AllFailed(failures: seq<bool>, n: nat)
  {
    forall page :: 1 <= page <= n ==> RejectedAt(failures, page)
  }

  /** The state row after a run: as it was when every state write failed; the last page's write when that one succeeded. */
  lemma {:induction false} FinalStateWrites(state: Option<SyncState>, batches: seq<seq<UpstreamRecord>>, failures: seq<bool>, now: int)
    ensures AllFailed(failures, |batches|) ==> FinalState(state, batches, failures, now) == state
    ensures batches != [] && batches[|batches| - 1] != [] && !RejectedAt(failures, |batches|) ==>
      FinalState(state, batches, failures, now) == CommitState(batches[|batches| - 1], now)
    decreases |batches|
  {
    if batches != [] && AllFailed(failures, |batches|) {
      var n := |batches| - 1;
      assert RejectedAt(failures, n + 1);
      FinalStateWrites(state, batches[..n], failures, now);
    }
  }

  // ------------------------------------------------ the table afterwards

  /** A row no committed batch mentions is left exactly as it was. */
  lemma {:induction false} ApplyBatchesUntouched(table: map<int, TableRow>, batches: seq<seq<UpstreamRecord>>,
                                                 rejections: seq<bool>, id: int)
    requires id in table
    requires forall k, r :: 0 <= k < |batches| && r in batches[k] ==> r.id != id
    ensures id in ApplyBatches(table, batches, rejections) && ApplyBatches(table, batches, rejections)[id] == table[id]
    decreases |batches|
  {
    if batches != [] {
      var n := |batches| - 1;
      ApplyBatchesUntouched(table, batches[..n], rejections, id);
      var before := ApplyBatches(table, batches[..n], rejections);
      if !RejectedAt(rejections, n + 1) && DistinctIds(MapRecords(batches[n])) {
        var rows := MapRecords(batches[n]);
        IdsMembers(rows, id);
        UpsertRowsUntouched(before, rows, id);
      }
    }
  }

  /** The sync never writes `branch_uuid`: a stored row keeps it and a new row gets null. */
  lemma {:induction false} ApplyBatchesKeepsBranch(table: map<int, TableRow>, batches: seq<seq<UpstreamRecord>>,
                                                   rejections: seq<bool>, id: int)
    requires id in ApplyBatches(table, batches, rejections)
    ensures ApplyBatches(table, batches, rejections)[id].branch_uuid == if id in table then table[id].branch_uuid else Null
    decreases |batches|
  {
    if batches != [] {
      var n := |batches| - 1;
      var before := ApplyBatches(table, batches[..n], rejections);
      if RejectedAt(rejections, n + 1) || !DistinctIds(MapRecords(batches[n])) {
        ApplyBatchesKeepsBranch(table, batches[..n], rejections, id);
      } else {
        var rows := MapRecords(batches[n]);
        UpsertRowsKeepsBranch(before, rows, id);
        if id in before {
          ApplyBatchesKeepsBranch(table, batches[..n], rejections, id);
        } else {
          ApplyBatchesKeys(table, batches[..n], rejections, id);
        }
      }
    }
  }

  /** Whether a batch of `batches` supplies `id`, repeats no id and is accepted by the datastore. */
  predicate Supplied(batches: seq<seq<UpstreamRecord>>, rejections: seq<bool>, id: int)
  {
    exists k, r: UpstreamRecord :: 0 <= k < |batches| && !RejectedAt(rejections, k + 1) && DistinctIds(MapRecords(batches[k]))
      && r in batches[k] && r.id == id
  }

  lemma SuppliedSplit(batches: seq<seq<UpstreamRecord>>, rejections: seq<bool>, id: int)
    requires batches != []
    ensures var n := |batches| - 1;
      Supplied(batches, rejections, id) <==>
        Supplied(batches[..n], rejections, id)
        || (!RejectedAt(rejections, n + 1) && DistinctIds(MapRecords(batches[n])) && exists r: UpstreamRecord :: r in batches[n] && r.id == id)
  {
    var n := |batches| - 1;
    var init := batches[..n];
    if Supplied(batches, rejections, id) {
      var k, r: UpstreamRecord :| 0 <= k < |batches| && !RejectedAt(rejections, k + 1) && DistinctIds(MapRecords(batches[k]))
        && r in batches[k] && r.id == id;
      if k < n {
        assert init[k] == batches[k];
      }
    }
    if Supplied(init, rejections, id) {
      var k, r: UpstreamRecord :| 0 <= k < n && !RejectedAt(rejections, k + 1) && DistinctIds(MapRecords(init[k]))
        && r in init[k] && r.id == id;
      assert init[k] == batches[k];
    }
  }

  /** A row is in the table afterwards exactly when it was before or an accepted batch supplied its id. */
  lemma {:induction false} ApplyBatchesKeys(table: map<int, TableRow>, batches: seq<seq<UpstreamRecord>>,
                                            rejections: seq<bool>, id: int)
    ensures id in ApplyBatches(table, batches, rejections) <==> id in table || Supplied(batches, rejections, id)
    decreases |batches|
  {
    if batches != [] {
      var n := |batches| - 1;
      ApplyBatchesKeys(table, batches[..n], rejections, id);
      SuppliedSplit(batches, rejections, id);
      if !RejectedAt(rejections, n + 1) && DistinctIds(MapRecords(batches[n])) {
        var rows := MapRecords(batches[n]);
        UpsertRowsKeys(ApplyBatches(table, batches[..n], rejections), rows);
        IdsMembers(rows, id);
        if id in Ids(rows) {
          var i :| 0 <= i < |rows| && rows[i].id == id;
          assert batches[n][i] in batches[n];
        }
        if exists r: UpstreamRecord :: r in batches[n] && r.id == id {
          var r: UpstreamRecord :| r in batches[n] && r.id == id;
          var i :| 0 <= i < |batches[n]| && batches[n][i] == r;
          assert rows[i].id == id;
        }
      }
    }
  }
}
