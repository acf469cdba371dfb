/**
 * The upstream as it answers the incremental sync: the records it holds, in
 * the order `sort=update_time,id` returns them, selected by the
 * `update_time__gte` filter and cut into pages of `BATCH_SIZE`. Two runs
 * that start from different cursors send different filters and so read
 * different pages; the properties that relate one run to the next are
 * stated here, over the records rather than over one run's answers.
 */
module SuperSyncServed {
  import opened Js
  import opened Records
  import opened SyncStore
  import opened SuperSync
  import opened SuperSyncProperties

  /** `r` comes strictly before `s` in the upstream order (update_time, then id). */
  predicate KeyLess(r: UpstreamRecord, s: UpstreamRecord)
  {
    r.update_time < s.update_time || (r.update_time == s.update_time && r.id < s.id)
  }

  /** The upstream's records as it sorts them; ids are unique, so no two records tie. */
  predicate SortedData(data: seq<UpstreamRecord>)
  {
    forall i, j :: 0 <= i < j < |data| ==> KeyLess(data[i], data[j])
  }

  /** How many records at the front of `data` lie before `t`. */
  function Skip(data: seq<UpstreamRecord>, t: int): (k: nat)
    ensures k <= |data|
  {
    if data == [] || data[0].update_time >= t then 0 else 1 + Skip(data[1..], t)
  }

  /** The records the filter `update_time__gte: t` selects, in the upstream order. */
  function Since(data: seq<UpstreamRecord>, t: int): seq<UpstreamRecord>
  {
    data[Skip(data, t)..]
  }

  /** Page `p` (pages count from 1) of the selected records `s`: the `p`-th run of `BATCH_SIZE` of them, empty past the end. */
  function Window(s: seq<UpstreamRecord>, p: nat): (w: seq<UpstreamRecord>)
    requires p >= 1
    ensures |w| <= BATCH_SIZE
  {
    var lo := if (p - 1) * BATCH_SIZE < |s| then (p - 1) * BATCH_SIZE else |s|;
    var hi := if p * BATCH_SIZE < |s| then p * BATCH_SIZE else |s|;
    s[lo..hi]
  }

  /**
   * The answers to the page requests 1, 2, ... of a run whose filter is
   * `update_time__gte: t`; the requests past the last page answer an empty
   * `rows`, as the pages past this sequence do.
   */
  function Served(data: seq<UpstreamRecord>, t: int): seq<Fetch>
  {
    var s := Since(data, t);
    seq(|s| + 1, i requires 0 <= i < |s| + 1 => Rows(Window(s, i + 1)))
  }

  // ------------------------------------------------------ the served pages

  /** On sorted records the selection is a suffix: a record is selected iff it lies at or after `t`. */
  lemma {:induction false} SkipSplits(data: seq<UpstreamRecord>, t: int, i: int)
    requires SortedData(data) && 0 <= i < |data|
    ensures data[i].update_time >= t <==> i >= Skip(data, t)
    decreases |data|
  {
    if data[0].update_time < t && i > 0 {
      var rest := data[1..];
      assert SortedData(rest) by {
        forall a, b | 0 <= a < b < |rest| ensures KeyLess(rest[a], rest[b]) {
          assert rest[a] == data[a + 1] && rest[b] == data[b + 1];
        }
      }
      SkipSplits(rest, t, i - 1);
      assert rest[i - 1] == data[i];
    } else if i > 0 {
      assert KeyLess(data[0], data[i]);
    }
  }

  /** The filter selects exactly the records at or after `t`. */
  lemma SinceMembers(data: seq<UpstreamRecord>, t: int, r: UpstreamRecord)
    requires SortedData(data)
    ensures r in Since(data, t) <==> r in data && r.update_time >= t
  {
    var k := Skip(data, t);
    if r in Since(data, t) {
      var j :| 0 <= j < |data| - k && data[k..][j] == r;
      SkipSplits(data, t, k + j);
    }
    if r in data && r.update_time >= t {
      var i :| 0 <= i < |data| && data[i] == r;
      SkipSplits(data, t, i);
      assert data[k..][i - k] == r;
    }
  }

  lemma SinceSorted(data: seq<UpstreamRecord>, t: int)
    requires SortedData(data)
    ensures SortedData(Since(data, t))
  {
    var k := Skip(data, t);
    forall a, b | 0 <= a < b < |data| - k ensures KeyLess(data[k..][a], data[k..][b]) {
      assert data[k..][a] == data[k + a] && data[k..][b] == data[k + b];
    }
  }

  /** Request `p` of a run filtered from `t` answers page `p` of the selected records. */
  lemma ServedAt(data: seq<UpstreamRecord>, t: int, p: nat)
    requires p >= 1
    ensures FetchAt(Served(data, t), p) == Rows(Window(Since(data, t), p))
  {
    var s := Since(data, t);
    if p > |s| + 1 {
      assert (p - 1) * BATCH_SIZE >= |s|;
      assert Window(s, p) == [];
    }
  }

  /** Where page `p` sits in the selected records `s`. */
  lemma WindowBounds(s: seq<UpstreamRecord>, p: nat)
    requires p >= 1
    ensures (p - 1) * BATCH_SIZE < |s| ==> forall j :: 0 <= j < |Window(s, p)| ==> Window(s, p)[j] == s[(p - 1) * BATCH_SIZE + j]
    ensures p * BATCH_SIZE <= |s| ==> |Window(s, p)| == BATCH_SIZE
    ensures p * BATCH_SIZE > |s| ==> |Window(s, p)| == if (p - 1) * BATCH_SIZE < |s| then |s| - (p - 1) * BATCH_SIZE else 0
  {
  }

  lemma WindowMembers(s: seq<UpstreamRecord>, p: nat, r: UpstreamRecord)
    requires p >= 1 && r in Window(s, p)
    ensures r in s
  {
  }

  /** A page of sorted records is sorted. */
  lemma WindowSorted(s: seq<UpstreamRecord>, p: nat)
    requires p >= 1 && SortedData(s)
    ensures SortedPage(Window(s, p))
  {
    var w := Window(s, p);
    if (p - 1) * BATCH_SIZE < |s| {
      WindowBounds(s, p);
      forall a, b | 0 <= a < b < |w| ensures KeyLe(w[a], w[b]) {
        assert KeyLess(s[(p - 1) * BATCH_SIZE + a], s[(p - 1) * BATCH_SIZE + b]);
      }
    } else {
      assert w == [];
    }
  }

  // ------------------------------------------------- one run, then the next

  /** The last page a run requested answered fewer than `BATCH_SIZE` rows: nothing the filter selects was left unread. */
  predicate Exhausted(upstream: seq<Fetch>, plan: Plan)
  {
    FetchAt(upstream, plan.fetches).Rows? && |FetchAt(upstream, plan.fetches).rows| < BATCH_SIZE
  }

  /** Page `n` yielded the last batch of a run from the selected records `s`, and it ends with the last record of that page. */
  lemma LastBatchOfPage(data: seq<UpstreamRecord>, c: Cursor, t: int)
    requires SortedData(data) && PlanFrom(c, Served(data, t), 1).batches != []
    ensures var b := PlanFrom(c, Served(data, t), 1).batches;
      var n := |b|;
      var w := Window(Since(data, t), n);
      && b[n - 1] == CursorFilter(c, w)
      && w != [] && b[n - 1] != [] && b[n - 1][|b[n - 1]| - 1] == w[|w| - 1]
      && After(c, w[|w| - 1])
  {
    var u, s := Served(data, t), Since(data, t);
    var b := PlanFrom(c, u, 1).batches;
    var n := |b|;
    PlanBatches(c, u, 1, n - 1);
    ServedAt(data, t, n);
    FilteredWindowLast(data, c, t, n);
  }

  /** On sorted records a page that filters to something ends with a record that passed, and the batch ends with it too. */
  lemma FilteredWindowLast(data: seq<UpstreamRecord>, c: Cursor, t: int, n: nat)
    requires SortedData(data) && n >= 1 && CursorFilter(c, Window(Since(data, t), n)) != []
    ensures var w := Window(Since(data, t), n);
      var batch := CursorFilter(c, w);
      w != [] && batch[|batch| - 1] == w[|w| - 1] && After(c, w[|w| - 1])
  {
    var s := Since(data, t);
    var w := Window(s, n);
    var batch := CursorFilter(c, w);
    SinceSorted(data, t);
    WindowSorted(s, n);
    FilterKeepsLast(c, w);
    CursorFilterMembers(c, w, batch[|batch| - 1]);
  }

  /** A page that holds records after a full page whose last record passed the cursor does not stop the run. */
  lemma NextPageCommits(data: seq<UpstreamRecord>, c: Cursor, t: int, n: nat)
    requires SortedData(data) && n >= 1
    requires var s := Since(data, t); n * BATCH_SIZE < |s| && After(c, s[n * BATCH_SIZE - 1])
    ensures PageStep(c, Served(data, t), n + 1).Commit?
  {
    var s := Since(data, t);
    SinceSorted(data, t);
    ServedAt(data, t, n + 1);
    WindowBounds(s, n + 1);
    var w := Window(s, n + 1);
    assert w[0] == s[n * BATCH_SIZE];
    assert KeyLess(s[n * BATCH_SIZE - 1], s[n * BATCH_SIZE]);
    CursorFilterMembers(c, w, w[0]);
  }

  /** When the run read every selected record, its last committed record is the last record the filter selects. */
  lemma LastCommittedIsLastServed(data: seq<UpstreamRecord>, c: Cursor, t: int)
    requires SortedData(data)
    requires var plan := PlanFrom(c, Served(data, t), 1); plan.batches != [] && Exhausted(Served(data, t), plan)
    ensures var s := Since(data, t);
      var b := PlanFrom(c, Served(data, t), 1).batches;
      var last := b[|b| - 1];
      s != [] && last != [] && last[|last| - 1] == s[|s| - 1]
  {
    var u, s := Served(data, t), Since(data, t);
    var plan := PlanFrom(c, u, 1);
    var n := |plan.batches|;
    LastBatchOfPage(data, c, t);
    PlanFetches(c, u, 1);
    if plan.fetches == n {
      ShortPageIsLast(data, c, t);
    } else {
      assert |CursorFilter(c, Window(s, n))| >= BATCH_SIZE;
      FullPageIsLast(data, c, t);
    }
  }

  /** A run that ended on the short page of its last batch ended on the last selected record. */
  lemma ShortPageIsLast(data: seq<UpstreamRecord>, c: Cursor, t: int)
    requires var plan := PlanFrom(c, Served(data, t), 1);
      var n := |plan.batches|;
      && n >= 1 && plan.fetches == n && Exhausted(Served(data, t), plan)
      && Window(Since(data, t), n) != []
    ensures var s := Since(data, t);
      var w := Window(s, |PlanFrom(c, Served(data, t), 1).batches|);
      w[|w| - 1] == s[|s| - 1]
  {
    var n := |PlanFrom(c, Served(data, t), 1).batches|;
    ServedAt(data, t, n);
    ShortWindowIsLast(Since(data, t), n);
  }

  /**
   * A run whose last batch came from a full page and that then stopped on
   * the next page read every selected record: a further selected record
   * would lie after the page's last one and commit.
   */
  lemma FullPageIsLast(data: seq<UpstreamRecord>, c: Cursor, t: int)
    requires SortedData(data)
    requires |PlanFrom(c, Served(data, t), 1).batches| >= 1
    requires var plan := PlanFrom(c, Served(data, t), 1);
      var n := |plan.batches|;
      var w := Window(Since(data, t), n);
      && plan.fetches == n + 1 && |w| >= BATCH_SIZE && After(c, w[|w| - 1])
    ensures var s := Since(data, t);
      var w := Window(s, |PlanFrom(c, Served(data, t), 1).batches|);
      w[|w| - 1] == s[|s| - 1]
  {
    var u, s := Served(data, t), Since(data, t);
    var n := |PlanFrom(c, u, 1).batches|;
    FullWindowEnds(s, n);
    if n * BATCH_SIZE < |s| {
      PlanStopPage(c, u, 1);
      NextPageCommits(data, c, t, n);
      assert false;
    }
  }

  /** A page shorter than `BATCH_SIZE` is the last one: it ends with the last selected record. */
  lemma ShortWindowIsLast(s: seq<UpstreamRecord>, p: nat)
    requires p >= 1 && Window(s, p) != [] && |Window(s, p)| < BATCH_SIZE
    ensures Window(s, p)[|Window(s, p)| - 1] == s[|s| - 1]
  {
  }

  /** A full page `p` ends with selected record `p * BATCH_SIZE`. */
  lemma FullWindowEnds(s: seq<UpstreamRecord>, p: nat)
    requires p >= 1 && |Window(s, p)| >= BATCH_SIZE
    ensures p * BATCH_SIZE <= |s| && Window(s, p)[|Window(s, p)| - 1] == s[p * BATCH_SIZE - 1]
  {
  }

  /** When a run read every selected record, no record the upstream holds lies after its last committed one. */
  lemma CaughtUp(data: seq<UpstreamRecord>, c: Cursor, t: int, r: UpstreamRecord)
    requires SortedData(data) && r in data
    requires var plan := PlanFrom(c, Served(data, t), 1); plan.batches != [] && Exhausted(Served(data, t), plan)
    ensures var b := PlanFrom(c, Served(data, t), 1).batches;
      var last := b[|b| - 1];
      last != [] && !After(CursorAt(last[|last| - 1]), r)
  {
    var s := Since(data, t);
    LastCommittedIsLastServed(data, c, t);
    var x := s[|s| - 1];
    SinceMembers(data, t, x);
    SinceMembers(data, t, r);
    if r.update_time >= t {
      SinceSorted(data, t);
      var i :| 0 <= i < |s| && s[i] == r;
      if i < |s| - 1 {
        assert KeyLess(s[i], x);
      }
      assert KeyLe(r, x);
    }
  }

  lemma CaughtUpAll(data: seq<UpstreamRecord>, c: Cursor, t: int)
    requires SortedData(data)
    requires var plan := PlanFrom(c, Served(data, t), 1); plan.batches != [] && Exhausted(Served(data, t), plan)
    ensures var b := PlanFrom(c, Served(data, t), 1).batches;
      var last := b[|b| - 1];
      last != [] && forall r :: r in data ==> !After(CursorAt(last[|last| - 1]), r)
  {
    var b := PlanFrom(c, Served(data, t), 1).batches;
    var last := b[|b| - 1];
    LastCommittedIsLastServed(data, c, t);
    forall r | r in data ensures !After(CursorAt(last[|last| - 1]), r) {
      CaughtUp(data, c, t, r);
    }
  }

  /** A run from a cursor no record lies after commits nothing, whatever page of whatever filter it reads. */
  lemma NothingAfterIdle(data: seq<UpstreamRecord>, c: Cursor, t: int, table: map<int, TableRow>,
                         state: Option<SyncState>, faults: Faults, now: int)
    requires SortedData(data) && forall r :: r in data ==> !After(c, r)
    ensures PlanFrom(c, Served(data, t), 1).batches == []
    ensures FinalState(state, PlanFrom(c, Served(data, t), 1).batches, faults.stateWrites, now) == state
    ensures SumLengths(PlanFrom(c, Served(data, t), 1).batches) == 0
  {
    ServedAt(data, t, 1);
    var u := Served(data, t);
    forall r | FetchAt(u, 1).Rows? && r in FetchAt(u, 1).rows
      ensures !After(c, r)
    {
      WindowMembers(Since(data, t), 1, r);
      SinceMembers(data, t, r);
    }
    NothingNew(c, u, table, state, faults, now);
  }

  /** A run from cursor `c` at `now` over `data` commits no batch, reports 0 and leaves the state row `state` as it was. */
  predicate IdleRun(data: seq<UpstreamRecord>, c: Cursor, state: Option<SyncState>, faults: Faults, now: int)
  {
    var plan := PlanFrom(c, Served(data, Threshold(c, now)), 1);
    && plan.batches == []
    && SumLengths(plan.batches) == 0
    && FinalState(state, plan.batches, faults.stateWrites, now) == state
  }

  /**
   * Idempotence over unchanged data: when a run read every record its filter
   * selects and its last state write succeeded, the next run reads the cursor
   * at the last committed record, requests the pages from that cursor's
   * timestamp, commits nothing, reports 0 and leaves the state row alone.
   */
  lemma SecondRunIdle(data: seq<UpstreamRecord>, c: Cursor, state: Option<SyncState>, faults1: Faults, faults2: Faults,
                      now: int, later: int)
    requires SortedData(data)
    requires PlanFrom(c, Served(data, Threshold(c, now)), 1).batches != []
    requires Exhausted(Served(data, Threshold(c, now)), PlanFrom(c, Served(data, Threshold(c, now)), 1))
    ensures var first := PlanFrom(c, Served(data, Threshold(c, now)), 1).batches;
      var last := first[|first| - 1];
      last != [] && (
        var c2 := CursorAt(last[|last| - 1]);
        var after := FinalState(state, first, faults1.stateWrites, now);
        && (forall r :: r in data ==> !After(c2, r))
        && (!RejectedAt(faults1.stateWrites, |first|) ==>
              after == Some(SyncState(Some(now), Some(c2))) && StartCursor(after, false) == c2)
        && IdleRun(data, c2, after, faults2, later))
  {
    var t := Threshold(c, now);
    var first := PlanFrom(c, Served(data, t), 1).batches;
    CaughtUpAll(data, c, t);
    var last := first[|first| - 1];
    var c2 := CursorAt(last[|last| - 1]);
    var after := FinalState(state, first, faults1.stateWrites, now);
    FinalStateWrites(state, first, faults1.stateWrites, now);
    IdleWhenCaughtUp(data, c2, after, faults2, later);
  }

  /** A run from a cursor at or past every record commits nothing and leaves the state row alone. */
  lemma IdleWhenCaughtUp(data: seq<UpstreamRecord>, c: Cursor, state: Option<SyncState>, faults: Faults, now: int)
    requires SortedData(data) && forall r :: r in data ==> !After(c, r)
    ensures IdleRun(data, c, state, faults, now)
  {
    NothingAfterIdle(data, c, Threshold(c, now), map[], state, faults, now);
  }

  // ------------------------------------------------ a cursor that stalls

  /**
   * As written, a run stalls when the first `BATCH_SIZE` records its filter
   * selects all lie at or before the cursor: page 1 filters to nothing, the
   * loop ends, no state is written, and every later run reads the same
   * cursor, sends the same filter and stops on the same page, while records
   * after the cursor may lie beyond it.
   */
  lemma StallAsWritten(data: seq<UpstreamRecord>, c: Cursor, state: Option<SyncState>, faults: Faults, now: int, later: int)
    requires SortedData(data)
    requires var s := Since(data, Threshold(c, now));
      |s| >= BATCH_SIZE && forall i :: 0 <= i < BATCH_SIZE ==> !After(c, s[i])
    ensures c.last_timestamp.Some? && Threshold(c, later) == Threshold(c, now)
    ensures PlanFrom(c, Served(data, Threshold(c, later)), 1) == Plan([], 1, false)
    ensures FinalState(state, PlanFrom(c, Served(data, Threshold(c, later)), 1).batches, faults.stateWrites, later) == state
  {
    var s := Since(data, Threshold(c, now));
    assert !After(c, s[0]);
    var u := Served(data, Threshold(c, later));
    ServedAt(data, Threshold(c, later), 1);
    WindowBounds(s, 1);
    var w := Window(s, 1);
    if CursorFilter(c, w) != [] {
      CursorFilterMembers(c, w, CursorFilter(c, w)[0]);
      assert false;
    }
  }

  /** The records of the stall: `count` records sharing one timestamp `t`, with ids 1 to `count`. */
  function SameStamp(x: UpstreamRecord, t: int, count: nat): (data: seq<UpstreamRecord>)
    ensures |data| == count
  {
    seq(count, i requires 0 <= i < count => x.(id := i + 1, update_time := t))
  }

  /**
   * The input that shows the stall: 501 records updated at the same instant
   * `t` and a cursor at (t, 500), as left by a run that committed the first
   * page and then failed. Record 501 lies after the cursor, yet every run
   * stops on page 1 and commits nothing.
   */
  lemma StallExample(x: UpstreamRecord, t: int, state: Option<SyncState>, faults: Faults, now: int)
    ensures var data := SameStamp(x, t, BATCH_SIZE + 1);
      var c := Cursor(Some(t), BATCH_SIZE);
      && SortedData(data)
      && After(c, data[BATCH_SIZE])
      && PlanFrom(c, Served(data, Threshold(c, now)), 1) == Plan([], 1, false)
  {
    var data := SameStamp(x, t, BATCH_SIZE + 1);
    var c := Cursor(Some(t), BATCH_SIZE);
    assert Skip(data, t) == 0;
    assert Since(data, t) == data;
    StallAsWritten(data, c, state, faults, now, now);
  }

  // ---------------------------------------------- the corrected page loop

  /** Page `page` answered a full page of rows. */
  predicate FullFetch(upstream: seq<Fetch>, page: nat)
  {
    FetchAt(upstream, page).Rows? && |FetchAt(upstream, page).rows| >= BATCH_SIZE
  }

  /**
   * The page loop as evidently intended: a full page whose records all lie at
   * or before the cursor moves on to the next page instead of ending the run;
   * every other page does what the route does.
   */
  function CatchUpFrom(c: Cursor, upstream: seq<Fetch>, page: nat): Plan
    requires page >= 1
    decreases |upstream| + 1 - page
  {
    match PageStep(c, upstream, page)
    case Stop(aborted) =>
      if FullFetch(upstream, page) then
        var rest := CatchUpFrom(c, upstream, page + 1);
        Plan(rest.batches, 1 + rest.fetches, rest.aborted)
      else Plan([], 1, aborted)
    case Commit(batch) =>
      if |batch| < BATCH_SIZE then Plan([batch], 1, false)
      else
        var rest := CatchUpFrom(c, upstream, page + 1);
        Plan([batch] + rest.batches, 1 + rest.fetches, rest.aborted)
  }

  /** Record `i` of `s` is on page `p` when it is below the page's end; past it, page `p` is full. */
  lemma WindowAt(s: seq<UpstreamRecord>, p: nat, i: nat)
    requires p >= 1 && (p - 1) * BATCH_SIZE <= i < |s|
    ensures i < p * BATCH_SIZE ==> Window(s, p)[i - (p - 1) * BATCH_SIZE] == s[i]
    ensures i >= p * BATCH_SIZE ==> |Window(s, p)| == BATCH_SIZE
  {
  }

  /** From page `p` on, the corrected loop commits something when a selected record at or past page `p` lies after the cursor. */
  lemma {:induction false} CatchUpReaches(data: seq<UpstreamRecord>, c: Cursor, t: int, p: nat, i: nat)
    requires p >= 1
    requires (p - 1) * BATCH_SIZE <= i < |Since(data, t)| && After(c, Since(data, t)[i])
    ensures CatchUpFrom(c, Served(data, t), p).batches != []
    decreases |Since(data, t)| - i + |Served(data, t)| + 1 - p
  {
    var s, u := Since(data, t), Served(data, t);
    ServedAt(data, t, p);
    WindowAt(s, p, i);
    var w := Window(s, p);
    if i < p * BATCH_SIZE {
      CursorFilterMembers(c, w, s[i]);
    } else if CursorFilter(c, w) == [] {
      assert FullFetch(u, p);
      assert p <= |u|;
      CatchUpReaches(data, c, t, p + 1, i);
    }
  }

  /** The corrected loop never stalls: when a record the filter selects lies after the cursor, the run commits a batch. */
  lemma CatchUpProgress(data: seq<UpstreamRecord>, c: Cursor, t: int, r: UpstreamRecord)
    requires SortedData(data) && r in data && r.update_time >= t && After(c, r)
    ensures CatchUpFrom(c, Served(data, t), 1).batches != []
  {
    SinceMembers(data, t, r);
    var s := Since(data, t);
    var i :| 0 <= i < |s| && s[i] == r;
    CatchUpReaches(data, c, t, 1, i);
  }

  /** On the input of the stall the corrected loop commits record 501. */
  lemma StallExampleCorrected(x: UpstreamRecord, t: int, now: int)
    ensures var data := SameStamp(x, t, BATCH_SIZE + 1);
      var c := Cursor(Some(t), BATCH_SIZE);
      CatchUpFrom(c, Served(data, Threshold(c, now)), 1).batches != []
  {
    var data := SameStamp(x, t, BATCH_SIZE + 1);
    var c := Cursor(Some(t), BATCH_SIZE);
    assert SortedData(data);
    assert data[BATCH_SIZE] in data;
    CatchUpProgress(data, c, t, data[BATCH_SIZE]);
  }
}
