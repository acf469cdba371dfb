/**
 * What the two application tables (`components/home-content.tsx` and
 * `components/application-content.tsx`) compute alike: the visible header
 * columns, the page count, the date part of the query and the assembly of
 * the query string from its parameters.
 */
module TableView {
  import opened Js
  import opened JsDate
  import opened DateUtils

  // --------------------------------------------------------------- columns

  /** A column of the table: its header, its key in an application, and whether it sorts. */
  datatype Column = Column(name: string, uid: string, sortable: Option<bool>)

  /** The header columns of the `sortDescriptor` state: the column and whether the direction is "ascending". */
  datatype SortDescriptor = SortDescriptor(column: string, ascending: bool)

  /** `columns.filter((c) => Array.from(visible).includes(c.uid))` */
  function Visible(columns: seq<Column>, visible: set<string>): (shown: seq<Column>)
    ensures |shown| <= |columns|
  {
    if columns == [] then []
    else (if columns[0].uid in visible then [columns[0]] else []) + Visible(columns[1..], visible)
  }

  /** `headerColumns`: every column when the visible set is as large as the column list, else the visible ones. */
  function HeaderColumns(columns: seq<Column>, visible: set<string>): seq<Column>
  {
    if |visible| == |columns| then columns else Visible(columns, visible)
  }

  function Uids(columns: seq<Column>): set<string>
  {
    set i | 0 <= i < |columns| :: columns[i].uid
  }

  predicate DistinctUids(columns: seq<Column>)
  {
    forall i, j :: 0 <= i < j < |columns| ==> columns[i].uid != columns[j].uid
  }

  /** The visible columns are those whose uid is in the set. */
  lemma {:induction false} VisibleMembers(columns: seq<Column>, visible: set<string>)
    ensures forall c :: c in Visible(columns, visible) <==> c in columns && c.uid in visible
    decreases |columns|
  {
    if columns != [] {
      VisibleMembers(columns[1..], visible);
      assert columns == [columns[0]] + columns[1..];
    }
  }

  /** Filtering distributes over concatenation, so the visible columns keep the column order. */
  lemma {:induction false} VisibleAppend(a: seq<Column>, b: seq<Column>, visible: set<string>)
    ensures Visible(a + b, visible) == Visible(a, visible) + Visible(b, visible)
    decreases |a|
  {
    if a == [] {
      assert a + b == b;
    } else {
      var head := if a[0].uid in visible then [a[0]] else [];
      assert (a + b)[0] == a[0];
      assert (a + b)[1..] == a[1..] + b;
      assert Visible(a + b, visible) == head + Visible(a[1..] + b, visible);
      VisibleAppend(a[1..], b, visible);
      assert Visible(a, visible) == head + Visible(a[1..], visible);
    }
  }

  /** Showing every uid keeps every column. */
  lemma {:induction false} VisibleAll(columns: seq<Column>, visible: set<string>)
    requires Uids(columns) <= visible
    ensures Visible(columns, visible) == columns
    decreases |columns|
  {
    if columns != [] {
      assert columns[0].uid in Uids(columns);
      assert Uids(columns[1..]) <= Uids(columns) by {
        forall u | u in Uids(columns[1..]) ensures u in Uids(columns) {
          var i :| 0 <= i < |columns[1..]| && columns[1..][i].uid == u;
          assert columns[i + 1].uid == u;
        }
      }
      VisibleAll(columns[1..], visible);
    }
  }

  /** Distinct uids are as many as the columns. */
  lemma {:induction false} UidsCount(columns: seq<Column>)
    requires DistinctUids(columns)
    ensures |Uids(columns)| == |columns|
    decreases |columns|
  {
    if columns != [] {
      var rest := columns[1..];
      UidsCount(rest);
      assert Uids(columns) == {columns[0].uid} + Uids(rest) by {
        forall u | u in Uids(columns) ensures u in {columns[0].uid} + Uids(rest) {
          var i :| 0 <= i < |columns| && columns[i].uid == u;
          if i > 0 {
            assert rest[i - 1].uid == u;
          }
        }
        forall u | u in Uids(rest) ensures u in Uids(columns) {
          var i :| 0 <= i < |rest| && rest[i].uid == u;
          assert columns[i + 1].uid == u;
        }
      }
      assert columns[0].uid !in Uids(rest) by {
        forall i | 0 <= i < |rest|
          ensures rest[i].uid != columns[0].uid
        {
          assert rest[i] == columns[i + 1];
        }
      }
    }
  }

  /**
   * When the visible set holds column uids only, the shortcut for a full set
   * agrees with the filter: the header is always the columns whose uid is
   * visible, in the original order.
   */
  lemma HeaderColumnsVisible(columns: seq<Column>, visible: set<string>)
    requires DistinctUids(columns) && visible <= Uids(columns)
    ensures HeaderColumns(columns, visible) == Visible(columns, visible)
  {
    if |visible| == |columns| {
      UidsCount(columns);
      assert visible == Uids(columns) by {
        var missing := Uids(columns) - visible;
        assert Uids(columns) == visible + missing;
        assert |Uids(columns)| == |visible| + |missing|;
      }
      VisibleAll(columns, visible);
    }
  }

  // ----------------------------------------------------------------- pages

  /** `Math.ceil(count / rowsPerPage) || 1`, written in integers. */
  function Pages(count: nat, rowsPerPage: int): int
    requires rowsPerPage > 0
  {
    if count == 0 then 1 else (count - 1) / rowsPerPage + 1
  }

  /** There is at least one page, the pages hold every row, and there is no empty page past the first. */
  lemma PagesCover(count: nat, rowsPerPage: int)
    requires rowsPerPage > 0
    ensures Pages(count, rowsPerPage) >= 1
    ensures count <= Pages(count, rowsPerPage) * rowsPerPage
    ensures count == 0 || (Pages(count, rowsPerPage) - 1) * rowsPerPage < count
  {
    if count > 0 {
      var q, r := (count - 1) / rowsPerPage, (count - 1) % rowsPerPage;
      assert count - 1 == q * rowsPerPage + r;
      assert (q + 1) * rowsPerPage == q * rowsPerPage + rowsPerPage;
    }
  }

  // ----------------------------------------------------------------- query

  /** `dateQuery`: the two bounds in `YYYY-MM-DD` form, or nothing unless both are set. */
  function DateQuery(range: DateRange): string
  {
    if range.from.None? || range.to.None? then ""
    else "from=" + FormatDate(range.from.value) + "&to=" + FormatDate(range.to.value)
  }

  /** `formatDate` output, after a parameter name, holds no `&`. */
  lemma NoAmpersand(name: string, d: Day)
    requires '&' !in name
    ensures '&' !in name + FormatDate(d)
  {
    FormatDateCharacters(d);
    var s := name + FormatDate(d);
    forall i | 0 <= i < |s|
      ensures s[i] != '&'
    {
      if i >= |name| {
        assert s[i] == FormatDate(d)[i - |name|];
      }
    }
  }

  lemma DateQueryForm(x: string, y: string)
    ensures "from=" + x + "&to=" + y == ("from=" + x) + ['&'] + ("to=" + y)
  {
    assert "&to=" == ['&'] + "to=";
  }

  lemma SplitTwo(f: string, t: string, sep: char)
    requires sep !in f && sep !in t
    ensures Split(f + [sep] + t, sep) == [f, t]
  {
    SplitAfter(f, t, sep);
    SplitWhole(t, sep);
  }

  /** Both bounds give exactly the two parameters `from` and `to`; otherwise there is none. */
  lemma DateQueryParameters(range: DateRange)
    ensures DateQuery(range) == "" <==> range.from.None? || range.to.None?
    ensures range.from.Some? && range.to.Some? ==>
      Split(DateQuery(range), '&') == ["from=" + FormatDate(range.from.value), "to=" + FormatDate(range.to.value)]
  {
    if range.from.Some? && range.to.Some? {
      NoAmpersand("from=", range.from.value);
      NoAmpersand("to=", range.to.value);
      DateQueryForm(FormatDate(range.from.value), FormatDate(range.to.value));
      SplitTwo("from=" + FormatDate(range.from.value), "to=" + FormatDate(range.to.value), '&');
    }
  }

  /** `statusQuery` of the home table: the `status` parameter, or nothing for status 0 ("all"). */
  function StatusQuery(statusFilter: int): string
  {
    if statusFilter == 0 then "" else "status=" + IntToString(statusFilter)
  }

  /** `params.filter(Boolean)`: the non-empty parameters, in order. */
  function NonEmpty(params: seq<string>): (kept: seq<string>)
    ensures |kept| <= |params|
    ensures forall i :: 0 <= i < |kept| ==> kept[i] != ""
  {
    if params == [] then []
    else (if params[0] == "" then [] else [params[0]]) + NonEmpty(params[1..])
  }

  /** Filtering distributes over concatenation, so the kept parameters stay in order. */
  lemma {:induction false} NonEmptyAppend(a: seq<string>, b: seq<string>)
    ensures NonEmpty(a + b) == NonEmpty(a) + NonEmpty(b)
    decreases |a|
  {
    if a == [] {
      assert a + b == b;
    } else {
      assert (a + b)[0] == a[0];
      assert (a + b)[1..] == a[1..] + b;
      NonEmptyAppend(a[1..], b);
    }
  }

  /** `s` if `present`, else nothing. */
  function When(present: bool, s: string): seq<string>
  {
    if present then [s] else []
  }

  /** `.filter(Boolean)` keeps or drops the first parameter, then filters the rest. */
  lemma NonEmptyCons(x: string, rest: seq<string>)
    ensures NonEmpty([x] + rest) == When(x != "", x) + NonEmpty(rest)
  {
    assert ([x] + rest)[1..] == rest;
  }

  lemma NonEmptyOne(x: string)
    ensures NonEmpty([x]) == When(x != "", x)
  {
    assert [x][1..] == [];
  }

  /** `params.length ? "&" + params.join("&") : ""` */
  function QueryString(params: seq<string>): string
  {
    if |params| > 0 then "&" + Join(params, '&') else ""
  }

  /** A non-empty parameter list gives a query string starting with `&`, from which splitting on `&` after the first character restores parameters free of `&`. */
  lemma QueryStringParameters(params: seq<string>)
    ensures QueryString(params) == "" <==> params == []
    ensures params != [] ==> QueryString(params)[0] == '&'
    ensures params != [] && (forall i :: 0 <= i < |params| ==> '&' !in params[i]) ==>
      Split(QueryString(params)[1..], '&') == params
  {
    if params != [] {
      assert QueryString(params)[1..] == Join(params, '&');
      if forall i :: 0 <= i < |params| ==> '&' !in params[i] {
        SplitJoin(params, '&');
      }
    }
  }
}
