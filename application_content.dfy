/**
 * The applications table (`components/application-content.tsx`): it asks
 * the upstream proxy for the applications with a status and date query,
 * then filters them by name, cuts out the current page and sorts that page
 * by the chosen column, all on the client.
 */
module ApplicationContent {
  import opened Js
  import opened DateUtils
  import opened TableView

  const COLUMNS: seq<Column> := [
    Column("CODE", "code", Some(true)),
    Column("MÃ KHÁCH HÀNG", "customer__code", None),
    Column("FULL NAME", "fullname", None),
    Column("GIỚI TÍNH", "sex__name", None),
    Column("GIẤY TỜ", "legal_type__name", None),
    Column("MÃ SỐ", "legal_code", None),
    Column("LOẠI SẢN PHẨM", "product__type__name", None),
    Column("TÀI SẢN CẦM CỐ", "product__category__name", None),
    Column("LOẠI TIỀN", "currency__code", None),
    Column("NGƯỜI TẠO ĐƠN", "creator__fullname", None),
    Column("NGUỒN", "source__name", None),
    Column("LOAN CODE", "loanapp__code", None),
    Column("PROVINCE", "province", None),
    Column("DISTRICT", "district", None),
    Column("ADDRESS", "address", None),
    Column("LOAN AMOUNT", "loan_amount", None),
    Column("TERM", "loan_term", None),
    Column("STATUS", "status", None),
    Column("NOTE", "note", None),
    Column("CREATED TIME", "create_time", None)
  ]

  const INITIAL_VISIBLE_COLUMNS: seq<string> := [
    "code", "fullname", "province", "district", "loan_amount",
    "loan_term", "status", "note", "create_time"
  ]

  const ROWS_PER_PAGE: int := 20

  /** The table starts sorted by `code`, descending. */
  const INITIAL_SORT: SortDescriptor := SortDescriptor("code", false)

  /** `headerColumns` of the applications table. */
  function ApplicationHeaderColumns(visible: set<string>): seq<Column>
  {
    HeaderColumns(COLUMNS, visible)
  }

  // ----------------------------------------------------------------- query

  predicate StartsWith(s: string, prefix: string)
  {
    |s| >= |prefix| && s[..|prefix|] == prefix
  }

  /** Whether a parameter list carries the `status` parameter the proxy route reads. */
  predicate HasStatusParam(params: seq<string>)
  {
    exists i :: 0 <= i < |params| && StartsWith(params[i], "status=")
  }

  /** `statusQuery` as written: the bare status number, or nothing for status 0. */
  function StatusQueryAsWritten(statusFilter: int): string
  {
    if statusFilter == 0 then "" else IntToString(statusFilter)
  }

  /** The parameters of `queryString` as written. */
  function ParamsAsWritten(statusFilter: int, range: DateRange): seq<string>
  {
    NonEmpty([StatusQueryAsWritten(statusFilter)] + [DateQuery(range)])
  }

  /** `.filter(Boolean)` on two parameters. */
  lemma NonEmptyTwo(a: string, b: string)
    ensures NonEmpty([a] + [b]) == When(a != "", a) + When(b != "", b)
  {
    NonEmptyCons(a, [b]);
    NonEmptyOne(b);
  }

  /** A string that starts with a non-empty prefix starts with its first character. */
  lemma StartsWithFirst(s: string, prefix: string)
    requires prefix != [] && StartsWith(s, prefix)
    ensures s[0] == prefix[0]
  {
    assert s[..|prefix|][0] == s[0];
  }

  /** The date parameters start with `f`, the bare status with a digit or `-`: neither is `status=...`. */
  lemma NotStatusParams(statusFilter: int, range: DateRange)
    ensures !StartsWith(StatusQueryAsWritten(statusFilter), "status=")
    ensures !StartsWith(DateQuery(range), "status=")
  {
    var bare, dates := StatusQueryAsWritten(statusFilter), DateQuery(range);
    DigitsOrDash(statusFilter);
    if bare != "" {
      assert bare[0] != 's';
    }
    if dates != "" {
      assert dates[0] == 'f';
    }
    if StartsWith(bare, "status=") {
      StartsWithFirst(bare, "status=");
      assert false;
    }
    if StartsWith(dates, "status=") {
      StartsWithFirst(dates, "status=");
      assert false;
    }
  }

  /**
   * As written, no parameter is ever named `status`: a chosen status goes out
   * as a bare `&<n>`, which the proxy route does not read, so the status
   * filter of this table never reaches the upstream.
   */
  lemma StatusDroppedAsWritten(statusFilter: int, range: DateRange)
    ensures !HasStatusParam(ParamsAsWritten(statusFilter, range))
    ensures statusFilter != 0 && range.from.None? ==>
      QueryString(ParamsAsWritten(statusFilter, range)) == "&" + IntToString(statusFilter)
  {
    var bare, dates := StatusQueryAsWritten(statusFilter), DateQuery(range);
    NonEmptyTwo(bare, dates);
    NotStatusParams(statusFilter, range);
    NoStatusParam(bare, dates);
    if statusFilter != 0 && range.from.None? {
      BareQuery(bare);
    }
  }

  /** Two parameters, neither named `status`, keep none after `.filter(Boolean)`. */
  lemma NoStatusParam(a: string, b: string)
    requires !StartsWith(a, "status=") && !StartsWith(b, "status=")
    ensures !HasStatusParam(When(a != "", a) + When(b != "", b))
  {
    var params := When(a != "", a) + When(b != "", b);
    forall i | 0 <= i < |params|
      ensures !StartsWith(params[i], "status=")
    {
      assert params[i] == a || params[i] == b;
    }
  }

  /** A lone parameter is the whole query after the `&`. */
  lemma BareQuery(p: string)
    requires p != ""
    ensures QueryString(When(p != "", p) + When(false, "")) == "&" + p
  {
    assert When(p != "", p) + When(false, "") == [p];
  }

  /** The parameters of `queryString`, with the status sent as the `status` parameter the route reads. */
  function Params(statusFilter: int, range: DateRange): seq<string>
  {
    NonEmpty([StatusQuery(statusFilter)] + [DateQuery(range)])
  }

  /** `queryString` with the status sent by name. */
  function ApplicationQueryString(statusFilter: int, range: DateRange): string
  {
    QueryString(Params(statusFilter, range))
  }

  /**
   * The status parameter is sent iff a status other than 0 ("all") is
   * chosen, and it comes first; the dates come after it when both are set.
   */
  lemma StatusSent(statusFilter: int, range: DateRange)
    ensures HasStatusParam(Params(statusFilter, range)) <==> statusFilter != 0
    ensures statusFilter != 0 ==> Params(statusFilter, range)[0] == "status=" + IntToString(statusFilter)
    ensures Params(statusFilter, range) ==
      When(statusFilter != 0, StatusQuery(statusFilter)) + When(range.from.Some? && range.to.Some?, DateQuery(range))
  {
    var status, dates := StatusQuery(statusFilter), DateQuery(range);
    DateQueryParameters(range);
    NonEmptyTwo(status, dates);
    NotStatusParams(statusFilter, range);
    var params := Params(statusFilter, range);
    assert params == When(status != "", status) + When(dates != "", dates);
    if statusFilter != 0 {
      assert params[0] == status;
      assert status == "status=" + IntToString(statusFilter);
      assert StartsWith(params[0], "status=");
    } else {
      forall i | 0 <= i < |params|
        ensures !StartsWith(params[i], "status=")
      {
        assert params[i] == dates;
      }
    }
  }

  // ---------------------------------------------------------- applications

  /** A value in a sort column, as `<` and `>` compare it: a string or a number. */
  datatype SortValue = Text(s: string) | Amount(n: int)

  /** An application as the table uses it: its full name and its values by column uid. */
  datatype Application = Application(fullname: string, values: map<string, SortValue>)

  /** `a < b` on strings: character by character, a proper prefix first. Characters are compared by code point, which is the UTF-16 code-unit order JavaScript uses for text within the Basic Multilingual Plane. */
  predicate StrLess(a: string, b: string)
    decreases |a|
  {
    b != [] && (a == [] || a[0] < b[0] || (a[0] == b[0] && StrLess(a[1..], b[1..])))
  }

  /**
   * `a < b` on the values of a column. An absent value (`undefined`) compares
   * false. A string against a number is also taken to compare false, which is
   * not what JavaScript does (it converts the string to a number, so `"3" < 5`
   * holds); the one sortable column, `code`, holds strings only.
   */
  predicate Less(a: Option<SortValue>, b: Option<SortValue>)
  {
    && a.Some? && b.Some?
    && ((a.value.Text? && b.value.Text? && StrLess(a.value.s, b.value.s))
        || (a.value.Amount? && b.value.Amount? && a.value.n < b.value.n))
  }

  lemma {:induction false} StrLessAsymmetric(a: string, b: string)
    ensures !(StrLess(a, b) && StrLess(b, a))
    decreases |a|
  {
    if a != [] && b != [] && a[0] == b[0] {
      StrLessAsymmetric(a[1..], b[1..]);
    }
  }

  lemma {:induction false} StrLessTransitive(a: string, b: string, c: string)
    requires StrLess(a, b) && StrLess(b, c)
    ensures StrLess(a, c)
    decreases |a|
  {
    if a != [] && a[0] == b[0] && b[0] == c[0] {
      StrLessTransitive(a[1..], b[1..], c[1..]);
    }
  }

  /** Two values are never each less than the other, and `<` chains. */
  lemma LessOrder(a: Option<SortValue>, b: Option<SortValue>, c: Option<SortValue>)
    ensures !(Less(a, b) && Less(b, a))
    ensures Less(a, b) && Less(b, c) ==> Less(a, c)
  {
    if a.Some? && b.Some? && a.value.Text? && b.value.Text? {
      StrLessAsymmetric(a.value.s, b.value.s);
      if c.Some? && c.value.Text? && Less(a, b) && Less(b, c) {
        StrLessTransitive(a.value.s, b.value.s, c.value.s);
      }
    }
  }

  /** `a[column]` */
  function Key(app: Application, column: string): Option<SortValue>
  {
    if column in app.values then Some(app.values[column]) else None
  }

  // --------------------------------------------------------------- filter

  /** `hay.includes(needle)` */
  predicate Contains(hay: string, needle: string)
    decreases |hay|
  {
    StartsWith(hay, needle) || (hay != [] && Contains(hay[1..], needle))
  }

  /** The applications whose lower-cased full name contains `needle`, in order. */
  function Matching(apps: seq<Application>, needle: string, lower: string -> string): (kept: seq<Application>)
    ensures |kept| <= |apps|
  {
    if apps == [] then []
    else (if Contains(lower(apps[0].fullname), needle) then [apps[0]] else []) + Matching(apps[1..], needle, lower)
  }

  /** `filteredItems`; `lower` stands for `toLowerCase`. */
  function FilteredItems(apps: seq<Application>, filter: string, lower: string -> string): seq<Application>
  {
    if filter != "" then Matching(apps, lower(filter), lower) else apps
  }

  lemma {:induction false} MatchingMembers(apps: seq<Application>, needle: string, lower: string -> string)
    ensures forall a :: a in Matching(apps, needle, lower) <==> a in apps && Contains(lower(a.fullname), needle)
    decreases |apps|
  {
    if apps != [] {
      MatchingMembers(apps[1..], needle, lower);
      assert apps == [apps[0]] + apps[1..];
    }
  }

  lemma {:induction false} MatchingAppend(a: seq<Application>, b: seq<Application>, needle: string, lower: string -> string)
    ensures Matching(a + b, needle, lower) == Matching(a, needle, lower) + Matching(b, needle, lower)
    decreases |a|
  {
    if a == [] {
      assert a + b == b;
    } else {
      var head := if Contains(lower(a[0].fullname), needle) then [a[0]] else [];
      assert (a + b)[0] == a[0];
      assert (a + b)[1..] == a[1..] + b;
      assert Matching(a + b, needle, lower) == head + Matching(a[1..] + b, needle, lower);
      MatchingAppend(a[1..], b, needle, lower);
    }
  }

  /**
   * The filter keeps exactly the applications whose lower-cased full name
   * contains the lower-cased filter, in their order (filtering a
   * concatenation concatenates the filtered parts); an empty filter keeps
   * every application.
   */
  lemma FilteredItemsSpec(apps: seq<Application>, filter: string, lower: string -> string)
    ensures filter == "" ==> FilteredItems(apps, filter, lower) == apps
    ensures filter != "" ==> forall a :: a in FilteredItems(apps, filter, lower) <==>
      a in apps && Contains(lower(a.fullname), lower(filter))
    ensures filter != "" ==> forall k :: 0 <= k <= |apps| ==>
      FilteredItems(apps, filter, lower) == FilteredItems(apps[..k], filter, lower) + FilteredItems(apps[k..], filter, lower)
  {
    if filter != "" {
      MatchingMembers(apps, lower(filter), lower);
      forall k | 0 <= k <= |apps|
        ensures Matching(apps, lower(filter), lower) == Matching(apps[..k], lower(filter), lower) + Matching(apps[k..], lower(filter), lower)
      {
        assert apps == apps[..k] + apps[k..];
        MatchingAppend(apps[..k], apps[k..], lower(filter), lower);
      }
    }
  }

  // ----------------------------------------------------------------- pages

  function Min(a: int, b: int): int
  {
    if a < b then a else b
  }

  /** `filteredItems.slice(start, start + rowsPerPage)` with `start = (page - 1) * rowsPerPage`. */
  function Items(filtered: seq<Application>, page: int, rowsPerPage: int): seq<Application>
    requires page >= 1 && rowsPerPage > 0
  {
    var start := (page - 1) * rowsPerPage;
    filtered[Min(start, |filtered|)..Min(start + rowsPerPage, |filtered|)]
  }

  /** A page is the contiguous run of at most `rowsPerPage` items starting at `(page - 1) * rowsPerPage`. */
  lemma ItemsSlice(filtered: seq<Application>, page: int, rowsPerPage: int)
    requires page >= 1 && rowsPerPage > 0
    ensures var items, start := Items(filtered, page, rowsPerPage), (page - 1) * rowsPerPage;
      && |items| <= rowsPerPage
      && |items| == (if start >= |filtered| then 0 else Min(rowsPerPage, |filtered| - start))
      && forall i :: 0 <= i < |items| ==> items[i] == filtered[start + i]
  {
    assert (page - 1) * rowsPerPage >= 0;
  }

  /** Every filtered item appears on a page within the page count, at the position its index gives. */
  lemma EveryItemOnItsPage(filtered: seq<Application>, rowsPerPage: int, j: int)
    requires rowsPerPage > 0 && 0 <= j < |filtered|
    ensures var page := j / rowsPerPage + 1;
      && 1 <= page <= Pages(|filtered|, rowsPerPage)
      && j % rowsPerPage < |Items(filtered, page, rowsPerPage)|
      && Items(filtered, page, rowsPerPage)[j % rowsPerPage] == filtered[j]
  {
    var q, r := j / rowsPerPage, j % rowsPerPage;
    assert j == q * rowsPerPage + r;
    var c := |filtered| - 1;
    assert q <= c / rowsPerPage by {
      DivMonotone(j, c, rowsPerPage);
    }
    ItemsSlice(filtered, q + 1, rowsPerPage);
  }

  lemma DivMonotone(a: int, b: int, k: int)
    requires 0 <= a <= b && k > 0
    ensures a / k <= b / k
  {
    var qa, qb := a / k, b / k;
    assert a == qa * k + a % k;
    assert b == qb * k + b % k;
    if qa > qb {
      MulMonotone(qb + 1, qa, k);
      assert false;
    }
  }

  lemma {:induction false} MulMonotone(x: int, y: int, k: nat)
    requires x <= y
    ensures x * k <= y * k
    decreases k
  {
    if k > 0 {
      MulMonotone(x, y, k - 1);
      assert x * k == x * (k - 1) + x;
      assert y * k == y * (k - 1) + y;
    }
  }

  // ------------------------------------------------------------------ sort

  /** The comparator of `sortedItems`: below 0 puts `a` first, above 0 puts `b` first. */
  function Compare(a: Application, b: Application, sort: SortDescriptor): int
  {
    var first, second := Key(a, sort.column), Key(b, sort.column);
    if Less(first, second) then (if sort.ascending then -1 else 1)
    else if Less(second, first) then (if sort.ascending then 1 else -1)
    else 0
  }

  lemma CompareAntisymmetric(a: Application, b: Application, sort: SortDescriptor)
    ensures Compare(a, b, sort) == -Compare(b, a, sort)
  {
    LessOrder(Key(a, sort.column), Key(b, sort.column), Key(a, sort.column));
  }

  /** Adjacent items are in the comparator's order. */
  predicate Sorted(s: seq<Application>, sort: SortDescriptor)
  {
    forall i :: 0 <= i < |s| - 1 ==> Compare(s[i], s[i + 1], sort) <= 0
  }

  /** `x` placed after every item that does not come strictly after it: the step of a stable insertion sort. */
  function Insert(x: Application, s: seq<Application>, sort: SortDescriptor): seq<Application>
  {
    if s == [] then [x]
    else if Compare(x, s[0], sort) < 0 then [x] + s
    else [s[0]] + Insert(x, s[1..], sort)
  }

  /** `[...items].sort(comparator)`: `Array.prototype.sort` is stable, as insertion sort is. */
  function SortedItems(items: seq<Application>, sort: SortDescriptor): seq<Application>
  {
    if items == [] then [] else Insert(items[|items| - 1], SortedItems(items[..|items| - 1], sort), sort)
  }

  /** Inserting adds exactly the one item. */
  lemma {:induction false} InsertCount(x: Application, s: seq<Application>, sort: SortDescriptor)
    ensures multiset(Insert(x, s, sort)) == multiset(s) + multiset{x}
    ensures |Insert(x, s, sort)| == |s| + 1
    decreases |s|
  {
    if s != [] && Compare(x, s[0], sort) >= 0 {
      InsertCount(x, s[1..], sort);
      assert s == [s[0]] + s[1..];
    }
  }

  /** Inserting into a sorted run keeps it sorted. */
  lemma {:induction false} InsertSorted(x: Application, s: seq<Application>, sort: SortDescriptor)
    requires Sorted(s, sort)
    ensures Sorted(Insert(x, s, sort), sort)
    decreases |s|
  {
    if s != [] && Compare(x, s[0], sort) >= 0 {
      var rest := Insert(x, s[1..], sort);
      assert Sorted(s[1..], sort) by {
        forall i | 0 <= i < |s[1..]| - 1
          ensures Compare(s[1..][i], s[1..][i + 1], sort) <= 0
        {
          assert s[1..][i] == s[i + 1] && s[1..][i + 1] == s[i + 2];
        }
      }
      InsertSorted(x, s[1..], sort);
      InsertCount(x, s[1..], sort);
      assert Compare(s[0], rest[0], sort) <= 0 by {
        CompareAntisymmetric(x, s[0], sort);
        if s[1..] != [] && Compare(x, s[1], sort) >= 0 {
          assert rest[0] == s[1];
        }
      }
      var r := [s[0]] + rest;
      forall i | 0 <= i < |r| - 1
        ensures Compare(r[i], r[i + 1], sort) <= 0
      {
        if i > 0 {
          assert r[i] == rest[i - 1] && r[i + 1] == rest[i];
        }
      }
    }
  }

  /**
   * `sortedItems` reorders the current page and nothing else, and leaves it
   * non-decreasing by the sort column when ascending, non-increasing when
   * descending.
   */
  lemma {:induction false} SortedItemsSpec(items: seq<Application>, sort: SortDescriptor)
    ensures multiset(SortedItems(items, sort)) == multiset(items)
    ensures Sorted(SortedItems(items, sort), sort)
    ensures forall i :: 0 <= i < |SortedItems(items, sort)| - 1 ==>
      var a, b := Key(SortedItems(items, sort)[i], sort.column), Key(SortedItems(items, sort)[i + 1], sort.column);
      if sort.ascending then !Less(b, a) else !Less(a, b)
    decreases |items|
  {
    if items != [] {
      var init := items[..|items| - 1];
      SortedItemsSpec(init, sort);
      InsertCount(items[|items| - 1], SortedItems(init, sort), sort);
      InsertSorted(items[|items| - 1], SortedItems(init, sort), sort);
      assert items == init + [items[|items| - 1]];
    }
    var r := SortedItems(items, sort);
    forall i | 0 <= i < |r| - 1
      ensures var a, b := Key(r[i], sort.column), Key(r[i + 1], sort.column);
        if sort.ascending then !Less(b, a) else !Less(a, b)
    {
      assert Compare(r[i], r[i + 1], sort) <= 0;
      LessOrder(Key(r[i], sort.column), Key(r[i + 1], sort.column), Key(r[i], sort.column));
    }
  }
}
