/**
 * The home table (`components/home-content.tsx`): the records listing is
 * asked for with a query string built from the status, date range, search
 * term, page, page size and sort; the page count and the header columns
 * follow from the answer and the column picker.
 */
module HomeContent {
  import opened Js
  import opened DateUtils
  import opened TableView

  const COLUMNS: seq<Column> := [
    Column("CODE", "code", Some(false)),
    Column("MÃ KHÁCH HÀNG", "customer__code", None),
    Column("FULL NAME", "fullname", None),
    Column("GIỚI TÍNH", "sex__name", None),
    Column("GIẤY TỜ", "legal_type__name", None),
    Column("MÃ SỐ", "legal_code", None),
    Column("LOẠI SẢN PHẨM", "product__type__name", None),
    Column("TÀI SẢN CẦM CỐ", "product__category__name", None),
    Column("LOẠI TIỀN", "currency__code", None),
    Column("NGƯỜI TẠO ĐƠN", "creator__fullname", None),
    Column("NGUỒN", "source__name", None),
    Column("LOAN CODE", "loanapp__code", None),
    Column("PROVINCE", "province", None),
    Column("DISTRICT", "district", None),
    Column("ADDRESS", "address", None),
    Column("LOAN AMOUNT", "loan_amount", None),
    Column("TERM", "loan_term", None),
    Column("STATUS", "status", None),
    Column("NOTE", "note", None),
    Column("BRANCH UUID", "branch_uuid", None),
    Column("CREATED TIME", "create_time", Some(true))
  ]

  const INITIAL_VISIBLE_COLUMNS: seq<string> := [
    "code", "fullname", "province", "district", "loan_amount",
    "loan_term", "status", "note", "branch_uuid", "create_time"
  ]

  const ROWS_PER_PAGE: int := 20

  /** The only column the server sorts by. */
  const SORT_COLUMN: string := "create_time"

  /** The sort parameter: only for `create_time`, with `order=asc` for an ascending sort and `order=desc` otherwise. */
  function SortParam(sort: SortDescriptor): string
  {
    if sort.column == SORT_COLUMN then "sort=" + sort.column + "&order=" + (if sort.ascending then "asc" else "desc")
    else ""
  }

  /** The sort parameter is sent iff the column is `create_time`, and then reads as `sort=create_time` and `order=asc` or `order=desc`. */
  lemma SortParamParameters(sort: SortDescriptor)
    ensures SortParam(sort) != "" <==> sort.column == SORT_COLUMN
    ensures sort.column == SORT_COLUMN ==>
      Split(SortParam(sort), '&') == ["sort=create_time", if sort.ascending then "order=asc" else "order=desc"]
  {
    if sort.column == SORT_COLUMN {
      var order := if sort.ascending then "order=asc" else "order=desc";
      assert SortParam(sort) == "sort=create_time" + ['&'] + order;
      SplitAfter("sort=create_time", order, '&');
      SplitWhole(order, '&');
    }
  }

  /** The search parameter: only for a non-empty term; `encode` stands for `encodeURIComponent`. */
  function SearchParam(search: string, encode: string -> string): string
  {
    if search != "" then "search=" + encode(search) else ""
  }

  /** The parameters of `queryString` before `.filter(Boolean)`. */
  function Candidates(statusFilter: int, range: DateRange, search: string, page: int, rowsPerPage: int,
                      sort: SortDescriptor, encode: string -> string): seq<string>
  {
    [StatusQuery(statusFilter)] + ([DateQuery(range)] + ([SearchParam(search, encode)]
    + (["page=" + IntToString(page)] + (["limit=" + IntToString(rowsPerPage)] + [SortParam(sort)]))))
  }

  /** `queryString`: the non-empty parameters joined with `&`, after a leading `&`. */
  function HomeQueryString(statusFilter: int, range: DateRange, search: string, page: int, rowsPerPage: int,
                           sort: SortDescriptor, encode: string -> string): string
  {
    QueryString(NonEmpty(Candidates(statusFilter, range, search, page, rowsPerPage, sort, encode)))
  }

  /** `.filter(Boolean)` on six parameters. */
  lemma NonEmptySix(a: string, b: string, c: string, d: string, e: string, f: string)
    ensures NonEmpty([a] + ([b] + ([c] + ([d] + ([e] + [f]))))) ==
      When(a != "", a) + (When(b != "", b) + (When(c != "", c) + (When(d != "", d) + (When(e != "", e) + When(f != "", f)))))
  {
    NonEmptyOne(f);
    NonEmptyCons(e, [f]);
    NonEmptyCons(d, [e] + [f]);
    NonEmptyCons(c, [d] + ([e] + [f]));
    NonEmptyCons(b, [c] + ([d] + ([e] + [f])));
    NonEmptyCons(a, [b] + ([c] + ([d] + ([e] + [f]))));
  }

  /**
   * The parameters sent, in order: status unless it is 0, the dates when
   * both are set, the search for a non-empty term, then always the page and
   * the limit, and last the sort when the column is `create_time`.
   */
  lemma QueryParameters(statusFilter: int, range: DateRange, search: string, page: int, rowsPerPage: int,
                        sort: SortDescriptor, encode: string -> string)
    ensures NonEmpty(Candidates(statusFilter, range, search, page, rowsPerPage, sort, encode)) ==
      When(statusFilter != 0, StatusQuery(statusFilter))
      + (When(range.from.Some? && range.to.Some?, DateQuery(range))
      + (When(search != "", SearchParam(search, encode))
      + (["page=" + IntToString(page), "limit=" + IntToString(rowsPerPage)]
      + When(sort.column == SORT_COLUMN, SortParam(sort)))))
  {
    var status, dates, term := StatusQuery(statusFilter), DateQuery(range), SearchParam(search, encode);
    var pageParam, limitParam, sortParam := "page=" + IntToString(page), "limit=" + IntToString(rowsPerPage), SortParam(sort);
    DateQueryParameters(range);
    SortParamParameters(sort);
    FilterSix(status, dates, term, pageParam, limitParam, sortParam,
              statusFilter != 0, range.from.Some? && range.to.Some?, search != "", sort.column == SORT_COLUMN);
  }

  /** `.filter(Boolean)` on six parameters of which the fourth and fifth are never empty. */
  lemma FilterSix(a: string, b: string, c: string, d: string, e: string, f: string, pa: bool, pb: bool, pc: bool, pf: bool)
    requires (a != "" <==> pa) && (b != "" <==> pb) && (c != "" <==> pc) && (f != "" <==> pf)
    requires d != "" && e != ""
    ensures NonEmpty([a] + ([b] + ([c] + ([d] + ([e] + [f]))))) == When(pa, a) + (When(pb, b) + (When(pc, c) + ([d, e] + When(pf, f))))
  {
    NonEmptySix(a, b, c, d, e, f);
    assert When(d != "", d) + (When(e != "", e) + When(f != "", f)) == [d, e] + When(pf, f);
  }

  /**
   * Since the page and the limit are always sent, the query string is never
   * empty: it starts with `&` and has at least two parameters.
   */
  lemma QueryStringNeverEmpty(statusFilter: int, range: DateRange, search: string, page: int, rowsPerPage: int,
                              sort: SortDescriptor, encode: string -> string)
    ensures var q := HomeQueryString(statusFilter, range, search, page, rowsPerPage, sort, encode);
      |q| > 1 && q[0] == '&'
    ensures |NonEmpty(Candidates(statusFilter, range, search, page, rowsPerPage, sort, encode))| >= 2
  {
    var params := NonEmpty(Candidates(statusFilter, range, search, page, rowsPerPage, sort, encode));
    QueryParameters(statusFilter, range, search, page, rowsPerPage, sort, encode);
    QueryStringParameters(params);
    assert params[0] != "";
    assert |Join(params, '&')| >= |params[0]| by {
      if |params| > 1 {
        assert Join(params, '&') == params[0] + ['&'] + Join(params[1..], '&');
      }
    }
  }

  /** `pages` for the total row count the listing reports. */
  function HomePages(totalRows: nat, rowsPerPage: int): (pages: int)
    requires rowsPerPage > 0
    ensures pages >= 1
    ensures totalRows <= pages * rowsPerPage
  {
    PagesCover(totalRows, rowsPerPage);
    Pages(totalRows, rowsPerPage)
  }

  /** `headerColumns` of the home table. */
  function HomeHeaderColumns(visible: set<string>): seq<Column>
  {
    HeaderColumns(COLUMNS, visible)
  }
}
