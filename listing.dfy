/**
 * The listing route (`GET /api/application-records`): it turns the query
 * parameters into a query on `application_records`, built clause by clause
 * (order, date bounds, status, branch restriction, search, range), and maps
 * each stored row back to the `Application` shape the tables display.
 */
module RecordsListing {
  import opened Js
  import opened Records

  /** The `Application` shape of one listed row (the client-side record type). */
  datatype Application = Application(
    id: int,
    code: Value,
    fullname: Value,
    phone: Value,
    province: Value,
    district: Value,
    address: Value,
    legal_code: Value,
    issue_date: Value,
    issue_place: Value,
    loan_amount: Value,
    loan_term: Value,
    approve_amount: Value,
    approve_term: Value,
    approve_time: Value,
    salary_income: Value,
    business_income: Value,
    other_income: Value,
    living_expense: Value,
    loan_expense: Value,
    other_expense: Value,
    credit_fee: Value,
    disbursement_fee: Value,
    loan_fee: Value,
    colateral_fee: Value,
    note: Value,
    commission_rate: Value,
    commission: Value,
    fees: Value,
    create_time: Value,
    update_time: Value,
    country: Value,
    sex: Value,
    legal_type: Value,
    product: Value,
    collaborator: Value,
    branch: Value,
    currency: Value,
    status: Value,
    customer: Value,
    creator: Value,
    creator__fullname: Value,
    updater: Value,
    updater__fullname: Value,
    approver: Value,
    approver__fullname: Value,
    source: Value,
    payment_status: Value,
    payment_info: Value,
    purpose: Value,
    history: Value,
    ability: Value,
    doc_audit: Value,
    onsite_audit: Value,
    customer__code: Value,
    sex__name: Value,
    legal_type__name: Value,
    legal_type__code: Value,
    product__type__name: Value,
    product__type__code: Value,
    product__category__name: Value,
    product__category__code: Value,
    branch__code: Value,
    country__code: Value,
    country__name: Value,
    currency__code: Value,
    source__name: Value,
    loanapp__code: Value,
    status__name: Value,
    branch_uuid: Value,
    branches: Value
  )

  /** One stored row as the listing reads it: its columns and the embedded `branches` object of its `branch_uuid`. */
  datatype ListedRecord = ListedRecord(row: TableRow, branches: Value)

  /** The row mapping: stored columns under the client names, falsy values replaced by the field's default. */
  function ToApplication(rec: ListedRecord): (app: Application)
    ensures app.id == rec.row.columns.id
  {
    Application(
      id := rec.row.columns.id,
      code := rec.row.columns.code,
      fullname := Or(rec.row.columns.fullname, Str("")),
      phone := Or(rec.row.columns.phone, Str("")),
      province := Or(rec.row.columns.province, Str("")),
      district := Or(rec.row.columns.district, Str("")),
      address := Or(rec.row.columns.address, Str("")),
      legal_code := Or(rec.row.columns.legal_code, Str("")),
      issue_date := Or(rec.row.columns.issue_date, Str("")),
      issue_place := Or(rec.row.columns.issue_place, Str("")),
      loan_amount := Or(rec.row.columns.loan_amount, Num(0)),
      loan_term := Or(rec.row.columns.loan_term, Num(0)),
      approve_amount := Or(rec.row.columns.approve_amount, Num(0)),
      approve_term := Or(rec.row.columns.approve_term, Num(0)),
      approve_time := Null,
      salary_income := Num(0),
      business_income := Num(0),
      other_income := Num(0),
      living_expense := Num(0),
      loan_expense := Num(0),
      other_expense := Num(0),
      credit_fee := Null,
      disbursement_fee := Null,
      loan_fee := Null,
      colateral_fee := Null,
      note := Or(rec.row.columns.note, Str("")),
      commission_rate := Null,
      commission := Null,
      fees := Arr([]),
      create_time := Or(rec.row.columns.create_time, Str("")),
      update_time := Or(Time(rec.row.columns.update_time), Str("")),
      country := Or(rec.row.columns.country_id, Num(0)),
      sex := Or(rec.row.columns.sex, Num(0)),
      legal_type := Or(rec.row.columns.legal_type, Num(0)),
      product := Or(rec.row.columns.product_id, Num(0)),
      collaborator := Or(rec.row.columns.collaborator_id, Null),
      branch := Or(rec.row.columns.branch_id, Num(0)),
      currency := Or(rec.row.columns.currency_id, Num(0)),
      status := Or(rec.row.columns.status, Num(0)),
      customer := Or(rec.row.columns.customer_id, Num(0)),
      creator := Or(rec.row.columns.creator_id, Null),
      creator__fullname := Or(rec.row.columns.creator_fullname, Null),
      updater := Or(rec.row.columns.updater_id, Null),
      updater__fullname := Or(rec.row.columns.updater_fullname, Null),
      approver := Or(rec.row.columns.approver_id, Null),
      approver__fullname := Or(rec.row.columns.approver_fullname, Null),
      source := Or(rec.row.columns.source_id, Num(0)),
      payment_status := Num(0),
      payment_info := Null,
      purpose := Num(0),
      history := Num(0),
      ability := Num(0),
      doc_audit := Num(0),
      onsite_audit := Num(0),
      customer__code := Or(rec.row.columns.customer_code, Null),
      sex__name := Or(rec.row.columns.sex_name, Null),
      legal_type__name := Or(rec.row.columns.legal_type_name, Null),
      legal_type__code := Or(rec.row.columns.legal_type_code, Null),
      product__type__name := Or(rec.row.columns.product_type_name, Null),
      product__type__code := Or(rec.row.columns.product_type_code, Null),
      product__category__name := Or(rec.row.columns.product_category_name, Null),
      product__category__code := Or(rec.row.columns.product_category_code, Null),
      branch__code := Or(rec.row.columns.branch_code, Null),
      country__code := Or(rec.row.columns.country_code, Null),
      country__name := Or(rec.row.columns.country_name, Null),
      currency__code := Or(rec.row.columns.currency_code, Null),
      source__name := Or(rec.row.columns.source_name, Null),
      loanapp__code := Or(rec.row.columns.loanapp_code, Null),
      status__name := Or(rec.row.columns.status_name, Null),
      branch_uuid := Or(rec.row.branch_uuid, Null),
      branches := Or(rec.branches, Null)
    )
  }

  /**
   * A synced record listed back: every field the sync stored reappears under
   * its upstream name, with the listing's default in place of a falsy value;
   * the update stamp, never falsy, is always kept.
   */
  lemma ListingRestoresUpstream(item: UpstreamRecord, branchUuid: Value, branches: Value)
    ensures var app := ToApplication(ListedRecord(TableRow(MapRecord(item), branchUuid), branches));
      app.id == item.id
      && app.code == item.code
      && app.fullname == Or(item.fullname, Str(""))
      && app.phone == Or(item.phone, Str(""))
      && app.province == Or(item.province, Str(""))
      && app.district == Or(item.district, Str(""))
      && app.address == Or(item.address, Str(""))
      && app.legal_code == Or(item.legal_code, Str(""))
      && app.issue_date == Or(item.issue_date, Str(""))
      && app.issue_place == Or(item.issue_place, Str(""))
      && app.loan_amount == Or(item.loan_amount, Num(0))
      && app.loan_term == Or(item.loan_term, Num(0))
      && app.approve_amount == Or(item.approve_amount, Num(0))
      && app.approve_term == Or(item.approve_term, Num(0))
      && app.note == Or(item.note, Str(""))
      && app.create_time == Or(item.create_time, Str(""))
      && app.update_time == Time(item.update_time)
      && app.country == Or(item.country, Num(0))
      && app.sex == Or(item.sex, Num(0))
      && app.legal_type == Or(item.legal_type, Num(0))
      && app.product == Or(item.product, Num(0))
      && app.collaborator == Or(item.collaborator, Null)
      && app.branch == Or(item.branch, Num(0))
      && app.currency == Or(item.currency, Num(0))
      && app.status == Or(item.status, Num(0))
      && app.customer == Or(item.customer, Num(0))
      && app.creator == Or(item.creator, Null)
      && app.creator__fullname == Or(item.creator__fullname, Null)
      && app.updater == Or(item.updater, Null)
      && app.updater__fullname == Or(item.updater__fullname, Null)
      && app.approver == Or(item.approver, Null)
      && app.approver__fullname == Or(item.approver__fullname, Null)
      && app.source == Or(item.source, Num(0))
      && app.customer__code == Or(item.customer__code, Null)
      && app.sex__name == Or(item.sex__name, Null)
      && app.legal_type__name == Or(item.legal_type__name, Null)
      && app.legal_type__code == Or(item.legal_type__code, Null)
      && app.product__type__name == Or(item.product__type__name, Null)
      && app.product__type__code == Or(item.product__type__code, Null)
      && app.product__category__name == Or(item.product__category__name, Null)
      && app.product__category__code == Or(item.product__category__code, Null)
      && app.branch__code == Or(item.branch__code, Null)
      && app.country__code == Or(item.country__code, Null)
      && app.country__name == Or(item.country__name, Null)
      && app.currency__code == Or(item.currency__code, Null)
      && app.source__name == Or(item.source__name, Null)
      && app.loanapp__code == Or(item.loanapp__code, Null)
      && app.status__name == Or(item.status__name, Null)
  {
  }

  /**
   * What the listing supplies itself, whatever the row holds: the branch of
   * the row and its embedded branch object, null in place of a falsy value,
   * and the same constant for every field the stored row has no column for.
   */
  lemma ListingFixedFields(rec: ListedRecord)
    ensures var app := ToApplication(rec);
      && app.branch_uuid == (if Falsy(rec.row.branch_uuid) then Null else rec.row.branch_uuid)
      && app.branches == (if Falsy(rec.branches) then Null else rec.branches)
    ensures var app := ToApplication(rec);
      && app.approve_time == Null
      && app.credit_fee == Null && app.disbursement_fee == Null
      && app.loan_fee == Null && app.colateral_fee == Null
      && app.commission_rate == Null && app.commission == Null
      && app.payment_info == Null
      && app.fees == Arr([])
    ensures var app := ToApplication(rec);
      && app.salary_income == Num(0) && app.business_income == Num(0) && app.other_income == Num(0)
      && app.living_expense == Num(0) && app.loan_expense == Num(0) && app.other_expense == Num(0)
      && app.payment_status == Num(0) && app.purpose == Num(0) && app.history == Num(0)
      && app.ability == Num(0) && app.doc_audit == Num(0) && app.onsite_audit == Num(0)
  {
  }

  // ------------------------------------------------------------ the query

  /** The query parameters of the request URL by name; `searchParams.get` reads the first value. */
  type Params = map<string, string>

  /** `searchParams.get(name)`, None standing for null. */
  function Param(params: Params, name: string): Option<string>
  {
    if name in params then Some(params[name]) else None
  }

  /** The lower `create_time` bound when no `from` is given. */
  const DEFAULT_FROM: string := "2025-01-01T00:00:00Z"

  /** `parseInt(searchParams.get("page") || "1")`, None standing for NaN. */
  function PageNumber(params: Params): Option<int>
  {
    ParseInt(OrElse(Param(params, "page"), "1"))
  }

  /** `parseInt(searchParams.get("limit") || "20")`, None standing for NaN. */
  function PageLimit(params: Params): Option<int>
  {
    ParseInt(OrElse(Param(params, "limit"), "20"))
  }

  /** The bounds `range(offset, offset + limit - 1)` receives, with `offset = (page - 1) * limit`; NaN spreads to both. */
  function RangeOf(page: Option<int>, limit: Option<int>): Clause
  {
    if page.Some? && limit.Some? then
      var offset := (page.value - 1) * limit.value;
      Range(Some(offset), Some(offset + limit.value - 1))
    else Range(None, None)
  }


  /** Missing or empty `page` and `limit` parameters read as page 1 of 20 rows. */
  lemma PageDefaults(params: Params)
    ensures !Truthy(Param(params, "page")) ==> PageNumber(params) == Some(1)
    ensures !Truthy(Param(params, "limit")) ==> PageLimit(params) == Some(20)
  {
    ParseIntOfIntToString(1);
    ParseIntOfIntToString(20);
    assert IntToString(1) == "1";
    assert IntToString(20) == "20";
  }

  /** Parameters written as decimal numbers are read back as those numbers. */
  lemma PageParamsRead(params: Params, page: int, limit: int)
    requires Param(params, "page") == Some(IntToString(page))
    requires Param(params, "limit") == Some(IntToString(limit))
    ensures PageNumber(params) == Some(page) && PageLimit(params) == Some(limit)
  {
    ParseIntOfIntToString(page);
    ParseIntOfIntToString(limit);
  }

  /**
   * A page starts at `(page - 1) * limit` and spans `limit` positions, and the
   * next page starts right after it; a NaN page or limit gives NaN bounds.
   */
  lemma RangeSpansLimit(page: int, limit: int)
    ensures var r := RangeOf(Some(page), Some(limit));
      && r.from == Some((page - 1) * limit)
      && r.to.Some? && r.to.value - r.from.value + 1 == limit
      && RangeOf(Some(page + 1), Some(limit)).from.value == r.to.value + 1
    ensures RangeOf(None, Some(limit)) == RangeOf(Some(page), None) == Range(None, None)
  {
    assert page * limit == (page - 1) * limit + limit;
  }

  lemma MulLe(a: int, b: int, n: nat)
    requires a <= b
    ensures a * n <= b * n
  {
    var d := b - a;
    assert b * n == a * n + d * n;
  }

  /** With a positive limit, every row position lies in the range of exactly one page, `position / limit + 1`. */
  lemma PageOfPosition(position: nat, limit: int, page: int)
    requires limit > 0 && page >= 1
    ensures var r := RangeOf(Some(page), Some(limit));
      r.from.value <= position <= r.to.value <==> page == position / limit + 1
  {
    var q := position / limit;
    var r := RangeOf(Some(page), Some(limit));
    var from := (page - 1) * limit;
    assert r.from.value == from && r.to.value == from + limit - 1;
    assert q * limit <= position < q * limit + limit;
    if page - 1 < q {
      MulLe(page, q, limit);
      assert from + limit == page * limit;
    } else if page - 1 > q {
      MulLe(q + 1, page - 1, limit);
      assert (q + 1) * limit == q * limit + limit;
    }
  }

  /** The column names the search term is matched against, case-insensitively. */
  const SEARCH_COLUMNS: seq<string> := ["code", "fullname", "customer_code", "phone"]

  /** `column.ilike.%term%`: the column contains the term. */
  function Ilike(column: string, term: string): string
  {
    column + ".ilike.%" + term + "%"
  }

  /** One `ilike` condition per search column. */
  function SearchConditions(term: string): (conditions: seq<string>)
    ensures |conditions| == |SEARCH_COLUMNS|
  {
    seq(|SEARCH_COLUMNS|, i requires 0 <= i < |SEARCH_COLUMNS| => Ilike(SEARCH_COLUMNS[i], term))
  }

  /** The argument of `.or(...)`: the search conditions separated by commas. */
  function SearchFilter(term: string): string
  {
    Join(SearchConditions(term), ',')
  }

  /**
   * A comma-free search term gives exactly four conditions, one `ilike
   * %term%` per search column, in column order.
   */
  lemma SearchFilterConditions(term: string)
    requires ',' !in term
    ensures Split(SearchFilter(term), ',') == SearchConditions(term)
    ensures |Split(SearchFilter(term), ',')| == 4
    ensures forall i :: 0 <= i < 4 ==> Split(SearchFilter(term), ',')[i] == SEARCH_COLUMNS[i] + ".ilike.%" + term + "%"
  {
    var conditions := SearchConditions(term);
    forall i | 0 <= i < |conditions|
      ensures ',' !in conditions[i]
    {
      assert conditions[i] == SEARCH_COLUMNS[i] + ".ilike.%" + term + "%";
    }
    SplitJoin(conditions, ',');
  }
  /**
   * A clause of the query, in the order the route adds them. Ordering and
   * date bounds are always on `create_time`.
   */
  datatype Clause =
    | Order(ascending: bool)                     // .order("create_time", { ascending })
    | Gte(bound: string)                         // .gte("create_time", bound)
    | Lte(bound: string)                         // .lte("create_time", bound)
    | EqStatus(status: Option<int>)              // .eq("status", parseInt(status)), None standing for NaN
    | EqBranch(branch: string)                   // .eq("branch_uuid", id)
    | OrFilter(conditions: string)               // .or(conditions)
    | Range(from: Option<int>, to: Option<int>)  // .range(from, to), None standing for NaN

  // --------------------------------------------------------------- the plan

  /** The direction of the `create_time` order: ascending only for `sort` create_time (the default) and `order` asc. */
  predicate Ascending(params: Params)
  {
    OrElse(Param(params, "sort"), "create_time") == "create_time" && OrElse(Param(params, "order"), "desc") == "asc"
  }

  /** A missing or empty `sort` counts as `create_time`; only `order=asc` turns the order around. */
  lemma AscendingParams(params: Params)
    ensures var sort := Param(params, "sort");
      Ascending(params) <==> (!Truthy(sort) || sort.value == "create_time") && Param(params, "order") == Some("asc")
  {
  }

  /** The lower `create_time` bound: the start of the `from` day, or of 2025-01-01. */
  function LowerBound(from: Option<string>): string
  {
    if Truthy(from) then from.value + "T00:00:00Z" else DEFAULT_FROM
  }

  /** The upper `create_time` bound: the last second of the `to` day. */
  function UpperBound(to: string): string
  {
    to + "T23:59:59Z"
  }

  /** Whether the listing is restricted to the profile's branch: it has one, and it is not the headquarter's. */
  predicate Restricted(profileBranch: Option<string>, headquarter: Option<string>)
  {
    Truthy(profileBranch) && Truthy(headquarter) && profileBranch.value != headquarter.value
  }

  /** `if (condition) query = query.<clause>`: the query with the clause added when the condition holds. */
  function AddIf(query: seq<Clause>, condition: bool, c: Clause): seq<Clause>
  {
    if condition then query + [c] else query
  }

  /**
   * The filter part of the query, clause by clause: the order, the lower
   * bound, the optional upper bound, status, branch and search clauses.
   */
  function Filters(params: Params, profileBranch: Option<string>, headquarter: Option<string>): seq<Clause>
  {
    var to, status, search := Param(params, "to"), Param(params, "status"), Param(params, "search");
    var bounded := [Order(Ascending(params)), Gte(LowerBound(Param(params, "from")))];
    var upper := AddIf(bounded, Truthy(to), Lte(UpperBound(OrElse(to, ""))));
    var withStatus := AddIf(upper, Truthy(status), EqStatus(ParseInt(OrElse(status, ""))));
    var withBranch := AddIf(withStatus, Restricted(profileBranch, headquarter), EqBranch(OrElse(profileBranch, "")));
    AddIf(withBranch, Truthy(search), OrFilter(SearchFilter(OrElse(search, ""))))
  }

  /** The whole query: the filters, then the page range. */
  function Plan(params: Params, profileBranch: Option<string>, headquarter: Option<string>): seq<Clause>
  {
    Filters(params, profileBranch, headquarter) + [RangeOf(PageNumber(params), PageLimit(params))]
  }

  method BuildQuery(params: Params, profileBranch: Option<string>, headquarter: Option<string>)
    returns (query: seq<Clause>)
    ensures query == Plan(params, profileBranch, headquarter)
  {
    var page, limit := PageNumber(params), PageLimit(params);
    var sortColumn := OrElse(Param(params, "sort"), "create_time");
    var sortOrder := OrElse(Param(params, "order"), "desc");
    var search := Param(params, "search");

    if sortColumn == "create_time" {
      query := [Order(sortOrder == "asc")];
    } else {
      query := [Order(false)];
    }
    var from, to := Param(params, "from"), Param(params, "to");
    if Truthy(from) {
      query := query + [Gte(from.value + "T00:00:00Z")];
    } else {
      query := query + [Gte(DEFAULT_FROM)];
    }
    ghost var bounded := query;
    assert bounded == [Order(Ascending(params)), Gte(LowerBound(from))];
    if Truthy(to) {
      query := query + [Lte(to.value + "T23:59:59Z")];
    }
    ghost var upper := query;
    assert upper == AddIf(bounded, Truthy(to), Lte(UpperBound(OrElse(to, ""))));
    var status := Param(params, "status");
    if Truthy(status) {
      query := query + [EqStatus(ParseInt(status.value))];
    }
    ghost var withStatus := query;
    assert withStatus == AddIf(upper, Truthy(status), EqStatus(ParseInt(OrElse(status, ""))));
    if Truthy(profileBranch) {
      if Truthy(headquarter) && profileBranch.value != headquarter.value {
        query := query + [EqBranch(profileBranch.value)];
      }
    }
    ghost var withBranch := query;
    assert withBranch == AddIf(withStatus, Restricted(profileBranch, headquarter), EqBranch(OrElse(profileBranch, "")));
    if Truthy(search) {
      query := query + [OrFilter(SearchFilter(search.value))];
    }
    assert query == AddIf(withBranch, Truthy(search), OrFilter(SearchFilter(OrElse(search, ""))));
    assert query == Filters(params, profileBranch, headquarter);
    query := query + [RangeOf(page, limit)];
  }

  lemma AddIfMembers(query: seq<Clause>, condition: bool, c: Clause, x: Clause)
    ensures x in AddIf(query, condition, c) <==> x in query || (condition && x == c)
  {
  }

  /** The clauses of the plan, one by one. */
  lemma FiltersMembers(params: Params, profileBranch: Option<string>, headquarter: Option<string>, x: Clause)
    ensures var to, status, search := Param(params, "to"), Param(params, "status"), Param(params, "search");
      x in Filters(params, profileBranch, headquarter) <==>
        || x == Order(Ascending(params))
        || x == Gte(LowerBound(Param(params, "from")))
        || (Truthy(to) && x == Lte(UpperBound(to.value)))
        || (Truthy(status) && x == EqStatus(ParseInt(status.value)))
        || (Restricted(profileBranch, headquarter) && x == EqBranch(profileBranch.value))
        || (Truthy(search) && x == OrFilter(SearchFilter(search.value)))
  {
    var to, status, search := Param(params, "to"), Param(params, "status"), Param(params, "search");
    var bounded := [Order(Ascending(params)), Gte(LowerBound(Param(params, "from")))];
    var upper := AddIf(bounded, Truthy(to), Lte(UpperBound(OrElse(to, ""))));
    var withStatus := AddIf(upper, Truthy(status), EqStatus(ParseInt(OrElse(status, ""))));
    var withBranch := AddIf(withStatus, Restricted(profileBranch, headquarter), EqBranch(OrElse(profileBranch, "")));
    AddIfMembers(bounded, Truthy(to), Lte(UpperBound(OrElse(to, ""))), x);
    AddIfMembers(upper, Truthy(status), EqStatus(ParseInt(OrElse(status, ""))), x);
    AddIfMembers(withStatus, Restricted(profileBranch, headquarter), EqBranch(OrElse(profileBranch, "")), x);
    AddIfMembers(withBranch, Truthy(search), OrFilter(SearchFilter(OrElse(search, ""))), x);
  }

  lemma PlanMembers(params: Params, profileBranch: Option<string>, headquarter: Option<string>, x: Clause)
    ensures var to, status, search := Param(params, "to"), Param(params, "status"), Param(params, "search");
      x in Plan(params, profileBranch, headquarter) <==>
        || x == Order(Ascending(params))
        || x == Gte(LowerBound(Param(params, "from")))
        || (Truthy(to) && x == Lte(UpperBound(to.value)))
        || (Truthy(status) && x == EqStatus(ParseInt(status.value)))
        || (Restricted(profileBranch, headquarter) && x == EqBranch(profileBranch.value))
        || (Truthy(search) && x == OrFilter(SearchFilter(search.value)))
        || x == RangeOf(PageNumber(params), PageLimit(params))
  {
    FiltersMembers(params, profileBranch, headquarter, x);
  }

  /** Rows are always ordered by `create_time`, by exactly one order clause, the first. */
  lemma PlanOrder(params: Params, profileBranch: Option<string>, headquarter: Option<string>)
    ensures var query := Plan(params, profileBranch, headquarter);
      && query[0] == Order(Ascending(params))
      && forall c :: c in query && c.Order? ==> c == query[0]
  {
    forall c | c in Plan(params, profileBranch, headquarter) {
      PlanMembers(params, profileBranch, headquarter, c);
    }
  }

  /** There is always the one lower bound; an upper bound is there iff `to` is given. */
  lemma PlanDateBounds(params: Params, profileBranch: Option<string>, headquarter: Option<string>)
    ensures var query, to := Plan(params, profileBranch, headquarter), Param(params, "to");
      && Gte(LowerBound(Param(params, "from"))) in query
      && (forall c :: c in query && c.Gte? ==> c == Gte(LowerBound(Param(params, "from"))))
      && ((exists c :: c in query && c.Lte?) <==> Truthy(to))
      && (forall c :: c in query && c.Lte? ==> c == Lte(UpperBound(to.value)))
  {
    var to := Param(params, "to");
    forall c | c in Plan(params, profileBranch, headquarter) {
      PlanMembers(params, profileBranch, headquarter, c);
    }
    PlanMembers(params, profileBranch, headquarter, Gte(LowerBound(Param(params, "from"))));
    if Truthy(to) {
      PlanMembers(params, profileBranch, headquarter, Lte(UpperBound(to.value)));
    }
  }

  /** A status clause, on the status parsed as an integer, is there iff the `status` parameter is non-empty. */
  lemma PlanStatus(params: Params, profileBranch: Option<string>, headquarter: Option<string>)
    ensures var query, status := Plan(params, profileBranch, headquarter), Param(params, "status");
      && ((exists c :: c in query && c.EqStatus?) <==> Truthy(status))
      && (forall c :: c in query && c.EqStatus? ==> c == EqStatus(ParseInt(status.value)))
  {
    var status := Param(params, "status");
    forall c | c in Plan(params, profileBranch, headquarter) {
      PlanMembers(params, profileBranch, headquarter, c);
    }
    if Truthy(status) {
      PlanMembers(params, profileBranch, headquarter, EqStatus(ParseInt(status.value)));
    }
  }

  /**
   * The listing is restricted to the profile's branch iff the profile has a
   * branch, a headquarter exists and the two differ; a profile without a
   * branch sees every branch.
   */
  lemma PlanBranch(params: Params, profileBranch: Option<string>, headquarter: Option<string>)
    ensures var query := Plan(params, profileBranch, headquarter);
      && ((exists c :: c in query && c.EqBranch?) <==> Restricted(profileBranch, headquarter))
      && (forall c :: c in query && c.EqBranch? ==> c == EqBranch(profileBranch.value))
      && (!Truthy(profileBranch) ==> forall c :: c in query ==> !c.EqBranch?)
  {
    forall c | c in Plan(params, profileBranch, headquarter) {
      PlanMembers(params, profileBranch, headquarter, c);
    }
    if Restricted(profileBranch, headquarter) {
      PlanMembers(params, profileBranch, headquarter, EqBranch(profileBranch.value));
    }
  }

  /** A non-empty search term adds the one OR filter over the search columns, and nothing else does. */
  lemma PlanSearch(params: Params, profileBranch: Option<string>, headquarter: Option<string>)
    ensures var query, search := Plan(params, profileBranch, headquarter), Param(params, "search");
      && ((exists c :: c in query && c.OrFilter?) <==> Truthy(search))
      && (forall c :: c in query && c.OrFilter? ==> c == OrFilter(SearchFilter(search.value)))
  {
    var search := Param(params, "search");
    forall c | c in Plan(params, profileBranch, headquarter) {
      PlanMembers(params, profileBranch, headquarter, c);
    }
    if Truthy(search) {
      PlanMembers(params, profileBranch, headquarter, OrFilter(SearchFilter(search.value)));
    }
  }

  /** The range of the page comes last, and only once. */
  lemma PlanRange(params: Params, profileBranch: Option<string>, headquarter: Option<string>)
    ensures var query := Plan(params, profileBranch, headquarter);
      && query[|query| - 1] == RangeOf(PageNumber(params), PageLimit(params))
      && forall i :: 0 <= i < |query| - 1 ==> !query[i].Range?
  {
    var filters := Filters(params, profileBranch, headquarter);
    forall i | 0 <= i < |filters|
      ensures !filters[i].Range?
    {
      FiltersMembers(params, profileBranch, headquarter, filters[i]);
    }
  }

  /** The datastore's answer to the query: an error, or the page of rows and the exact count. */
  datatype QueryAnswer = QueryError(message: string) | QueryRows(records: Option<seq<ListedRecord>>, count: Option<nat>)

  datatype Response =
    | Failed(error: string)   // 500
    | Listing(total_rows: nat, full_data: bool, rows: seq<Application>, is_profile_headquarter: bool)
  {
    function Status(): int
    {
      if Failed? then 500 else 200
    }
  }

  /**
   * The route. `profileError` is the error of the profile read, if any;
   * `profileBranch` the id of the profile's branch (`profile?.branch_id?.id`)
   * and `headquarter` the headquarter branch's id, None standing for a missing
   * row or id; `answer` the datastore's answer to the query.
   */
  method Get(params: Params, profileError: Option<string>, profileBranch: Option<string>,
             headquarter: Option<string>, answer: QueryAnswer)
    returns (response: Response, query: seq<Clause>)
    ensures profileError.Some? ==> response == Failed(profileError.value) && query == []
    ensures profileError.None? ==> query == Plan(params, profileBranch, headquarter)
    ensures profileError.None? && answer.QueryError? ==> response == Failed(answer.message)
    ensures profileError.None? && answer.QueryRows? ==>
      var records := if answer.records.Some? then answer.records.value else [];
      && response.Listing?
      && response.total_rows == (if answer.count.Some? then answer.count.value else 0)
      && response.full_data
      && (response.is_profile_headquarter <==> profileBranch == headquarter)
      && |response.rows| == |records|
      && forall i :: 0 <= i < |records| ==> response.rows[i] == ToApplication(records[i])
  {
    query := [];
    if profileError.Some? {
      return Failed(profileError.value), query;
    }
    query := BuildQuery(params, profileBranch, headquarter);
    match answer
    case QueryError(message) =>
      response := Failed(message);
    case QueryRows(records, count) =>
      var list := if records.Some? then records.value else [];
      var rows := seq(|list|, i requires 0 <= i < |list| => ToApplication(list[i]));
      response := Listing(if count.Some? then count.value else 0, true, rows, profileBranch == headquarter);
  }
}
