/**
 * The field-renaming mapper shared by both sync routes: an upstream
 * `Application` record, with the CMS's `a__b` lookup names, becomes one row of
 * the local `application_records` table, with `a_b` and `x_id` column names.
 * The record's `id` and `update_time` are typed (the sync keys and orders on
 * them); every other field is a dynamic JavaScript value.
 */
module Records {
  import opened Js

  /** One upstream record, with the fields the `values` parameter asks for. */
  datatype UpstreamRecord = UpstreamRecord(
    id: int,
    code: Value,
    approve_amount: Value,
    approve_term: Value,
    loan_amount: Value,
    loan_term: Value,
    status: Value,
    status__name: Value,
    product: Value,
    product__type__name: Value,
    product__type__code: Value,
    product__category__name: Value,
    product__category__code: Value,
    customer: Value,
    customer__code: Value,
    fullname: Value,
    phone: Value,
    sex: Value,
    sex__name: Value,
    legal_type: Value,
    legal_type__code: Value,
    legal_type__name: Value,
    legal_code: Value,
    issue_place: Value,
    issue_date: Value,
    province: Value,
    district: Value,
    address: Value,
    country: Value,
    country__code: Value,
    country__name: Value,
    currency: Value,
    currency__code: Value,
    branch: Value,
    branch__code: Value,
    creator: Value,
    creator__fullname: Value,
    updater: Value,
    updater__fullname: Value,
    approver: Value,
    approver__fullname: Value,
    source: Value,
    source__name: Value,
    collaborator: Value,
    loanapp__code: Value,
    note: Value,
    create_time: Value,
    update_time: int
  )

  /** The columns of `application_records` that the sync writes. */
  datatype RecordColumns = RecordColumns(
    id: int,
    code: Value,
    approve_amount: Value,
    approve_term: Value,
    loan_amount: Value,
    loan_term: Value,
    status: Value,
    status_name: Value,
    product_id: Value,
    product_type_name: Value,
    product_type_code: Value,
    product_category_name: Value,
    product_category_code: Value,
    customer_id: Value,
    customer_code: Value,
    fullname: Value,
    phone: Value,
    sex: Value,
    sex_name: Value,
    legal_type: Value,
    legal_type_code: Value,
    legal_type_name: Value,
    legal_code: Value,
    issue_place: Value,
    issue_date: Value,
    province: Value,
    district: Value,
    address: Value,
    country_id: Value,
    country_code: Value,
    country_name: Value,
    currency_id: Value,
    currency_code: Value,
    branch_id: Value,
    branch_code: Value,
    creator_id: Value,
    creator_fullname: Value,
    updater_id: Value,
    updater_fullname: Value,
    approver_id: Value,
    approver_fullname: Value,
    source_id: Value,
    source_name: Value,
    collaborator_id: Value,
    loanapp_code: Value,
    note: Value,
    create_time: Value,
    update_time: int
  )

  /** A stored row: the synced columns and `branch_uuid`, which only the branch editor writes. */
  datatype TableRow = TableRow(columns: RecordColumns, branch_uuid: Value)

  /** The mapper's object literal: one column per upstream field, renamed. */
  function MapRecord(item: UpstreamRecord): (row: RecordColumns)
    ensures row.id == item.id && row.update_time == item.update_time
  {
    RecordColumns(
      id := item.id,
      code := item.code,
      approve_amount := item.approve_amount,
      approve_term := item.approve_term,
      loan_amount := item.loan_amount,
      loan_term := item.loan_term,
      status := item.status,
      status_name := item.status__name,
      product_id := item.product,
      product_type_name := item.product__type__name,
      product_type_code := item.product__type__code,
      product_category_name := item.product__category__name,
      product_category_code := item.product__category__code,
      customer_id := item.customer,
      customer_code := item.customer__code,
      fullname := item.fullname,
      phone := item.phone,
      sex := item.sex,
      sex_name := item.sex__name,
      legal_type := item.legal_type,
      legal_type_code := item.legal_type__code,
      legal_type_name := item.legal_type__name,
      legal_code := item.legal_code,
      issue_place := item.issue_place,
      issue_date := item.issue_date,
      province := item.province,
      district := item.district,
      address := item.address,
      country_id := item.country,
      country_code := item.country__code,
      country_name := item.country__name,
      currency_id := item.currency,
      currency_code := item.currency__code,
      branch_id := item.branch,
      branch_code := item.branch__code,
      creator_id := item.creator,
      creator_fullname := item.creator__fullname,
      updater_id := item.updater,
      updater_fullname := item.updater__fullname,
      approver_id := item.approver,
      approver_fullname := item.approver__fullname,
      source_id := item.source,
      source_name := item.source__name,
      collaborator_id := item.collaborator,
      loanapp_code := item.loanapp__code,
      note := item.note,
      create_time := item.create_time,
      update_time := item.update_time
    )
  }

  /** The renaming read backwards: the upstream field each column came from. */
  function UnmapRecord(row: RecordColumns): (item: UpstreamRecord)
    ensures item.id == row.id && item.update_time == row.update_time
  {
    UpstreamRecord(
      id := row.id,
      code := row.code,
      approve_amount := row.approve_amount,
      approve_term := row.approve_term,
      loan_amount := row.loan_amount,
      loan_term := row.loan_term,
      status := row.status,
      status__name := row.status_name,
      product := row.product_id,
      product__type__name := row.product_type_name,
      product__type__code := row.product_type_code,
      product__category__name := row.product_category_name,
      product__category__code := row.product_category_code,
      customer := row.customer_id,
      customer__code := row.customer_code,
      fullname := row.fullname,
      phone := row.phone,
      sex := row.sex,
      sex__name := row.sex_name,
      legal_type := row.legal_type,
      legal_type__code := row.legal_type_code,
      legal_type__name := row.legal_type_name,
      legal_code := row.legal_code,
      issue_place := row.issue_place,
      issue_date := row.issue_date,
      province := row.province,
      district := row.district,
      address := row.address,
      country := row.country_id,
      country__code := row.country_code,
      country__name := row.country_name,
      currency := row.currency_id,
      currency__code := row.currency_code,
      branch := row.branch_id,
      branch__code := row.branch_code,
      creator := row.creator_id,
      creator__fullname := row.creator_fullname,
      updater := row.updater_id,
      updater__fullname := row.updater_fullname,
      approver := row.approver_id,
      approver__fullname := row.approver_fullname,
      source := row.source_id,
      source__name := row.source_name,
      collaborator := row.collaborator_id,
      loanapp__code := row.loanapp_code,
      note := row.note,
      create_time := row.create_time,
      update_time := row.update_time
    )
  }

  /** The renaming loses nothing: every upstream field lands in exactly one column. */
  lemma MapRecordRoundTrip(item: UpstreamRecord, row: RecordColumns)
    ensures UnmapRecord(MapRecord(item)) == item
    ensures MapRecord(UnmapRecord(row)) == row
  {
  }

  /** Two different upstream records never map to the same row. */
  lemma MapRecordInjective(a: UpstreamRecord, b: UpstreamRecord)
    requires MapRecord(a) == MapRecord(b)
    ensures a == b
  {
    MapRecordRoundTrip(a, MapRecord(a));
    MapRecordRoundTrip(b, MapRecord(b));
  }

  /** `batch.map(item => ({ ... }))`: one row per record, in order. */
  function MapRecords(items: seq<UpstreamRecord>): (rows: seq<RecordColumns>)
    ensures |rows| == |items|
  {
    seq(|items|, i requires 0 <= i < |items| => MapRecord(items[i]))
  }
}
