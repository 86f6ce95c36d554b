/**
 * The entities: the rows of the two provider databases (Huawei, Tencent) that the
 * synchronisation reads, the rows of the unified database it writes, the sync log and
 * resource remarks. A nullable column is an `Option`; money is an integer number of
 * hundredths (fen); a `Date` column is a `DateTime`.
 */
module Rows {
  import opened Wrappers
  import opened Common

  const HuaweiProvider := "huawei"
  const TencentProvider := "tencent"

  // ---------------------------------------------------------------------------
  // Huawei source database
  // ---------------------------------------------------------------------------

  /** A row of Huawei `resources`. */
  datatype HwResourceRow = HwResourceRow(
    accountName: Option<string>, serviceType: string, resourceId: Option<string>,
    resourceName: Option<string>, projectName: Option<string>, region: Option<string>,
    expireTime: Option<DateTime>, remainingDays: int, batchNumber: string)

  /** A row of Huawei `domains`; the table has no batch column. */
  datatype HwDomainRow = HwDomainRow(
    accountName: Option<string>, resourceId: Option<string>, resourceName: Option<string>,
    expireTime: Option<DateTime>, remainingDays: int)

  /** A row of Huawei `account_balances` (the cash balance). */
  datatype HwBalanceRow = HwBalanceRow(
    accountName: Option<string>, totalAmount: Option<int>, currency: Option<string>, batchNumber: string)

  /** A row of Huawei `stored_cards` (prepaid stored-value cards). */
  datatype HwStoredCardRow = HwStoredCardRow(
    accountName: Option<string>, cardId: Option<string>, balance: Option<int>,
    effectiveTime: Option<DateTime>, expireTime: Option<DateTime>, status: Option<string>, batchNumber: string)

  /** A row of Huawei `account_bills`. */
  datatype HwBillRow = HwBillRow(
    accountName: Option<string>, projectName: Option<string>, serviceType: Option<string>,
    amount: Option<int>, currency: Option<string>, createdAt: Option<DateTime>, batchNumber: string)

  datatype HuaweiDb = HuaweiDb(
    resources: seq<HwResourceRow>, domains: seq<HwDomainRow>, accountBalances: seq<HwBalanceRow>,
    storedCards: seq<HwStoredCardRow>, accountBills: seq<HwBillRow>)

  // ---------------------------------------------------------------------------
  // Tencent source database
  // ---------------------------------------------------------------------------

  /**
   * A row of Tencent `cvm_instances`, `cbs_disks`, `lighthouse_instances` or
   * `ssl_certificates`, projected onto the columns the resource reader selects:
   * `id` is instance_id, disk_id or certificate_id; `name` is instance_name,
   * disk_name or the certificate's domain.
   */
  datatype TcResourceRow = TcResourceRow(
    accountName: Option<string>, id: Option<string>, name: Option<string>, projectName: Option<string>,
    zone: Option<string>, expiredTime: Option<DateTime>, differDays: int, batchNumber: string)

  /** A row of Tencent `billing_info`: bill lines, and the account balance as a pseudo-line. */
  datatype TcBillingRow = TcBillingRow(
    accountName: Option<string>, projectName: Option<string>, serviceName: Option<string>,
    balance: Option<int>, realTotalCost: Option<int>, billingDate: Option<DateTime>, batchNumber: string)

  /** A row of Tencent `account_balances` (read only by the older CloudService routines). */
  datatype TcBalanceRow = TcBalanceRow(accountName: Option<string>, balance: Option<int>)

  datatype TencentDb = TencentDb(
    cvmInstances: seq<TcResourceRow>, cbsDisks: seq<TcResourceRow>, lighthouseInstances: seq<TcResourceRow>,
    sslCertificates: seq<TcResourceRow>, billingInfo: seq<TcBillingRow>, accountBalances: seq<TcBalanceRow>)

  // ---------------------------------------------------------------------------
  // Unified database
  // ---------------------------------------------------------------------------

  /** A row of `cloud_resources`. */
  datatype UnifiedResource = UnifiedResource(
    cloudProvider: string, accountName: Option<string>, resourceType: string, resourceId: Option<string>,
    resourceName: Option<string>, projectName: Option<string>, region: Option<string>, zone: Option<string>,
    expireTime: Option<string>, remainingDays: int, status: Option<string>, batchNumber: string)

  /** A stored row of a unified table with its auto-increment `id`. */
  datatype Record<T> = Record(id: nat, row: T)

  type ResourceRecord = Record<UnifiedResource>
  type AccountRecord = Record<UnifiedAccount>
  type BillRecord = Record<UnifiedBill>

  /** A row of `cloud_accounts`; `balanceType` is `cash` or `stored_card`. */
  datatype UnifiedAccount = UnifiedAccount(
    cloudProvider: string, accountName: Option<string>, balance: Option<int>, currency: Option<string>,
    balanceType: string, expireTime: Option<string>, batchNumber: string)

  /** A row of `cloud_bills`. */
  datatype UnifiedBill = UnifiedBill(
    cloudProvider: string, accountName: Option<string>, projectName: Option<string>, serviceType: Option<string>,
    amount: Option<int>, currency: Option<string>, billingCycle: Option<string>, billingDate: Option<string>,
    batchNumber: string)

  datatype LogStatus = Success | Failed

  /** A row of `sync_logs` (its start and end timestamps are not modelled). */
  datatype SyncLogEntry = SyncLogEntry(syncType: string, status: LogStatus, errorMessage: Option<string>, batchNumber: string)

  /** The unique key of `resource_remarks`. */
  datatype RemarkKey = RemarkKey(cloudProvider: string, resourceId: string)

  /** The columns of stored records, in table order. */
  function RowsOf<T>(records: seq<Record<T>>): (rows: seq<T>)
    ensures |rows| == |records|
    ensures forall i :: 0 <= i < |records| ==> rows[i] == records[i].row
  {
    if |records| == 0 then [] else [records[0].row] + RowsOf(records[1..])
  }

  /** JavaScript `v || d` on a nullable string: null, undefined and the empty string all give `d`. */
  function OrDefault(v: Option<string>, d: string): (r: string)
    ensures v.Some? && v.value != "" ==> r == v.value
    ensures v.None? || v.value == "" ==> r == d
  {
    if v.None? || v.value == "" then d else v.value
  }

  /** SQL `COALESCE(v, d)`: only NULL gives `d`. */
  function Coalesce(v: Option<string>, d: string): (r: string)
    ensures v.Some? ==> r == v.value
    ensures v.None? ==> r == d
  {
    if v.None? then d else v.value
  }

  /** formatDate of SyncService: null stays null, a date becomes its `YYYY-MM-DD` calendar date. */
  function FormatOptDate(d: Option<DateTime>): (r: Option<string>)
    ensures r.None? <==> d.None?
    ensures r.Some? ==> |r.value| == 10 && HasDatePrefix(r.value)
  {
    if d.None? then None
    else
      FormatDateIsCalendarDate(d.value);
      Some(FormatDate(d.value))
  }
}
