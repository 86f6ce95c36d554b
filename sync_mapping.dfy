/**
 * What the SyncService pipelines read and how they map it: the latest-batch selection
 * of each source table and the row mappers that turn provider rows into unified rows.
 */
module SyncMapping {
  import opened Wrappers
  import opened Common
  import opened Seqs
  import opened Rows

  // ---------------------------------------------------------------------------
  // Latest-batch selection: WHERE batch_number = (SELECT MAX(batch_number) FROM t)
  // ---------------------------------------------------------------------------

  /** `SELECT MAX(batch_number)`: the greatest batch number, or NULL for an empty table. */
  function MaxBatch(bs: seq<string>): (m: Option<string>)
    ensures m.None? <==> |bs| == 0
    ensures m.Some? ==> m.value in bs
    ensures m.Some? ==> forall i :: 0 <= i < |bs| ==> LexLessEq(bs[i], m.value)
  {
    if |bs| == 0 then None
    else
      var rest := MaxBatch(bs[1..]);
      if rest.None? then Some(bs[0])
      else
        LexLessTotal(bs[0], rest.value);
        if LexLess(rest.value, bs[0]) then
          assert forall i :: 1 <= i < |bs| ==> LexLess(bs[i], bs[0]) by {
            forall i | 1 <= i < |bs| ensures LexLess(bs[i], bs[0]) {
              assert bs[i] == bs[1..][i - 1];
              if bs[i] != rest.value { LexLessTransitive(bs[i], rest.value, bs[0]); }
            }
          }
          Some(bs[0])
        else
          rest
  }

  /** The rows of a table whose batch number is the table's greatest. */
  function Latest<T>(rows: seq<T>, batchOf: T -> string): seq<T> {
    var m := MaxBatch(Map(batchOf, rows));
    Filter(rows, (r: T) => Some(batchOf(r)) == m)
  }

  /**
   * The latest-batch selection keeps every row of the greatest batch and no other
   * row; all kept rows share one batch number, no smaller than any in the table;
   * it is empty only when the table is.
   */
  lemma LatestSelects<T>(rows: seq<T>, batchOf: T -> string)
    ensures forall i :: 0 <= i < |Latest(rows, batchOf)| ==> Latest(rows, batchOf)[i] in rows
    ensures forall r, s :: r in Latest(rows, batchOf) && s in rows ==> LexLessEq(batchOf(s), batchOf(r))
    ensures forall r, s :: r in Latest(rows, batchOf) && s in rows && batchOf(s) == batchOf(r) ==> s in Latest(rows, batchOf)
    ensures |rows| > 0 ==> |Latest(rows, batchOf)| > 0
  {
    var bs := Map(batchOf, rows);
    var m := MaxBatch(bs);
    var keep := (r: T) => Some(batchOf(r)) == m;
    var l := Filter(rows, keep);
    FilterMembers(rows, keep);
    forall r, s | r in l && s in rows ensures LexLessEq(batchOf(s), batchOf(r)) {
      var j :| 0 <= j < |rows| && rows[j] == s;
      assert bs[j] == batchOf(s);
    }
    if |rows| > 0 {
      var j :| 0 <= j < |bs| && bs[j] == m.value;
      assert keep(rows[j]);
      assert rows[j] in l;
    }
  }

  /** Every selected row carries the table's greatest batch number. */
  lemma LatestBatch<T>(rows: seq<T>, batchOf: T -> string)
    ensures forall i :: 0 <= i < |Latest(rows, batchOf)| ==> Some(batchOf(Latest(rows, batchOf)[i])) == MaxBatch(Map(batchOf, rows))
  {
  }

  // ---------------------------------------------------------------------------
  // Resources
  // ---------------------------------------------------------------------------

  /** A Huawei `resources` row: region doubles as zone, status `active`, the current batch. */
  function HuaweiResource(batch: string): HwResourceRow -> UnifiedResource {
    (r: HwResourceRow) =>
      UnifiedResource(HuaweiProvider, r.accountName, r.serviceType, r.resourceId, r.resourceName,
                      r.projectName, r.region, r.region, FormatOptDate(r.expireTime), r.remainingDays,
                      Some("active"), batch)
  }

  /** A Huawei `domains` row: type `DOMAIN`, project `default`, region and zone `global`, the current batch. */
  function HuaweiDomain(batch: string): HwDomainRow -> UnifiedResource {
    (d: HwDomainRow) =>
      UnifiedResource(HuaweiProvider, d.accountName, "DOMAIN", d.resourceId, d.resourceName,
                      Some("default"), Some("global"), Some("global"), FormatOptDate(d.expireTime),
                      d.remainingDays, Some("active"), batch)
  }

  /** The four Tencent resource tables and their rule for the project and zone columns. */
  datatype TencentKind = Cvm | Cbs | Lighthouse | Ssl {
    function TypeName(): string {
      match this
      case Cvm => "CVM"
      case Cbs => "CBS"
      case Lighthouse => "LIGHTHOUSE"
      case Ssl => "SSL"
    }
  }

  /**
   * A Tencent resource row: CVM, CBS and SSL default a NULL project to `default`,
   * lighthouse instances always get `default`; SSL certificates are in zone `global`;
   * the zone doubles as region; status `active`; the row keeps its own batch number.
   */
  function TencentResource(kind: TencentKind): TcResourceRow -> UnifiedResource {
    (r: TcResourceRow) =>
      var project := if kind == Lighthouse then "default" else Coalesce(r.projectName, "default");
      var zone := if kind == Ssl then Some("global") else r.zone;
      UnifiedResource(TencentProvider, r.accountName, kind.TypeName(), r.id, r.name, Some(project),
                      zone, zone, FormatOptDate(r.expiredTime), r.differDays, Some("active"), r.batchNumber)
  }

  function TcBatch(r: TcResourceRow): string { r.batchNumber }
  function HwResourceBatch(r: HwResourceRow): string { r.batchNumber }

  /** Latest-batch Huawei resources followed by every Huawei domain. */
  function HuaweiResourceRows(hw: HuaweiDb, batch: string): seq<UnifiedResource> {
    Map(HuaweiResource(batch), Latest(hw.resources, HwResourceBatch))
      + Map(HuaweiDomain(batch), hw.domains)
  }

  /** `UNION ALL` of the latest batch of each Tencent resource table, in CVM, CBS, lighthouse, SSL order. */
  function TencentResourceRows(tc: TencentDb): seq<UnifiedResource> {
    Map(TencentResource(Cvm), Latest(tc.cvmInstances, TcBatch))
      + Map(TencentResource(Cbs), Latest(tc.cbsDisks, TcBatch))
      + Map(TencentResource(Lighthouse), Latest(tc.lighthouseInstances, TcBatch))
      + Map(TencentResource(Ssl), Latest(tc.sslCertificates, TcBatch))
  }

  /** The shape every mapped resource row has: zone equals region, status `active`, a calendar-date expiry. */
  predicate MappedResource(u: UnifiedResource) {
    u.zone == u.region && u.status == Some("active")
    && (u.expireTime.Some? ==> |u.expireTime.value| == 10 && HasDatePrefix(u.expireTime.value))
  }

  /**
   * Every Huawei row is tagged `huawei`, stamped with the current batch and shaped as
   * MappedResource; there is one per latest-batch resource and one per domain.
   */
  lemma HuaweiResourceRowsShape(hw: HuaweiDb, batch: string)
    ensures |HuaweiResourceRows(hw, batch)| == |Latest(hw.resources, HwResourceBatch)| + |hw.domains|
    ensures forall u :: u in HuaweiResourceRows(hw, batch) ==>
      u.cloudProvider == HuaweiProvider && u.batchNumber == batch && MappedResource(u)
  {
  }

  /**
   * Every Tencent row is tagged `tencent`, shaped as MappedResource, and keeps a batch
   * number that is the greatest of the source table it came from.
   */
  lemma TencentResourceRowsShape(tc: TencentDb)
    ensures forall u :: u in TencentResourceRows(tc) ==>
      u.cloudProvider == TencentProvider && MappedResource(u)
    ensures forall u :: u in TencentResourceRows(tc) ==>
      (u.resourceType == "CVM" && MaxBatch(Map(TcBatch, tc.cvmInstances)) == Some(u.batchNumber))
      || (u.resourceType == "CBS" && MaxBatch(Map(TcBatch, tc.cbsDisks)) == Some(u.batchNumber))
      || (u.resourceType == "LIGHTHOUSE" && MaxBatch(Map(TcBatch, tc.lighthouseInstances)) == Some(u.batchNumber))
      || (u.resourceType == "SSL" && MaxBatch(Map(TcBatch, tc.sslCertificates)) == Some(u.batchNumber))
  {
    forall u | u in TencentResourceRows(tc)
      ensures u.cloudProvider == TencentProvider && MappedResource(u)
      ensures (u.resourceType == "CVM" && MaxBatch(Map(TcBatch, tc.cvmInstances)) == Some(u.batchNumber))
      || (u.resourceType == "CBS" && MaxBatch(Map(TcBatch, tc.cbsDisks)) == Some(u.batchNumber))
      || (u.resourceType == "LIGHTHOUSE" && MaxBatch(Map(TcBatch, tc.lighthouseInstances)) == Some(u.batchNumber))
      || (u.resourceType == "SSL" && MaxBatch(Map(TcBatch, tc.sslCertificates)) == Some(u.batchNumber))
    {
      var a := Map(TencentResource(Cvm), Latest(tc.cvmInstances, TcBatch));
      var b := Map(TencentResource(Cbs), Latest(tc.cbsDisks, TcBatch));
      var c := Map(TencentResource(Lighthouse), Latest(tc.lighthouseInstances, TcBatch));
      var d := Map(TencentResource(Ssl), Latest(tc.sslCertificates, TcBatch));
      assert u in a || u in b || u in c || u in d;
      if u in a { TencentKindShape(Cvm, tc.cvmInstances, u); }
      else if u in b { TencentKindShape(Cbs, tc.cbsDisks, u); }
      else if u in c { TencentKindShape(Lighthouse, tc.lighthouseInstances, u); }
      else { TencentKindShape(Ssl, tc.sslCertificates, u); }
    }
  }

  /** A mapped row of one Tencent table carries that table's type and greatest batch number. */
  lemma TencentKindShape(kind: TencentKind, rows: seq<TcResourceRow>, u: UnifiedResource)
    requires u in Map(TencentResource(kind), Latest(rows, TcBatch))
    ensures u.cloudProvider == TencentProvider && MappedResource(u)
    ensures u.resourceType == kind.TypeName() && MaxBatch(Map(TcBatch, rows)) == Some(u.batchNumber)
  {
    var l := Latest(rows, TcBatch);
    var mapped := Map(TencentResource(kind), l);
    var i :| 0 <= i < |mapped| && mapped[i] == u;
    LatestBatch(rows, TcBatch);
    assert u == TencentResource(kind)(l[i]);
  }

  // ---------------------------------------------------------------------------
  // Accounts and the billing_info split
  // ---------------------------------------------------------------------------

  /** A Huawei cash balance: type `cash`, no expiry, the source currency, the current batch. */
  function HuaweiCash(batch: string): HwBalanceRow -> UnifiedAccount {
    (r: HwBalanceRow) => UnifiedAccount(HuaweiProvider, r.accountName, r.totalAmount, r.currency, "cash", None, batch)
  }

  /** A Huawei stored card: type `stored_card`, `CNY`, its expiry as a calendar date or NULL. */
  function HuaweiCard(batch: string): HwStoredCardRow -> UnifiedAccount {
    (c: HwStoredCardRow) =>
      UnifiedAccount(HuaweiProvider, c.accountName, c.balance, Some("CNY"), "stored_card", FormatOptDate(c.expireTime), batch)
  }

  /** A Tencent account-balance line of billing_info: type `cash`, `CNY`, no expiry. */
  function TencentCash(batch: string): TcBillingRow -> UnifiedAccount {
    (b: TcBillingRow) => UnifiedAccount(TencentProvider, b.accountName, b.balance, Some("CNY"), "cash", None, batch)
  }

  const SystemProject := "系统"
  const BalanceService := "账户余额"

  /** SQL's three-valued `=`: a comparison with NULL is NULL. */
  function SqlEq(v: Option<string>, c: string): (r: Option<bool>)
    ensures r.None? <==> v.None?
  {
    if v.None? then None else Some(v.value == c)
  }

  /** SQL's three-valued AND. */
  function SqlAnd(a: Option<bool>, b: Option<bool>): (r: Option<bool>)
    ensures r == Some(true) <==> a == Some(true) && b == Some(true)
    ensures r == Some(false) <==> a == Some(false) || b == Some(false)
  {
    match (a, b)
    case (Some(false), _) => Some(false)
    case (_, Some(false)) => Some(false)
    case (Some(true), Some(true)) => Some(true)
    case _ => None
  }

  /** SQL's three-valued NOT. */
  function SqlNot(a: Option<bool>): (r: Option<bool>)
    ensures r.None? <==> a.None?
    ensures r.Some? ==> r.value == !a.value
  {
    if a.None? then None else Some(!a.value)
  }

  function BalanceLineCondition(b: TcBillingRow): Option<bool> {
    SqlAnd(SqlEq(b.projectName, SystemProject), SqlEq(b.serviceName, BalanceService))
  }

  /** The accounts pipeline's `WHERE project_name = '系统' AND service_name = '账户余额'`. */
  predicate IsBalanceLine(b: TcBillingRow) {
    BalanceLineCondition(b) == Some(true)
  }

  /** The bills pipeline's `WHERE NOT (project_name = '系统' AND service_name = '账户余额')`. */
  predicate IsBillLine(b: TcBillingRow) {
    SqlNot(BalanceLineCondition(b)) == Some(true)
  }

  function TcBillingBatch(b: TcBillingRow): string { b.batchNumber }
  function HwBalanceBatch(r: HwBalanceRow): string { r.batchNumber }
  function HwCardBatch(c: HwStoredCardRow): string { c.batchNumber }
  function HwBillBatch(b: HwBillRow): string { b.batchNumber }

  /** Latest Huawei cash balances, then latest Huawei stored cards, then the latest Tencent balance lines. */
  function AccountRows(hw: HuaweiDb, tc: TencentDb, batch: string): seq<UnifiedAccount> {
    Map(HuaweiCash(batch), Latest(hw.accountBalances, HwBalanceBatch))
      + Map(HuaweiCard(batch), Latest(hw.storedCards, HwCardBatch))
      + Map(TencentCash(batch), Filter(Latest(tc.billingInfo, TcBillingBatch), IsBalanceLine))
  }

  /**
   * Every account row carries the current batch; cash rows have no expiry; stored
   * cards and Tencent rows are in `CNY`; a stored card's expiry is a calendar date.
   */
  lemma AccountRowsShape(hw: HuaweiDb, tc: TencentDb, batch: string)
    ensures forall a :: a in AccountRows(hw, tc, batch) ==>
      a.batchNumber == batch
      && (a.balanceType == "cash" || a.balanceType == "stored_card")
      && (a.balanceType == "cash" ==> a.expireTime.None?)
      && (a.balanceType == "stored_card" ==> a.cloudProvider == HuaweiProvider && a.currency == Some("CNY"))
      && (a.expireTime.Some? ==> HasDatePrefix(a.expireTime.value))
      && (a.cloudProvider == TencentProvider ==> a.currency == Some("CNY") && a.balanceType == "cash")
  {
    forall a | a in AccountRows(hw, tc, batch)
      ensures a.batchNumber == batch
      && (a.balanceType == "cash" || a.balanceType == "stored_card")
      && (a.balanceType == "cash" ==> a.expireTime.None?)
      && (a.balanceType == "stored_card" ==> a.cloudProvider == HuaweiProvider && a.currency == Some("CNY"))
      && (a.expireTime.Some? ==> HasDatePrefix(a.expireTime.value))
      && (a.cloudProvider == TencentProvider ==> a.currency == Some("CNY") && a.balanceType == "cash")
    {
      var x := Map(HuaweiCash(batch), Latest(hw.accountBalances, HwBalanceBatch));
      var y := Map(HuaweiCard(batch), Latest(hw.storedCards, HwCardBatch));
      var z := Map(TencentCash(batch), Filter(Latest(tc.billingInfo, TcBillingBatch), IsBalanceLine));
      assert a in x || a in y || a in z;
    }
  }

  /**
   * On a billing_info row whose project and service are both non-NULL, exactly one of
   * the two pipelines takes it.
   */
  lemma BalanceOrBillLine(b: TcBillingRow)
    requires b.projectName.Some? && b.serviceName.Some?
    ensures IsBalanceLine(b) != IsBillLine(b)
    ensures IsBalanceLine(b) <==> b.projectName == Some(SystemProject) && b.serviceName == Some(BalanceService)
  {
  }

  /**
   * Three-valued logic loses a row: a balance line whose project is NULL matches
   * neither condition, so neither accounts nor bills take it.
   */
  lemma NullProjectBalanceLineDropped(b: TcBillingRow)
    requires b.projectName.None? && b.serviceName == Some(BalanceService)
    ensures !IsBalanceLine(b) && !IsBillLine(b)
  {
  }

  /**
   * When every latest-batch billing_info row has a project and a service, the latest
   * batch splits exactly between accounts and bills: each row goes to one side only.
   */
  lemma {:induction false} BillingInfoSplit(tc: TencentDb)
    requires forall b :: b in tc.billingInfo ==> b.projectName.Some? && b.serviceName.Some?
    ensures var l := Latest(tc.billingInfo, TcBillingBatch);
      multiset(Filter(l, IsBalanceLine)) + multiset(Filter(l, IsBillLine)) == multiset(l)
      && |Filter(l, IsBalanceLine)| + |Filter(l, IsBillLine)| == |l|
  {
    var l := Latest(tc.billingInfo, TcBillingBatch);
    LatestSelects(tc.billingInfo, TcBillingBatch);
    forall i | 0 <= i < |l| ensures IsBalanceLine(l[i]) != IsBillLine(l[i]) {
      BalanceOrBillLine(l[i]);
    }
    FilterPartition(l, IsBalanceLine, IsBillLine);
  }

  // ---------------------------------------------------------------------------
  // Bills
  // ---------------------------------------------------------------------------

  /** A Huawei bill: project defaults to `default`, currency to `CNY`, cycle `monthly`, date from created_at. */
  function HuaweiBill(batch: string): HwBillRow -> UnifiedBill {
    (b: HwBillRow) =>
      UnifiedBill(HuaweiProvider, b.accountName, Some(Coalesce(b.projectName, "default")), b.serviceType, b.amount,
                  Some(OrDefault(b.currency, "CNY")), Some("monthly"), FormatOptDate(b.createdAt), batch)
  }

  /** A Tencent bill line: amount is real_total_cost or 0 when NULL, `CNY`, `monthly`. */
  function TencentBill(batch: string): TcBillingRow -> UnifiedBill {
    (b: TcBillingRow) =>
      UnifiedBill(TencentProvider, b.accountName, Some(Coalesce(b.projectName, "default")), b.serviceName,
                  Some(b.realTotalCost.GetOr(0)), Some("CNY"), Some("monthly"), FormatOptDate(b.billingDate), batch)
  }

  /** Latest Huawei bills, then the latest Tencent bill lines. */
  function BillRows(hw: HuaweiDb, tc: TencentDb, batch: string): seq<UnifiedBill> {
    Map(HuaweiBill(batch), Latest(hw.accountBills, HwBillBatch))
      + Map(TencentBill(batch), Filter(Latest(tc.billingInfo, TcBillingBatch), IsBillLine))
  }

  /**
   * Every bill row carries the current batch, cycle `monthly`, a project and a currency;
   * Tencent bills always have an amount; a date, when present, is a calendar date.
   */
  lemma BillRowsShape(hw: HuaweiDb, tc: TencentDb, batch: string)
    ensures forall b :: b in BillRows(hw, tc, batch) ==>
      b.batchNumber == batch && b.billingCycle == Some("monthly") && b.projectName.Some?
      && b.currency.Some? && b.currency.value != ""
      && (b.cloudProvider == TencentProvider ==> b.amount.Some? && b.currency == Some("CNY"))
      && (b.billingDate.Some? ==> HasDatePrefix(b.billingDate.value))
  {
    forall b | b in BillRows(hw, tc, batch)
      ensures b.batchNumber == batch && b.billingCycle == Some("monthly") && b.projectName.Some?
      && b.currency.Some? && b.currency.value != ""
      && (b.cloudProvider == TencentProvider ==> b.amount.Some? && b.currency == Some("CNY"))
      && (b.billingDate.Some? ==> HasDatePrefix(b.billingDate.value))
    {
      var x := Map(HuaweiBill(batch), Latest(hw.accountBills, HwBillBatch));
      var y := Map(TencentBill(batch), Filter(Latest(tc.billingInfo, TcBillingBatch), IsBillLine));
      assert b in x || b in y;
    }
  }
}
