/**
 * CloudService: the query that lists the resources close to expiry with their
 * remarks, the remark upsert, and the older synchronisation routines that refill
 * the unified tables statement by statement, without a transaction.
 */
module Cloud {
  import opened Wrappers
  import opened Common
  import opened Seqs
  import opened Rows
  import opened UnifiedDb

  // ---------------------------------------------------------------------------
  // getExpiryResources
  // ---------------------------------------------------------------------------

  const DefaultThreshold := 65

  /** The optional query parameters `remainingDays` and `orderBy`. */
  datatype ExpiryQuery = ExpiryQuery(remainingDays: Option<int>, orderBy: Option<string>)

  /** A row of the result: the resource's columns (`r.*`) and the joined remark (`rr.remark`). */
  datatype ExpiryRow = ExpiryRow(record: ResourceRecord, remark: Option<string>)

  /** A missing `remainingDays` defaults to 65. */
  function Threshold(q: ExpiryQuery): int {
    q.remainingDays.GetOr(DefaultThreshold)
  }

  /** `ASC` for a missing `orderBy` or `'asc'`; any other value sorts `DESC`. */
  predicate Ascending(q: ExpiryQuery) {
    q.orderBy.None? || q.orderBy.value == "asc"
  }

  /**
   * The LEFT JOIN on (cloud_provider, resource_id): the remark stored under the
   * resource's key, or NULL; a NULL resource_id matches no remark.
   */
  function RemarkOf(r: UnifiedResource, remarks: map<RemarkKey, string>): Option<string> {
    if r.resourceId.Some? && RemarkKey(r.cloudProvider, r.resourceId.value) in remarks
    then Some(remarks[RemarkKey(r.cloudProvider, r.resourceId.value)])
    else None
  }

  function Days(e: ExpiryRow): int {
    e.record.row.remainingDays
  }

  predicate InOrder(a: int, b: int, asc: bool) {
    if asc then a <= b else b <= a
  }

  /** `ORDER BY remaining_days ASC` (or `DESC`). */
  predicate SortedByDays(rows: seq<ExpiryRow>, asc: bool) {
    forall i, j :: 0 <= i < j < |rows| ==> InOrder(Days(rows[i]), Days(rows[j]), asc)
  }

  /** Insert `e` into sorted `rows` before the first row it may precede. */
  function InsertByDays(e: ExpiryRow, rows: seq<ExpiryRow>, asc: bool): (r: seq<ExpiryRow>)
    requires SortedByDays(rows, asc)
    ensures SortedByDays(r, asc)
    ensures multiset(r) == multiset(rows) + multiset{e}
  {
    if |rows| == 0 || InOrder(Days(e), Days(rows[0]), asc) then
      ConsSorted(e, rows, asc);
      [e] + rows
    else
      var rest := InsertByDays(e, rows[1..], asc);
      assert rows == [rows[0]] + rows[1..];
      HeadPrecedes(e, rows, rest, asc);
      ConsSorted(rows[0], rest, asc);
      [rows[0]] + rest
  }

  /** A row that may precede the first row of a sorted sequence, or every row of it, may go in front. */
  lemma ConsSorted(x: ExpiryRow, rows: seq<ExpiryRow>, asc: bool)
    requires SortedByDays(rows, asc)
    requires (|rows| > 0 ==> InOrder(Days(x), Days(rows[0]), asc))
             || forall k :: 0 <= k < |rows| ==> InOrder(Days(x), Days(rows[k]), asc)
    ensures SortedByDays([x] + rows, asc)
  {
    var r := [x] + rows;
    forall i, j | 0 <= i < j < |r| ensures InOrder(Days(r[i]), Days(r[j]), asc) {
      if i == 0 && j > 1 {
        assert r[j] == rows[j - 1];
      }
    }
  }

  /**
   * When `e` goes after the head of sorted `rows`, the head may precede every row of
   * a permutation of the tail with `e` added.
   */
  lemma HeadPrecedes(e: ExpiryRow, rows: seq<ExpiryRow>, rest: seq<ExpiryRow>, asc: bool)
    requires SortedByDays(rows, asc) && |rows| > 0 && !InOrder(Days(e), Days(rows[0]), asc)
    requires multiset(rest) == multiset(rows[1..]) + multiset{e}
    ensures forall k :: 0 <= k < |rest| ==> InOrder(Days(rows[0]), Days(rest[k]), asc)
  {
    forall k | 0 <= k < |rest| ensures InOrder(Days(rows[0]), Days(rest[k]), asc) {
      assert rest[k] in multiset(rest);
      if rest[k] != e {
        assert rest[k] in multiset(rows[1..]);
        var j :| 0 <= j < |rows[1..]| && rows[1..][j] == rest[k];
        assert rows[j + 1] == rest[k];
      }
    }
  }

  /** The rows in `ORDER BY remaining_days` order; rows with equal days are in no promised order. */
  function SortByDays(rows: seq<ExpiryRow>, asc: bool): (r: seq<ExpiryRow>)
    ensures SortedByDays(r, asc)
    ensures multiset(r) == multiset(rows)
  {
    if |rows| == 0 then []
    else
      assert rows == [rows[0]] + rows[1..];
      InsertByDays(rows[0], SortByDays(rows[1..], asc), asc)
  }

  /** `WHERE r.remaining_days <= ?` */
  function WithinDays(threshold: int): ResourceRecord -> bool {
    (x: ResourceRecord) => x.row.remainingDays <= threshold
  }

  function JoinRemark(remarks: map<RemarkKey, string>): ResourceRecord -> ExpiryRow {
    (x: ResourceRecord) => ExpiryRow(x, RemarkOf(x.row, remarks))
  }

  /** getExpiryResources: the resources within the threshold with their remarks, sorted by remaining days. */
  function GetExpiryResources(records: seq<ResourceRecord>, remarks: map<RemarkKey, string>, q: ExpiryQuery): (r: seq<ExpiryRow>)
    ensures SortedByDays(r, Ascending(q))
  {
    SortByDays(Map(JoinRemark(remarks), Filter(records, WithinDays(Threshold(q)))), Ascending(q))
  }

  lemma JoinMultiset(remarks: map<RemarkKey, string>, s: seq<ResourceRecord>, x: ResourceRecord)
    ensures multiset(Map(JoinRemark(remarks), s))[ExpiryRow(x, RemarkOf(x.row, remarks))] == multiset(s)[x]
  {
    MapMultiset(JoinRemark(remarks), s, x);
  }

  /**
   * Every returned row is a stored resource within the threshold, carrying the
   * remark stored under its (cloud_provider, resource_id), or none.
   */
  lemma ExpiryRowsJoined(records: seq<ResourceRecord>, remarks: map<RemarkKey, string>, q: ExpiryQuery)
    ensures var r := GetExpiryResources(records, remarks, q);
      forall i :: 0 <= i < |r| ==>
        r[i].record in records && r[i].record.row.remainingDays <= Threshold(q)
        && r[i].remark == RemarkOf(r[i].record.row, remarks)
  {
    var f := Filter(records, WithinDays(Threshold(q)));
    var joined := Map(JoinRemark(remarks), f);
    var r := GetExpiryResources(records, remarks, q);
    FilterMembers(records, WithinDays(Threshold(q)));
    forall i | 0 <= i < |r|
      ensures r[i].record in records && r[i].record.row.remainingDays <= Threshold(q)
      ensures r[i].remark == RemarkOf(r[i].record.row, remarks)
    {
      assert r[i] in multiset(r);
      var k :| 0 <= k < |joined| && joined[k] == r[i];
      assert r[i] == ExpiryRow(f[k], RemarkOf(f[k].row, remarks));
    }
  }

  /**
   * The result holds each stored resource within the threshold exactly as often as
   * the table does, and no resource beyond it.
   */
  lemma ExpiryResourcesExact(records: seq<ResourceRecord>, remarks: map<RemarkKey, string>, q: ExpiryQuery, x: ResourceRecord)
    ensures multiset(GetExpiryResources(records, remarks, q))[ExpiryRow(x, RemarkOf(x.row, remarks))]
            == if x.row.remainingDays <= Threshold(q) then multiset(records)[x] else 0
  {
    var f := Filter(records, WithinDays(Threshold(q)));
    JoinMultiset(remarks, f, x);
    FilterMultiset(records, WithinDays(Threshold(q)), x);
  }

  // ---------------------------------------------------------------------------
  // updateResourceRemark
  // ---------------------------------------------------------------------------

  const RemarkUpdateFailure := "Failed to update resource remark"

  /** `SELECT ... FROM cloud_resources WHERE id = ?`, first row. */
  function FindById(records: seq<ResourceRecord>, id: int): (r: Option<ResourceRecord>)
    ensures r.Some? ==> r.value in records && r.value.id == id
    ensures r.None? ==> forall i :: 0 <= i < |records| ==> records[i].id != id
  {
    if |records| == 0 then None
    else if records[0].id == id then Some(records[0])
    else FindById(records[1..], id)
  }

  /**
   * The remarks after updateResourceRemark, or its error: every failure (no such
   * resource, a failing query) surfaces as the same message. A resource without a
   * resource_id gets a remark row that no join can reach.
   */
  function RemarkUpdate(records: seq<ResourceRecord>, remarks: map<RemarkKey, string>, resourceId: int,
                        remark: string, queryFails: bool): Result<map<RemarkKey, string>>
  {
    match FindById(records, resourceId)
    case None => Err(RemarkUpdateFailure)
    case Some(x) =>
      if queryFails then Err(RemarkUpdateFailure)
      else if x.row.resourceId.None? then Ok(remarks)
      else Ok(remarks[RemarkKey(x.row.cloudProvider, x.row.resourceId.value) := remark])
  }

  /** The update fails, always with the same message, exactly when no resource has the id or a query fails. */
  lemma RemarkUpdateFails(records: seq<ResourceRecord>, remarks: map<RemarkKey, string>, resourceId: int,
                          remark: string, queryFails: bool)
    ensures var r := RemarkUpdate(records, remarks, resourceId, remark, queryFails);
      (r.Err? <==> queryFails || forall i :: 0 <= i < |records| ==> records[i].id != resourceId)
      && (r.Err? ==> r.message == RemarkUpdateFailure)
  {
    if exists i :: 0 <= i < |records| && records[i].id == resourceId {
      var i :| 0 <= i < |records| && records[i].id == resourceId;
      assert FindById(records, resourceId).Some?;
    }
  }

  /**
   * On a well-formed table the update of resource `t.records[i]` maps its key to the
   * new text and leaves every other remark as it was.
   */
  lemma RemarkUpsert(t: Table<UnifiedResource>, remarks: map<RemarkKey, string>, i: int, remark: string)
    requires WellFormed(t) && 0 <= i < |t.records| && t.records[i].row.resourceId.Some?
    ensures var x := t.records[i].row;
      var key := RemarkKey(x.cloudProvider, x.resourceId.value);
      var r := RemarkUpdate(t.records, remarks, t.records[i].id, remark, false);
      r.Ok? && key in r.value && r.value[key] == remark
      && (forall k :: k != key ==> (k in r.value <==> k in remarks))
      && (forall k :: k != key && k in remarks ==> r.value[k] == remarks[k])
  {
    var found := FindById(t.records, t.records[i].id);
    var j :| 0 <= j < |t.records| && t.records[j] == found.value;
  }

  /** Repeating an update that succeeded changes nothing more. */
  lemma RemarkUpdateIdempotent(records: seq<ResourceRecord>, remarks: map<RemarkKey, string>, resourceId: int, remark: string)
    requires RemarkUpdate(records, remarks, resourceId, remark, false).Ok?
    ensures var once := RemarkUpdate(records, remarks, resourceId, remark, false).value;
      RemarkUpdate(records, once, resourceId, remark, false) == Ok(once)
  {
    var x := FindById(records, resourceId).value;
    if x.row.resourceId.Some? {
      var key := RemarkKey(x.row.cloudProvider, x.row.resourceId.value);
      assert remarks[key := remark][key := remark] == remarks[key := remark];
    }
  }

  // ---------------------------------------------------------------------------
  // The non-transactional synchronisation routines
  // ---------------------------------------------------------------------------

  /** Where a routine fails: one of its source queries, the DELETE, or the INSERT. */
  datatype StepFault = Healthy | ReadError(message: string) | DeleteError(message: string) | InsertError(message: string)

  /**
   * The table after `DELETE FROM` and, when there are rows, one multi-row INSERT,
   * each committed on its own: a failed read or DELETE changes nothing, a failed
   * INSERT leaves the table empty. The error is rethrown.
   */
  function OverwriteOutcome<T>(t: Table<T>, rows: seq<T>, fault: StepFault): (Table<T>, Result<()>) {
    if fault.ReadError? || fault.DeleteError? then (t, Err(fault.message))
    else if |rows| == 0 then (Table([], t.nextId), Ok(()))
    else if fault.InsertError? then (Table([], t.nextId), Err(fault.message))
    else (Table(Stamp(rows, t.nextId), t.nextId + |rows|), Ok(()))
  }

  /** DELETE, then INSERT the rows unless there are none. */
  method Overwrite<T>(t: Table<T>, rows: seq<T>, fault: StepFault) returns (r: Table<T>, result: Result<()>)
    ensures (r, result) == OverwriteOutcome(t, rows, fault)
  {
    r := t;
    if fault.ReadError? || fault.DeleteError? {
      return r, Err(fault.message);
    }
    r := Table([], r.nextId);
    if |rows| > 0 {
      if fault.InsertError? {
        return r, Err(fault.message);
      }
      r := Table(Stamp(rows, r.nextId), r.nextId + |rows|);
    }
    result := Ok(());
  }

  /**
   * Without a transaction: a routine that fails before its DELETE keeps the table, one
   * whose INSERT fails loses every old row; one that succeeds leaves exactly the new
   * rows with fresh ids, and an empty read leaves an empty table.
   */
  lemma OverwriteEffect<T>(t: Table<T>, rows: seq<T>, fault: StepFault)
    requires WellFormed(t)
    ensures var (r, result) := OverwriteOutcome(t, rows, fault);
      WellFormed(r)
      && (result.Err? <==> fault.ReadError? || fault.DeleteError? || (fault.InsertError? && rows != []))
      && (fault.ReadError? || fault.DeleteError? ==> r == t)
      && (fault.InsertError? && rows != [] ==> r.records == [])
      && (result.Ok? ==> RowsOf(r.records) == rows && forall i :: 0 <= i < |r.records| ==> r.records[i].id >= t.nextId)
  {
    var (r, result) := OverwriteOutcome(t, rows, fault);
    if result.Ok? {
      assert forall i :: 0 <= i < |r.records| ==> RowsOf(r.records)[i] == rows[i];
    }
  }

  // syncExpiryResources

  /** JavaScript `v || d` where the fallback may itself be NULL. */
  function OrElse(v: Option<string>, d: Option<string>): Option<string> {
    if v.None? || v.value == "" then d else v
  }

  /**
   * The row syncExpiryResources writes back for a listed resource: a missing project
   * becomes `default`, a missing zone the region, and the status is not written (its
   * column default is taken to be NULL).
   */
  function Reinserted(u: UnifiedResource): UnifiedResource {
    u.(projectName := Some(OrDefault(u.projectName, "default")), zone := OrElse(u.zone, u.region), status := None)
  }

  function ReinsertRow(e: ExpiryRow): UnifiedResource {
    Reinserted(e.record.row)
  }

  /** The rows syncExpiryResources writes back. */
  function ExpirySyncRows(s: DbState): seq<UnifiedResource> {
    Map(ReinsertRow, GetExpiryResources(s.resources.records, s.remarks, ExpiryQuery(None, None)))
  }

  /** syncExpiryResources on state `s`: it lists the table's own near-expiry resources and writes them back. */
  function ExpirySyncRun(s: DbState, fault: StepFault): (DbState, Result<()>) {
    var (t, result) := OverwriteOutcome(s.resources, ExpirySyncRows(s), fault);
    (s.(resources := t), result)
  }

  /** Every row written back is a stored resource with at most 65 remaining days, defaults filled in. */
  lemma ExpirySyncRowsSound(s: DbState)
    ensures var old_ := s.resources.records;
      var rows := ExpirySyncRows(s);
      forall i :: 0 <= i < |rows| ==>
        exists j :: 0 <= j < |old_| && old_[j].row.remainingDays <= DefaultThreshold && rows[i] == Reinserted(old_[j].row)
  {
    var q := ExpiryQuery(None, None);
    var old_ := s.resources.records;
    var listed := GetExpiryResources(old_, s.remarks, q);
    var rows := ExpirySyncRows(s);
    ExpiryRowsJoined(old_, s.remarks, q);
    forall i | 0 <= i < |rows|
      ensures exists j :: 0 <= j < |old_| && old_[j].row.remainingDays <= DefaultThreshold && rows[i] == Reinserted(old_[j].row)
    {
      assert rows[i] == Reinserted(listed[i].record.row);
      var j :| 0 <= j < |old_| && old_[j] == listed[i].record;
    }
  }

  /** Every stored resource with at most 65 remaining days is written back. */
  lemma ExpirySyncRowsComplete(s: DbState)
    ensures var old_ := s.resources.records;
      var rows := ExpirySyncRows(s);
      forall j :: 0 <= j < |old_| && old_[j].row.remainingDays <= DefaultThreshold ==>
        exists i :: 0 <= i < |rows| && rows[i] == Reinserted(old_[j].row)
  {
    var q := ExpiryQuery(None, None);
    var old_ := s.resources.records;
    var listed := GetExpiryResources(old_, s.remarks, q);
    var rows := ExpirySyncRows(s);
    forall j | 0 <= j < |old_| && old_[j].row.remainingDays <= DefaultThreshold
      ensures exists i :: 0 <= i < |rows| && rows[i] == Reinserted(old_[j].row)
    {
      var x := old_[j];
      ExpiryResourcesExact(old_, s.remarks, q, x);
      assert x in multiset(old_);
      var e := ExpiryRow(x, RemarkOf(x.row, s.remarks));
      assert e in multiset(listed);
      var i :| 0 <= i < |listed| && listed[i] == e;
      assert rows[i] == ReinsertRow(listed[i]);
    }
  }

  /** getExpiryResources returns one row per resource within the threshold. */
  lemma ExpiryCount(records: seq<ResourceRecord>, remarks: map<RemarkKey, string>, q: ExpiryQuery)
    ensures |GetExpiryResources(records, remarks, q)| == |Filter(records, WithinDays(Threshold(q)))|
  {
    var joined := Map(JoinRemark(remarks), Filter(records, WithinDays(Threshold(q))));
    assert |multiset(GetExpiryResources(records, remarks, q))| == |multiset(joined)|;
  }

  /**
   * As many rows are written back as resources qualify, in ascending order of days,
   * each with a project and the status left NULL.
   */
  lemma ExpirySyncRowsOrder(s: DbState)
    ensures var rows := ExpirySyncRows(s);
      |rows| == |Filter(s.resources.records, WithinDays(DefaultThreshold))|
      && (forall i, j :: 0 <= i < j < |rows| ==> rows[i].remainingDays <= rows[j].remainingDays)
      && (forall i :: 0 <= i < |rows| ==> rows[i].status.None? && rows[i].projectName.Some?)
  {
    var q := ExpiryQuery(None, None);
    var listed := GetExpiryResources(s.resources.records, s.remarks, q);
    ExpiryCount(s.resources.records, s.remarks, q);
    var rows := Map(ReinsertRow, listed);
    assert rows == ExpirySyncRows(s);
    hide GetExpiryResources, SortByDays, Filter, ExpirySyncRows;
    assert forall i :: 0 <= i < |rows| ==>
      rows[i].remainingDays == Days(listed[i]) && rows[i].status.None? && rows[i].projectName.Some?;
  }

  /**
   * A successful syncExpiryResources replaces the table by those rows with fresh ids
   * and changes nothing else in the database.
   */
  lemma ExpirySyncKeepsNearExpiry(s: DbState)
    requires ValidState(s)
    ensures var (s1, result) := ExpirySyncRun(s, Healthy);
      result.Ok? && RowsOf(s1.resources.records) == ExpirySyncRows(s) && WellFormed(s1.resources)
      && (forall i :: 0 <= i < |s1.resources.records| ==> s1.resources.records[i].id >= s.resources.nextId)
      && s1.remarks == s.remarks && s1.logs == s.logs && s1.accounts == s.accounts && s1.bills == s.bills
  {
    OverwriteEffect(s.resources, ExpirySyncRows(s), Healthy);
  }

  // syncAccountBalances

  const CardValid := "VALID"

  /** A Huawei cash balance, in CNY, with no expiry. */
  function CashOfHuawei(batch: string): HwBalanceRow -> UnifiedAccount {
    (b: HwBalanceRow) => UnifiedAccount(HuaweiProvider, b.accountName, b.totalAmount, Some("CNY"), "cash", None, batch)
  }

  /** A valid Huawei stored card, in CNY, expiring when the card does (the driver's rendering of the `Date`). */
  function CardOfHuawei(batch: string): HwStoredCardRow -> UnifiedAccount {
    (c: HwStoredCardRow) => UnifiedAccount(HuaweiProvider, c.accountName, c.balance, Some("CNY"), "stored_card",
      if c.expireTime.Some? then Some(SqlDateTimeString(c.expireTime.value)) else None, batch)
  }

  /** A Tencent cash balance, in CNY, with no expiry. */
  function CashOfTencent(batch: string): TcBalanceRow -> UnifiedAccount {
    (b: TcBalanceRow) => UnifiedAccount(TencentProvider, b.accountName, b.balance, Some("CNY"), "cash", None, batch)
  }

  /** `WHERE status = 'VALID'` (a NULL status does not match). */
  function IsValidCard(c: HwStoredCardRow): bool {
    c.status == Some(CardValid)
  }

  /** Every row of every balance table, read without a batch filter, stamped with one batch number. */
  function AccountBalanceRows(hw: HuaweiDb, tc: TencentDb, batch: string): seq<UnifiedAccount> {
    Map(CashOfHuawei(batch), hw.accountBalances)
    + Map(CardOfHuawei(batch), Filter(hw.storedCards, IsValidCard))
    + Map(CashOfTencent(batch), tc.accountBalances)
  }

  /** syncAccountBalances at time `now` on state `s`. */
  function AccountBalancesSyncRun(s: DbState, hw: HuaweiDb, tc: TencentDb, now: DateTime, fault: StepFault): (DbState, Result<()>) {
    var rows := AccountBalanceRows(hw, tc, GenerateBatchNumber(now));
    var (t, result) := OverwriteOutcome(s.accounts, rows, fault);
    (s.(accounts := t), result)
  }

  /**
   * The rows syncAccountBalances writes: the Huawei cash balances, then the VALID
   * stored cards, then the Tencent balances; all in CNY, under one batch number of
   * 14 characters whose ninth is the `T` that generateBatchNumber leaves in; cash
   * rows without expiry, and each card row taken from a VALID card.
   */
  lemma AccountBalanceRowsShape(hw: HuaweiDb, tc: TencentDb, now: DateTime)
    ensures var batch := GenerateBatchNumber(now);
      var rows := AccountBalanceRows(hw, tc, batch);
      var n1 := |hw.accountBalances|;
      var n2 := |Filter(hw.storedCards, IsValidCard)|;
      |rows| == n1 + n2 + |tc.accountBalances|
      && |batch| == 14 && batch[8] == 'T' && !AllDigits(batch)
      && (forall i :: 0 <= i < |rows| ==> rows[i].currency == Some("CNY") && rows[i].batchNumber == batch)
      && (forall i :: 0 <= i < n1 ==>
            rows[i].cloudProvider == HuaweiProvider && rows[i].balanceType == "cash" && rows[i].expireTime.None?
            && rows[i].accountName == hw.accountBalances[i].accountName && rows[i].balance == hw.accountBalances[i].totalAmount)
      && (forall i :: n1 <= i < n1 + n2 ==>
            rows[i].cloudProvider == HuaweiProvider && rows[i].balanceType == "stored_card"
            && exists c :: c in hw.storedCards && IsValidCard(c) && rows[i] == CardOfHuawei(batch)(c))
      && (forall i :: n1 + n2 <= i < |rows| ==>
            rows[i].cloudProvider == TencentProvider && rows[i].balanceType == "cash" && rows[i].expireTime.None?
            && rows[i].accountName == tc.accountBalances[i - n1 - n2].accountName)
  {
    var batch := GenerateBatchNumber(now);
    BatchNumberAsWrittenHasT(now);
    AccountSegments(hw, tc, batch);
    CardSegment(hw, tc, batch);
    // What follows uses the two segment lemmas only.
    hide *;
    var rows := AccountBalanceRows(hw, tc, batch);
    var n1 := |hw.accountBalances|;
    var n2 := |Filter(hw.storedCards, IsValidCard)|;
    forall i | 0 <= i < |rows| ensures rows[i].currency == Some("CNY") && rows[i].batchNumber == batch {
      // by cases on the segment `i` falls in
      if i < n1 {
      } else if i < n1 + n2 {
      } else {
      }
    }
  }

  /** The cash segments of the balance rows, and their lengths. */
  lemma AccountSegments(hw: HuaweiDb, tc: TencentDb, batch: string)
    ensures var rows := AccountBalanceRows(hw, tc, batch);
      var n1 := |hw.accountBalances|;
      var n2 := |Filter(hw.storedCards, IsValidCard)|;
      |rows| == n1 + n2 + |tc.accountBalances|
      && (forall i :: 0 <= i < n1 ==>
            rows[i].cloudProvider == HuaweiProvider && rows[i].balanceType == "cash" && rows[i].expireTime.None?
            && rows[i].accountName == hw.accountBalances[i].accountName && rows[i].balance == hw.accountBalances[i].totalAmount
            && rows[i].currency == Some("CNY") && rows[i].batchNumber == batch)
      && (forall i :: n1 + n2 <= i < |rows| ==>
            rows[i].cloudProvider == TencentProvider && rows[i].balanceType == "cash" && rows[i].expireTime.None?
            && rows[i].accountName == tc.accountBalances[i - n1 - n2].accountName
            && rows[i].currency == Some("CNY") && rows[i].batchNumber == batch)
  {
    var cash := Map(CashOfHuawei(batch), hw.accountBalances);
    var cardRows := Map(CardOfHuawei(batch), Filter(hw.storedCards, IsValidCard));
    var tencent := Map(CashOfTencent(batch), tc.accountBalances);
    var rows := AccountBalanceRows(hw, tc, batch);
    assert rows == cash + cardRows + tencent;
    hide CardOfHuawei;
    forall i | 0 <= i < |cash| ensures rows[i] == CashOfHuawei(batch)(hw.accountBalances[i]) {
      assert rows[i] == cash[i];
    }
    forall i | |cash| + |cardRows| <= i < |rows|
      ensures rows[i] == CashOfTencent(batch)(tc.accountBalances[i - |cash| - |cardRows|])
    {
      assert rows[i] == tencent[i - |cash| - |cardRows|];
    }
  }

  /** The stored-card segment of the balance rows: each row comes from a VALID card. */
  lemma CardSegment(hw: HuaweiDb, tc: TencentDb, batch: string)
    ensures var rows := AccountBalanceRows(hw, tc, batch);
      var n1 := |hw.accountBalances|;
      var n2 := |Filter(hw.storedCards, IsValidCard)|;
      forall i :: n1 <= i < n1 + n2 && i < |rows| ==>
        rows[i].cloudProvider == HuaweiProvider && rows[i].balanceType == "stored_card"
        && rows[i].currency == Some("CNY") && rows[i].batchNumber == batch
        && exists c :: c in hw.storedCards && IsValidCard(c) && rows[i] == CardOfHuawei(batch)(c)
  {
    var cash := Map(CashOfHuawei(batch), hw.accountBalances);
    var cards := Filter(hw.storedCards, IsValidCard);
    var cardRows := Map(CardOfHuawei(batch), cards);
    var tencent := Map(CashOfTencent(batch), tc.accountBalances);
    var rows := AccountBalanceRows(hw, tc, batch);
    assert rows == cash + cardRows + tencent;
    FilterMembers(hw.storedCards, IsValidCard);
    hide SqlDateTimeString;
    forall i | |cash| <= i < |cash| + |cardRows|
      ensures rows[i] == CardOfHuawei(batch)(cards[i - |cash|]) && cards[i - |cash|] in hw.storedCards && IsValidCard(cards[i - |cash|])
    {
      assert rows[i] == cardRows[i - |cash|];
    }
  }

  /** Exactly the VALID stored cards are synchronised, each as often as it is stored. */
  lemma OnlyValidCards(hw: HuaweiDb, c: HwStoredCardRow)
    ensures multiset(Filter(hw.storedCards, IsValidCard))[c] == if c.status == Some(CardValid) then multiset(hw.storedCards)[c] else 0
  {
    FilterMultiset(hw.storedCards, IsValidCard, c);
  }

  // syncBillingDetails

  /**
   * The row syncBillingDetails writes back: the billing cycle defaults to `monthly`; the
   * billing date is not written (its column default is taken to be NULL).
   */
  function Rebilled(b: UnifiedBill): UnifiedBill {
    b.(billingCycle := Some(OrDefault(b.billingCycle, "monthly")), billingDate := None)
  }

  /** syncBillingDetails on state `s`: it reads `cloud_bills` itself and writes the rows back. */
  function BillingSyncRun(s: DbState, fault: StepFault): (DbState, Result<()>) {
    var rows := Map(Rebilled, RowsOf(s.bills.records));
    var (t, result) := OverwriteOutcome(s.bills, rows, fault);
    (s.(bills := t), result)
  }

  /**
   * A successful syncBillingDetails keeps every bill, in order, with the same
   * provider, account, project, service, amount, currency and batch; a missing cycle
   * becomes `monthly` and the billing date is left NULL. A second run changes no row.
   */
  lemma BillingSyncReinserts(s: DbState)
    requires ValidState(s)
    ensures var (s1, result) := BillingSyncRun(s, Healthy);
      var old_ := RowsOf(s.bills.records);
      var new_ := RowsOf(s1.bills.records);
      result.Ok? && |new_| == |old_|
      && (forall i :: 0 <= i < |new_| ==>
            new_[i].(billingCycle := old_[i].billingCycle, billingDate := old_[i].billingDate) == old_[i]
            && new_[i].billingDate.None? && new_[i].billingCycle.Some?
            && (old_[i].billingCycle.Some? && old_[i].billingCycle.value != "" ==> new_[i].billingCycle == old_[i].billingCycle)
            && (old_[i].billingCycle.None? || old_[i].billingCycle.value == "" ==> new_[i].billingCycle == Some("monthly")))
      && RowsOf(BillingSyncRun(s1, Healthy).0.bills.records) == new_
      && s1.remarks == s.remarks && s1.logs == s.logs && s1.resources == s.resources && s1.accounts == s.accounts
  {
    var old_ := RowsOf(s.bills.records);
    var rows := Map(Rebilled, old_);
    OverwriteEffect(s.bills, rows, Healthy);
    var s1 := BillingSyncRun(s, Healthy).0;
    assert RowsOf(s1.bills.records) == rows;
    OverwriteEffect(s1.bills, Map(Rebilled, rows), Healthy);
    RebilledTwice(old_);
  }

  /** Writing the bills back a second time writes the same rows. */
  lemma RebilledTwice(rows: seq<UnifiedBill>)
    ensures Map(Rebilled, Map(Rebilled, rows)) == Map(Rebilled, rows)
  {
    var once := Map(Rebilled, rows);
    forall i | 0 <= i < |once| ensures Rebilled(once[i]) == once[i] {
      assert once[i] == Rebilled(rows[i]);
    }
  }

  // ---------------------------------------------------------------------------
  // The service
  // ---------------------------------------------------------------------------

  class CloudService {
    const db: Db

    constructor (db: Db)
      ensures this.db == db
    {
      this.db := db;
    }

    /**
     * syncExpiryResources: list the near-expiry resources (default query), DELETE the
     * table, INSERT them back. The batch number it mints is never used.
     */
    method SyncExpiryResources(fault: StepFault) returns (result: Result<()>)
      modifies db
      ensures (db.State(), result) == ExpirySyncRun(old(db.State()), fault)
    {
      var listed := GetExpiryResources(db.resources.records, db.remarks, ExpiryQuery(None, None));
      var rows := Map(ReinsertRow, listed);
      var t;
      t, result := Overwrite(db.resources, rows, fault);
      db.resources := t;
    }

    /** syncAccountBalances: read the three balance tables, DELETE, INSERT the rows under one batch number. */
    method SyncAccountBalances(now: DateTime, hw: HuaweiDb, tc: TencentDb, fault: StepFault) returns (result: Result<()>)
      modifies db
      ensures (db.State(), result) == AccountBalancesSyncRun(old(db.State()), hw, tc, now, fault)
    {
      var batch := GenerateBatchNumber(now);
      var rows := AccountBalanceRows(hw, tc, batch);
      var t;
      t, result := Overwrite(db.accounts, rows, fault);
      db.accounts := t;
    }

    /** syncBillingDetails: read `cloud_bills`, DELETE it, INSERT the rows back. */
    method SyncBillingDetails(fault: StepFault) returns (result: Result<()>)
      modifies db
      ensures (db.State(), result) == BillingSyncRun(old(db.State()), fault)
    {
      var rows := Map(Rebilled, RowsOf(db.bills.records));
      var t;
      t, result := Overwrite(db.bills, rows, fault);
      db.bills := t;
    }

    /** updateResourceRemark: look the resource up by id, then upsert its remark. */
    method UpdateResourceRemark(resourceId: int, remark: string, queryFails: bool) returns (result: Result<()>)
      modifies db
      ensures var u := RemarkUpdate(old(db.resources.records), old(db.remarks), resourceId, remark, queryFails);
        (u.Ok? ==> result == Ok(()) && db.remarks == u.value)
        && (u.Err? ==> result == Err(u.message) && db.remarks == old(db.remarks))
      ensures db.resources == old(db.resources) && db.accounts == old(db.accounts)
      ensures db.bills == old(db.bills) && db.logs == old(db.logs)
    {
      var found := FindById(db.resources.records, resourceId);
      if found.None? || queryFails {
        return Err(RemarkUpdateFailure);
      }
      var x := found.value.row;
      if x.resourceId.Some? {
        db.remarks := db.remarks[RemarkKey(x.cloudProvider, x.resourceId.value) := remark];
      }
      result := Ok(());
    }
  }
}
