/**
 * ValidationService: post-commit checks over the rows of one batch of a unified table.
 * Each check is a filter (or a group count) over the batch; a check that finds
 * something adds its findings and one error message to the report, and every check
 * runs whatever the earlier ones found.
 */
module Validation {
  import opened Wrappers
  import opened Common
  import opened Seqs
  import opened Rows

  /** What a check returns: a flagged row, or a natural key with its (greater than one) count. */
  datatype Finding<R, K> = Row(row: R) | Group(key: K, count: nat)

  /** The findings of one check and the error message it contributes when there are any. */
  datatype Check<R, K> = Check(found: seq<Finding<R, K>>, message: string)

  datatype ValidationResult<R, K> = ValidationResult(totalCount: nat, invalidRecords: seq<Finding<R, K>>, errors: seq<string>)

  // ---------------------------------------------------------------------------
  // The accumulation
  // ---------------------------------------------------------------------------

  /** The findings of all checks, in check order. */
  function Findings<R, K>(checks: seq<Check<R, K>>): seq<Finding<R, K>> {
    if |checks| == 0 then [] else Findings(checks[..|checks| - 1]) + checks[|checks| - 1].found
  }

  /** One message per check that found something, in check order. */
  function Errors<R, K>(checks: seq<Check<R, K>>): seq<string> {
    if |checks| == 0 then []
    else
      var last := checks[|checks| - 1];
      Errors(checks[..|checks| - 1]) + (if |last.found| > 0 then [last.message] else [])
  }

  /** The report the validator returns for the given checks and batch size. */
  function Report<R, K>(checks: seq<Check<R, K>>, total: nat): ValidationResult<R, K> {
    ValidationResult(total, Findings(checks), Errors(checks))
  }

  /** A row check: the rows that fail the condition, in table order. */
  function Flagged<R, K>(rows: seq<R>, bad: R -> bool): seq<Finding<R, K>> {
    Map((x: R) => Finding<R, K>.Row(x), Filter(rows, bad))
  }

  /**
   * The validator's accumulation: run every check in order and, for each one that
   * found something, push its findings onto `invalidRecords` and its message onto
   * `errors`; then record the batch's row count.
   */
  method Accumulate<R, K>(checks: seq<Check<R, K>>, total: nat) returns (result: ValidationResult<R, K>)
    ensures result == Report(checks, total)
  {
    var invalidRecords: seq<Finding<R, K>> := [];
    var errors: seq<string> := [];
    var i := 0;
    while i < |checks|
      invariant 0 <= i <= |checks|
      invariant invalidRecords == Findings(checks[..i])
      invariant errors == Errors(checks[..i])
    {
      var check := checks[i];
      if |check.found| > 0 {
        invalidRecords := invalidRecords + check.found;
        errors := errors + [check.message];
      }
      assert checks[..i + 1][..i] == checks[..i];
      i := i + 1;
    }
    assert checks[..|checks|] == checks;
    result := ValidationResult(total, invalidRecords, errors);
  }

  /** Each check adds at most one message; the messages come from checks that found something. */
  lemma {:induction false} ErrorsBound<R, K>(checks: seq<Check<R, K>>)
    ensures |Errors(checks)| <= |checks|
    ensures forall e :: e in Errors(checks) ==> exists c :: c in checks && |c.found| > 0 && c.message == e
  {
    if |checks| > 0 {
      var init := checks[..|checks| - 1];
      ErrorsBound(init);
      forall e | e in Errors(checks)
        ensures exists c :: c in checks && |c.found| > 0 && c.message == e
      {
        if e in Errors(init) {
          var c :| c in init && |c.found| > 0 && c.message == e;
          assert c in checks;
        } else {
          assert checks[|checks| - 1] in checks;
        }
      }
    }
  }

  /** The error list is empty exactly when no check found anything, and then there are no findings. */
  lemma {:induction false} ErrorsEmpty<R, K>(checks: seq<Check<R, K>>)
    ensures Errors(checks) == [] <==> forall i :: 0 <= i < |checks| ==> checks[i].found == []
    ensures Errors(checks) == [] <==> Findings(checks) == []
  {
    if |checks| > 0 {
      var init := checks[..|checks| - 1];
      var last := checks[|checks| - 1];
      ErrorsEmpty(init);
      assert Errors(checks) == Errors(init) + (if |last.found| > 0 then [last.message] else []);
      assert Findings(checks) == Findings(init) + last.found;
      assert (forall i :: 0 <= i < |checks| ==> checks[i].found == [])
         <==> (forall i :: 0 <= i < |init| ==> init[i].found == []) && last.found == [] by {
        assert forall i :: 0 <= i < |init| ==> checks[i] == init[i];
      }
    }
  }

  /** Every finding of every check is in the report. */
  lemma {:induction false} FindingsContain<R, K>(checks: seq<Check<R, K>>, i: nat, f: Finding<R, K>)
    requires i < |checks| && f in checks[i].found
    ensures f in Findings(checks)
  {
    if i < |checks| - 1 {
      FindingsContain(checks[..|checks| - 1], i, f);
    }
  }

  /** A check that found something contributes its message. */
  lemma {:induction false} ErrorsContain<R, K>(checks: seq<Check<R, K>>, i: nat)
    requires i < |checks| && |checks[i].found| > 0
    ensures checks[i].message in Errors(checks)
  {
    if i < |checks| - 1 {
      ErrorsContain(checks[..|checks| - 1], i);
    }
  }

  // ---------------------------------------------------------------------------
  // GROUP BY key HAVING COUNT(*) > 1
  // ---------------------------------------------------------------------------

  /** The distinct keys of `s`, in order of first occurrence. */
  function Distinct<K(==)>(s: seq<K>): (r: seq<K>)
    ensures forall i :: 0 <= i < |r| ==> r[i] in s
    ensures forall i :: 0 <= i < |s| ==> s[i] in r
    ensures forall i, j :: 0 <= i < j < |r| ==> r[i] != r[j]
  {
    if |s| == 0 then []
    else
      var d := Distinct(s[..|s| - 1]);
      assert s == s[..|s| - 1] + [s[|s| - 1]];
      if s[|s| - 1] in d then d else d + [s[|s| - 1]]
  }

  /** The groups of the keys `ks` whose count in `m` exceeds one, in the order of `ks`. */
  function Groups<R, K>(ks: seq<K>, m: multiset<K>): seq<Finding<R, K>> {
    if |ks| == 0 then []
    else (if m[ks[0]] > 1 then [Group(ks[0], m[ks[0]])] else []) + Groups(ks[1..], m)
  }

  /** One group per key that occurs more than once, with its number of occurrences. */
  function Duplicates<R, K(==)>(keys: seq<K>): seq<Finding<R, K>> {
    Groups(Distinct(keys), multiset(keys))
  }

  /** A group is reported for a key of `ks` exactly when its count exceeds one; groups of distinct keys are distinct. */
  lemma {:induction false} GroupsExact<R, K>(ks: seq<K>, m: multiset<K>)
    ensures forall f :: f in Groups<R, K>(ks, m) ==> f.Group? && f.key in ks && f.count == m[f.key] > 1
    ensures forall i :: 0 <= i < |ks| && m[ks[i]] > 1 ==> Group(ks[i], m[ks[i]]) in Groups<R, K>(ks, m)
    ensures (forall i, j :: 0 <= i < j < |ks| ==> ks[i] != ks[j]) ==>
      forall i, j :: 0 <= i < j < |Groups<R, K>(ks, m)| ==> Groups<R, K>(ks, m)[i].key != Groups<R, K>(ks, m)[j].key
  {
    if |ks| > 0 {
      GroupsExact<R, K>(ks[1..], m);
      var rest := Groups<R, K>(ks[1..], m);
      forall i | 0 <= i < |ks| && m[ks[i]] > 1 ensures Group(ks[i], m[ks[i]]) in Groups<R, K>(ks, m) {
        if i > 0 { assert ks[i] == ks[1..][i - 1]; }
      }
      if forall i, j :: 0 <= i < j < |ks| ==> ks[i] != ks[j] {
        assert forall i, j :: 0 <= i < j < |ks[1..]| ==> ks[1..][i] != ks[1..][j] by {
          forall i, j | 0 <= i < j < |ks[1..]| ensures ks[1..][i] != ks[1..][j] {
            assert ks[1..][i] == ks[i + 1] && ks[1..][j] == ks[j + 1];
          }
        }
        assert ks[0] !in ks[1..];
        assert forall f :: f in rest ==> f.key != ks[0];
      }
    }
  }

  /**
   * The duplicate check reports exactly the keys that occur more than once, each once,
   * with its count, and reports no rows.
   */
  lemma DuplicatesExact<R, K>(keys: seq<K>)
    ensures forall f :: f in Duplicates<R, K>(keys) ==> f.Group? && f.count == multiset(keys)[f.key] > 1
    ensures forall k :: multiset(keys)[k] > 1 ==> Group(k, multiset(keys)[k]) in Duplicates<R, K>(keys)
    ensures forall i, j :: 0 <= i < j < |Duplicates<R, K>(keys)| ==> Duplicates<R, K>(keys)[i].key != Duplicates<R, K>(keys)[j].key
  {
    var d := Distinct(keys);
    GroupsExact<R, K>(d, multiset(keys));
    forall k | multiset(keys)[k] > 1 ensures Group(k, multiset(keys)[k]) in Duplicates<R, K>(keys) {
      assert k in keys;
      var i :| 0 <= i < |keys| && keys[i] == k;
      assert k in d;
      var j :| 0 <= j < |d| && d[j] == k;
    }
  }

  // ---------------------------------------------------------------------------
  // cloud_resources
  // ---------------------------------------------------------------------------

  /** The natural key of a resource: (cloud_provider, resource_id). */
  datatype ResourceKey = ResourceKey(cloudProvider: string, resourceId: Option<string>)

  /** `WHERE batch_number = ?`. */
  function ResourceInBatch(batch: string): ResourceRecord -> bool {
    (r: ResourceRecord) => r.row.batchNumber == batch
  }

  function ResourceBatchRows(table: seq<ResourceRecord>, batch: string): seq<ResourceRecord> {
    Filter(table, ResourceInBatch(batch))
  }

  predicate MissingResourceFields(r: ResourceRecord) {
    r.row.resourceId.None? || r.row.resourceName.None? || r.row.accountName.None?
  }

  /** A non-NULL expiry that does not start `NNNN-NN-NN`. */
  predicate BadResourceDate(r: ResourceRecord) {
    r.row.expireTime.Some? && !HasDatePrefix(r.row.expireTime.value)
  }

  function ResourceKeyOf(r: ResourceRecord): ResourceKey {
    ResourceKey(r.row.cloudProvider, r.row.resourceId)
  }

  const MissingResourcesMessage := "Found resources with missing required fields"
  const BadResourceDatesMessage := "Found resources with invalid date format"
  const DuplicateResourcesMessage := "Found duplicate resource records"

  function ResourceChecks(table: seq<ResourceRecord>, batch: string): seq<Check<ResourceRecord, ResourceKey>> {
    var rows := ResourceBatchRows(table, batch);
    [ Check(Flagged(rows, MissingResourceFields), MissingResourcesMessage),
      Check(Flagged(rows, BadResourceDate), BadResourceDatesMessage),
      Check(Duplicates(Map(ResourceKeyOf, rows)), DuplicateResourcesMessage) ]
  }

  /** validateResources: the three checks over the batch, accumulated, and the batch's row count. */
  method ValidateResources(table: seq<ResourceRecord>, batch: string) returns (result: ValidationResult<ResourceRecord, ResourceKey>)
    ensures result == Report(ResourceChecks(table, batch), |ResourceBatchRows(table, batch)|)
  {
    var rows := ResourceBatchRows(table, batch);
    result := Accumulate(ResourceChecks(table, batch), |rows|);
  }

  /** The accumulation of exactly three checks, unfolded. */
  lemma ThreeChecks<R, K>(checks: seq<Check<R, K>>)
    requires |checks| == 3
    ensures Findings(checks) == checks[0].found + checks[1].found + checks[2].found
    ensures Errors(checks) ==
      (if |checks[0].found| > 0 then [checks[0].message] else [])
      + (if |checks[1].found| > 0 then [checks[1].message] else [])
      + (if |checks[2].found| > 0 then [checks[2].message] else [])
  {
    var init2 := checks[..2];
    var init1 := init2[..1];
    assert init1[..0] == [];
    assert init2[..1] == init1 && checks[..2] == init2;
    assert Findings(init1) == checks[0].found;
    assert Errors(init1) == (if |checks[0].found| > 0 then [checks[0].message] else []);
  }

  /**
   * A batch row of cloud_resources is reported under "missing required fields" exactly
   * when its resource_id, resource_name or account_name is NULL, and under "invalid
   * date format" exactly when it has an expiry without the `NNNN-NN-NN` prefix.
   * Rows of other batches are never reported, and the count is the batch's size.
   */
  lemma ResourceReport(table: seq<ResourceRecord>, batch: string, r: ResourceRecord)
    requires r in table && r.row.batchNumber == batch
    ensures var checks := ResourceChecks(table, batch);
      (Row(r) in checks[0].found <==> MissingResourceFields(r))
      && (Row(r) in checks[1].found <==> BadResourceDate(r))
      && (MissingResourceFields(r) ==> Row(r) in Report(checks, 0).invalidRecords && MissingResourcesMessage in Report(checks, 0).errors)
      && (BadResourceDate(r) ==> Row(r) in Report(checks, 0).invalidRecords && BadResourceDatesMessage in Report(checks, 0).errors)
  {
    var checks := ResourceChecks(table, batch);
    var rows := ResourceBatchRows(table, batch);
    FilterMembers(table, ResourceInBatch(batch));
    assert r in rows;
    FlaggedRowsExact<ResourceRecord, ResourceKey>(rows, MissingResourceFields, r);
    FlaggedRowsExact<ResourceRecord, ResourceKey>(rows, BadResourceDate, r);
    if MissingResourceFields(r) {
      FindingsContain(checks, 0, Row(r));
      ErrorsContain(checks, 0);
    }
    if BadResourceDate(r) {
      FindingsContain(checks, 1, Row(r));
      ErrorsContain(checks, 1);
    }
  }

  /** A row-flagging check reports a row of the batch exactly when the row fails the condition. */
  lemma FlaggedRowsExact<R, K>(rows: seq<R>, bad: R -> bool, r: R)
    requires r in rows
    ensures Finding<R, K>.Row(r) in Flagged<R, K>(rows, bad) <==> bad(r)
  {
    var f := Filter(rows, bad);
    FilterMembers(rows, bad);
    var g := (x: R) => Finding<R, K>.Row(x);
    if bad(r) {
      var i :| 0 <= i < |rows| && rows[i] == r;
      var j :| 0 <= j < |f| && f[j] == r;
      assert Map(g, f)[j] == Row(r);
    }
  }

  /** Only rows of the requested batch are ever reported, and the total is the number of such rows. */
  lemma ResourceReportOnlyBatch(table: seq<ResourceRecord>, batch: string)
    ensures forall f :: f in Findings(ResourceChecks(table, batch)) && f.Row? ==> f.row in table && f.row.row.batchNumber == batch
    ensures forall f :: f in Findings(ResourceChecks(table, batch)) && f.Group? ==> f.count > 1
    ensures |Errors(ResourceChecks(table, batch))| <= 3
  {
    var checks := ResourceChecks(table, batch);
    var rows := ResourceBatchRows(table, batch);
    ThreeChecks(checks);
    ErrorsBound(checks);
    var keys := Map(ResourceKeyOf, rows);
    FilterMembers(table, ResourceInBatch(batch));
    DuplicatesExact<ResourceRecord, ResourceKey>(keys);
    forall f | f in Findings(checks)
      ensures f.Row? ==> f.row in table && f.row.row.batchNumber == batch
      ensures f.Group? ==> f.count > 1
    {
      assert f in checks[0].found || f in checks[1].found || f in checks[2].found;
      RowFindingFrom<ResourceRecord, ResourceKey>(rows, MissingResourceFields, f);
      RowFindingFrom<ResourceRecord, ResourceKey>(rows, BadResourceDate, f);
      if f.Row? && f in checks[2].found {
        assert false;
      }
    }
  }

  /** A row finding of a row-flagging check is a row of the filtered input that fails the condition. */
  lemma RowFindingFrom<R, K>(rows: seq<R>, bad: R -> bool, f: Finding<R, K>)
    ensures f in Flagged<R, K>(rows, bad) ==> f.Row? && f.row in rows && bad(f.row)
  {
    var flt := Filter(rows, bad);
    FilterMembers(rows, bad);
    if f in Flagged<R, K>(rows, bad) {
      var i :| 0 <= i < |flt| && Flagged<R, K>(rows, bad)[i] == f;
      assert f.row == flt[i];
    }
  }

  // ---------------------------------------------------------------------------
  // cloud_accounts
  // ---------------------------------------------------------------------------

  /** The natural key of an account: (cloud_provider, account_name, balance_type). */
  datatype AccountKey = AccountKey(cloudProvider: string, accountName: Option<string>, balanceType: string)

  /** `WHERE batch_number = ?`. */
  function AccountInBatch(batch: string): AccountRecord -> bool {
    (a: AccountRecord) => a.row.batchNumber == batch
  }

  function AccountBatchRows(table: seq<AccountRecord>, batch: string): seq<AccountRecord> {
    Filter(table, AccountInBatch(batch))
  }

  predicate MissingAccountFields(a: AccountRecord) {
    a.row.accountName.None? || a.row.balance.None?
  }

  predicate BadBalance(a: AccountRecord) {
    a.row.balance.None? || a.row.balance.value < 0
  }

  function AccountKeyOf(a: AccountRecord): AccountKey {
    AccountKey(a.row.cloudProvider, a.row.accountName, a.row.balanceType)
  }

  const MissingAccountsMessage := "Found accounts with missing required fields"
  const BadBalancesMessage := "Found accounts with invalid balance"
  const DuplicateAccountsMessage := "Found duplicate account records"

  function AccountChecks(table: seq<AccountRecord>, batch: string): seq<Check<AccountRecord, AccountKey>> {
    var rows := AccountBatchRows(table, batch);
    [ Check(Flagged(rows, MissingAccountFields), MissingAccountsMessage),
      Check(Flagged(rows, BadBalance), BadBalancesMessage),
      Check(Duplicates(Map(AccountKeyOf, rows)), DuplicateAccountsMessage) ]
  }

  /** validateAccounts: the three checks over the batch, accumulated, and the batch's row count. */
  method ValidateAccounts(table: seq<AccountRecord>, batch: string) returns (result: ValidationResult<AccountRecord, AccountKey>)
    ensures result == Report(AccountChecks(table, batch), |AccountBatchRows(table, batch)|)
  {
    var rows := AccountBatchRows(table, batch);
    result := Accumulate(AccountChecks(table, batch), |rows|);
  }

  /**
   * A batch account with a NULL balance is reported by both the required-field check
   * and the balance check; one with a negative balance and a name is reported by the
   * balance check only.
   */
  lemma AccountBalanceReport(table: seq<AccountRecord>, batch: string, a: AccountRecord)
    requires a in table && a.row.batchNumber == batch
    ensures var checks := AccountChecks(table, batch);
      (a.row.balance.None? ==> Row(a) in checks[0].found && Row(a) in checks[1].found)
      && (a.row.accountName.Some? && a.row.balance.Some? && a.row.balance.value < 0 ==> Row(a) !in checks[0].found && Row(a) in checks[1].found)
      && (a.row.accountName.Some? && a.row.balance.Some? && a.row.balance.value >= 0 ==> Row(a) !in checks[0].found && Row(a) !in checks[1].found)
  {
    var rows := AccountBatchRows(table, batch);
    FilterMembers(table, AccountInBatch(batch));
    assert a in rows;
    FlaggedRowsExact<AccountRecord, AccountKey>(rows, MissingAccountFields, a);
    FlaggedRowsExact<AccountRecord, AccountKey>(rows, BadBalance, a);
  }

  /** Accounts sharing provider, name and balance type in the batch are reported as one group with their count. */
  lemma AccountDuplicatesReport(table: seq<AccountRecord>, batch: string, k: AccountKey)
    requires multiset(Map(AccountKeyOf, AccountBatchRows(table, batch)))[k] > 1
    ensures var checks := AccountChecks(table, batch);
      Group(k, multiset(Map(AccountKeyOf, AccountBatchRows(table, batch)))[k]) in Report(checks, 0).invalidRecords
      && DuplicateAccountsMessage in Report(checks, 0).errors
  {
    var checks := AccountChecks(table, batch);
    var keys := Map(AccountKeyOf, AccountBatchRows(table, batch));
    DuplicatesExact<AccountRecord, AccountKey>(keys);
    FindingsContain(checks, 2, Group(k, multiset(keys)[k]));
    ErrorsContain(checks, 2);
  }

  /** Only rows of the requested batch are ever reported, every group has more than one row, and at most 3 errors. */
  lemma AccountReportOnlyBatch(table: seq<AccountRecord>, batch: string)
    ensures forall f :: f in Findings(AccountChecks(table, batch)) && f.Row? ==> f.row in table && f.row.row.batchNumber == batch
    ensures forall f :: f in Findings(AccountChecks(table, batch)) && f.Group? ==> f.count > 1
    ensures |Errors(AccountChecks(table, batch))| <= 3
  {
    var checks := AccountChecks(table, batch);
    var rows := AccountBatchRows(table, batch);
    ThreeChecks(checks);
    ErrorsBound(checks);
    var keys := Map(AccountKeyOf, rows);
    FilterMembers(table, AccountInBatch(batch));
    DuplicatesExact<AccountRecord, AccountKey>(keys);
    forall f | f in Findings(checks)
      ensures f.Row? ==> f.row in table && f.row.row.batchNumber == batch
      ensures f.Group? ==> f.count > 1
    {
      assert f in checks[0].found || f in checks[1].found || f in checks[2].found;
      RowFindingFrom<AccountRecord, AccountKey>(rows, MissingAccountFields, f);
      RowFindingFrom<AccountRecord, AccountKey>(rows, BadBalance, f);
      if f.Row? && f in checks[2].found {
        assert false;
      }
    }
  }

  // ---------------------------------------------------------------------------
  // cloud_bills
  // ---------------------------------------------------------------------------

  /** `WHERE batch_number = ?`. */
  function BillInBatch(batch: string): BillRecord -> bool {
    (b: BillRecord) => b.row.batchNumber == batch
  }

  function BillBatchRows(table: seq<BillRecord>, batch: string): seq<BillRecord> {
    Filter(table, BillInBatch(batch))
  }

  predicate MissingBillFields(b: BillRecord) {
    b.row.accountName.None? || b.row.amount.None? || b.row.serviceType.None?
  }

  predicate BadAmount(b: BillRecord) {
    b.row.amount.None? || b.row.amount.value < 0
  }

  /**
   * A billing date that is NULL, later than `today` (CURRENT_DATE, as `YYYY-MM-DD`) or
   * without the `NNNN-NN-NN` prefix.
   */
  predicate BadBillDate(today: string, b: BillRecord) {
    b.row.billingDate.None? || LexLess(today, b.row.billingDate.value) || !HasDatePrefix(b.row.billingDate.value)
  }

  const MissingBillsMessage := "Found bills with missing required fields"
  const BadAmountsMessage := "Found bills with invalid amount"
  const BadBillDatesMessage := "Found bills with invalid dates"

  /** The bill checks; the table has no natural-key check, so its key type is unit. */
  function BillChecks(table: seq<BillRecord>, batch: string, today: string): seq<Check<BillRecord, ()>> {
    var rows := BillBatchRows(table, batch);
    [ Check(Flagged(rows, MissingBillFields), MissingBillsMessage),
      Check(Flagged(rows, BadAmount), BadAmountsMessage),
      Check(Flagged(rows, (b: BillRecord) => BadBillDate(today, b)), BadBillDatesMessage) ]
  }

  /** validateBills: the three checks over the batch, accumulated, and the batch's row count. */
  method ValidateBills(table: seq<BillRecord>, batch: string, today: string) returns (result: ValidationResult<BillRecord, ()>)
    ensures result == Report(BillChecks(table, batch, today), |BillBatchRows(table, batch)|)
  {
    var rows := BillBatchRows(table, batch);
    result := Accumulate(BillChecks(table, batch, today), |rows|);
  }

  /**
   * A batch bill is reported under "missing fields" exactly when its account, amount
   * or service is NULL, under "invalid amounts" exactly when its amount is NULL or
   * negative, and under "invalid dates" exactly when its date is NULL, after today or
   * malformed; a well-formed bill dated today or earlier with a name, a service and a
   * non-negative amount is not reported at all.
   */
  lemma BillReport(table: seq<BillRecord>, batch: string, today: string, b: BillRecord)
    requires b in table && b.row.batchNumber == batch
    ensures var checks := BillChecks(table, batch, today);
      (Row(b) in checks[0].found <==> MissingBillFields(b))
      && (Row(b) in checks[1].found <==> BadAmount(b))
      && (Row(b) in checks[2].found <==> BadBillDate(today, b))
      && (!MissingBillFields(b) && !BadAmount(b) && !BadBillDate(today, b) ==> Row(b) !in Findings(checks))
  {
    var checks := BillChecks(table, batch, today);
    var rows := BillBatchRows(table, batch);
    FilterMembers(table, BillInBatch(batch));
    assert b in rows;
    FlaggedRowsExact<BillRecord, ()>(rows, MissingBillFields, b);
    FlaggedRowsExact<BillRecord, ()>(rows, BadAmount, b);
    FlaggedRowsExact<BillRecord, ()>(rows, (x: BillRecord) => BadBillDate(today, x), b);
    ThreeChecks(checks);
  }

  /** Every finding is a row of the requested batch (the bill checks report no groups), and at most 3 errors. */
  lemma BillReportOnlyBatch(table: seq<BillRecord>, batch: string, today: string)
    ensures forall f :: f in Findings(BillChecks(table, batch, today)) ==> f.Row? && f.row in table && f.row.row.batchNumber == batch
    ensures |Errors(BillChecks(table, batch, today))| <= 3
  {
    var checks := BillChecks(table, batch, today);
    var rows := BillBatchRows(table, batch);
    ThreeChecks(checks);
    ErrorsBound(checks);
    FilterMembers(table, BillInBatch(batch));
    forall f | f in Findings(checks)
      ensures f.Row? && f.row in table && f.row.row.batchNumber == batch
    {
      assert f in checks[0].found || f in checks[1].found || f in checks[2].found;
      RowFindingFrom<BillRecord, ()>(rows, MissingBillFields, f);
      RowFindingFrom<BillRecord, ()>(rows, BadAmount, f);
      RowFindingFrom<BillRecord, ()>(rows, (b: BillRecord) => BadBillDate(today, b), f);
    }
  }
}
