/**
 * SyncService: one sync cycle runs the resources, accounts and bills pipelines under
 * one batch number; each pipeline reads the latest source batches, replaces its
 * unified table in one transaction, logs, validates after the commit and logs the
 * validation outcome; the cycle is retried a bounded number of times.
 *
 * The three pipelines run concurrently in the service but touch disjoint tables; here
 * they run one after the other, and all three always run.
 */
module SyncEngine {
  import opened Wrappers
  import opened Common
  import opened Seqs
  import opened Rows
  import opened SyncMapping
  import opened Validation
  import opened UnifiedDb

  // ---------------------------------------------------------------------------
  // Configuration and batch numbers
  // ---------------------------------------------------------------------------

  /**
   * `Number(env) || d` for an integer setting: a missing or unparsable value (NaN)
   * and zero give the default; any other integer, negative ones included, is kept.
   */
  function NumberOr(v: Option<int>, d: int): (r: int)
    ensures v.Some? && v.value != 0 ==> r == v.value
    ensures v.None? || v.value == 0 ==> r == d
  {
    if v.None? || v.value == 0 then d else v.value
  }

  const DefaultRetryTimes := 3
  const DefaultRetryDelay := 5000

  /** The cycle's batch number, `SYNC_` followed by the clock in milliseconds. */
  function SyncBatchNumber(nowMs: nat): string {
    "SYNC_" + DecimalString(nowMs)
  }

  /** Distinct clock readings give distinct batch numbers, and each starts with `SYNC_`. */
  lemma SyncBatchNumberInjective(a: nat, b: nat)
    ensures (SyncBatchNumber(a) == SyncBatchNumber(b)) == (a == b)
    ensures SyncBatchNumber(a)[..5] == "SYNC_"
  {
    DecimalStringInjective(a, b);
    if SyncBatchNumber(a) == SyncBatchNumber(b) {
      assert DecimalString(a) == SyncBatchNumber(a)[5..] && DecimalString(b) == SyncBatchNumber(b)[5..];
    }
  }

  // ---------------------------------------------------------------------------
  // Logging
  // ---------------------------------------------------------------------------

  /** `parts.join(sep)`. */
  function Join(parts: seq<string>, sep: string): string {
    if |parts| == 0 then ""
    else if |parts| == 1 then parts[0]
    else parts[0] + sep + Join(parts[1..], sep)
  }

  /**
   * The sync_logs row for an outcome: `success` without an error; `failed` with one,
   * its message stored as NULL when empty (`error?.message || null`).
   */
  function Entry(syncType: string, error: Option<string>, batch: string): (e: SyncLogEntry)
    ensures e.syncType == syncType && e.batchNumber == batch
    ensures e.status == Success <==> error.None?
    ensures e.errorMessage.Some? <==> error.Some? && error.value != ""
    ensures e.errorMessage.Some? ==> e.errorMessage == error
  {
    if error.None? then SyncLogEntry(syncType, Success, None, batch)
    else SyncLogEntry(syncType, Failed, if error.value == "" then None else Some(error.value), batch)
  }

  /** The log after writing `entries`; when the log cannot be written the error is swallowed. */
  function Logged(s: DbState, writable: bool, entries: seq<SyncLogEntry>): DbState {
    s.(logs := s.logs + if writable then entries else [])
  }

  /** Writing two batches of entries is writing them in order. */
  lemma LoggedTwice(s: DbState, writable: bool, a: seq<SyncLogEntry>, b: seq<SyncLogEntry>)
    ensures Logged(Logged(s, writable, a), writable, b) == Logged(s, writable, a + b)
  {
    if writable {
      assert s.logs + a + b == s.logs + (a + b);
    } else {
      assert s.logs + [] + [] == s.logs + [];
    }
  }

  const ValidationFailedPrefix := "Validation failed: "
  const StrictFailure := "Data validation failed"

  /**
   * What a pipeline appends to the log, and whether it succeeds: a failed read or a
   * failed transaction appends one failure; a commit appends `success`, then a
   * validator error appends a failure, validation errors append a failed
   * `<type>_validation` entry, and in strict mode also a failure of the pipeline.
   */
  function PipelineOutcome(syncType: string, batch: string, fault: Fault, failure: Option<string>,
                           errors: seq<string>, strict: bool): (seq<SyncLogEntry>, bool)
  {
    if fault.ReadFails? then ([Entry(syncType, Some(fault.message), batch)], false)
    else if failure.Some? then ([Entry(syncType, failure, batch)], false)
    else if fault.ValidatorFails? then
      ([Entry(syncType, None, batch), Entry(syncType, Some(fault.message), batch)], false)
    else if errors == [] then ([Entry(syncType, None, batch)], true)
    else
      var validation := Entry(syncType + "_validation", Some(ValidationFailedPrefix + Join(errors, ", ")), batch);
      if strict then ([Entry(syncType, None, batch), validation, Entry(syncType, Some(StrictFailure), batch)], false)
      else ([Entry(syncType, None, batch), validation], true)
  }

  /** The faults one pipeline run meets, and whether its log writes succeed. */
  datatype PipelineEnv = PipelineEnv(fault: Fault, logWritable: bool)

  /** What one attempt of the cycle sees: the two source databases, the date, and each pipeline's faults. */
  datatype Attempt = Attempt(
    huawei: HuaweiDb, tencent: TencentDb, today: string,
    resources: PipelineEnv, accounts: PipelineEnv, bills: PipelineEnv)

  // ---------------------------------------------------------------------------
  // The pipelines as functions of the database state
  // ---------------------------------------------------------------------------

  function ResourceGroups(hw: HuaweiDb, tc: TencentDb, batch: string): seq<seq<UnifiedResource>> {
    [HuaweiResourceRows(hw, batch), TencentResourceRows(tc)]
  }

  function AccountGroups(hw: HuaweiDb, tc: TencentDb, batch: string): seq<seq<UnifiedAccount>> {
    [ Map(HuaweiCash(batch), Latest(hw.accountBalances, HwBalanceBatch)),
      Map(HuaweiCard(batch), Latest(hw.storedCards, HwCardBatch)),
      Map(TencentCash(batch), Filter(Latest(tc.billingInfo, TcBillingBatch), IsBalanceLine)) ]
  }

  function BillGroups(hw: HuaweiDb, tc: TencentDb, batch: string): seq<seq<UnifiedBill>> {
    [ Map(HuaweiBill(batch), Latest(hw.accountBills, HwBillBatch)),
      Map(TencentBill(batch), Filter(Latest(tc.billingInfo, TcBillingBatch), IsBillLine)) ]
  }

  /**
   * The INSERT statements of each pipeline, taken together, insert exactly the
   * pipeline's mapped rows in source order: resources Huawei then Tencent, accounts
   * Huawei cash, Huawei stored cards, Tencent balances, bills Huawei then Tencent.
   */
  lemma GroupsFlatten(hw: HuaweiDb, tc: TencentDb, batch: string)
    ensures Flatten(ResourceGroups(hw, tc, batch)) == HuaweiResourceRows(hw, batch) + TencentResourceRows(tc)
    ensures Flatten(AccountGroups(hw, tc, batch)) == AccountRows(hw, tc, batch)
    ensures Flatten(BillGroups(hw, tc, batch)) == BillRows(hw, tc, batch)
  {
    FlattenTwo(HuaweiResourceRows(hw, batch), TencentResourceRows(tc));
    var ag := AccountGroups(hw, tc, batch);
    FlattenThree(ag[0], ag[1], ag[2]);
    var bg := BillGroups(hw, tc, batch);
    FlattenTwo(bg[0], bg[1]);
  }

  /** The end of a pipeline run on state `s`: its log entries written, and its success. */
  function Finish(s: DbState, syncType: string, batch: string, env: PipelineEnv, failure: Option<string>,
                  errors: seq<string>, strict: bool): (DbState, bool) {
    var (entries, ok) := PipelineOutcome(syncType, batch, env.fault, failure, errors, strict);
    (Logged(s, env.logWritable, entries), ok)
  }

  /** The validation errors matter only after a commit whose validator ran. */
  lemma FinishIgnoresErrors(s: DbState, syncType: string, batch: string, env: PipelineEnv, failure: Option<string>,
                            errors: seq<string>, strict: bool)
    requires env.fault.ReadFails? || failure.Some? || env.fault.ValidatorFails?
    ensures Finish(s, syncType, batch, env, failure, errors, strict) == Finish(s, syncType, batch, env, failure, [], strict)
  {
  }

  /** What one attempt's source queries return, already mapped to unified rows, per pipeline and INSERT. */
  datatype Reads = Reads(
    resources: seq<seq<UnifiedResource>>, accounts: seq<seq<UnifiedAccount>>, bills: seq<seq<UnifiedBill>>)

  function ReadSources(hw: HuaweiDb, tc: TencentDb, batch: string): Reads {
    Reads(ResourceGroups(hw, tc, batch), AccountGroups(hw, tc, batch), BillGroups(hw, tc, batch))
  }

  /** syncResources on the mapped rows `groups`: the state afterwards and whether it succeeded. */
  function ResourcesRun(s: DbState, batch: string, groups: seq<seq<UnifiedResource>>, env: PipelineEnv, strict: bool): (DbState, bool) {
    if env.fault.ReadFails? then Finish(s, "resources", batch, env, None, [], strict)
    else
      var (t, failure) := ReplaceOutcome(s.resources, groups, env.fault);
      Finish(s.(resources := t), "resources", batch, env, failure, Errors(ResourceChecks(t.records, batch)), strict)
  }

  /** syncAccounts on the mapped rows `groups`. */
  function AccountsRun(s: DbState, batch: string, groups: seq<seq<UnifiedAccount>>, env: PipelineEnv, strict: bool): (DbState, bool) {
    if env.fault.ReadFails? then Finish(s, "accounts", batch, env, None, [], strict)
    else
      var (t, failure) := ReplaceOutcome(s.accounts, groups, env.fault);
      Finish(s.(accounts := t), "accounts", batch, env, failure, Errors(AccountChecks(t.records, batch)), strict)
  }

  /** syncBills on the mapped rows `groups`. */
  function BillsRun(s: DbState, batch: string, groups: seq<seq<UnifiedBill>>, today: string, env: PipelineEnv, strict: bool): (DbState, bool) {
    if env.fault.ReadFails? then Finish(s, "bills", batch, env, None, [], strict)
    else
      var (t, failure) := ReplaceOutcome(s.bills, groups, env.fault);
      Finish(s.(bills := t), "bills", batch, env, failure, Errors(BillChecks(t.records, batch, today)), strict)
  }

  /** Each pipeline keeps the unified tables well-formed, whatever fails. */
  lemma PipelinesKeepValid(s: DbState, batch: string, input: Reads, today: string, env: PipelineEnv, strict: bool)
    requires ValidState(s)
    ensures ValidState(ResourcesRun(s, batch, input.resources, env, strict).0)
    ensures ValidState(AccountsRun(s, batch, input.accounts, env, strict).0)
    ensures ValidState(BillsRun(s, batch, input.bills, today, env, strict).0)
  {
    ReplaceAtomic(s.resources, input.resources, env.fault);
    ReplaceAtomic(s.accounts, input.accounts, env.fault);
    ReplaceAtomic(s.bills, input.bills, env.fault);
  }

  /** One attempt: the three pipelines; the attempt succeeds when all three do. */
  function CycleRun(s: DbState, batch: string, a: Attempt, strict: bool): (DbState, bool) {
    var input := ReadSources(a.huawei, a.tencent, batch);
    var (s1, ok1) := ResourcesRun(s, batch, input.resources, a.resources, strict);
    var (s2, ok2) := AccountsRun(s1, batch, input.accounts, a.accounts, strict);
    var (s3, ok3) := BillsRun(s2, batch, input.bills, a.today, a.bills, strict);
    (s3, ok1 && ok2 && ok3)
  }

  /** The error syncAll throws once every attempt has failed. */
  function RetryFailure(retryTimes: int): string {
    "Sync failed after " + IntString(retryTimes) + " attempts"
  }

  /** Attempt number `k` of syncAll's loop, run on state `s`. */
  function Cycle(batch: string, world: nat -> Attempt, strict: bool): (DbState, nat) -> (DbState, bool) {
    (s: DbState, k: nat) => CycleRun(s, batch, world(k), strict)
  }

  /**
   * The retry loop from attempt number `made` on, each attempt given by `cycle`:
   * the final state, the number of attempts made in all, and whether one succeeded.
   */
  function Retry(s: DbState, cycle: (DbState, nat) -> (DbState, bool), retryTimes: int, made: nat): (DbState, nat, bool)
    decreases if made < retryTimes then retryTimes - made else 0
  {
    if made >= retryTimes then (s, made, false)
    else
      var (s1, ok) := cycle(s, made);
      if ok then (s1, made + 1, true) else Retry(s1, cycle, retryTimes, made + 1)
  }

  // ---------------------------------------------------------------------------
  // What the pipelines and the loop promise
  // ---------------------------------------------------------------------------

  /**
   * A pipeline succeeds exactly when its source reads, its transaction and its
   * validator queries all succeed and validation is either clean or not strict.
   */
  lemma PipelineSucceeds(syncType: string, batch: string, fault: Fault, failure: Option<string>,
                         errors: seq<string>, strict: bool)
    ensures var (entries, ok) := PipelineOutcome(syncType, batch, fault, failure, errors, strict);
      (ok <==> !fault.ReadFails? && failure.None? && !fault.ValidatorFails? && (errors == [] || !strict))
      && 1 <= |entries| <= 3
      && (forall i :: 0 <= i < |entries| ==> entries[i].batchNumber == batch)
      && (entries[0].status == Success <==> !fault.ReadFails? && failure.None?)
      && (!ok <==> entries[|entries| - 1].status == Failed && entries[|entries| - 1].syncType == syncType)
  {
  }

  /**
   * After a commit with validation errors, the `<type>_validation` failure follows the
   * success entry, and strict mode adds a failure of the pipeline itself.
   */
  lemma ValidationLogged(syncType: string, batch: string, fault: Fault, errors: seq<string>, strict: bool)
    requires !fault.ReadFails? && !fault.ValidatorFails? && errors != []
    ensures var (entries, ok) := PipelineOutcome(syncType, batch, fault, None, errors, strict);
      |entries| == (if strict then 3 else 2)
      && entries[0] == SyncLogEntry(syncType, Success, None, batch)
      && entries[1].syncType == syncType + "_validation" && entries[1].status == Failed
      && entries[1].errorMessage.Some? && entries[1].errorMessage.value[..|ValidationFailedPrefix|] == ValidationFailedPrefix
      && (strict ==> entries[2] == SyncLogEntry(syncType, Failed, Some(StrictFailure), batch))
  {
  }

  /**
   * The resources table after syncResources: untouched when the read fails, its old
   * records when the transaction fails, and otherwise exactly the mapped rows in
   * INSERT order, even when strict validation then fails the pipeline.
   */
  lemma ResourcesTable(s: DbState, batch: string, groups: seq<seq<UnifiedResource>>, env: PipelineEnv, strict: bool)
    requires ValidState(s)
    ensures var (s1, ok) := ResourcesRun(s, batch, groups, env, strict);
      (env.fault.ReadFails? ==> s1.resources == s.resources)
      && (WriteFailure(env.fault, groups) ==> s1.resources.records == s.resources.records && !ok)
      && (!env.fault.ReadFails? && !WriteFailure(env.fault, groups) ==> RowsOf(s1.resources.records) == Flatten(groups))
      && s1.accounts == s.accounts && s1.bills == s.bills
  {
    ReplaceAtomic(s.resources, groups, env.fault);
  }

  /** The accounts table after syncAccounts, as for resources. */
  lemma AccountsTable(s: DbState, batch: string, groups: seq<seq<UnifiedAccount>>, env: PipelineEnv, strict: bool)
    requires ValidState(s)
    ensures var (s1, ok) := AccountsRun(s, batch, groups, env, strict);
      (env.fault.ReadFails? ==> s1.accounts == s.accounts)
      && (WriteFailure(env.fault, groups) ==> s1.accounts.records == s.accounts.records && !ok)
      && (!env.fault.ReadFails? && !WriteFailure(env.fault, groups) ==> RowsOf(s1.accounts.records) == Flatten(groups))
      && s1.resources == s.resources && s1.bills == s.bills
  {
    ReplaceAtomic(s.accounts, groups, env.fault);
  }

  /** The bills table after syncBills, as for resources. */
  lemma BillsTable(s: DbState, batch: string, groups: seq<seq<UnifiedBill>>, today: string, env: PipelineEnv, strict: bool)
    requires ValidState(s)
    ensures var (s1, ok) := BillsRun(s, batch, groups, today, env, strict);
      (env.fault.ReadFails? ==> s1.bills == s.bills)
      && (WriteFailure(env.fault, groups) ==> s1.bills.records == s.bills.records && !ok)
      && (!env.fault.ReadFails? && !WriteFailure(env.fault, groups) ==> RowsOf(s1.bills.records) == Flatten(groups))
      && s1.resources == s.resources && s1.accounts == s.accounts
  {
    ReplaceAtomic(s.bills, groups, env.fault);
  }

  /**
   * `s2` differs from `s` only by tables and new log entries, all of them stamped
   * with `batch`; the resource remarks are the same.
   */
  ghost predicate AppendsLog(s: DbState, s2: DbState, batch: string) {
    s2.remarks == s.remarks && |s.logs| <= |s2.logs| && s2.logs[..|s.logs|] == s.logs
    && forall i :: |s.logs| <= i < |s2.logs| ==> s2.logs[i].batchNumber == batch
  }

  lemma AppendsLogTransitive(s1: DbState, s2: DbState, s3: DbState, batch: string)
    requires AppendsLog(s1, s2, batch) && AppendsLog(s2, s3, batch)
    ensures AppendsLog(s1, s3, batch)
  {
    assert s3.logs[..|s1.logs|] == s3.logs[..|s2.logs|][..|s1.logs|];
  }

  lemma FinishAppendsLog(s: DbState, syncType: string, batch: string, env: PipelineEnv, failure: Option<string>,
                         errors: seq<string>, strict: bool)
    ensures AppendsLog(s, Finish(s, syncType, batch, env, failure, errors, strict).0, batch)
  {
    PipelineSucceeds(syncType, batch, env.fault, failure, errors, strict);
    var s2 := Finish(s, syncType, batch, env, failure, errors, strict).0;
    assert s2.logs[..|s.logs|] == s.logs;
  }

  /** One attempt writes no remark and logs only under its batch number. */
  lemma CycleAppendsLog(s: DbState, batch: string, a: Attempt, strict: bool)
    ensures AppendsLog(s, CycleRun(s, batch, a, strict).0, batch)
  {
    var input := ReadSources(a.huawei, a.tencent, batch);
    var (s1, ok1) := ResourcesRun(s, batch, input.resources, a.resources, strict);
    var (s2, ok2) := AccountsRun(s1, batch, input.accounts, a.accounts, strict);
    var (s3, ok3) := BillsRun(s2, batch, input.bills, a.today, a.bills, strict);
    if a.resources.fault.ReadFails? {
      FinishAppendsLog(s, "resources", batch, a.resources, None, [], strict);
    } else {
      var (t, failure) := ReplaceOutcome(s.resources, input.resources, a.resources.fault);
      FinishAppendsLog(s.(resources := t), "resources", batch, a.resources, failure, Errors(ResourceChecks(t.records, batch)), strict);
    }
    if a.accounts.fault.ReadFails? {
      FinishAppendsLog(s1, "accounts", batch, a.accounts, None, [], strict);
    } else {
      var (t, failure) := ReplaceOutcome(s1.accounts, input.accounts, a.accounts.fault);
      FinishAppendsLog(s1.(accounts := t), "accounts", batch, a.accounts, failure, Errors(AccountChecks(t.records, batch)), strict);
    }
    if a.bills.fault.ReadFails? {
      FinishAppendsLog(s2, "bills", batch, a.bills, None, [], strict);
    } else {
      var (t, failure) := ReplaceOutcome(s2.bills, input.bills, a.bills.fault);
      FinishAppendsLog(s2.(bills := t), "bills", batch, a.bills, failure, Errors(BillChecks(t.records, batch, a.today)), strict);
    }
    AppendsLogTransitive(s, s1, s2, batch);
    AppendsLogTransitive(s, s2, s3, batch);
  }

  /** One attempt keeps the unified tables well-formed. */
  lemma CycleKeepsValid(s: DbState, batch: string, a: Attempt, strict: bool)
    requires ValidState(s)
    ensures ValidState(CycleRun(s, batch, a, strict).0)
  {
    var input := ReadSources(a.huawei, a.tencent, batch);
    var (s1, ok1) := ResourcesRun(s, batch, input.resources, a.resources, strict);
    var (s2, ok2) := AccountsRun(s1, batch, input.accounts, a.accounts, strict);
    PipelinesKeepValid(s, batch, input, a.today, a.resources, strict);
    PipelinesKeepValid(s1, batch, input, a.today, a.accounts, strict);
    PipelinesKeepValid(s2, batch, input, a.today, a.bills, strict);
  }

  /**
   * The loop makes at most `retryTimes` attempts in all: on success at least one
   * more than were made before, on failure exactly `retryTimes` (none when it is not
   * positive).
   */
  lemma {:induction false} RetryBounds(s: DbState, cycle: (DbState, nat) -> (DbState, bool), retryTimes: int, made: nat)
    ensures var (_, n, ok) := Retry(s, cycle, retryTimes, made);
      (ok ==> made < n <= retryTimes)
      && (!ok ==> n == if made < retryTimes then retryTimes else made)
    decreases if made < retryTimes then retryTimes - made else 0
  {
    if made < retryTimes {
      var (s1, ok) := cycle(s, made);
      if !ok {
        RetryBounds(s1, cycle, retryTimes, made + 1);
      }
    }
  }

  /** The loop stops at the first attempt that succeeds. */
  lemma RetryStopsAtSuccess(s: DbState, cycle: (DbState, nat) -> (DbState, bool), retryTimes: int, made: nat)
    requires made < retryTimes && cycle(s, made).1
    ensures Retry(s, cycle, retryTimes, made) == (cycle(s, made).0, made + 1, true)
  {
  }

  /**
   * Every attempt of syncAll uses the one batch number: the whole loop writes no
   * remark and logs only under that batch number; and it keeps the tables well-formed.
   */
  lemma {:induction false} RetryAppendsLog(s: DbState, batch: string, world: nat -> Attempt, strict: bool, retryTimes: int, made: nat)
    requires ValidState(s)
    ensures AppendsLog(s, Retry(s, Cycle(batch, world, strict), retryTimes, made).0, batch)
    ensures ValidState(Retry(s, Cycle(batch, world, strict), retryTimes, made).0)
    decreases if made < retryTimes then retryTimes - made else 0
  {
    var s2 := Retry(s, Cycle(batch, world, strict), retryTimes, made).0;
    if made >= retryTimes {
      assert s2.logs[..|s.logs|] == s.logs;
    } else {
      var (s1, ok) := CycleRun(s, batch, world(made), strict);
      CycleAppendsLog(s, batch, world(made), strict);
      CycleKeepsValid(s, batch, world(made), strict);
      assert Cycle(batch, world, strict)(s, made) == (s1, ok);
      hide CycleRun;
      if !ok {
        RetryAppendsLog(s1, batch, world, strict, retryTimes, made + 1);
        AppendsLogTransitive(s, s1, s2, batch);
      }
    }
  }

  // ---------------------------------------------------------------------------
  // The service
  // ---------------------------------------------------------------------------

  class SyncService {
    const db: Db
    const retryTimes: int
    const retryDelay: int
    const strict: bool

    /** Reads SYNC_RETRY_TIMES, SYNC_RETRY_DELAY (as parsed numbers) and STRICT_VALIDATION. */
    constructor (db: Db, retryTimesEnv: Option<int>, retryDelayEnv: Option<int>, strictEnv: Option<string>)
      ensures this.db == db
      ensures retryTimes == NumberOr(retryTimesEnv, DefaultRetryTimes)
      ensures retryDelay == NumberOr(retryDelayEnv, DefaultRetryDelay)
      ensures strict == (strictEnv == Some("true"))
    {
      this.db := db;
      retryTimes := NumberOr(retryTimesEnv, DefaultRetryTimes);
      retryDelay := NumberOr(retryDelayEnv, DefaultRetryDelay);
      strict := strictEnv == Some("true");
    }

    /** logSync: append the entry when the log can be written; never fails. */
    method LogSync(syncType: string, batch: string, error: Option<string>, writable: bool)
      modifies db
      ensures db.State() == Logged(old(db.State()), writable, [Entry(syncType, error, batch)])
    {
      if writable {
        db.logs := db.logs + [Entry(syncType, error, batch)];
      }
    }

    /** The post-commit part of a pipeline: log the commit, then the validation outcome. */
    method AfterCommit(syncType: string, batch: string, fault: Fault, errors: seq<string>, writable: bool) returns (ok: bool)
      requires !fault.ReadFails?
      modifies db
      ensures (db.State(), ok) == Finish(old(db.State()), syncType, batch, PipelineEnv(fault, writable), None, errors, strict)
    {
      ghost var s0 := db.State();
      var committed := Entry(syncType, None, batch);
      LogSync(syncType, batch, None, writable);
      if fault.ValidatorFails? {
        LogSync(syncType, batch, Some(fault.message), writable);
        LoggedTwice(s0, writable, [committed], [Entry(syncType, Some(fault.message), batch)]);
        assert [committed] + [Entry(syncType, Some(fault.message), batch)] == [committed, Entry(syncType, Some(fault.message), batch)];
        return false;
      }
      ok := true;
      if |errors| > 0 {
        var validation := Entry(syncType + "_validation", Some(ValidationFailedPrefix + Join(errors, ", ")), batch);
        LogSync(syncType + "_validation", batch, Some(ValidationFailedPrefix + Join(errors, ", ")), writable);
        LoggedTwice(s0, writable, [committed], [validation]);
        assert [committed] + [validation] == [committed, validation];
        if strict {
          LogSync(syncType, batch, Some(StrictFailure), writable);
          LoggedTwice(s0, writable, [committed, validation], [Entry(syncType, Some(StrictFailure), batch)]);
          assert [committed, validation] + [Entry(syncType, Some(StrictFailure), batch)]
              == [committed, validation, Entry(syncType, Some(StrictFailure), batch)];
          ok := false;
        }
      }
    }

    /** A pipeline's logging once its transaction has committed or failed. */
    method Conclude(syncType: string, batch: string, env: PipelineEnv, failure: Option<string>, errors: seq<string>) returns (ok: bool)
      modifies db
      ensures (db.State(), ok) == Finish(old(db.State()), syncType, batch, env, failure, errors, strict)
    {
      if env.fault.ReadFails? {
        LogSync(syncType, batch, Some(env.fault.message), env.logWritable);
        return false;
      }
      if failure.Some? {
        LogSync(syncType, batch, failure, env.logWritable);
        return false;
      }
      ok := AfterCommit(syncType, batch, env.fault, errors, env.logWritable);
    }

    /** syncResources. */
    method SyncResources(batch: string, groups: seq<seq<UnifiedResource>>, env: PipelineEnv) returns (ok: bool)
      modifies db
      ensures (db.State(), ok) == ResourcesRun(old(db.State()), batch, groups, env, strict)
    {
      if env.fault.ReadFails? {
        ok := Conclude("resources", batch, env, None, []);
        return;
      }
      var table, failure := Replace(db.resources, groups, env.fault);
      db.resources := table;
      var errors: seq<string> := [];
      if failure.None? && !env.fault.ValidatorFails? {
        var report := ValidateResources(table.records, batch);
        errors := report.errors;
      } else {
        FinishIgnoresErrors(db.State(), "resources", batch, env, failure, Errors(ResourceChecks(table.records, batch)), strict);
      }
      ok := Conclude("resources", batch, env, failure, errors);
    }

    /** syncAccounts. */
    method SyncAccounts(batch: string, groups: seq<seq<UnifiedAccount>>, env: PipelineEnv) returns (ok: bool)
      modifies db
      ensures (db.State(), ok) == AccountsRun(old(db.State()), batch, groups, env, strict)
    {
      if env.fault.ReadFails? {
        ok := Conclude("accounts", batch, env, None, []);
        return;
      }
      var table, failure := Replace(db.accounts, groups, env.fault);
      db.accounts := table;
      var errors: seq<string> := [];
      if failure.None? && !env.fault.ValidatorFails? {
        var report := ValidateAccounts(table.records, batch);
        errors := report.errors;
      } else {
        FinishIgnoresErrors(db.State(), "accounts", batch, env, failure, Errors(AccountChecks(table.records, batch)), strict);
      }
      ok := Conclude("accounts", batch, env, failure, errors);
    }

    /** syncBills; `today` is the database's CURRENT_DATE. */
    method SyncBills(batch: string, groups: seq<seq<UnifiedBill>>, today: string, env: PipelineEnv) returns (ok: bool)
      modifies db
      ensures (db.State(), ok) == BillsRun(old(db.State()), batch, groups, today, env, strict)
    {
      if env.fault.ReadFails? {
        ok := Conclude("bills", batch, env, None, []);
        return;
      }
      var table, failure := Replace(db.bills, groups, env.fault);
      db.bills := table;
      var errors: seq<string> := [];
      if failure.None? && !env.fault.ValidatorFails? {
        var report := ValidateBills(table.records, batch, today);
        errors := report.errors;
      } else {
        FinishIgnoresErrors(db.State(), "bills", batch, env, failure, Errors(BillChecks(table.records, batch, today)), strict);
      }
      ok := Conclude("bills", batch, env, failure, errors);
    }

    /** One attempt of the cycle: all three pipelines under one batch number. */
    method RunCycle(batch: string, a: Attempt) returns (ok: bool)
      modifies db
      ensures (db.State(), ok) == CycleRun(old(db.State()), batch, a, strict)
    {
      var input := ReadSources(a.huawei, a.tencent, batch);
      var ok1 := SyncResources(batch, input.resources, a.resources);
      var ok2 := SyncAccounts(batch, input.accounts, a.accounts);
      var ok3 := SyncBills(batch, input.bills, a.today, a.bills);
      ok := ok1 && ok2 && ok3;
    }

    /** One iteration of the retry loop: attempt `made` and its effect on what remains of the loop. */
    method TryOnce(batch: string, world: nat -> Attempt, made: nat) returns (ok: bool)
      requires made < retryTimes
      modifies db
      ensures ok ==> Retry(old(db.State()), Cycle(batch, world, strict), retryTimes, made) == (db.State(), made + 1, true)
      ensures !ok ==> Retry(old(db.State()), Cycle(batch, world, strict), retryTimes, made) == Retry(db.State(), Cycle(batch, world, strict), retryTimes, made + 1)
    {
      ok := RunCycle(batch, world(made));
      assert Cycle(batch, world, strict)(old(db.State()), made) == (db.State(), ok);
    }

    /**
     * syncAll: mint the batch number once, then run the cycle until it succeeds or
     * `retryTimes` attempts have failed, sleeping `retryDelay` between attempts (never
     * after the last). `world(k)` is what attempt k sees. Returns the outcome, the
     * number of attempts made, and the delays slept.
     */
    method SyncAll(nowMs: nat, world: nat -> Attempt) returns (r: Result<()>, attempts: nat, sleeps: nat)
      modifies db
      ensures (db.State(), attempts, r.Ok?) == Retry(old(db.State()), Cycle(SyncBatchNumber(nowMs), world, strict), retryTimes, 0)
      ensures r.Err? ==> r.message == RetryFailure(retryTimes)
      ensures sleeps == if attempts == 0 then 0 else attempts - 1
    {
      // The loop relies on TryOnce's contract alone, not on what an attempt does.
      hide CycleRun;
      var batch := SyncBatchNumber(nowMs);
      var failures: nat := 0;
      sleeps := 0;
      while failures < retryTimes
        invariant failures < retryTimes || failures == 0
        invariant sleeps == failures
        invariant Retry(old(db.State()), Cycle(batch, world, strict), retryTimes, 0) == Retry(db.State(), Cycle(batch, world, strict), retryTimes, failures)
        decreases retryTimes - failures
      {
        var ok := TryOnce(batch, world, failures);
        if ok {
          return Ok(()), failures + 1, sleeps;
        }
        failures := failures + 1;
        if failures >= retryTimes {
          break;
        }
        // sleep(retryDelay)
        sleeps := sleeps + 1;
      }
      r := Err(RetryFailure(retryTimes));
      attempts := failures;
    }
  }
}
