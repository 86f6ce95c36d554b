/**
 * The unified database: three tables replaced by the synchronisation, the resource
 * remarks the users write, and the sync log. A table is its records plus its
 * auto-increment counter; replacing its contents is one transaction (DELETE, the
 * INSERT statements in order, COMMIT) that either commits or rolls back.
 */
module UnifiedDb {
  import opened Wrappers
  import opened Rows

  /** A table's contents together with its next auto-increment id. */
  datatype Table<T> = Table(records: seq<Record<T>>, nextId: nat)

  /** Ids increase along the table and are all below the counter. */
  predicate WellFormed<T>(t: Table<T>) {
    (forall i, j :: 0 <= i < j < |t.records| ==> t.records[i].id < t.records[j].id)
    && (forall i :: 0 <= i < |t.records| ==> t.records[i].id < t.nextId)
  }

  /** Rows inserted by one multi-row INSERT, numbered from `first`. */
  function Stamp<T>(rows: seq<T>, first: nat): (records: seq<Record<T>>)
    ensures |records| == |rows|
    ensures forall i :: 0 <= i < |rows| ==> records[i] == Record(first + i, rows[i])
  {
    if |rows| == 0 then [] else [Record(first, rows[0])] + Stamp(rows[1..], first + 1)
  }

  /** Two INSERT statements in a row number their rows consecutively. */
  lemma StampConcat<T>(a: seq<T>, b: seq<T>, first: nat)
    ensures Stamp(a + b, first) == Stamp(a, first) + Stamp(b, first + |a|)
  {
    assert forall i :: 0 <= i < |a + b| ==> Stamp(a + b, first)[i] == (Stamp(a, first) + Stamp(b, first + |a|))[i];
  }

  /** The rows of several INSERT statements, in statement order. */
  function Flatten<T>(groups: seq<seq<T>>): (rows: seq<T>)
  {
    if |groups| == 0 then [] else Flatten(groups[..|groups| - 1]) + groups[|groups| - 1]
  }

  /** One more INSERT statement appends its rows. */
  lemma FlattenPrefix<T>(groups: seq<seq<T>>, i: nat)
    requires i < |groups|
    ensures Flatten(groups[..i + 1]) == Flatten(groups[..i]) + groups[i]
  {
    assert groups[..i + 1][..i] == groups[..i];
  }

  /** Two INSERT statements insert the first one's rows, then the second one's. */
  lemma FlattenTwo<T>(a: seq<T>, b: seq<T>)
    ensures Flatten([a, b]) == a + b
  {
    assert [a, b][..1] == [a];
    assert [a][..0] == [];
    assert Flatten([a]) == [] + a == a;
  }

  /** Three INSERT statements insert their rows in statement order. */
  lemma FlattenThree<T>(a: seq<T>, b: seq<T>, c: seq<T>)
    ensures Flatten([a, b, c]) == a + b + c
  {
    assert [a, b, c][..2] == [a, b];
    FlattenTwo(a, b);
  }

  // ---------------------------------------------------------------------------
  // Write faults
  // ---------------------------------------------------------------------------

  /** The statement of a replace transaction that fails: the DELETE, the i-th INSERT, or the COMMIT. */
  datatype WriteStage = AtDelete | AtInsert(index: nat) | AtCommit

  /**
   * What goes wrong during one pipeline run: a source read, a statement of the
   * replace transaction, or the post-commit validator's queries.
   */
  datatype Fault = NoFault | ReadFails(message: string) | WriteFails(stage: WriteStage, message: string) | ValidatorFails(message: string)

  /** Whether the failing statement is ever issued: an INSERT with no rows is skipped. */
  predicate Issued<T>(stage: WriteStage, groups: seq<seq<T>>) {
    match stage
    case AtDelete => true
    case AtInsert(i) => i < |groups| && |groups[i]| > 0
    case AtCommit => true
  }

  predicate WriteFailure<T>(fault: Fault, groups: seq<seq<T>>) {
    fault.WriteFails? && Issued(fault.stage, groups)
  }

  /** An INSERT among the first `n` fails and is issued. */
  predicate FailsBefore<T>(fault: Fault, groups: seq<seq<T>>, n: nat) {
    fault.WriteFails? && fault.stage.AtInsert? && fault.stage.index < n && fault.stage.index < |groups| && |groups[fault.stage.index]| > 0
  }

  /** The INSERT statements that ran before the failing statement. */
  function Completed<T>(stage: WriteStage, groups: seq<seq<T>>): seq<seq<T>> {
    match stage
    case AtDelete => []
    case AtInsert(i) => if i <= |groups| then groups[..i] else groups
    case AtCommit => groups
  }

  /**
   * The table after a replace transaction: on failure the old records with the
   * counter advanced past the ids the completed statements used (InnoDB does not
   * give auto-increment values back on rollback); otherwise exactly the new rows,
   * numbered from the counter, and the failure message, if any.
   */
  function ReplaceOutcome<T>(t: Table<T>, groups: seq<seq<T>>, fault: Fault): (Table<T>, Option<string>) {
    if WriteFailure(fault, groups) then
      (Table(t.records, t.nextId + |Flatten(Completed(fault.stage, groups))|), Some(fault.message))
    else
      (Table(Stamp(Flatten(groups), t.nextId), t.nextId + |Flatten(groups)|), None)
  }

  /**
   * One replace transaction: DELETE every row, run each non-empty INSERT in order,
   * COMMIT; when a statement fails, ROLLBACK restores the saved contents.
   */
  method Replace<T>(t: Table<T>, groups: seq<seq<T>>, fault: Fault) returns (r: Table<T>, failure: Option<string>)
    ensures (r, failure) == ReplaceOutcome(t, groups, fault)
  {
    if fault.WriteFails? && fault.stage == AtDelete {
      // ROLLBACK
      ReplaceFailsAt(t, groups, fault, 0);
      return t, Some(fault.message);
    }
    var records, nextId, stopped := RunInserts(groups, t.nextId, fault);
    if stopped.Some? {
      // ROLLBACK
      ReplaceFailsAt(t, groups, fault, stopped.value);
      return Table(t.records, nextId), Some(fault.message);
    }
    ReplaceReachesCommit(t, groups, fault);
    if fault.WriteFails? && fault.stage == AtCommit {
      // ROLLBACK
      return Table(t.records, nextId), Some(fault.message);
    }
    r, failure := Table(records, nextId), None;
  }

  /**
   * The INSERT statements of a replace transaction, in order, numbering rows from
   * `first` and skipping empty groups; `stopped` is the index of the INSERT that
   * fails, if one is issued.
   */
  method RunInserts<T>(groups: seq<seq<T>>, first: nat, fault: Fault) returns (records: seq<Record<T>>, nextId: nat, stopped: Option<nat>)
    ensures stopped.Some? ==>
      stopped.value < |groups| && |groups[stopped.value]| > 0 && fault.WriteFails? && fault.stage == AtInsert(stopped.value)
      && nextId == first + |Flatten(groups[..stopped.value])|
    ensures stopped.None? ==>
      records == Stamp(Flatten(groups), first) && nextId == first + |Flatten(groups)|
      && !FailsBefore(fault, groups, |groups|)
  {
    assert groups[..0] == [];
    assert Stamp(Flatten(groups[..0]), first) == [];
    // The loop relies on InsertStep alone, not on how rows are numbered and concatenated.
    hide Stamp, Flatten;
    records := [];
    nextId := first;
    var i := 0;
    while i < |groups|
      invariant 0 <= i <= |groups|
      invariant records == Stamp(Flatten(groups[..i]), first)
      invariant nextId == first + |Flatten(groups[..i])|
      invariant !FailsBefore(fault, groups, i)
    {
      if |groups[i]| > 0 && fault.WriteFails? && fault.stage == AtInsert(i) {
        return records, nextId, Some(i);
      }
      InsertStep(groups, i, first);
      records := records + Stamp(groups[i], nextId);
      nextId := nextId + |groups[i]|;
      i := i + 1;
    }
    assert groups[..i] == groups;
    stopped := None;
  }

  /** A failing DELETE, or a failing i-th INSERT that is issued, rolls back after the first i INSERTs. */
  lemma ReplaceFailsAt<T>(t: Table<T>, groups: seq<seq<T>>, fault: Fault, i: nat)
    requires i <= |groups|
    requires fault.WriteFails?
    requires (i == 0 && fault.stage == AtDelete) || (i < |groups| && |groups[i]| > 0 && fault.stage == AtInsert(i))
    ensures ReplaceOutcome(t, groups, fault) == (Table(t.records, t.nextId + |Flatten(groups[..i])|), Some(fault.message))
  {
    assert Completed(fault.stage, groups) == groups[..i];
  }

  /** The i-th INSERT appends its rows, numbered after those already inserted. */
  lemma InsertStep<T>(groups: seq<seq<T>>, i: nat, first: nat)
    requires i < |groups|
    ensures Stamp(Flatten(groups[..i + 1]), first)
         == Stamp(Flatten(groups[..i]), first) + Stamp(groups[i], first + |Flatten(groups[..i])|)
    ensures |Flatten(groups[..i + 1])| == |Flatten(groups[..i])| + |groups[i]|
  {
    FlattenPrefix(groups, i);
    StampConcat(Flatten(groups[..i]), groups[i], first);
  }

  /** The outcome once every INSERT has run: a failing COMMIT rolls back, otherwise the new rows stay. */
  lemma ReplaceReachesCommit<T>(t: Table<T>, groups: seq<seq<T>>, fault: Fault)
    requires !(fault.WriteFails? && fault.stage == AtDelete)
    requires !FailsBefore(fault, groups, |groups|)
    ensures ReplaceOutcome(t, groups, fault) ==
      if fault.WriteFails? && fault.stage == AtCommit then (Table(t.records, t.nextId + |Flatten(groups)|), Some(fault.message))
      else (Table(Stamp(Flatten(groups), t.nextId), t.nextId + |Flatten(groups)|), None)
  {
  }

  /**
   * Atomic replace: a failed transaction leaves every old record in place; a
   * committed one leaves exactly the new rows in statement order, none of the old
   * records, fresh ids above every old one, and a well-formed table. With no rows
   * to insert the committed table is empty.
   */
  lemma ReplaceAtomic<T>(t: Table<T>, groups: seq<seq<T>>, fault: Fault)
    requires WellFormed(t)
    ensures var (r, failure) := ReplaceOutcome(t, groups, fault);
      WellFormed(r)
      && (failure.Some? <==> WriteFailure(fault, groups))
      && (failure.Some? ==> r.records == t.records)
      && (failure.None? ==> RowsOf(r.records) == Flatten(groups))
      && (failure.None? ==> forall i :: 0 <= i < |r.records| ==> r.records[i].id >= t.nextId)
      && (failure.None? && Flatten(groups) == [] ==> r.records == [])
  {
    var (r, failure) := ReplaceOutcome(t, groups, fault);
    if failure.None? {
      assert forall i :: 0 <= i < |r.records| ==> RowsOf(r.records)[i] == Flatten(groups)[i];
    }
  }

  // ---------------------------------------------------------------------------
  // The database object
  // ---------------------------------------------------------------------------

  datatype DbState = DbState(
    resources: Table<UnifiedResource>, accounts: Table<UnifiedAccount>, bills: Table<UnifiedBill>,
    remarks: map<RemarkKey, string>, logs: seq<SyncLogEntry>)

  predicate ValidState(s: DbState) {
    WellFormed(s.resources) && WellFormed(s.accounts) && WellFormed(s.bills)
  }

  /** The unified database `cloud_resources`, `cloud_accounts`, `cloud_bills`, `resource_remarks`, `sync_logs`. */
  class Db {
    var resources: Table<UnifiedResource>
    var accounts: Table<UnifiedAccount>
    var bills: Table<UnifiedBill>
    var remarks: map<RemarkKey, string>
    var logs: seq<SyncLogEntry>

    function State(): DbState
      reads this
    {
      DbState(resources, accounts, bills, remarks, logs)
    }

    ghost predicate Valid()
      reads this
    {
      ValidState(State())
    }

    constructor ()
      ensures Valid()
      ensures State() == DbState(Table([], 1), Table([], 1), Table([], 1), map[], [])
    {
      resources := Table([], 1);
      accounts := Table([], 1);
      bills := Table([], 1);
      remarks := map[];
      logs := [];
    }
  }
}
