/** The clean-up passes of `src/data/preprocess_data.py` over the `issues` table:
    collapse severities to three levels, delete duplicate issues, and record each
    step in `preprocessing_log`.

    A table is a sequence of rows in rowid order (the order SQLite scans a rowid
    table in). The connection, the commit and the clock are not modelled: the
    timestamp a log row records is a parameter. */
module Preprocess {

  /** A stored SQLite value (REAL and BLOB values are not modelled). */
  datatype SqlValue = SqlNull | SqlInt(i: int) | SqlText(t: string)

  /** A row of `issues`. */
  datatype IssueRow = IssueRow(rowid: int, file: SqlValue, tool: SqlValue, line: SqlValue, column: SqlValue,
                               code: SqlValue, message: SqlValue, severity: SqlValue)

  /** A row of `preprocessing_log`. */
  datatype LogRow = LogRow(step: string, status: string, timestamp: string)

  // ---------------------------------------------------------------------------
  // Severity levels

  predicate IsLevel(v: SqlValue) {
    v == SqlText("high") || v == SqlText("medium") || v == SqlText("low")
  }

  /** The `CASE` of the UPDATE. `NULL IN (...)` is not true, so NULL falls through
      to 'low', as does every value that is not one of the listed strings (the
      comparison is exact: 'Error' is not 'error'). */
  function Collapse(v: SqlValue): (r: SqlValue)
    ensures IsLevel(r)
  {
    if v == SqlText("error") || v == SqlText("high") || v == SqlText("critical") then SqlText("high")
    else if v == SqlText("warning") || v == SqlText("medium") then SqlText("medium")
    else SqlText("low")
  }

  /** Which values map to which level, in both directions. */
  lemma CollapseLevels(v: SqlValue)
    ensures Collapse(v) == SqlText("high") <==> v in [SqlText("error"), SqlText("high"), SqlText("critical")]
    ensures Collapse(v) == SqlText("medium") <==> v in [SqlText("warning"), SqlText("medium")]
    ensures Collapse(v) == SqlText("low") <==>
      v !in [SqlText("error"), SqlText("high"), SqlText("critical"), SqlText("warning"), SqlText("medium")]
    ensures v == SqlNull ==> Collapse(v) == SqlText("low")
  {
  }

  /** A level is left as it is, so collapsing twice is collapsing once. */
  lemma CollapseIdempotent(v: SqlValue)
    ensures IsLevel(v) ==> Collapse(v) == v
    ensures Collapse(Collapse(v)) == Collapse(v)
  {
  }

  /** The table after the UPDATE. */
  function SeverityNormalized(rows: seq<IssueRow>): seq<IssueRow> {
    seq(|rows|, i requires 0 <= i < |rows| => rows[i].(severity := Collapse(rows[i].severity)))
  }

  /** The UPDATE touches no row count and no column but `severity`, and leaves every
      severity a level. */
  lemma SeverityNormalizedShape(rows: seq<IssueRow>)
    ensures var r := SeverityNormalized(rows);
      && |r| == |rows|
      && forall i :: 0 <= i < |rows| ==>
           && IsLevel(r[i].severity)
           && r[i] == rows[i].(severity := r[i].severity)
  {
  }

  /** Running the UPDATE twice is running it once. */
  lemma SeverityNormalizedIdempotent(rows: seq<IssueRow>)
    ensures SeverityNormalized(SeverityNormalized(rows)) == SeverityNormalized(rows)
  {
    var once := SeverityNormalized(rows);
    forall i | 0 <= i < |rows|
      ensures SeverityNormalized(once)[i] == once[i]
    {
      CollapseIdempotent(rows[i].severity);
    }
  }

  // ---------------------------------------------------------------------------
  // Duplicate removal

  /** The GROUP BY key: NULLs in a column group together, as `GROUP BY` does. */
  datatype IssueKey = IssueKey(file: SqlValue, tool: SqlValue, line: SqlValue, column: SqlValue,
                               code: SqlValue, message: SqlValue)

  function Key(r: IssueRow): IssueKey {
    IssueKey(r.file, r.tool, r.line, r.column, r.code, r.message)
  }

  /** Rowids increase along the table. */
  predicate StrictlySorted(rows: seq<IssueRow>) {
    forall i, j :: 0 <= i < j < |rows| ==> rows[i].rowid < rows[j].rowid
  }

  /** `r` holds `MIN(rowid)` of its key group in `all`. */
  predicate IsGroupMin(all: seq<IssueRow>, r: IssueRow) {
    forall j :: 0 <= j < |all| && Key(all[j]) == Key(r) ==> r.rowid <= all[j].rowid
  }

  /** The rows among the first `n` of `all` that the DELETE spares. */
  function KeepGroupMins(all: seq<IssueRow>, n: nat): seq<IssueRow>
    requires n <= |all|
  {
    if n == 0 then []
    else KeepGroupMins(all, n - 1) + (if IsGroupMin(all, all[n - 1]) then [all[n - 1]] else [])
  }

  /** The table after `DELETE ... WHERE rowid NOT IN (SELECT MIN(rowid) ... GROUP BY key)`. */
  function Deduplicated(all: seq<IssueRow>): seq<IssueRow> {
    KeepGroupMins(all, |all|)
  }

  /** Some row of `rs` has key `k`. */
  predicate HasKey(rs: seq<IssueRow>, k: IssueKey) {
    exists j :: 0 <= j < |rs| && Key(rs[j]) == k
  }

  /** The first row of each key, in table order: an independent description of the
      same result, which `DeduplicatedIsFirstOccurrences` ties to the SQL one. */
  function FirstOccurrences(rows: seq<IssueRow>): (r: seq<IssueRow>)
    ensures |r| <= |rows|
    ensures forall k :: 0 <= k < |r| ==> r[k] in rows
  {
    if rows == [] then []
    else
      var init := rows[..|rows| - 1];
      var last := rows[|rows| - 1];
      FirstOccurrences(init) + (if HasKey(init, Key(last)) then [] else [last])
  }

  /** In a table in rowid order, a row holds its group's minimum exactly when no
      earlier row has its key. */
  lemma GroupMinIffFirst(all: seq<IssueRow>, i: nat)
    requires StrictlySorted(all) && i < |all|
    ensures IsGroupMin(all, all[i]) <==> !HasKey(all[..i], Key(all[i]))
  {
    if HasKey(all[..i], Key(all[i])) {
      var j :| 0 <= j < i && Key(all[..i][j]) == Key(all[i]);
      assert all[..i][j] == all[j];
    } else {
      assert forall j :: 0 <= j < i ==> all[..i][j] == all[j];
    }
  }

  lemma {:induction false} KeepGroupMinsPrefix(all: seq<IssueRow>, n: nat)
    requires StrictlySorted(all) && n <= |all|
    ensures KeepGroupMins(all, n) == FirstOccurrences(all[..n])
  {
    if n > 0 {
      KeepGroupMinsPrefix(all, n - 1);
      assert all[..n][..n - 1] == all[..n - 1];
      GroupMinIffFirst(all, n - 1);
    }
  }

  /** On a table in rowid order, the DELETE keeps exactly the first row of every key. */
  lemma DeduplicatedIsFirstOccurrences(all: seq<IssueRow>)
    requires StrictlySorted(all)
    ensures Deduplicated(all) == FirstOccurrences(all)
  {
    KeepGroupMinsPrefix(all, |all|);
    assert all[..|all|] == all;
  }

  predicate DistinctKeys(rows: seq<IssueRow>) {
    forall i, j :: 0 <= i < j < |rows| ==> Key(rows[i]) != Key(rows[j])
  }

  /** A key occurring in the result occurs in the input. */
  lemma {:induction false} FirstOccurrencesKeys(rows: seq<IssueRow>, k: IssueKey)
    ensures HasKey(FirstOccurrences(rows), k) ==> HasKey(rows, k)
  {
    var r := FirstOccurrences(rows);
    if HasKey(r, k) {
      var j :| 0 <= j < |r| && Key(r[j]) == k;
      var i :| 0 <= i < |rows| && rows[i] == r[j];
    }
  }

  /** After the DELETE no two rows share a key. */
  lemma {:induction false} FirstOccurrencesDistinct(rows: seq<IssueRow>)
    ensures DistinctKeys(FirstOccurrences(rows))
  {
    if rows != [] {
      var init := rows[..|rows| - 1];
      var last := rows[|rows| - 1];
      FirstOccurrencesDistinct(init);
      if !HasKey(init, Key(last)) {
        var prev := FirstOccurrences(init);
        var r := prev + [last];
        FirstOccurrencesKeys(init, Key(last));
        assert forall i :: 0 <= i < |prev| ==> r[i] == prev[i];
      }
    }
  }

  /** Every key of the input keeps a row: duplicates are removed, never a whole group. */
  lemma {:induction false} FirstOccurrencesCoverKeys(rows: seq<IssueRow>)
    ensures forall i :: 0 <= i < |rows| ==> HasKey(FirstOccurrences(rows), Key(rows[i]))
  {
    if rows != [] {
      var init := rows[..|rows| - 1];
      var last := rows[|rows| - 1];
      var prev := FirstOccurrences(init);
      var r := FirstOccurrences(rows);
      FirstOccurrencesCoverKeys(init);
      assert r[..|prev|] == prev;
      forall i | 0 <= i < |rows| ensures HasKey(r, Key(rows[i])) {
        if i < |rows| - 1 {
          assert rows[i] == init[i];
          var j :| 0 <= j < |prev| && Key(prev[j]) == Key(init[i]);
          assert r[j] == prev[j];
        } else if HasKey(init, Key(last)) {
          var k :| 0 <= k < |init| && Key(init[k]) == Key(last);
          var j :| 0 <= j < |prev| && Key(prev[j]) == Key(init[k]);
          assert r[j] == prev[j];
        } else {
          assert r[|prev|] == last;
        }
      }
    }
  }

  /** The result keeps table order: it is a subsequence of a table in rowid order. */
  lemma {:induction false} FirstOccurrencesSorted(rows: seq<IssueRow>)
    requires StrictlySorted(rows)
    ensures StrictlySorted(FirstOccurrences(rows))
  {
    if rows != [] {
      var init := rows[..|rows| - 1];
      var last := rows[|rows| - 1];
      assert StrictlySorted(init);
      FirstOccurrencesSorted(init);
      var prev := FirstOccurrences(init);
      forall k | 0 <= k < |prev| ensures prev[k].rowid < last.rowid {
        var i :| 0 <= i < |init| && init[i] == prev[k];
      }
    }
  }

  /** A table without duplicate keys is left as it is. */
  lemma {:induction false} DistinctUnchanged(rows: seq<IssueRow>)
    requires DistinctKeys(rows)
    ensures FirstOccurrences(rows) == rows
  {
    if rows != [] {
      var init := rows[..|rows| - 1];
      var last := rows[|rows| - 1];
      assert DistinctKeys(init);
      DistinctUnchanged(init);
      assert forall j :: 0 <= j < |init| ==> init[j] == rows[j];
    }
  }

  /** A row whose key no other row shares survives. */
  lemma UniqueRowKept(rows: seq<IssueRow>, i: nat)
    requires i < |rows|
    requires forall j :: 0 <= j < |rows| && j != i ==> Key(rows[j]) != Key(rows[i])
    ensures rows[i] in FirstOccurrences(rows)
  {
    FirstOccurrencesCoverKeys(rows);
    var r := FirstOccurrences(rows);
    var k :| 0 <= k < |r| && Key(r[k]) == Key(rows[i]);
    var j :| 0 <= j < |rows| && rows[j] == r[k];
  }

  /** Deleting duplicates twice is deleting them once. */
  lemma DeduplicatedIdempotent(rows: seq<IssueRow>)
    requires StrictlySorted(rows)
    ensures Deduplicated(Deduplicated(rows)) == Deduplicated(rows)
  {
    DeduplicatedIsFirstOccurrences(rows);
    FirstOccurrencesSorted(rows);
    DeduplicatedIsFirstOccurrences(FirstOccurrences(rows));
    FirstOccurrencesDistinct(rows);
    DistinctUnchanged(FirstOccurrences(rows));
  }

  // ---------------------------------------------------------------------------
  // The database

  /** The `issues` and `preprocessing_log` tables. */
  class ReviewDatabase {
    var issues: seq<IssueRow>
    var log: seq<LogRow>

    /** Rowids identify rows and increase along the table. */
    ghost predicate Valid()
      reads this
    {
      StrictlySorted(issues)
    }

    constructor (rows: seq<IssueRow>)
      requires StrictlySorted(rows)
      ensures Valid() && issues == rows && log == []
    {
      issues := rows;
      log := [];
    }

    /** `normalize_severity_levels`: the UPDATE over every row. */
    method NormalizeSeverityLevels()
      requires Valid()
      modifies this
      ensures Valid()
      ensures issues == SeverityNormalized(old(issues)) && log == old(log)
    {
      issues := SeverityNormalized(issues);
    }

    /** `deduplicate_issues`: the DELETE of every row that is not its group's minimum. */
    method DeduplicateIssues()
      requires Valid()
      modifies this
      ensures Valid()
      ensures issues == Deduplicated(old(issues)) && log == old(log)
      ensures DistinctKeys(issues)
    {
      DeduplicatedIsFirstOccurrences(issues);
      FirstOccurrencesSorted(issues);
      FirstOccurrencesDistinct(issues);
      issues := Deduplicated(issues);
    }

    /** `log_step`: one INSERT into `preprocessing_log`. */
    method LogStep(step: string, status: string, timestamp: string)
      modifies this
      ensures log == old(log) + [LogRow(step, status, timestamp)] && issues == old(issues)
    {
      log := log + [LogRow(step, status, timestamp)];
    }

    /** The script's run: normalise, log, deduplicate, log. */
    method Preprocess(normalizedAt: string, deduplicatedAt: string)
      requires Valid()
      modifies this
      ensures Valid()
      ensures issues == Deduplicated(SeverityNormalized(old(issues)))
      ensures log == old(log) + [LogRow("normalize_severity", "done", normalizedAt),
                                 LogRow("deduplicate", "done", deduplicatedAt)]
    {
      NormalizeSeverityLevels();
      LogStep("normalize_severity", "done", normalizedAt);
      DeduplicateIssues();
      LogStep("deduplicate", "done", deduplicatedAt);
    }
  }
}
