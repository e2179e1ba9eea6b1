/** The pylint report normaliser of the top-level `collect_reports.py`: read the
    JSON report pylint wrote, turn each of its items into an issue record, and
    append the records to the `lint_issues` table.

    The file is its parsed content: `None` where `json.load` raises
    `JSONDecodeError`. The clock is the `clock` parameter, read once per item
    (`clock(i)` is the reading taken while the `i`-th item is normalised). */
module PylintReports {
  import opened JsonValue
  import ToolReports

  /** One normalised pylint issue; `id` is the row's position in the table. */
  datatype LintIssue = LintIssue(file: Json, tool: string, message: Json, kind: Json, line: Json,
                                 column: Json, code: Json, severity: string, timestamp: string)

  /** The dict built for one pylint item: fields copied by `.get` (so a missing one
      is `None`), and a severity of "warning" for conventions, "error" for the rest. */
  function PylintIssue(fields: map<string, Json>, timestamp: string): (r: LintIssue)
    ensures r.tool == "pylint"
    ensures r.severity == "warning" || r.severity == "error"
    ensures r.severity == "warning" <==> "type" in fields && fields["type"] == JStr("convention")
    ensures r.timestamp == timestamp
  {
    LintIssue(
      Get(fields, "path", JNull), "pylint", Get(fields, "message", JNull), Get(fields, "type", JNull),
      Get(fields, "line", JNull), Get(fields, "column", JNull), Get(fields, "symbol", JNull),
      if Get(fields, "type", JNull) == JStr("convention") then "warning" else "error",
      timestamp)
  }

  /** Every element the loop visits is a dict, so `item.get` never raises. */
  predicate AllObjects(items: seq<Json>) {
    forall k :: 0 <= k < |items| ==> items[k].JObj?
  }

  /** `normalize_pylint`: `Some(issues)` when it returns, `None` when it raises
      (the parsed value is not iterable, or one of its elements is not a dict). */
  method NormalizePylint(parsed: Option<Json>, clock: nat -> string) returns (issues: Option<seq<LintIssue>>)
    ensures parsed.None? ==> issues == Some([])
    ensures parsed.Some? ==>
      (issues.Some? <==> Iterate(parsed.value).Some? && AllObjects(Iterate(parsed.value).value))
    ensures parsed.Some? && issues.Some? ==>
      var items := Iterate(parsed.value).value;
      && |issues.value| == |items|
      && forall i :: 0 <= i < |items| ==> issues.value[i] == PylintIssue(items[i].fields, clock(i))
  {
    if parsed.None? {
      return Some([]);
    }
    var data := Iterate(parsed.value);
    if data.None? {
      return None;
    }
    var items := data.value;
    var acc: seq<LintIssue> := [];
    for i := 0 to |items|
      invariant |acc| == i
      invariant AllObjects(items[..i])
      invariant forall k :: 0 <= k < i ==> acc[k] == PylintIssue(items[k].fields, clock(k))
    {
      var item := items[i];
      if !item.JObj? {
        return None;
      }
      acc := acc + [PylintIssue(item.fields, clock(i))];
    }
    assert items[..|items|] == items;
    issues := Some(acc);
  }

  /** Values sqlite3 binds: the same rule as for `analysis_results`. */
  predicate Insertable(issue: LintIssue) {
    && ToolReports.Bindable(issue.file) && ToolReports.Bindable(issue.message)
    && ToolReports.Bindable(issue.kind) && ToolReports.Bindable(issue.line)
    && ToolReports.Bindable(issue.column) && ToolReports.Bindable(issue.code)
  }

  /** The item of a typical pylint report: a naming convention message. */
  const SampleItem: map<string, Json> :=
    map["path" := JStr("a.py"), "message" := JStr("bad name"), "type" := JStr("convention"),
        "line" := JNum(4), "column" := JNum(0), "symbol" := JStr("C0103")]

  /** A convention item becomes a warning on its own file, line and symbol. */
  lemma SampleItemIssue(timestamp: string)
    ensures var r := PylintIssue(SampleItem, timestamp);
      && r.file == JStr("a.py") && r.severity == "warning" && r.line == JNum(4)
      && r.column == JNum(0) && r.code == JStr("C0103") && r.message == JStr("bad name")
  {
    assert "path" in SampleItem && "type" in SampleItem && "line" in SampleItem;
    assert "column" in SampleItem && "symbol" in SampleItem && "message" in SampleItem;
  }

  /** The `lint_issues` table. */
  class LintStore {
    var rows: seq<LintIssue>

    constructor ()
      ensures rows == []
    {
      rows := [];
    }

    /** `save_to_db`: one INSERT per issue, in order, committed together; an issue
        whose values cannot be bound raises before the commit, leaving the table
        as it was. */
    method SaveToDb(issues: seq<LintIssue>) returns (committed: bool)
      modifies this
      ensures committed <==> forall k :: 0 <= k < |issues| ==> Insertable(issues[k])
      ensures rows == if committed then old(rows) + issues else old(rows)
    {
      var pending := rows;
      for i := 0 to |issues|
        invariant pending == rows + issues[..i]
        invariant forall k :: 0 <= k < i ==> Insertable(issues[k])
      {
        if !Insertable(issues[i]) {
          return false;
        }
        pending := pending + [issues[i]];
      }
      assert issues[..|issues|] == issues;
      rows := pending;
      committed := true;
    }

    /** `main` after the report is written: normalise the report and save the
        issues. `None` when normalising or saving raises. */
    method CollectPylint(parsed: Option<Json>, clock: nat -> string) returns (saved: Option<nat>)
      modifies this
      ensures saved.None? ==> rows == old(rows)
      ensures saved.Some? ==> |rows| == |old(rows)| + saved.value && rows[..|old(rows)|] == old(rows)
      ensures parsed.None? ==> saved == Some(0) && rows == old(rows)
    {
      var issues := NormalizePylint(parsed, clock);
      if issues.None? {
        return None;
      }
      var committed := SaveToDb(issues.value);
      if !committed {
        return None;
      }
      saved := Some(|issues.value|);
    }
  }
}
