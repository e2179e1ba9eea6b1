/** The report collector of `src/data/collect_reports.py`: run a static-analysis
    tool, normalise whatever it printed into uniform issue records, and append
    them to the `analysis_results` table.

    The subprocess is not modelled: its result is a `ToolOutcome` input, and the
    clock reading taken after it is a `timestamp` input. `json.loads` is the
    `loads` parameter, which yields `None` where it raises `JSONDecodeError`. */
module ToolReports {
  import opened JsonValue
  import Strings

  /** How running the tool's command ended. */
  datatype ToolOutcome =
    | NotFound                 // FileNotFoundError: the executable is missing
    | Crashed                  // any other exception from `subprocess.run`
    | Finished(stdout: string) // the command ran (whatever its exit status)

  /** One normalised record. Fields other than `message` keep the JSON value the
      tool printed (a path may be any truthy value, a line may be `null`). */
  datatype Issue = Issue(filename: Json, line: Json, severity: Json, message: string, ruleId: Json, timestamp: Json)

  const UnknownFile: string := "unknown_file"

  /** The dict built for one line of output that is not JSON. */
  function LineEntry(toolName: string, line: string, timestamp: string): Json {
    JObj(map["tool" := JStr(toolName), "message" := JStr(line), "timestamp" := JStr(timestamp)])
  }

  /** Normalising the entry does not raise: it is a dict (else `.get` raises) whose
      `message`, when present, is a string (else `.strip()` raises). */
  predicate EntryOk(e: Json) {
    e.JObj? && Get(e.fields, "message", JStr("")).JStr?
  }

  /** The dict comprehension of `run_tool` applied to one entry: each field takes the
      first truthy alias, with a default at the end of the chain. */
  function NormalizeEntry(e: Json, timestamp: string): Issue
    requires EntryOk(e)
  {
    var m := e.fields;
    Issue(
      OrChain([Get(m, "path", JNull), Get(m, "filename", JNull), JStr(UnknownFile)]),
      Get(m, "line", JNum(0)),
      OrChain([Get(m, "type", JNull), Get(m, "severity", JStr("info"))]),
      Strings.Strip(Get(m, "message", JStr("")).s),
      OrChain([Get(m, "symbol", JNull), Get(m, "rule_id", JStr(""))]),
      Get(m, "timestamp", JStr(timestamp)))
  }

  /** The list comprehension over all entries, evaluated front to back: `None` as
      soon as one entry raises. */
  function NormalizeEntries(entries: seq<Json>, timestamp: string): Option<seq<Issue>> {
    if entries == [] then Some([])
    else if !EntryOk(entries[0]) then None
    else
      match NormalizeEntries(entries[1..], timestamp)
      case None => None
      case Some(rest) => Some([NormalizeEntry(entries[0], timestamp)] + rest)
  }

  /** The `data` list `run_tool` builds from the stripped output: a parsed object is
      wrapped in a list, a parsed array is taken as it is, other parsed values are
      iterated, and output that is not JSON gives one entry per line. */
  function Entries(output: string, parsed: Option<Json>, toolName: string, timestamp: string): Option<seq<Json>> {
    match parsed
    case None =>
      var lines := Strings.SplitLines(output);
      Some(seq(|lines|, i requires 0 <= i < |lines| => LineEntry(toolName, lines[i], timestamp)))
    case Some(v) =>
      if v.JObj? then Some([v]) else Iterate(v)
  }

  /** `run_tool`: never raises; every failure gives the empty list. */
  function RunTool(outcome: ToolOutcome, toolName: string, timestamp: string, loads: string -> Option<Json>): seq<Issue> {
    match outcome
    case Finished(stdout) =>
      var output := Strings.Strip(stdout);
      if output == "" then []
      else
        (match Entries(output, loads(output), toolName, timestamp)
         case None => []
         case Some(entries) => NormalizeEntries(entries, timestamp).GetOr([]))
    case _ => []
  }

  /** A missing or crashing tool contributes no records. */
  lemma ToolFailureGivesNothing(toolName: string, timestamp: string, loads: string -> Option<Json>)
    ensures RunTool(NotFound, toolName, timestamp, loads) == []
    ensures RunTool(Crashed, toolName, timestamp, loads) == []
  {
  }

  /** Empty or whitespace-only output contributes no records. */
  lemma BlankOutputGivesNothing(stdout: string, toolName: string, timestamp: string, loads: string -> Option<Json>)
    requires Strings.AllSpace(stdout)
    ensures RunTool(Finished(stdout), toolName, timestamp, loads) == []
  {
  }

  /** A single JSON object gives exactly one record, or none when it cannot be
      normalised. */
  lemma SingleObjectGivesOneRecord(stdout: string, toolName: string, timestamp: string, loads: string -> Option<Json>)
    requires var output := Strings.Strip(stdout); output != "" && loads(output).Some? && loads(output).value.JObj?
    ensures var e := loads(Strings.Strip(stdout)).value;
      RunTool(Finished(stdout), toolName, timestamp, loads) ==
        if EntryOk(e) then [NormalizeEntry(e, timestamp)] else []
  {
    var output := Strings.Strip(stdout);
    var e := loads(output).value;
    assert Entries(output, loads(output), toolName, timestamp) == Some([e]);
    RunToolFromEntries(stdout, toolName, timestamp, loads);
    if EntryOk(e) {
      NormalizeWellFormed([e], timestamp);
    } else {
      NormalizeRejects([e], timestamp, 0);
    }
  }

  /** A JSON array of normalisable entries gives one record per element, in order. */
  lemma ArrayGivesRecordPerElement(stdout: string, toolName: string, timestamp: string, loads: string -> Option<Json>,
                                   items: seq<Json>)
    requires var output := Strings.Strip(stdout); output != "" && loads(output) == Some(JArr(items))
    requires forall i :: 0 <= i < |items| ==> EntryOk(items[i])
    ensures var r := RunTool(Finished(stdout), toolName, timestamp, loads);
      |r| == |items| && forall i :: 0 <= i < |items| ==> r[i] == NormalizeEntry(items[i], timestamp)
  {
    var output := Strings.Strip(stdout);
    assert Entries(output, loads(output), toolName, timestamp) == Some(items);
    RunToolFromEntries(stdout, toolName, timestamp, loads);
    NormalizeWellFormed(items, timestamp);
  }

  /** Well-formed entries normalise one by one, in order. */
  lemma {:induction false} NormalizeWellFormed(entries: seq<Json>, timestamp: string)
    requires forall i :: 0 <= i < |entries| ==> EntryOk(entries[i])
    ensures var r := NormalizeEntries(entries, timestamp);
      && r.Some? && |r.value| == |entries|
      && forall i :: 0 <= i < |entries| ==> r.value[i] == NormalizeEntry(entries[i], timestamp)
  {
    if entries != [] {
      var tail := entries[1..];
      assert forall i :: 0 <= i < |tail| ==> tail[i] == entries[i + 1];
      NormalizeWellFormed(tail, timestamp);
    }
  }

  /** One entry that raises, wherever it is, makes the whole comprehension raise. */
  lemma {:induction false} NormalizeRejects(entries: seq<Json>, timestamp: string, k: nat)
    requires k < |entries| && !EntryOk(entries[k])
    ensures NormalizeEntries(entries, timestamp) == None
  {
    if k > 0 && EntryOk(entries[0]) {
      assert entries[1..][k - 1] == entries[k];
      NormalizeRejects(entries[1..], timestamp, k - 1);
    }
  }

  /** A non-blank output gives the normalisation of its entries, or nothing. */
  lemma RunToolFromEntries(stdout: string, toolName: string, timestamp: string, loads: string -> Option<Json>)
    requires Strings.Strip(stdout) != ""
    ensures var output := Strings.Strip(stdout);
      var entries := Entries(output, loads(output), toolName, timestamp);
      RunTool(Finished(stdout), toolName, timestamp, loads) ==
        if entries.None? then [] else NormalizeEntries(entries.value, timestamp).GetOr([])
  {
  }

  /** One entry of an array that is not a dict, or has a message that is not a
      string, makes the whole call give the empty list. */
  lemma BadElementDiscardsAll(stdout: string, toolName: string, timestamp: string, loads: string -> Option<Json>,
                              items: seq<Json>, k: nat)
    requires var output := Strings.Strip(stdout); output != "" && loads(output) == Some(JArr(items))
    requires k < |items| && !EntryOk(items[k])
    ensures RunTool(Finished(stdout), toolName, timestamp, loads) == []
  {
    var output := Strings.Strip(stdout);
    assert Entries(output, loads(output), toolName, timestamp) == Some(items);
    RunToolFromEntries(stdout, toolName, timestamp, loads);
    NormalizeRejects(items, timestamp, k);
  }

  /** Output that is not JSON gives one record per line of the stripped output
      (blank lines inside it included), with the line stripped as message and the
      defaults everywhere else. */
  lemma TextGivesRecordPerLine(stdout: string, toolName: string, timestamp: string, loads: string -> Option<Json>)
    requires var output := Strings.Strip(stdout); output != "" && loads(output).None?
    ensures var lines := Strings.SplitLines(Strings.Strip(stdout));
      var r := RunTool(Finished(stdout), toolName, timestamp, loads);
      && |r| == |lines|
      && forall i :: 0 <= i < |lines| ==>
           r[i] == Issue(JStr(UnknownFile), JNum(0), JStr("info"), Strings.Strip(lines[i]), JStr(""), JStr(timestamp))
  {
    var output := Strings.Strip(stdout);
    var lines := Strings.SplitLines(output);
    var entries := seq(|lines|, i requires 0 <= i < |lines| => LineEntry(toolName, lines[i], timestamp));
    assert Entries(output, loads(output), toolName, timestamp) == Some(entries);
    forall i | 0 <= i < |lines| ensures EntryOk(entries[i]) {
      LineEntryNormalizes(toolName, lines[i], timestamp);
    }
    RunToolFromEntries(stdout, toolName, timestamp, loads);
    NormalizeWellFormed(entries, timestamp);
    var r := RunTool(Finished(stdout), toolName, timestamp, loads);
    assert |r| == |lines|;
    forall i | 0 <= i < |lines|
      ensures r[i] == Issue(JStr(UnknownFile), JNum(0), JStr("info"), Strings.Strip(lines[i]), JStr(""), JStr(timestamp))
    {
      assert r[i] == NormalizeEntry(entries[i], timestamp);
      LineEntryNormalizes(toolName, lines[i], timestamp);
    }
  }

  /** The entry for one line of text normalises to the defaults around the stripped line. */
  lemma LineEntryNormalizes(toolName: string, line: string, timestamp: string)
    ensures EntryOk(LineEntry(toolName, line, timestamp))
    ensures NormalizeEntry(LineEntry(toolName, line, timestamp), timestamp) ==
            Issue(JStr(UnknownFile), JNum(0), JStr("info"), Strings.Strip(line), JStr(""), JStr(timestamp))
  {
    var m := LineEntry(toolName, line, timestamp).fields;
    LineEntryLookups(toolName, line, timestamp);
    OrChainFallsThrough([JNull, JNull, JStr(UnknownFile)]);
    OrChainFallsThrough([JNull, JStr("info")]);
    OrChainFallsThrough([JNull, JStr("")]);
  }

  /** What `.get` finds in the entry for one line of text. */
  lemma LineEntryLookups(toolName: string, line: string, timestamp: string)
    ensures var m := LineEntry(toolName, line, timestamp).fields;
      && "path" !in m && "filename" !in m && "type" !in m && "severity" !in m
      && "symbol" !in m && "rule_id" !in m && "line" !in m
      && m["message"] == JStr(line) && m["timestamp"] == JStr(timestamp)
  {
  }

  /** Field aliasing: `path` before `filename` before "unknown_file"; `type` before
      `severity` (default "info"); `symbol` before `rule_id` (default ""). */
  lemma FieldAliases(e: Json, timestamp: string)
    requires EntryOk(e)
    ensures var m := e.fields; var r := NormalizeEntry(e, timestamp);
      && r.filename == (if Truthy(Get(m, "path", JNull)) then m["path"]
                        else if Truthy(Get(m, "filename", JNull)) then m["filename"]
                        else JStr(UnknownFile))
      && r.severity == (if Truthy(Get(m, "type", JNull)) then m["type"] else Get(m, "severity", JStr("info")))
      && r.ruleId == (if Truthy(Get(m, "symbol", JNull)) then m["symbol"] else Get(m, "rule_id", JStr("")))
      && r.line == Get(m, "line", JNum(0))
  {
    var m := e.fields;
    var names := [Get(m, "path", JNull), Get(m, "filename", JNull), JStr(UnknownFile)];
    if Truthy(names[0]) {
      OrChainFirstTruthy(names, 0);
    } else if Truthy(names[1]) {
      OrChainFirstTruthy(names, 1);
    } else {
      OrChainFallsThrough(names);
    }
    var severities := [Get(m, "type", JNull), Get(m, "severity", JStr("info"))];
    if Truthy(severities[0]) { OrChainFirstTruthy(severities, 0); } else { OrChainFallsThrough(severities); }
    var rules := [Get(m, "symbol", JNull), Get(m, "rule_id", JStr(""))];
    if Truthy(rules[0]) { OrChainFirstTruthy(rules, 0); } else { OrChainFallsThrough(rules); }
  }

  /** A row of `analysis_results` (the id column is the row's position). */
  datatype AnalysisRow = AnalysisRow(filename: Json, tool: string, line: Json, severity: Json, message: string,
                                     ruleId: Json, timestamp: Json)

  /** sqlite3 can bind `None`, booleans, 64-bit integers and strings; a list, a dict
      or a wider integer raises. */
  predicate Bindable(j: Json) {
    match j
    case JArr(_) => false
    case JObj(_) => false
    case JNum(n) => -0x8000_0000_0000_0000 <= n < 0x8000_0000_0000_0000
    case _ => true
  }

  /** The INSERT for this record succeeds: every value binds and `filename`, a
      NOT NULL column, is not `None`. */
  predicate Insertable(r: Issue) {
    Bindable(r.filename) && r.filename != JNull && Bindable(r.line) && Bindable(r.severity)
    && Bindable(r.ruleId) && Bindable(r.timestamp)
  }

  /** Every record of the list can be inserted, checked from the front. */
  predicate AllInsertable(rs: seq<Issue>) {
    rs == [] || (Insertable(rs[0]) && AllInsertable(rs[1..]))
  }

  /** The list can be saved exactly when each of its records can. */
  lemma {:induction false} AllInsertableEach(rs: seq<Issue>)
    ensures AllInsertable(rs) <==> forall i :: 0 <= i < |rs| ==> Insertable(rs[i])
  {
    if rs != [] {
      AllInsertableEach(rs[1..]);
      assert forall i :: 1 <= i < |rs| ==> rs[1..][i - 1] == rs[i];
    }
  }

  function RowOf(r: Issue, toolName: string): AnalysisRow {
    AnalysisRow(r.filename, toolName, r.line, r.severity, r.message, r.ruleId, r.timestamp)
  }

  function RowsFor(rs: seq<Issue>, toolName: string): seq<AnalysisRow> {
    seq(|rs|, i requires 0 <= i < |rs| => RowOf(rs[i], toolName))
  }

  /** Records whose JSON fields are scalars can always be inserted; `run_tool`'s
      records from plain-text output are such records. */
  lemma TextRecordsInsertable(stdout: string, toolName: string, timestamp: string, loads: string -> Option<Json>)
    requires var output := Strings.Strip(stdout); output != "" && loads(output).None?
    ensures AllInsertable(RunTool(Finished(stdout), toolName, timestamp, loads))
  {
    TextGivesRecordPerLine(stdout, toolName, timestamp, loads);
    var r := RunTool(Finished(stdout), toolName, timestamp, loads);
    forall i | 0 <= i < |r| ensures Insertable(r[i]) {
      assert r[i].filename == JStr(UnknownFile) && r[i].line == JNum(0);
    }
    AllInsertableEach(r);
  }

  /** The tools `collect_all_reports` runs, in order. */
  const Tools: seq<string> := ["pylint", "flake8"]

  /** What one tool run captured: how it ended and the clock reading after it. */
  datatype Capture = Capture(outcome: ToolOutcome, timestamp: string)

  function ResultsOf(tool: string, run: string -> Capture, loads: string -> Option<Json>): seq<Issue> {
    RunTool(run(tool).outcome, tool, run(tool).timestamp, loads)
  }

  /** `run_tool` as a function of the tool name alone. */
  function Reporter(run: string -> Capture, loads: string -> Option<Json>): string -> seq<Issue> {
    tool => ResultsOf(tool, run, loads)
  }

  /** The records of a list of tools, concatenated in order. */
  function AllResults(tools: seq<string>, report: string -> seq<Issue>): seq<Issue> {
    if tools == [] then []
    else AllResults(tools[..|tools| - 1], report) + report(tools[|tools| - 1])
  }

  /** The rows a list of tools appends, in order. */
  function AllRows(tools: seq<string>, report: string -> seq<Issue>): seq<AnalysisRow> {
    if tools == [] then []
    else AllRows(tools[..|tools| - 1], report) + RowsFor(report(tools[|tools| - 1]), tools[|tools| - 1])
  }

  /** One more tool extends the records and the rows by its own. */
  lemma AllStep(tools: seq<string>, t: nat, report: string -> seq<Issue>)
    requires t < |tools|
    ensures AllResults(tools[..t + 1], report) == AllResults(tools[..t], report) + report(tools[t])
    ensures AllRows(tools[..t + 1], report) == AllRows(tools[..t], report) + RowsFor(report(tools[t]), tools[t])
  {
    assert tools[..t + 1][..t] == tools[..t];
  }

  /** The records of the two tools: pylint's, then flake8's. */
  lemma AllResultsUnrolled(report: string -> seq<Issue>)
    ensures AllResults(Tools, report) == report("pylint") + report("flake8")
  {
    var first := Tools[..1];
    assert first == ["pylint"] && first[..0] == [];
    assert AllResults(first, report) == report("pylint");
  }

  /** The rows of the two tools: pylint's, then flake8's. */
  lemma AllRowsUnrolled(report: string -> seq<Issue>)
    ensures AllRows(Tools, report) == RowsFor(report("pylint"), "pylint") + RowsFor(report("flake8"), "flake8")
  {
    var first := Tools[..1];
    assert first == ["pylint"] && first[..0] == [];
    assert AllRows(first, report) == RowsFor(report("pylint"), "pylint");
  }

  /** The `analysis_results` table. */
  class AnalysisStore {
    var rows: seq<AnalysisRow>

    constructor ()
      ensures rows == []
    {
      rows := [];
    }

    /** `save_to_db`: nothing for an empty list; otherwise one INSERT per record, in
        order, committed together at the end. A record that cannot be inserted
        raises before the commit, so the table is left as it was. */
    method SaveToDb(results: seq<Issue>, toolName: string) returns (committed: bool)
      modifies this
      ensures committed <==> AllInsertable(results)
      ensures rows == if committed then old(rows) + RowsFor(results, toolName) else old(rows)
    {
      if results == [] {
        return true;
      }
      var pending := rows;
      for i := 0 to |results|
        invariant pending == rows + RowsFor(results[..i], toolName)
        invariant forall k :: 0 <= k < i ==> Insertable(results[k])
      {
        if !Insertable(results[i]) {
          AllInsertableEach(results);
          return false;
        }
        pending := pending + [RowOf(results[i], toolName)];
      }
      assert results[..|results|] == results;
      AllInsertableEach(results);
      rows := pending;
      committed := true;
    }

    /** `collect_all_reports`: run each tool, save its records and count them all.
        `None` when a save raises; the tools saved before it stay committed. */
    method CollectAllReports(run: string -> Capture, loads: string -> Option<Json>) returns (total: Option<nat>)
      modifies this
      ensures var report := Reporter(run, loads);
        && (total.Some? <==> AllInsertable(report("pylint")) && AllInsertable(report("flake8")))
        && (total.Some? ==>
              && total.value == |report("pylint")| + |report("flake8")|
              && rows == old(rows) + RowsFor(report("pylint"), "pylint") + RowsFor(report("flake8"), "flake8"))
        && (total.None? ==>
              || (!AllInsertable(report("pylint")) && rows == old(rows))
              || (AllInsertable(report("pylint")) && !AllInsertable(report("flake8"))
                  && rows == old(rows) + RowsFor(report("pylint"), "pylint")))
    {
      var report := Reporter(run, loads);
      total := CollectReports(Tools, report);
      AllResultsUnrolled(report);
      AllRowsUnrolled(report);
      assert Tools[..0] == [];
      assert Tools[..1] == ["pylint"] && AllRows(["pylint"], report) == RowsFor(report("pylint"), "pylint");
    }

    /** The loop of `collect_all_reports` over any list of tools, with `report`
        giving the records `run_tool` returns for a tool. */
    method CollectReports(tools: seq<string>, report: string -> seq<Issue>) returns (total: Option<nat>)
      modifies this
      ensures total.Some? <==> forall k {:trigger report(tools[k])} :: 0 <= k < |tools| ==> AllInsertable(report(tools[k]))
      ensures total.Some? ==> total.value == |AllResults(tools, report)| && rows == old(rows) + AllRows(tools, report)
      ensures total.None? ==> exists k :: 0 <= k < |tools| && !AllInsertable(report(tools[k]))
                                && (forall j {:trigger report(tools[j])} :: 0 <= j < k ==> AllInsertable(report(tools[j])))
                                && rows == old(rows) + AllRows(tools[..k], report)
    {
      var count := 0;
      for t := 0 to |tools|
        invariant forall k {:trigger report(tools[k])} :: 0 <= k < t ==> AllInsertable(report(tools[k]))
        invariant count == |AllResults(tools[..t], report)|
        invariant rows == old(rows) + AllRows(tools[..t], report)
      {
        var tool := tools[t];
        var results := report(tool);
        var committed := SaveToDb(results, tool);
        if !committed {
          assert !AllInsertable(report(tools[t])) && rows == old(rows) + AllRows(tools[..t], report);
          return None;
        }
        AllStep(tools, t, report);
        assert old(rows) + AllRows(tools[..t], report) + RowsFor(results, tool)
            == old(rows) + (AllRows(tools[..t], report) + RowsFor(results, tool));
        count := count + |results|;
      }
      assert tools[..|tools|] == tools;
      total := Some(count);
    }
  }
}
