# AI code review assistant: a verified model of its core

This project is a Dafny model of the sequential logic of the AI code review
assistant:

- the best-single-trade scan of `Solution.trades_history` (module `Trades`);
- the keyword classifier that sorts suggestions into five categories, and the merge
  of rule-based issues with the AI reply followed by grouping by category
  (module `Analyzer`);
- the normaliser that turns a static-analysis tool's output into uniform issue
  records, and the saving and counting of those records in `analysis_results`
  (module `ToolReports`);
- the pylint report normaliser and its `lint_issues` table (module `PylintReports`);
- the clean-up passes over the `issues` table: severity collapsing, duplicate
  deletion, and step logging (module `Preprocess`);
- the feedback generator: cache lookup by hash, insert-or-ignore, the bounded
  retry of the model call, prompt building, and the parse-or-wrap fallback
  (module `Feedback`).

Two support modules hold the Python semantics these rely on:

- `Strings` covers `in` on strings, `lower()`, `strip()`, `splitlines()` and `join`.
- `JsonValue` covers decoded JSON values, truthiness, `dict.get` and `a or b` chains.

Python exceptions are modelled as values. An operation that may raise returns an
`Option` (`None` means it raised), or the `Result` of `Feedback`. Tables are `seq`
or `map` fields of classes whose methods update them. Each method states the new
table contents in terms of the old ones. The subprocess, the clock, the language
model, `json.loads`/`json.dumps`, the SHA-256 digest and Python's `str()` of a
finding are parameters, not code:

- a tool run is a `ToolOutcome`;
- a clock reading is a `string`;
- the model is a function from (prompt, attempt number) to a `Reply`;
- the codec and the digest are function values.

Where the written code and its description differ, the model follows the code:

- `call_model` is wrapped by tenacity without `reraise`. After the third failed
  attempt the caller therefore gets tenacity's `RetryError`, not the model
  client's own exception (`Feedback.CallModel`, `RetryError`).
- `content.strip() if content else ...` tests the content before stripping it.
  A reply made only of whitespace therefore gives the empty string, not
  "No feedback returned." (`Feedback.ReplyTextCases`).
- The preprocessing statements name a table `issues` that no script of the
  repository creates. They log into `preprocessing_log` with the columns `step`
  and `timestamp`, while `src/data/database_setup.py` creates that table with
  `process_name` and `processed_at`. The model uses the columns the statements
  use. Against the schema of `database_setup.py` these statements would raise.

## Model

| member | source | states |
|---|---|---|
| Trades.TradesHistory | src/solution.py:7-19 | the result is never negative, no pair `i < j` gains more than it, a positive result is achieved by a pair `i < j`, and fewer than two prices give 0; the loop keeps `left` at a prefix minimum |
| Trades.BestProfitUnique | src/solution.py:7-19 | the best-profit specification determines a single value |
| Trades.ShortHistoryHasNoProfit | tests/test_sample.py:17-23 | an empty or one-price history has best profit 0 |
| Trades.NonIncreasingIffZero | src/solution.py:13-17 | the best profit is 0 exactly when the prices never rise |
| Trades.SampleHistoryProfit | tests/test_sample.py:7-14 | the unit test's history (in units of 1/10000) has best profit 1078 |
| Strings.Lower | src/ai/analyzer.py:22 | lower-casing keeps the length and lower-cases each character |
| Strings.LowerIdempotent | src/ai/analyzer.py:22 | lower-casing twice is lower-casing once |
| Strings.Strip | src/data/collect_reports.py:54 | the result is the slice of the input between a whitespace-only prefix and a whitespace-only suffix; it is empty exactly when the input is all whitespace, and otherwise starts and ends with non-whitespace |
| Strings.TrimStartShape | src/data/collect_reports.py:54 | `lstrip` keeps a suffix that does not start with whitespace and drops only whitespace |
| Strings.TrimEndShape | src/data/collect_reports.py:54 | `rstrip` keeps a prefix that does not end with whitespace and drops only whitespace |
| Strings.LineBreaksWhole | src/data/collect_reports.py:67 | every boundary `splitlines` cuts at is whole ("\r\n" or one boundary character); only the last line may run to the end of the text, and then it is not empty |
| Strings.LineBreaksKeepCrLf | src/data/collect_reports.py:67 | a "\r\n" pair is one boundary: a lone "\r" cut is never followed by an empty line cut at "\n" |
| Strings.StripIdempotent | src/data/collect_reports.py:77 | stripping twice is stripping once |
| Strings.LineEnd | src/data/collect_reports.py:67 | the index returned is the first line boundary, or the length when there is none |
| Strings.SplitLines | src/data/collect_reports.py:67 | no line holds a boundary, and only the empty text has no lines |
| Strings.SplitLinesRejoin | src/data/collect_reports.py:67 | putting each line of `splitlines` back in front of the boundary it was cut at gives the text again |
| Strings.Join | src/ai_feedback/generate_feedback.py:112 | `sep.join(xs)`: the strings of `xs` in order with `sep` between neighbours (definition) |
| Strings.NatToString | src/ai/analyzer.py:121 | `str(n)` of a non-negative count: its decimal digits, most significant first (definition) |
| Strings.SplitLinesJoin | src/ai_feedback/generate_feedback.py:112 | splitting the newline-join of break-free lines whose last line is not empty gives the lines back |
| JsonValue.Truthy | src/data/collect_reports.py:72-78 | Python truthiness of a JSON value: `None`, `False`, 0 and empty strings, lists and dicts are false (definition) |
| JsonValue.Get | src/data/collect_reports.py:72-79 | `dict.get(key, default)`: the stored value, or the default when the key is absent (definition) |
| JsonValue.OrChain | src/data/collect_reports.py:72-78 | `c0 or c1 or ... or cn`: the first truthy operand, or the last one (definition) |
| JsonValue.Iterate | src/data/collect_reports.py:81 | `for x in v`: a list gives its elements, a string its one-character strings, the empty dict nothing; a non-empty dict (whose string keys would make the next `.get` raise), `None`, booleans and numbers give `None` (definition) |
| JsonValue.OrChainFirstTruthy | src/data/collect_reports.py:72-78 | an `or` chain yields its first truthy operand |
| JsonValue.OrChainFallsThrough | src/data/collect_reports.py:72-78 | an `or` chain whose operands before the last are falsy yields the last one |
| Analyzer.CategorizeSuggestion | src/ai/analyzer.py:17-64 | the first keyword set, in the order readability, performance, security, design, that the lower-cased text mentions names the category; "general" otherwise (definition) |
| Analyzer.AiEntries | src/ai/analyzer.py:96-112 | the AI part of the merge: one entry per `suggestions` element, or the single `feedback` entry; `None` where building it raises (definition) |
| Analyzer.Merged | src/ai/analyzer.py:85-112 | the rule-based entries followed by the AI entries, or `None` when the AI part raises (definition) |
| Analyzer.NormalizedIssues | src/ai/analyzer.py:75-79 | each issue string becomes `{"text": issue, "severity": "medium"}`, in order (definition) |
| Analyzer.Summary | src/ai/analyzer.py:121 | "Analyzed <count> rule-based issues + AI feedback." (definition) |
| Analyzer.LabelsDistinct | src/ai/analyzer.py:17-64 | the five category labels are distinct |
| Analyzer.CategorizePrecedence | src/ai/analyzer.py:22-63 | each category is chosen exactly when its keyword set matches the lower-cased text and no earlier set does |
| Analyzer.ReadabilityKeywordWins | src/ai/analyzer.py:23-31 | a readability keyword gives "readability" whatever else the text mentions |
| Analyzer.GeneralIffNoKeyword | src/ai/analyzer.py:22-64 | "general" exactly when no keyword of any set occurs in the lower-cased text |
| Analyzer.EmptyTextIsGeneral | src/ai/analyzer.py:64 | the empty text is "general" |
| Analyzer.CategorizeIgnoresCase | src/ai/analyzer.py:22 | classifying a text and its lower-cased form give the same category |
| Analyzer.MergedRuleBasedPrefix | src/ai/analyzer.py:88-94 | the merge starts with one rule-based entry per issue, in order, with the issue's text and category, severity "medium" and no fix |
| Analyzer.SuggestionsListEntries | src/ai/analyzer.py:97-105 | a `suggestions` list of dicts adds one AI entry per element, in order, with explanation and fix defaulting to "" and severity to "low" |
| Analyzer.FeedbackOnlyEntry | src/ai/analyzer.py:106-112 | a dict reply without `suggestions` adds exactly one AI entry from `feedback`, with severity "low" |
| Analyzer.MergeSuggestions | src/ai/analyzer.py:85-112 | the two append loops build exactly the merge, and fail exactly when building it raises |
| Analyzer.OfCategoryMembers | src/ai/analyzer.py:115-118 | every member of a group has that group's category and comes from the merge |
| Analyzer.OfCategoryNonEmpty | src/ai/analyzer.py:115-118 | a group is non-empty exactly when some merged suggestion has its category |
| Analyzer.CategorySizesSum | src/ai/analyzer.py:115-118 | the five group sizes add up to the number of merged suggestions |
| Analyzer.GroupingPartitions | src/ai/analyzer.py:115-118 | in a grouping the group sizes add up to the merge's length and no group is empty |
| Analyzer.GroupByCategory | src/ai/analyzer.py:115-118 | the `setdefault(...).append` loop maps each occurring category to its suggestions in merge order, with no other keys |
| Analyzer.AnalyzeCodeWithAi | src/ai/analyzer.py:67-126 | the call returns exactly when the AI reply arrives and can be merged; then the summary counts the issues and the groups are the grouping of the merge |
| ToolReports.NormalizeEntry | src/data/collect_reports.py:70-82 | the record built from one entry: alias chains for filename, severity and rule id, `.get` defaults for line and timestamp, and the stripped message (definition) |
| ToolReports.Entries | src/data/collect_reports.py:60-68 | the entry list: a parsed dict wrapped in a list, another parsed value iterated, and text that is not JSON one dict per line (definition) |
| ToolReports.RunTool | src/data/collect_reports.py:45-94 | `run_tool`: `[]` when the tool is missing or crashes, when the output is blank, or when normalising raises; otherwise the normalised entries (definition) |
| ToolReports.ToolFailureGivesNothing | src/data/collect_reports.py:86-94 | a missing or crashing tool gives no records |
| ToolReports.BlankOutputGivesNothing | src/data/collect_reports.py:54-58 | empty or whitespace-only output gives no records |
| ToolReports.SingleObjectGivesOneRecord | src/data/collect_reports.py:60-84 | a JSON object is wrapped: exactly its one record, or none when it cannot be normalised |
| ToolReports.ArrayGivesRecordPerElement | src/data/collect_reports.py:60-84 | a JSON array of well-formed entries gives one normalised record per element, in order |
| ToolReports.RunToolFromEntries | src/data/collect_reports.py:54-84 | non-blank output gives the normalisation of its entry list, or nothing when building it raises |
| ToolReports.BadElementDiscardsAll | src/data/collect_reports.py:70-94 | one entry that is not a dict, or whose message is not a string, makes the whole call give `[]` |
| ToolReports.TextGivesRecordPerLine | src/data/collect_reports.py:64-79 | output that is not JSON gives one record per line, blank inner lines included, with the stripped line as message, "unknown_file", line 0, "info", rule "" and the run's timestamp |
| ToolReports.LineEntryNormalizes | src/data/collect_reports.py:65-79 | the entry built for one line normalises to the defaults around the stripped line |
| ToolReports.NormalizeWellFormed | src/data/collect_reports.py:70-82 | entries that are dicts with string messages give one normalised record each, in order |
| ToolReports.NormalizeRejects | src/data/collect_reports.py:70-82 | one entry that raises, wherever it stands, makes the whole comprehension raise |
| ToolReports.FieldAliases | src/data/collect_reports.py:70-80 | filename is `path` if truthy, else `filename` if truthy, else "unknown_file"; severity is `type` if truthy, else `severity` (default "info"); rule id is `symbol` if truthy, else `rule_id` (default ""); line defaults to 0 |
| ToolReports.AllInsertableEach | src/data/collect_reports.py:106-124 | a list of records can be saved exactly when each of its records can be inserted |
| ToolReports.TextRecordsInsertable | src/data/collect_reports.py:106-122 | records made from plain-text output can all be inserted |
| ToolReports.AllStep | src/data/collect_reports.py:141-145 | one more tool extends the collected records and the saved rows by its own |
| ToolReports.AllResultsUnrolled | src/data/collect_reports.py:134-147 | the collected records are pylint's followed by flake8's |
| ToolReports.AllRowsUnrolled | src/data/collect_reports.py:134-147 | the saved rows are pylint's followed by flake8's |
| ToolReports.AnalysisStore.SaveToDb | src/data/collect_reports.py:97-126 | the save commits exactly when every record can be inserted; then one row per record is appended in order with the given tool name, otherwise the table is unchanged |
| ToolReports.AnalysisStore.CollectReports | src/data/collect_reports.py:139-147 | the loop over tools saves each tool's records in order and counts them; a save that raises stops it at the first tool whose records cannot all be inserted, leaving exactly the rows of the tools before it |
| ToolReports.AnalysisStore.CollectAllReports | src/data/collect_reports.py:129-147 | pylint then flake8: the total is the sum of their record counts and the table gains their rows in that order; when pylint's save raises nothing is added and flake8 is not saved; when only flake8's save raises, exactly pylint's rows are added |
| PylintReports.PylintIssue | collect_reports.py:57-69 | every issue has tool "pylint", the given timestamp, and severity "warning" exactly when `type` is "convention", "error" otherwise |
| PylintReports.NormalizePylint | collect_reports.py:45-70 | unparsable content gives `[]`; otherwise the call returns exactly when the parsed value iterates into dicts, with one issue per item, in order |
| PylintReports.SampleItemIssue | collect_reports.py:57-69 | a convention item becomes a warning carrying its path, line, column, symbol and message |
| PylintReports.LintStore.SaveToDb | collect_reports.py:97-120 | the save commits exactly when every issue binds; then the issues are appended in order after the unchanged earlier rows, otherwise the table is unchanged |
| PylintReports.LintStore.CollectPylint | collect_reports.py:123-135 | unparsable content saves nothing; a failure leaves the table unchanged; a success appends the saved count of rows after the earlier ones |
| Preprocess.Collapse | src/data/preprocess_data.py:15-19 | every severity becomes one of high, medium, low |
| Preprocess.CollapseLevels | src/data/preprocess_data.py:15-19 | 'error', 'high', 'critical' and nothing else become 'high'; 'warning', 'medium' and nothing else become 'medium'; everything else, NULL included, becomes 'low' |
| Preprocess.CollapseIdempotent | src/data/preprocess_data.py:15-19 | a level is left as it is, so collapsing twice is collapsing once |
| Preprocess.SeverityNormalized | src/data/preprocess_data.py:12-21 | the table after the UPDATE: every row with its severity collapsed to a level (definition) |
| Preprocess.SeverityNormalizedShape | src/data/preprocess_data.py:12-21 | the UPDATE keeps the row count and every column but `severity`, and leaves every severity a level |
| Preprocess.SeverityNormalizedIdempotent | src/data/preprocess_data.py:12-21 | running the UPDATE twice is running it once |
| Preprocess.KeepGroupMins | src/data/preprocess_data.py:33-39 | the rows among the first `n` that hold their group's `MIN(rowid)`, in rowid order (definition) |
| Preprocess.Deduplicated | src/data/preprocess_data.py:31-40 | the table after the DELETE: the rows holding their group's `MIN(rowid)` (definition) |
| Preprocess.FirstOccurrences | src/data/preprocess_data.py:31-40 | the first row of each key is no longer than the table and drawn from it |
| Preprocess.GroupMinIffFirst | src/data/preprocess_data.py:33-39 | in rowid order a row holds its group's `MIN(rowid)` exactly when no earlier row has its key |
| Preprocess.KeepGroupMinsPrefix | src/data/preprocess_data.py:33-39 | on every prefix, the rows the DELETE spares are the first occurrences |
| Preprocess.DeduplicatedIsFirstOccurrences | src/data/preprocess_data.py:31-40 | the DELETE keeps exactly the first row of every key |
| Preprocess.FirstOccurrencesKeys | src/data/preprocess_data.py:31-40 | every key left occurs in the original table |
| Preprocess.FirstOccurrencesDistinct | src/data/preprocess_data.py:33-39 | afterwards no two rows share a (file, tool, line, column, code, message) key |
| Preprocess.FirstOccurrencesCoverKeys | src/data/preprocess_data.py:33-39 | every key of the table keeps a row |
| Preprocess.FirstOccurrencesSorted | src/data/preprocess_data.py:33-39 | the rows left stay in rowid order |
| Preprocess.DistinctUnchanged | src/data/preprocess_data.py:31-40 | a table without duplicate keys is left as it is |
| Preprocess.UniqueRowKept | src/data/preprocess_data.py:33-39 | a row whose key no other row shares survives |
| Preprocess.DeduplicatedIdempotent | src/data/preprocess_data.py:31-40 | deleting duplicates twice is deleting them once |
| Preprocess.ReviewDatabase.NormalizeSeverityLevels | src/data/preprocess_data.py:7-23 | the table becomes its severity-normalised form, the log is unchanged, and rowid order is kept |
| Preprocess.ReviewDatabase.DeduplicateIssues | src/data/preprocess_data.py:26-42 | the table becomes its deduplicated form with distinct keys, the log is unchanged, and rowid order is kept |
| Preprocess.ReviewDatabase.LogStep | src/data/preprocess_data.py:45-56 | exactly one log row with the given step, status and timestamp is appended, and the issues are untouched |
| Preprocess.ReviewDatabase.Preprocess | src/data/preprocess_data.py:59-64 | the issues end deduplicated after normalisation, and the log gains "normalize_severity" then "deduplicate", both "done" |
| Feedback.ReplyText | src/ai_feedback/generate_feedback.py:161-162 | the reply content stripped, or "No feedback returned." when the content is missing or empty (definition) |
| Feedback.ReplyTextCases | src/ai_feedback/generate_feedback.py:161-162 | no content or empty content gives "No feedback returned."; whitespace-only content gives ""; other content gives a non-empty stripped text |
| Feedback.CallModel | src/ai_feedback/generate_feedback.py:143-165 | between 1 and 3 attempts; every attempt before the last raised; success returns the first reply's text; failure means all 3 raised |
| Feedback.FindingsTextLines | src/ai_feedback/generate_feedback.py:112 | the findings block reads back as one line "- " + str(f) per finding, in order |
| Feedback.BuildPrompt | src/ai_feedback/generate_feedback.py:108-139 | the fixed head, the code, the findings heading, the findings block and a newline (definition) |
| Feedback.PromptEmbedsInputs | src/ai_feedback/generate_feedback.py:108-139 | the prompt starts with the fixed head, holds the code verbatim right after it, and ends with the findings block and a newline |
| Feedback.InsertOrIgnore | src/ai_feedback/generate_feedback.py:90-96 | the key is present afterwards, no existing row changes, and a new key gets the given row |
| Feedback.FirstInsertWins | src/ai_feedback/generate_feedback.py:90-96 | a second insert under the same key changes nothing: the first feedback stays |
| Feedback.FeedbackService.Key | src/ai_feedback/generate_feedback.py:63-67 | the digest of `{"code": code, "tool_findings": findings}` (definition) |
| Feedback.FeedbackService.Decode | src/ai_feedback/generate_feedback.py:178-189 | `json.loads(s)`, or `{"feedback": s}` when `s` is not JSON (definition) |
| Feedback.FeedbackService.DecodeCases | src/ai_feedback/generate_feedback.py:176-189 | text that is not JSON is returned as `{"feedback": text}`; a dump reads back as its value when the codec round-trips |
| Feedback.FeedbackService.GetCachedFeedback | src/ai_feedback/generate_feedback.py:70-79 | the stored feedback for the hash, or `None` when the hash has no row |
| Feedback.FeedbackService.SaveFeedbackToCache | src/ai_feedback/generate_feedback.py:82-99 | insert-or-ignore of (code, dumped findings, feedback, model) under the hash; the log is unchanged |
| Feedback.FeedbackService.GenerateFeedback | src/ai_feedback/generate_feedback.py:168-197 | a non-empty cached value is decoded with no model call, cache write or log entry; on a miss the first successful reply is decoded or wrapped, stored unless the key has a row, and logged once; a `RetryError` changes nothing |
| Feedback.FeedbackService.AskModel | src/ai_feedback/generate_feedback.py:184-197 | on a miss: between 1 and 3 attempts; a `RetryError` changes nothing; a reply is decoded or wrapped, its dump stored unless the key has a row, and the exchange logged once |
| Feedback.FeedbackService.RequestTwice | src/ai_feedback/generate_feedback.py:173-191 | after a first call that returns, a second identical call makes no model attempt and returns the same value |

## Left out

- Running the tools: `subprocess.run`, the report file `run_tool` writes in `collect_reports.py`, and the `raw_reports`/`reports` directories are not modelled. A tool run is a `ToolOutcome` value and a report is its parsed content.
- SQLite connections, commits and `CREATE TABLE IF NOT EXISTS` statements are not modelled. Tables are sequences (or, for the cache, a map keyed by `code_hash`).
- `ensure_db_schema` and `ensure_feedback_table` are not modelled: each table is assumed to exist.
- Column affinity is not modelled; values are kept as bound. REAL and BLOB values are not modelled, and neither are floats in JSON: numbers are integers.
- `json.loads`, `json.dumps` and the SHA-256 hex digest are opaque function parameters, because the codec and the hash are not part of this code. The dump/load round trip is a precondition of `Feedback.FeedbackService.RequestTwice` only.
- Python's `str()` of a finding dict is an opaque parameter.
- The OpenAI client, `.env` loading, the environment-derived model name and temperature, and the import-time `RuntimeError` are not modelled. The model name is a field of the service.
- tenacity's exponential backoff delays are left out: timing is not modelled, only the attempt count.
- Logging through `logging` and every `print` are left out, since they only produce output.
- Clock readings (`datetime.now`, `datetime.utcnow`, `CURRENT_TIMESTAMP`) are inputs.
- Strings.Lower: only ASCII letters are lower-cased, while Python's `str.lower` covers all of Unicode, so a non-ASCII capital in a suggestion is classified as written.
- JsonValue.Iterate: iterating a non-empty JSON object visits its keys in dict order, which is not modelled. Such an object gives `None`; every caller would raise on the first key anyway.
- Dict key order is not modelled: JSON objects are maps, and so is the `grouped_suggestions` dict of `analyze_code_with_ai` (`Analyzer.Analysis.grouped`), whose keys Python keeps in first-occurrence order of the categories.
- Analyzer.AnalyzeCodeWithAi: issues are strings, as the signature declares. A dict issue is passed to `generate_feedback` as it is, then makes `categorize_suggestion` raise; that path is not modelled.
- ToolReports.AnalysisStore.CollectAllReports: the `all_results` list is only counted, and the final count is returned rather than printed.
- PylintReports.LintStore.CollectPylint: states the growth of the table by the saved count; which rows are appended is stated by `NormalizePylint` and `SaveToDb`.
- Trades.TradesHistory: prices are integers (for example ten-thousandths), not floats. `pytest.approx` is not modelled.
- The sample runs are left out: the module-level demo at src/solution.py:26-30 (it has no `__main__` guard, so it runs on every import, including the test module's), and the `__main__` sample runs of `src/ai/analyzer.py` and `src/ai_feedback/generate_feedback.py`, plus `save_feedback`.
- src/data/inspect_db.py is left out: it only prints tables with pandas.
- src/data/feedback_storage.py is left out: it only writes and reads files.
- src/data/collect_feedback_dataset.py is left out: it is a directory glob plus `json.load`.
- The feedback log file is a sequence of JSON entries; the file append itself is not modelled.
