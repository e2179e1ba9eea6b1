/** The feedback generator of `src/ai_feedback/generate_feedback.py`: look the
    (code, findings) pair up in the `ai_feedback_cache` table by its hash, and on a
    miss build a prompt, ask the model (at most three attempts), decode its reply,
    store it and append it to the feedback log.

    The model is the `reply` parameter: `reply(prompt, k)` is how attempt `k + 1`
    with that prompt ends. `json.loads`, `json.dumps`, the SHA-256 digest of the
    key-sorted dump, and Python's `str()` of a finding are oracles fixed when the
    service is created. */
module Feedback {
  import opened JsonValue
  import Strings

  /** How one chat-completion request ends. */
  datatype Reply =
    | Raised                          // the client raised, or the reply had no choices
    | Returned(content: Option<string>) // `resp.choices[0].message.content`

  /** The result of a call that may end in tenacity's `RetryError`. */
  datatype Result<+T> = Ok(value: T) | RetryError

  /** `stop_after_attempt(3)` */
  const MaxAttempts: nat := 3

  const NoFeedback: string := "No feedback returned."

  /** What `call_model` returns for the content of a reply: the stripped content
      when it is a non-empty string, the fixed notice otherwise. Content made of
      whitespace only is non-empty, so it gives the empty string. */
  function ReplyText(content: Option<string>): string {
    if content.Some? && content.value != "" then Strings.Strip(content.value) else NoFeedback
  }

  /** The three cases of `ReplyText`. */
  lemma ReplyTextCases(content: Option<string>)
    ensures content == None || content == Some("") ==> ReplyText(content) == NoFeedback
    ensures content.Some? && content.value != "" && Strings.AllSpace(content.value) ==> ReplyText(content) == ""
    ensures content.Some? && !Strings.AllSpace(content.value) ==>
      var r := ReplyText(content);
      && r != "" && |r| <= |content.value|
      && !Strings.IsSpace(r[0]) && !Strings.IsSpace(r[|r| - 1])
  {
  }

  /** `call_model` under tenacity: attempts are made until one returns, at most
      `MaxAttempts` of them; when the last one raises too, the call raises
      `RetryError`. Waiting between attempts is not modelled. */
  method CallModel(prompt: string, reply: (string, nat) -> Reply) returns (r: Result<string>, attempts: nat)
    ensures 1 <= attempts <= MaxAttempts
    ensures forall k :: 0 <= k < attempts - 1 ==> reply(prompt, k).Raised?
    ensures r.Ok? ==> reply(prompt, attempts - 1).Returned? && r.value == ReplyText(reply(prompt, attempts - 1).content)
    ensures r.RetryError? ==> attempts == MaxAttempts && reply(prompt, attempts - 1).Raised?
  {
    attempts := 0;
    r := RetryError;
    while attempts < MaxAttempts
      invariant attempts <= MaxAttempts
      invariant forall k :: 0 <= k < attempts ==> reply(prompt, k).Raised?
    {
      var outcome := reply(prompt, attempts);
      attempts := attempts + 1;
      if outcome.Returned? {
        return Ok(ReplyText(outcome.content)), attempts;
      }
    }
  }

  /** The fixed text of the prompt before the code. */
  const PromptHead: string :=
    "\nYou are a senior Python code reviewer.\nAnalyze the code below and the findings provided.\n\n"
    + "Your job:\n1. Combine the tool findings and your own analysis.\n"
    + "2. Return concise, prioritized feedback the developer can act on.\n"
    + "3. If no major issue exists, give a short positive remark.\n\n"
    + "Provide your output in this JSON format:\n{\n  \"feedback\": \"<overall summary>\",\n  \"suggestions\": [\n"
    + "    {\n      \"explanation\": \"<what\U{00E2}\U{20AC}\U{2122}s wrong or can be improved>\",\n"
    + "      \"fix\": \"<corrected or improved code snippet or advice>\",\n"
    + "      \"severity\": \"low|medium|high\"\n    }\n  ]\n}\n\nCode:\n"

  const FindingsHead: string := "\n\nFindings:\n"

  /** The lines of the findings block: `"- " + str(f)` for each finding, in order. */
  function FindingLines(findings: seq<Json>, show: Json -> string): seq<string> {
    seq(|findings|, i requires 0 <= i < |findings| => "- " + show(findings[i]))
  }

  /** The findings block of `build_prompt`. */
  function FindingsText(findings: seq<Json>, show: Json -> string): string {
    Strings.Join("\n", FindingLines(findings, show))
  }

  /** Reading the findings block back line by line gives one line per finding, in
      order, as long as no finding prints with a line break of its own. */
  lemma FindingsTextLines(findings: seq<Json>, show: Json -> string)
    requires forall i :: 0 <= i < |findings| ==> Strings.NoBreak(show(findings[i]))
    ensures Strings.SplitLines(FindingsText(findings, show)) == FindingLines(findings, show)
    ensures |Strings.SplitLines(FindingsText(findings, show))| == |findings|
  {
    var lines := FindingLines(findings, show);
    forall j | 0 <= j < |lines| ensures Strings.NoBreak(lines[j]) {
      var line := lines[j];
      assert line == "- " + show(findings[j]);
      forall c | 0 <= c < |line| ensures !Strings.IsLineBreak(line[c]) {
        if c >= 2 {
          assert line[c] == show(findings[j])[c - 2];
        }
      }
    }
    Strings.SplitLinesJoin(lines);
  }

  /** `build_prompt`, after the fixed `head` (which is `PromptHead`). */
  function BuildPrompt(head: string, code: string, findings: seq<Json>, show: Json -> string): string {
    head + code + FindingsHead + FindingsText(findings, show) + "\n"
  }

  /** The prompt starts with the fixed head, carries the code verbatim right after
      it, and ends with the findings block and a newline. */
  lemma PromptEmbedsInputs(head: string, code: string, findings: seq<Json>, show: Json -> string)
    ensures var p := BuildPrompt(head, code, findings, show); var f := FindingsText(findings, show);
      && |p| == |head| + |code| + |FindingsHead| + |f| + 1
      && p[..|head|] == head
      && p[|head|..|head| + |code|] == code
      && p[|p| - |f| - 1..] == f + "\n"
  {
  }

  /** The object whose key-sorted dump `compute_simple_hash` digests. */
  function HashInput(code: string, findings: seq<Json>): Json {
    JObj(map["code" := JStr(code), "tool_findings" := JArr(findings)])
  }

  /** The entry appended to `feedback_log.jsonl`. */
  function LogEntry(code: string, findings: seq<Json>, response: Json): Json {
    JObj(map["code" := JStr(code), "findings" := JArr(findings), "response" := response])
  }

  /** A row of `ai_feedback_cache` besides its key (the id and creation time are
      not modelled). */
  datatype CacheRow = CacheRow(code: string, toolFindings: string, feedback: string, model: string)

  /** `INSERT OR IGNORE` on the unique `code_hash` column. */
  function InsertOrIgnore(cache: map<string, CacheRow>, key: string, row: CacheRow): (r: map<string, CacheRow>)
    ensures key in r
    ensures r.Keys == cache.Keys + {key}
    ensures forall k :: k in cache ==> r[k] == cache[k]
    ensures key !in cache ==> r[key] == row
  {
    if key in cache then cache else cache[key := row]
  }

  /** The first row stored under a key is never overwritten. */
  lemma FirstInsertWins(cache: map<string, CacheRow>, key: string, first: CacheRow, second: CacheRow)
    requires key !in cache
    ensures InsertOrIgnore(InsertOrIgnore(cache, key, first), key, second)[key] == first
    ensures InsertOrIgnore(InsertOrIgnore(cache, key, first), key, second) == InsertOrIgnore(cache, key, first)
  {
  }

  /** The cache table and the feedback log. */
  class FeedbackService {
    const model: string
    const loads: string -> Option<Json>
    const dumps: Json -> string
    const digest: Json -> string
    const show: Json -> string
    /** The text of the prompt before the code: `PromptHead` for every service. */
    const promptHead: string
    var cache: map<string, CacheRow>
    var log: seq<Json>

    /** No stored feedback is empty: every stored feedback is a JSON dump, and a
        dump is never empty. */
    ghost predicate Valid()
      reads this
    {
      && (forall j :: dumps(j) != "")
      && (forall k :: k in cache ==> cache[k].feedback != "")
    }

    constructor (model: string, loads: string -> Option<Json>, dumps: Json -> string, digest: Json -> string,
                 show: Json -> string)
      requires forall j :: dumps(j) != ""
      ensures Valid()
      ensures this.model == model && this.loads == loads && this.dumps == dumps
      ensures this.digest == digest && this.show == show && promptHead == PromptHead
      ensures cache == map[] && log == []
    {
      this.model := model;
      this.loads := loads;
      this.dumps := dumps;
      this.digest := digest;
      this.show := show;
      promptHead := PromptHead;
      cache := map[];
      log := [];
    }

    /** `compute_simple_hash` */
    function Key(code: string, findings: seq<Json>): string {
      digest(HashInput(code, findings))
    }

    /** `json.loads(s)`, or `{"feedback": s}` when `s` is not JSON. */
    function Decode(s: string): Json {
      match loads(s)
      case Some(j) => j
      case None => JObj(map["feedback" := JStr(s)])
    }

    /** Text that is not JSON comes back wrapped; a dump of a value comes back as
        that value when the codec round-trips it. */
    lemma DecodeCases(s: string, j: Json)
      ensures loads(s).None? ==> Decode(s) == JObj(map["feedback" := JStr(s)]) && Decode(s).fields["feedback"] == JStr(s)
      ensures loads(dumps(j)) == Some(j) ==> Decode(dumps(j)) == j
    {
    }

    /** `get_cached_feedback` */
    method GetCachedFeedback(codeHash: string) returns (feedback: Option<string>)
      ensures feedback.Some? <==> codeHash in cache
      ensures feedback.Some? ==> feedback.value == cache[codeHash].feedback
    {
      if codeHash in cache {
        feedback := Some(cache[codeHash].feedback);
      } else {
        feedback := None;
      }
    }

    /** `save_feedback_to_cache`: the findings are stored as their dump, next to the
        service's model name. */
    method SaveFeedbackToCache(codeHash: string, code: string, findings: seq<Json>, feedback: string)
      modifies this
      ensures cache == InsertOrIgnore(old(cache), codeHash, CacheRow(code, dumps(JArr(findings)), feedback, model))
      ensures log == old(log)
    {
      cache := InsertOrIgnore(cache, codeHash, CacheRow(code, dumps(JArr(findings)), feedback, model));
    }

    /** `generate_feedback`, with the number of model attempts it made. A stored,
        non-empty feedback is decoded and returned without calling the model. On a
        miss the model's text is decoded (or wrapped), its dump is stored unless the
        key already has a row, and the exchange is logged; a `RetryError` leaves the
        cache and the log as they were. */
    method GenerateFeedback(code: string, findings: seq<Json>, reply: (string, nat) -> Reply)
      returns (r: Result<Json>, attempts: nat)
      modifies this
      ensures old(Valid()) ==> Valid()
      ensures var key := Key(code, findings);
        key in old(cache) && old(cache)[key].feedback != "" ==>
          r == Ok(Decode(old(cache)[key].feedback)) && attempts == 0 && cache == old(cache) && log == old(log)
      ensures var key := Key(code, findings); var prompt := BuildPrompt(promptHead, code, findings, show);
        !(key in old(cache) && old(cache)[key].feedback != "") ==>
          && 1 <= attempts <= MaxAttempts
          && (forall k :: 0 <= k < attempts - 1 ==> reply(prompt, k).Raised?)
          && (r.RetryError? ==> attempts == MaxAttempts && cache == old(cache) && log == old(log))
          && (r.Ok? ==>
                && reply(prompt, attempts - 1).Returned?
                && r.value == Decode(ReplyText(reply(prompt, attempts - 1).content))
                && cache == InsertOrIgnore(old(cache), key, CacheRow(code, dumps(JArr(findings)), dumps(r.value), model))
                && log == old(log) + [LogEntry(code, findings, r.value)])
    {
      var key := Key(code, findings);
      var cached := GetCachedFeedback(key);
      if cached.Some? && cached.value != "" {
        return Ok(Decode(cached.value)), 0;
      }
      var prompt := BuildPrompt(promptHead, code, findings, show);
      r, attempts := AskModel(key, code, findings, prompt, reply);
    }

    /** The miss path of `generate_feedback`, once the prompt is built: ask the
        model, then store and log the decoded answer under `key`. */
    method AskModel(key: string, code: string, findings: seq<Json>, prompt: string, reply: (string, nat) -> Reply)
      returns (r: Result<Json>, attempts: nat)
      modifies this
      ensures old(Valid()) ==> Valid()
      ensures 1 <= attempts <= MaxAttempts
      ensures forall k :: 0 <= k < attempts - 1 ==> reply(prompt, k).Raised?
      ensures r.RetryError? ==> attempts == MaxAttempts && cache == old(cache) && log == old(log)
      ensures r.Ok? ==>
        && reply(prompt, attempts - 1).Returned?
        && r.value == Decode(ReplyText(reply(prompt, attempts - 1).content))
        && cache == InsertOrIgnore(old(cache), key, CacheRow(code, dumps(JArr(findings)), dumps(r.value), model))
        && log == old(log) + [LogEntry(code, findings, r.value)]
    {
      var raw;
      raw, attempts := CallModel(prompt, reply);
      if raw.RetryError? {
        return RetryError, attempts;
      }
      var parsed := Decode(raw.value);
      SaveFeedbackToCache(key, code, findings, dumps(parsed));
      log := log + [LogEntry(code, findings, parsed)];
      r := Ok(parsed);
    }

    /** Two calls in a row with the same code and findings: when the first one
        returns, the second is answered from the cache, with no model attempt, and
        gives the same value, provided the codec reads every dump back as the
        value dumped. */
    method RequestTwice(code: string, findings: seq<Json>, first: (string, nat) -> Reply, second: (string, nat) -> Reply)
      returns (r1: Result<Json>, r2: Result<Json>, attempts1: nat, attempts2: nat)
      requires Valid()
      requires forall j :: loads(dumps(j)) == Some(j)
      modifies this
      ensures Valid()
      ensures attempts1 <= MaxAttempts
      ensures r1.Ok? ==> attempts2 == 0 && r2 == r1
    {
      r1, attempts1 := GenerateFeedback(code, findings, first);
      r2, attempts2 := GenerateFeedback(code, findings, second);
    }
  }
}
