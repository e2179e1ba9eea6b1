/** The suggestion analyzer of `src/ai/analyzer.py`: a keyword classifier that puts
    free-text suggestions into five categories, and the merge of rule-based issues
    with the AI reply followed by grouping by category. The AI reply is an input:
    `generate` stands for `generate_feedback` and yields `None` when that call raises. */
module Analyzer {
  import opened JsonValue
  import Strings

  datatype Category = Readability | Performance | Security | DesignPatternViolations | General {
    /** The label the script uses as the group key. */
    function Label(): string {
      match this
      case Readability => "readability"
      case Performance => "performance"
      case Security => "security"
      case DesignPatternViolations => "design_pattern_violations"
      case General => "general"
    }
  }

  const ReadabilityKeywords: seq<string> := ["readability", "naming", "comment", "docstring", "format", "pep8"]
  const PerformanceKeywords: seq<string> := ["optimize", "performance", "efficiency", "speed", "memory"]
  const SecurityKeywords: seq<string> := ["security", "vulnerability", "injection", "auth", "encrypt"]
  const DesignKeywords: seq<string> := ["pattern", "architecture", "design", "structure"]

  /** Every keyword of every set, in precedence order. */
  const AllKeywords: seq<string> := ReadabilityKeywords + PerformanceKeywords + SecurityKeywords + DesignKeywords

  /** `any(k in text for k in keywords)` */
  predicate MentionsAny(text: string, keywords: seq<string>) {
    exists k :: k in keywords && Strings.Contains(text, k)
  }

  /** `categorize_suggestion`: first keyword set (in the fixed order) with a keyword
      occurring in the lower-cased text, else `General`. */
  function CategorizeSuggestion(text: string): Category {
    var t := Strings.Lower(text);
    if MentionsAny(t, ReadabilityKeywords) then Readability
    else if MentionsAny(t, PerformanceKeywords) then Performance
    else if MentionsAny(t, SecurityKeywords) then Security
    else if MentionsAny(t, DesignKeywords) then DesignPatternViolations
    else General
  }

  /** The five labels are distinct, so a category and its label determine each other. */
  lemma LabelsDistinct(a: Category, b: Category)
    ensures a.Label() == b.Label() <==> a == b
  {
    if a != b {
      assert a.Label()[0] != b.Label()[0] || |a.Label()| != |b.Label()|;
    }
  }

  /** First-match precedence, in both directions, for every category. */
  lemma CategorizePrecedence(text: string)
    ensures var t := Strings.Lower(text); var c := CategorizeSuggestion(text);
      && (c == Readability <==> MentionsAny(t, ReadabilityKeywords))
      && (c == Performance <==> !MentionsAny(t, ReadabilityKeywords) && MentionsAny(t, PerformanceKeywords))
      && (c == Security <==>
            !MentionsAny(t, ReadabilityKeywords) && !MentionsAny(t, PerformanceKeywords)
            && MentionsAny(t, SecurityKeywords))
      && (c == DesignPatternViolations <==>
            !MentionsAny(t, ReadabilityKeywords) && !MentionsAny(t, PerformanceKeywords)
            && !MentionsAny(t, SecurityKeywords) && MentionsAny(t, DesignKeywords))
  {
  }

  /** A readability keyword decides the category, whatever else the text mentions. */
  lemma ReadabilityKeywordWins(text: string, k: string)
    requires k in ReadabilityKeywords && Strings.Contains(Strings.Lower(text), k)
    ensures CategorizeSuggestion(text) == Readability
  {
  }

  /** `General` exactly when no keyword of any set occurs in the lower-cased text. */
  lemma GeneralIffNoKeyword(text: string)
    ensures CategorizeSuggestion(text) == General <==>
            forall k :: k in AllKeywords ==> !Strings.Contains(Strings.Lower(text), k)
  {
    var t := Strings.Lower(text);
    if CategorizeSuggestion(text) != General {
      var k :| (k in ReadabilityKeywords || k in PerformanceKeywords || k in SecurityKeywords || k in DesignKeywords)
               && Strings.Contains(t, k);
      assert k in AllKeywords;
    }
  }

  /** The empty suggestion falls into `General`: no keyword is empty. */
  lemma EmptyTextIsGeneral()
    ensures CategorizeSuggestion("") == General
  {
    forall k | k in AllKeywords ensures !Strings.Contains(Strings.Lower(""), k) {
      assert |k| > 0;
    }
    GeneralIffNoKeyword("");
  }

  /** The classification ignores letter case. */
  lemma CategorizeIgnoresCase(text: string)
    ensures CategorizeSuggestion(text) == CategorizeSuggestion(Strings.Lower(text))
  {
    Strings.LowerIdempotent(text);
  }

  datatype Source = RuleBased | Ai

  /** One entry of `all_suggestions`. `fix` is present only on entries built from
      the reply's `suggestions` list; `severity` is whatever the reply carried. */
  datatype Suggestion = Suggestion(source: Source, text: string, category: Category, severity: Json, fix: Option<Json>)

  /** The entry for one rule-based issue. */
  function RuleBasedEntry(issue: string): Suggestion {
    Suggestion(RuleBased, issue, CategorizeSuggestion(issue), JStr("medium"), None)
  }

  function RuleBasedEntries(issues: seq<string>): seq<Suggestion> {
    seq(|issues|, i requires 0 <= i < |issues| => RuleBasedEntry(issues[i]))
  }

  /** An element of the reply's `suggestions` list can be turned into an entry: it
      is a dict (else `.get` raises) whose `explanation`, when present, is a string
      (else `.lower()` raises). */
  predicate AiItemOk(s: Json) {
    s.JObj? && Get(s.fields, "explanation", JStr("")).JStr?
  }

  function AiItemEntry(s: Json): Suggestion
    requires AiItemOk(s)
  {
    var text := Get(s.fields, "explanation", JStr("")).s;
    Suggestion(Ai, text, CategorizeSuggestion(text), Get(s.fields, "severity", JStr("low")),
               Some(Get(s.fields, "fix", JStr(""))))
  }

  /** The AI entries of a reply, or `None` when building them raises: the reply is
      not a dict, its `suggestions` value cannot be iterated into dicts, or the
      text to categorise is not a string. */
  function AiEntries(reply: Json): Option<seq<Suggestion>> {
    if !reply.JObj? then None
    else if "suggestions" in reply.fields then
      match Iterate(reply.fields["suggestions"])
      case None => None
      case Some(items) =>
        if forall i :: 0 <= i < |items| ==> AiItemOk(items[i])
        then Some(seq(|items|, i requires 0 <= i < |items| && AiItemOk(items[i]) => AiItemEntry(items[i])))
        else None
    else
      var f := Get(reply.fields, "feedback", JStr(""));
      if f.JStr? then Some([Suggestion(Ai, f.s, CategorizeSuggestion(f.s), JStr("low"), None)])
      else None
  }

  /** `all_suggestions`: the rule-based entries, then the AI entries. */
  function Merged(issues: seq<string>, reply: Json): Option<seq<Suggestion>> {
    match AiEntries(reply)
    case None => None
    case Some(ai) => Some(RuleBasedEntries(issues) + ai)
  }

  /** The merge starts with one rule-based entry per issue, in order, with severity
      "medium" and the issue's own category. */
  lemma MergedRuleBasedPrefix(issues: seq<string>, reply: Json)
    requires Merged(issues, reply).Some?
    ensures var all := Merged(issues, reply).value;
      && |all| >= |issues|
      && forall i :: 0 <= i < |issues| ==>
           all[i].source == RuleBased && all[i].text == issues[i] && all[i].severity == JStr("medium")
           && all[i].category == CategorizeSuggestion(issues[i]) && all[i].fix == None
  {
  }

  /** A reply with a `suggestions` list of well-formed dicts contributes one entry per
      element, in order, with "" and "low" as the defaults for a missing
      explanation, fix and severity. */
  lemma SuggestionsListEntries(issues: seq<string>, reply: Json, items: seq<Json>)
    requires reply.JObj? && "suggestions" in reply.fields && reply.fields["suggestions"] == JArr(items)
    requires forall i :: 0 <= i < |items| ==> AiItemOk(items[i])
    ensures var all := Merged(issues, reply);
      && all.Some? && |all.value| == |issues| + |items|
      && forall i :: 0 <= i < |items| ==>
           var e := all.value[|issues| + i]; var m := items[i].fields;
           && e.source == Ai
           && JStr(e.text) == Get(m, "explanation", JStr(""))
           && e.fix == Some(Get(m, "fix", JStr("")))
           && e.severity == Get(m, "severity", JStr("low"))
           && e.category == CategorizeSuggestion(e.text)
  {
  }

  /** A dict reply without `suggestions` contributes exactly one entry, built from its
      `feedback` text with severity "low". */
  lemma FeedbackOnlyEntry(issues: seq<string>, reply: Json, text: string)
    requires reply.JObj? && "suggestions" !in reply.fields
    requires Get(reply.fields, "feedback", JStr("")) == JStr(text)
    ensures Merged(issues, reply) ==
      Some(RuleBasedEntries(issues) + [Suggestion(Ai, text, CategorizeSuggestion(text), JStr("low"), None)])
  {
  }

  /** The suggestions of category `c`, in merge order. */
  function OfCategory(all: seq<Suggestion>, c: Category): seq<Suggestion> {
    if all == [] then []
    else OfCategory(all[..|all| - 1], c) + (if all[|all| - 1].category == c then [all[|all| - 1]] else [])
  }

  /** Every member of a group has that group's category and comes from the merge. */
  lemma {:induction false} OfCategoryMembers(all: seq<Suggestion>, c: Category)
    ensures forall s :: s in OfCategory(all, c) ==> s.category == c && s in all
  {
    if all != [] {
      OfCategoryMembers(all[..|all| - 1], c);
      assert forall s :: s in all[..|all| - 1] ==> s in all;
    }
  }

  /** A group is non-empty exactly when some suggestion has its category. */
  lemma {:induction false} OfCategoryNonEmpty(all: seq<Suggestion>, c: Category)
    ensures OfCategory(all, c) != [] <==> exists i :: 0 <= i < |all| && all[i].category == c
  {
    if all != [] {
      var n := |all| - 1;
      OfCategoryNonEmpty(all[..n], c);
      if OfCategory(all[..n], c) != [] {
        var i :| 0 <= i < n && all[..n][i].category == c;
        assert all[i].category == c;
      }
      if exists i :: 0 <= i < |all| && all[i].category == c {
        var i :| 0 <= i < |all| && all[i].category == c;
        if i < n { assert all[..n][i].category == c; }
      }
    }
  }

  function GroupSize(grouped: map<Category, seq<Suggestion>>, c: Category): nat {
    if c in grouped then |grouped[c]| else 0
  }

  /** `grouped` maps each category that occurs to its suggestions in merge order,
      and has no other keys. */
  ghost predicate IsGrouping(all: seq<Suggestion>, grouped: map<Category, seq<Suggestion>>) {
    && (forall c :: c in grouped <==> OfCategory(all, c) != [])
    && (forall c :: c in grouped ==> grouped[c] == OfCategory(all, c))
  }

  lemma {:induction false} CategorySizesSum(all: seq<Suggestion>)
    ensures |OfCategory(all, Readability)| + |OfCategory(all, Performance)| + |OfCategory(all, Security)|
          + |OfCategory(all, DesignPatternViolations)| + |OfCategory(all, General)| == |all|
  {
    if all != [] {
      CategorySizesSum(all[..|all| - 1]);
    }
  }

  /** The group sizes add up to the number of merged suggestions, and no group is empty. */
  lemma GroupingPartitions(all: seq<Suggestion>, grouped: map<Category, seq<Suggestion>>)
    requires IsGrouping(all, grouped)
    ensures GroupSize(grouped, Readability) + GroupSize(grouped, Performance) + GroupSize(grouped, Security)
          + GroupSize(grouped, DesignPatternViolations) + GroupSize(grouped, General) == |all|
    ensures forall c :: c in grouped ==> grouped[c] != []
  {
    CategorySizesSum(all);
  }

  /** The grouping loop: `grouped.setdefault(cat, []).append(s)` for each suggestion. */
  method GroupByCategory(all: seq<Suggestion>) returns (grouped: map<Category, seq<Suggestion>>)
    ensures IsGrouping(all, grouped)
  {
    grouped := map[];
    for i := 0 to |all|
      invariant IsGrouping(all[..i], grouped)
    {
      assert all[..i + 1][..i] == all[..i];
      var cat := all[i].category;
      var group := if cat in grouped then grouped[cat] else [];
      grouped := grouped[cat := group + [all[i]]];
    }
    assert all[..|all|] == all;
  }

  /** The merge loops: one append per rule-based issue, then one per AI suggestion
      (or the single feedback entry). `None` when the script raises. */
  method MergeSuggestions(issues: seq<string>, reply: Json) returns (all: Option<seq<Suggestion>>)
    ensures all == Merged(issues, reply)
  {
    var acc: seq<Suggestion> := [];
    for i := 0 to |issues|
      invariant acc == RuleBasedEntries(issues[..i])
    {
      acc := acc + [RuleBasedEntry(issues[i])];
    }
    assert issues[..|issues|] == issues;
    if !reply.JObj? {
      return None;
    }
    if "suggestions" in reply.fields {
      var items := Iterate(reply.fields["suggestions"]);
      if items.None? {
        return None;
      }
      var xs := items.value;
      var ai: seq<Suggestion> := [];
      for j := 0 to |xs|
        invariant forall k :: 0 <= k < j ==> AiItemOk(xs[k])
        invariant ai == seq(j, k requires 0 <= k < j => AiItemEntry(xs[k]))
      {
        if !AiItemOk(xs[j]) {
          assert !(forall k :: 0 <= k < |xs| ==> AiItemOk(xs[k]));
          return None;
        }
        ai := ai + [AiItemEntry(xs[j])];
      }
      var expected := seq(|xs|, i requires 0 <= i < |xs| && AiItemOk(xs[i]) => AiItemEntry(xs[i]));
      assert expected == ai;
      assert AiEntries(reply) == Some(ai);
      all := Some(acc + ai);
    } else {
      var f := Get(reply.fields, "feedback", JStr(""));
      if !f.JStr? {
        return None;
      }
      all := Some(acc + [Suggestion(Ai, f.s, CategorizeSuggestion(f.s), JStr("low"), None)]);
    }
  }

  /** What `analyze_code_with_ai` returns. */
  datatype Analysis = Analysis(summary: string, grouped: map<Category, seq<Suggestion>>)

  /** The issues as handed to `generate_feedback`. */
  function NormalizedIssues(issues: seq<string>): seq<Json> {
    seq(|issues|, i requires 0 <= i < |issues| =>
      JObj(map["text" := JStr(issues[i]), "severity" := JStr("medium")]))
  }

  function Summary(count: nat): string {
    "Analyzed " + Strings.NatToString(count) + " rule-based issues + AI feedback."
  }

  /** `analyze_code_with_ai`: ask for AI feedback on the normalised issues, merge it
      with the rule-based issues and group the result. `None` when it raises. */
  method AnalyzeCodeWithAi(code: string, issues: seq<string>, generate: (string, seq<Json>) -> Option<Json>)
    returns (r: Option<Analysis>)
    ensures var reply := generate(code, NormalizedIssues(issues));
      r.Some? <==> reply.Some? && Merged(issues, reply.value).Some?
    ensures r.Some? ==>
      var all := Merged(issues, generate(code, NormalizedIssues(issues)).value).value;
      r.value.summary == Summary(|issues|) && IsGrouping(all, r.value.grouped)
  {
    var reply := generate(code, NormalizedIssues(issues));
    if reply.None? {
      return None;
    }
    var all := MergeSuggestions(issues, reply.value);
    if all.None? {
      return None;
    }
    var grouped := GroupByCategory(all.value);
    r := Some(Analysis(Summary(|issues|), grouped));
  }
}
