/**
 * The intent analyzer: a rule-based reading of a query, the parsers that
 * read a language model's reply line by line, and the choice between the
 * two.
 */
module IntentAnalyzer {
  import opened JsText

  datatype SearchScope = Biography | HistoricalContext | AcademicResearch | PrimarySources | General

  datatype Relationship = Direct | Contextual | Comparative

  datatype SearchIntent = SearchIntent(
    originalQuery: string,
    trueIntent: string,
    targetSubjects: seq<string>,
    searchScope: SearchScope,
    temporalContext: Option<string>,
    excludeConcepts: seq<string>,
    priorityTerms: seq<string>,
    relationshipType: Relationship)

  /**
   * What the language model did with the intent prompt: there is no
   * client, the call threw, or it returned candidates, each given by its
   * explanation ("" where the explanation is missing or empty).
   */
  datatype LlmReply = NoClient | Failed | Replied(explanations: seq<string>)

  // ------------------------------------------------------------ the rules

  const ShotokuSubjects: seq<string> := ["聖徳太子", "厩戸皇子", "上宮太子"]
  const AsukaSubjects: seq<string> := ["飛鳥時代", "推古朝", "蘇我氏"]
  const ShotokuSynonyms: seq<string> :=
    ["聖徳太子伝", "上宮聖徳法王帝説", "聖徳太子伝暦", "太子伝説", "聖徳太子憲法", "十七条憲法"]
  const CommonNoiseTerms: seq<string> :=
    ["生誕記念", "記念日", "祭り", "イベント", "フィクション", "漫画", "アニメ", "小説", "現代", "現在"]

  /**
   * `extractMainSubjects`: the three names for 聖徳太子, then the three for
   * 飛鳥時代, each group only when the query names it.
   */
  function ExtractMainSubjects(query: string): (r: seq<string>)
    ensures r == [] <==> !Includes(query, "聖徳太子") && !Includes(query, "飛鳥時代")
    ensures "聖徳太子" in r <==> Includes(query, "聖徳太子")
    ensures "飛鳥時代" in r <==> Includes(query, "飛鳥時代")
    ensures Includes(query, "聖徳太子") ==> |r| >= 3 && r[0] == "聖徳太子"
    ensures forall s :: s in r ==> s in ShotokuSubjects || s in AsukaSubjects
  {
    (if Includes(query, "聖徳太子") then ShotokuSubjects else [])
    + (if Includes(query, "飛鳥時代") then AsukaSubjects else [])
  }

  /** `determineScope`: biography, then historical context, then academic research, then primary sources. */
  function DetermineScope(query: string): (r: SearchScope)
    ensures r == Biography <==> IncludesAny(query, ["生涯", "伝記", "生誕"])
    ensures r == HistoricalContext <==>
      !IncludesAny(query, ["生涯", "伝記", "生誕"]) && IncludesAny(query, ["歴史", "背景", "時代"])
    ensures r == AcademicResearch <==>
      !IncludesAny(query, ["生涯", "伝記", "生誕"]) && !IncludesAny(query, ["歴史", "背景", "時代"])
      && IncludesAny(query, ["研究", "論文", "学術"])
    ensures r == PrimarySources <==>
      !IncludesAny(query, ["生涯", "伝記", "生誕"]) && !IncludesAny(query, ["歴史", "背景", "時代"])
      && !IncludesAny(query, ["研究", "論文", "学術"]) && IncludesAny(query, ["史料", "原典", "文献"])
  {
    IncludesAnyOfThree(query, "生涯", "伝記", "生誕");
    IncludesAnyOfThree(query, "歴史", "背景", "時代");
    IncludesAnyOfThree(query, "研究", "論文", "学術");
    IncludesAnyOfThree(query, "史料", "原典", "文献");
    if Includes(query, "生涯") || Includes(query, "伝記") || Includes(query, "生誕") then Biography
    else if Includes(query, "歴史") || Includes(query, "背景") || Includes(query, "時代") then HistoricalContext
    else if Includes(query, "研究") || Includes(query, "論文") || Includes(query, "学術") then AcademicResearch
    else if Includes(query, "史料") || Includes(query, "原典") || Includes(query, "文献") then PrimarySources
    else General
  }

  /** `expandSynonyms`: the six related titles, only for a query naming 聖徳太子. */
  function ExpandSynonyms(query: string): (r: seq<string>)
    ensures r == [] <==> !Includes(query, "聖徳太子")
    ensures r != [] ==> |r| == 6 && r[0] == "聖徳太子伝" && "十七条憲法" in r
  {
    if Includes(query, "聖徳太子") then
      assert ShotokuSynonyms[5] == "十七条憲法";
      ShotokuSynonyms
    else []
  }

  /**
   * `ruleBasedAnalysis`: the query is its own intent, the subjects, scope
   * and synonyms come from the rules, the noise terms are the fixed ten,
   * and there is no temporal context.
   */
  function RuleBasedAnalysis(query: string): (r: SearchIntent)
    ensures r.originalQuery == query && r.trueIntent == query
    ensures r.relationshipType == Direct && r.temporalContext.None?
    ensures r.excludeConcepts == CommonNoiseTerms && |r.excludeConcepts| == 10
    ensures r.targetSubjects == ExtractMainSubjects(query)
    ensures r.searchScope == DetermineScope(query)
    ensures r.priorityTerms == ExpandSynonyms(query)
  {
    SearchIntent(query, query, ExtractMainSubjects(query), DetermineScope(query), None,
                 CommonNoiseTerms, ExpandSynonyms(query), Direct)
  }

  // ------------------------------------------------- reading the reply

  /** The end of the run of `\s` characters from `j`. */
  function SpacesEnd(s: string, j: nat): (k: nat)
    requires j <= |s|
    ensures j <= k <= |s|
    ensures forall i :: j <= i < k ==> IsSpace(s[i])
    ensures k < |s| ==> !IsSpace(s[k])
    decreases |s| - j
  {
    if j < |s| && IsSpace(s[j]) then SpacesEnd(s, j + 1) else j
  }

  /** The end of the run of characters `.` matches (all but line terminators) from `j`. */
  function LineEnd(s: string, j: nat): (k: nat)
    requires j <= |s|
    ensures j <= k <= |s|
    ensures forall i :: j <= i < k ==> !IsLineTerminator(s[i])
    ensures k < |s| ==> IsLineTerminator(s[k])
    decreases |s| - j
  {
    if j < |s| && !IsLineTerminator(s[j]) then LineEnd(s, j + 1) else j
  }

  /** The end of the run of `\w` characters from `j`. */
  function WordEnd(s: string, j: nat): (k: nat)
    requires j <= |s|
    ensures j <= k <= |s|
    ensures forall i :: j <= i < k ==> IsWordChar(s[i])
    decreases |s| - j
  {
    if j < |s| && IsWordChar(s[j]) then WordEnd(s, j + 1) else j
  }

  /**
   * Where `.+` starts after `\s*` when the greedy `\s*` ran from `j` to `k`
   * and gives characters back one at a time: the last position in
   * `[j, k]` holding a character `.` matches.
   */
  function DotStart(s: string, j: nat, k: nat): (r: Option<nat>)
    requires j <= k <= |s|
    ensures r.Some? ==> j <= r.value <= k && r.value < |s| && !IsLineTerminator(s[r.value])
    decreases k - j
  {
    if k < |s| && !IsLineTerminator(s[k]) then Some(k)
    else if k == j then None
    else DotStart(s, j, k - 1)
  }

  /** What follows the marker in a pattern. */
  datatype Tail =
    | SpacesLine        // `\s*(.+)`
    | UpToColonLine     // `[^:]*:\s*(.+)`
    | SpacesWord        // `\s*(\w+)`

  /** The first `:` at or after `j`. */
  function ColonFrom(s: string, j: nat): (r: Option<nat>)
    requires j <= |s|
    ensures r.Some? ==> j <= r.value < |s| && s[r.value] == ':'
    decreases |s| - j
  {
    if j == |s| then None else if s[j] == ':' then Some(j) else ColonFrom(s, j + 1)
  }

  /** The group the tail captures when it starts matching at `j`, or None when it cannot match there. */
  function TailCapture(s: string, j: nat, t: Tail): (r: Option<string>)
    requires j <= |s|
    ensures r.Some? ==> |r.value| > 0
    ensures r.Some? && t != SpacesWord ==> forall i :: 0 <= i < |r.value| ==> !IsLineTerminator(r.value[i])
    ensures r.Some? && t == SpacesWord ==> forall i :: 0 <= i < |r.value| ==> IsWordChar(r.value[i])
    decreases if t == UpToColonLine then 1 else 0
  {
    match t
    case SpacesLine =>
      var b := DotStart(s, j, SpacesEnd(s, j));
      if b.Some? then Some(s[b.value..LineEnd(s, b.value)]) else None
    case UpToColonLine =>
      var c := ColonFrom(s, j);
      if c.Some? then TailCapture(s, c.value + 1, SpacesLine) else None
    case SpacesWord =>
      var k := SpacesEnd(s, j);
      var e := WordEnd(s, k);
      if e > k then Some(s[k..e]) else None
  }

  predicate MarkerAt(s: string, marker: string, q: nat) {
    q + |marker| <= |s| && s[q..q + |marker|] == marker
  }

  /**
   * `s.match(new RegExp(marker + tail))[1]`: the capture at the leftmost
   * occurrence of the marker from `p` on where the tail matches.
   */
  function CaptureFrom(s: string, marker: string, t: Tail, p: nat): (r: Option<string>)
    requires |marker| > 0
    ensures r.Some? ==> |r.value| > 0
    ensures r.Some? && t != SpacesWord ==> forall i :: 0 <= i < |r.value| ==> !IsLineTerminator(r.value[i])
    ensures r.Some? && t == SpacesWord ==> forall i :: 0 <= i < |r.value| ==> IsWordChar(r.value[i])
    ensures (forall q :: p <= q ==> !MarkerAt(s, marker, q)) ==> r.None?
    decreases |s| - p
  {
    if p + |marker| > |s| then None
    else if MarkerAt(s, marker, p) && TailCapture(s, p + |marker|, t).Some? then
      TailCapture(s, p + |marker|, t)
    else CaptureFrom(s, marker, t, p + 1)
  }

  function Capture(s: string, marker: string, t: Tail): Option<string>
    requires |marker| > 0
  {
    CaptureFrom(s, marker, t, 0)
  }

  /** `part.split(',').map(s => s.trim())`. */
  function TrimmedParts(line: string): (r: seq<string>)
    ensures |r| >= 1
  {
    var parts := SplitOn(line, ',');
    seq(|parts|, i requires 0 <= i < |parts| => Trim(parts[i]))
  }

  /** The list a `marker: a, b, c` line gives, or none without such a line. */
  function ListAfter(response: string, marker: string, t: Tail): (r: seq<string>)
    requires |marker| > 0
    ensures r == [] <==> Capture(response, marker, t).None?
  {
    var m := Capture(response, marker, t);
    if m.Some? then TrimmedParts(m.value) else []
  }

  /** Each element of a parsed list is trimmed and holds no comma. */
  lemma ListItemsTrimmed(response: string, marker: string, t: Tail)
    requires |marker| > 0
    ensures var r := ListAfter(response, marker, t);
      forall i :: 0 <= i < |r| ==> Trim(r[i]) == r[i] && ',' !in r[i]
  {
    var m := Capture(response, marker, t);
    if m.Some? {
      var parts := SplitOn(m.value, ',');
      var r := TrimmedParts(m.value);
      forall i | 0 <= i < |r| ensures Trim(r[i]) == r[i] && ',' !in r[i] {
        TrimIdempotent(parts[i]);
        TrimKeepsAbsent(parts[i], ',');
      }
    }
  }

  lemma TrimKeepsAbsent(s: string, c: char)
    requires c !in s
    ensures c !in Trim(s)
  {
    var a := TrimStart(s);
    assert a == s[|s| - |a|..];
    assert c !in a by {
      forall i | 0 <= i < |a| ensures a[i] != c { assert a[i] == s[|s| - |a| + i]; }
    }
    var b := TrimEnd(a);
    assert b == a[..|b|];
    forall i | 0 <= i < |b| ensures b[i] != c { assert b[i] == a[i]; }
  }

  /** `extractTrueIntent`: the trimmed rest of the `真の意図:` line, or the whole reply. */
  function ExtractTrueIntent(response: string): (r: string)
    ensures Capture(response, "真の意図:", SpacesLine).None? ==> r == response
    ensures Capture(response, "真の意図:", SpacesLine).Some? ==> Trim(r) == r
  {
    var m := Capture(response, "真の意図:", SpacesLine);
    if m.Some? then TrimIdempotent(m.value); Trim(m.value) else response
  }

  function ExtractTargetSubjects(response: string): seq<string> {
    ListAfter(response, "対象人物", UpToColonLine)
  }

  const ValidScopes: seq<string> := ["biography", "historical-context", "academic-research", "primary-sources", "general"]

  function ScopeNamed(name: string): SearchScope {
    if name == "biography" then Biography
    else if name == "historical-context" then HistoricalContext
    else if name == "academic-research" then AcademicResearch
    else if name == "primary-sources" then PrimarySources
    else General
  }

  /** `extractSearchScope`: the word after `検索範囲:` when it names a scope, else general. */
  function ExtractSearchScope(response: string): SearchScope {
    var m := Capture(response, "検索範囲:", SpacesWord);
    if m.Some? && m.value in ValidScopes then ScopeNamed(m.value) else General
  }

  /**
   * `\w` stops at `-`, so the three hyphenated scope names can never be
   * read: the reply's scope is biography or general, and biography exactly
   * when the word read is `biography`.
   */
  lemma ScopeIsBiographyOrGeneral(response: string)
    ensures ExtractSearchScope(response) == Biography || ExtractSearchScope(response) == General
    ensures ExtractSearchScope(response) == Biography <==> Capture(response, "検索範囲:", SpacesWord) == Some("biography")
  {
    var m := Capture(response, "検索範囲:", SpacesWord);
    if m.Some? {
      assert !IsWordChar('-');
      assert "historical-context"[10] == '-' && "academic-research"[8] == '-' && "primary-sources"[7] == '-';
    }
  }

  /** `extractTemporalContext`: the trimmed rest of the `時代背景:` line, if there is one. */
  function ExtractTemporalContext(response: string): (r: Option<string>)
    ensures r.None? <==> Capture(response, "時代背景:", SpacesLine).None?
    ensures r.Some? ==> Trim(r.value) == r.value
  {
    var m := Capture(response, "時代背景:", SpacesLine);
    if m.Some? then TrimIdempotent(m.value); Some(Trim(m.value)) else None
  }

  function ExtractExcludeConcepts(response: string): seq<string> {
    ListAfter(response, "除外概念:", SpacesLine)
  }

  function ExtractPriorityTerms(response: string): seq<string> {
    ListAfter(response, "優先用語:", SpacesLine)
  }

  /** `parseIntentResponse`: each field from its line of the reply; the relationship is always direct. */
  function ParseIntentResponse(query: string, response: string): (r: SearchIntent)
    ensures r.originalQuery == query && r.relationshipType == Direct
    ensures r.searchScope == Biography || r.searchScope == General
    ensures forall i :: 0 <= i < |r.targetSubjects| ==> Trim(r.targetSubjects[i]) == r.targetSubjects[i]
    ensures forall i :: 0 <= i < |r.priorityTerms| ==> Trim(r.priorityTerms[i]) == r.priorityTerms[i]
  {
    ScopeIsBiographyOrGeneral(response);
    ListItemsTrimmed(response, "対象人物", UpToColonLine);
    ListItemsTrimmed(response, "優先用語:", SpacesLine);
    SearchIntent(query, ExtractTrueIntent(response), ExtractTargetSubjects(response),
                 ExtractSearchScope(response), ExtractTemporalContext(response),
                 ExtractExcludeConcepts(response), ExtractPriorityTerms(response), Direct)
  }

  /**
   * `analyzeSearchIntent`: the rules when there is no client, when the call
   * fails, and when it returns no candidate; otherwise the first
   * candidate's explanation, parsed.
   */
  function AnalyzeSearchIntent(query: string, reply: LlmReply): (r: SearchIntent)
    ensures (reply.NoClient? || reply.Failed? || (reply.Replied? && |reply.explanations| == 0))
            ==> r == RuleBasedAnalysis(query)
    ensures reply.Replied? && |reply.explanations| > 0 ==> r == ParseIntentResponse(query, reply.explanations[0])
    ensures r.originalQuery == query && r.relationshipType == Direct
  {
    match reply
    case Replied(es) =>
      if |es| > 0 then ParseIntentResponse(query, es[0]) else RuleBasedAnalysis(query)
    case _ => RuleBasedAnalysis(query)
  }

  /** A reply without the `真の意図:` marker leaves the whole reply as the intent. */
  lemma WholeReplyWithoutLabel(response: string)
    requires !Includes(response, "真の意図:")
    ensures ExtractTrueIntent(response) == response
  {
    forall q: nat ensures !MarkerAt(response, "真の意図:", q) {
      if MarkerAt(response, "真の意図:", q) { IncludesAt(response, "真の意図:", q); }
    }
  }

  lemma {:induction false} IncludesAt(s: string, t: string, q: nat)
    requires q + |t| <= |s| && s[q..q + |t|] == t
    ensures Includes(s, t)
    decreases q
  {
    if q == 0 {
      assert s[..|t|] == t;
    } else {
      assert s[1..][q - 1..q - 1 + |t|] == s[q..q + |t|];
      IncludesAt(s[1..], t, q - 1);
    }
  }
}
