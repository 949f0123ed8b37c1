/**
 * The result filter's rule-based path: a relevance in tenths, a content
 * type and quality labels for each record, and the choice between the
 * rules and the language model.
 */
module IntelligentFilter {
  import opened JsText
  import opened SeqUtils
  import SearchNdl
  import IntentAnalyzer

  datatype ContentType = PrimarySource | AcademicStudy | Biography | HistoricalContext | Tangential | Irrelevant

  datatype ContentAnalysis = ContentAnalysis(
    isDirectlyRelated: bool,
    relevanceReason: string,
    contentType: ContentType,
    qualityIndicators: seq<string>)

  /** A record with its semantic relevance, in tenths (0.7 is 7), and its analysis. */
  datatype FilteredResult = FilteredResult(record: SearchNdl.NdlRecord, semanticRelevance: int, analysis: ContentAnalysis)

  function ContentTypeName(t: ContentType): string {
    match t
    case PrimarySource => "primary-source"
    case AcademicStudy => "academic-study"
    case Biography => "biography"
    case HistoricalContext => "historical-context"
    case Tangential => "tangential"
    case Irrelevant => "irrelevant"
  }

  const ContentTypeNames: seq<string> :=
    ["primary-source", "academic-study", "biography", "historical-context", "tangential", "irrelevant"]

  /** `validateContentType`: a listed name stands for its type; anything else is tangential. */
  function ValidateContentType(name: string): (r: ContentType)
    ensures name in ContentTypeNames ==> ContentTypeName(r) == name
    ensures name !in ContentTypeNames ==> r == Tangential
  {
    if name == "primary-source" then PrimarySource
    else if name == "academic-study" then AcademicStudy
    else if name == "biography" then Biography
    else if name == "historical-context" then HistoricalContext
    else if name == "irrelevant" then Irrelevant
    else Tangential
  }

  /** Every type is read back from its own name. */
  lemma ContentTypeRoundTrip(t: ContentType)
    ensures ValidateContentType(ContentTypeName(t)) == t
  {
  }

  /**
   * `classifyByRules`: on the lower-cased title, primary source, then
   * academic study, then biography, then historical context, else
   * tangential. The rules never say irrelevant.
   */
  function ClassifyByRules(record: SearchNdl.NdlRecord): (r: ContentType)
    ensures var t := ToLower(record.title);
      && (r == PrimarySource <==> IncludesAny(t, ["史料", "記録", "文書"]))
      && (r == AcademicStudy <==> !IncludesAny(t, ["史料", "記録", "文書"]) && IncludesAny(t, ["研究", "論考", "分析"]))
      && (r == Biography <==> !IncludesAny(t, ["史料", "記録", "文書"]) && !IncludesAny(t, ["研究", "論考", "分析"])
                              && IncludesAny(t, ["伝記", "生涯", "人物"]))
      && (r == Tangential <==> !IncludesAny(t, ["史料", "記録", "文書"]) && !IncludesAny(t, ["研究", "論考", "分析"])
                               && !IncludesAny(t, ["伝記", "生涯", "人物"]) && !IncludesAny(t, ["歴史", "時代", "背景"]))
    ensures r != Irrelevant
  {
    var t := ToLower(record.title);
    IncludesAnyOfThree(t, "史料", "記録", "文書");
    IncludesAnyOfThree(t, "研究", "論考", "分析");
    IncludesAnyOfThree(t, "伝記", "生涯", "人物");
    IncludesAnyOfThree(t, "歴史", "時代", "背景");
    if Includes(t, "史料") || Includes(t, "記録") || Includes(t, "文書") then PrimarySource
    else if Includes(t, "研究") || Includes(t, "論考") || Includes(t, "分析") then AcademicStudy
    else if Includes(t, "伝記") || Includes(t, "生涯") || Includes(t, "人物") then Biography
    else if Includes(t, "歴史") || Includes(t, "時代") || Includes(t, "背景") then HistoricalContext
    else Tangential
  }

  const IndicatorLabels: seq<string> := ["学術機関", "研究書", "史料集", "全集・選集", "共同研究"]

  predicate Collaborative(record: SearchNdl.NdlRecord) {
    record.creators.Some? && |record.creators.value| > 1
  }

  /** The tests behind the labels, in label order, on the lower-cased title and the creators. */
  function IndicatorTests(record: SearchNdl.NdlRecord): (r: seq<bool>)
    ensures |r| == |IndicatorLabels|
  {
    var t := ToLower(record.title);
    [Includes(t, "大学"), Includes(t, "研究"), Includes(t, "史料"),
     Includes(t, "全集") || Includes(t, "選集"), Collaborative(record)]
  }

  /** The labels whose flag is set, in order. */
  function Picked(flags: seq<bool>, names: seq<string>): (r: seq<string>)
    requires |flags| == |names|
    ensures |r| <= |names|
    ensures forall x :: x in r ==> x in names
  {
    if |names| == 0 then []
    else (if flags[0] then [names[0]] else []) + Picked(flags[1..], names[1..])
  }

  /**
   * For names that start with pairwise different characters, a name is
   * picked exactly when its flag is set, and at most once.
   */
  lemma {:induction false} PickedExactly(flags: seq<bool>, names: seq<string>)
    requires |flags| == |names|
    requires forall i :: 0 <= i < |names| ==> |names[i]| > 0
    requires forall i, j :: 0 <= i < j < |names| ==> names[i][0] != names[j][0]
    ensures forall i :: 0 <= i < |names| ==> (names[i] in Picked(flags, names) <==> flags[i])
    ensures Distinct(Picked(flags, names))
  {
    if |names| > 0 {
      var rest := Picked(flags[1..], names[1..]);
      PickedExactly(flags[1..], names[1..]);
      assert names[0] !in rest by {
        assert forall k :: 0 <= k < |names[1..]| ==> names[1..][k][0] != names[0][0];
      }
      forall i | 0 <= i < |names| ensures names[i] in Picked(flags, names) <==> flags[i] {
        if i > 0 {
          assert names[i] == names[1..][i - 1] && flags[i] == flags[1..][i - 1];
          assert names[i] != names[0] by { assert names[i][0] != names[0][0]; }
        }
      }
      var r := Picked(flags, names);
      assert Distinct(r) by {
        forall a, b | 0 <= a < b < |r| ensures r[a] != r[b] {
          if flags[0] {
            assert r == [names[0]] + rest;
            if a == 0 { assert r[b] == rest[b - 1]; assert r[b] in rest; } else { assert r[a] == rest[a - 1] && r[b] == rest[b - 1]; }
          } else {
            assert r == rest;
          }
        }
      }
    }
  }

  /**
   * `extractQualityIndicators`: the labels whose test the record passes, in
   * the fixed label order.
   */
  function QualityIndicators(record: SearchNdl.NdlRecord): (r: seq<string>)
    ensures forall x :: x in r ==> x in IndicatorLabels
  {
    Picked(IndicatorTests(record), IndicatorLabels)
  }

  /**
   * Which labels a record gets: each exactly when its test passes, none
   * twice, in the fixed order; `共同研究` exactly for more than one
   * creator.
   */
  lemma QualityIndicatorsExact(record: SearchNdl.NdlRecord)
    ensures var r := QualityIndicators(record);
      var t := ToLower(record.title);
      && ("学術機関" in r <==> Includes(t, "大学"))
      && ("研究書" in r <==> Includes(t, "研究"))
      && ("史料集" in r <==> Includes(t, "史料"))
      && ("全集・選集" in r <==> Includes(t, "全集") || Includes(t, "選集"))
      && ("共同研究" in r <==> Collaborative(record))
      && Distinct(r)
  {
    var names := IndicatorLabels;
    assert names[0][0] == '学' && names[1][0] == '研' && names[2][0] == '史' && names[3][0] == '全' && names[4][0] == '共';
    PickedExactly(IndicatorTests(record), names);
    assert names[0] == "学術機関" && names[1] == "研究書" && names[2] == "史料集" && names[3] == "全集・選集" && names[4] == "共同研究";
  }

  // ----------------------------------------------------------- relevance

  function Clamp(score: int): (r: int)
    ensures 0 <= r <= 10
    ensures 0 <= score <= 10 ==> r == score
  {
    if score < 0 then 0 else if score > 10 then 10 else score
  }

  predicate BiographyBonus(title: string, intent: IntentAnalyzer.SearchIntent) {
    intent.searchScope == IntentAnalyzer.Biography
    && (Includes(title, "伝記") || Includes(title, "生涯") || Includes(title, "伝"))
  }

  /**
   * The rule relevance, in tenths: 5, plus 3 when a target subject is in
   * the lower-cased title, plus 2 for a priority term, minus 4 for an
   * excluded concept, plus 2 for a biography title under a biography
   * scope, clamped to [0, 10].
   */
  function Relevance(record: SearchNdl.NdlRecord, intent: IntentAnalyzer.SearchIntent): int {
    var t := ToLower(record.title);
    Clamp(5
      + (if IncludesAnyLower(t, intent.targetSubjects) then 3 else 0)
      + (if IncludesAnyLower(t, intent.priorityTerms) then 2 else 0)
      - (if IncludesAnyLower(t, intent.excludeConcepts) then 4 else 0)
      + (if BiographyBonus(t, intent) then 2 else 0))
  }

  /**
   * `calculateRuleBasedRelevance`: three scans that each stop at the first
   * term the title includes, then the scope bonus and the clamp.
   */
  method CalculateRuleBasedRelevance(record: SearchNdl.NdlRecord, intent: IntentAnalyzer.SearchIntent)
    returns (score: int)
    ensures score == Relevance(record, intent)
    ensures 0 <= score <= 10
  {
    score := 5;
    var title := ToLower(record.title);
    var subject := ScanIncludesLower(title, intent.targetSubjects);
    if subject {
      score := score + 3;
    }
    var term := ScanIncludesLower(title, intent.priorityTerms);
    if term {
      score := score + 2;
    }
    var excluded := ScanIncludesLower(title, intent.excludeConcepts);
    if excluded {
      score := score - 4;
    }
    if intent.searchScope == IntentAnalyzer.Biography
       && (Includes(title, "伝記") || Includes(title, "生涯") || Includes(title, "伝")) {
      score := score + 2;
    }
    score := Clamp(score);
  }

  /**
   * When a record counts as directly related (relevance above 7 tenths):
   * without an excluded concept, a subject match or a priority term under
   * the biography bonus suffices; with one, all three gains are needed.
   */
  lemma DirectlyRelatedCases(record: SearchNdl.NdlRecord, intent: IntentAnalyzer.SearchIntent)
    ensures var t := ToLower(record.title);
      var s := IncludesAnyLower(t, intent.targetSubjects);
      var p := IncludesAnyLower(t, intent.priorityTerms);
      var e := IncludesAnyLower(t, intent.excludeConcepts);
      var b := BiographyBonus(t, intent);
      Relevance(record, intent) > 7 <==> (!e && (s || (p && b))) || (e && s && p && b)
  {
  }

  /** An excluded concept without any gain leaves the record at 1 tenth, below every threshold above it. */
  lemma ExcludedAlone(record: SearchNdl.NdlRecord, intent: IntentAnalyzer.SearchIntent)
    requires var t := ToLower(record.title);
      IncludesAnyLower(t, intent.excludeConcepts) && !IncludesAnyLower(t, intent.targetSubjects)
      && !IncludesAnyLower(t, intent.priorityTerms) && !BiographyBonus(t, intent)
    ensures Relevance(record, intent) == 1
  {
  }

  const RuleReason: string := "ルールベース判定"

  /** The rule-based analysis of one record. */
  function RuleResult(record: SearchNdl.NdlRecord, intent: IntentAnalyzer.SearchIntent): FilteredResult {
    var relevance := Relevance(record, intent);
    FilteredResult(record, relevance,
      ContentAnalysis(relevance > 7, RuleReason, ClassifyByRules(record), QualityIndicators(record)))
  }

  /**
   * `ruleBasedFiltering`: one result per record, in the same order, each
   * carrying its record unchanged.
   */
  function RuleBasedFiltering(results: seq<SearchNdl.NdlRecord>, intent: IntentAnalyzer.SearchIntent)
    : (r: seq<FilteredResult>)
    ensures |r| == |results|
    ensures forall i :: 0 <= i < |r| ==> r[i].record == results[i]
    ensures forall i :: 0 <= i < |r| ==>
      && r[i].semanticRelevance == Relevance(results[i], intent)
      && (r[i].analysis.isDirectlyRelated <==> r[i].semanticRelevance > 7)
      && r[i].analysis.contentType == ClassifyByRules(results[i])
      && r[i].analysis.qualityIndicators == QualityIndicators(results[i])
      && r[i].analysis.relevanceReason == RuleReason
  {
    seq(|results|, i requires 0 <= i < |results| => RuleResult(results[i], intent))
  }

  /**
   * The language-model path, as a whole: given the records and the
   * intent, the filtered and re-ordered results.
   */
  type LlmFilter = (seq<SearchNdl.NdlRecord>, IntentAnalyzer.SearchIntent) -> seq<FilteredResult>

  /**
   * `filterAndAnalyzeResults`: the rules without a model or without
   * records; the model's path otherwise.
   */
  function FilterAndAnalyzeResults(results: seq<SearchNdl.NdlRecord>, intent: IntentAnalyzer.SearchIntent,
                                   llm: Option<LlmFilter>): (r: seq<FilteredResult>)
    ensures llm.None? || |results| == 0 ==> r == RuleBasedFiltering(results, intent)
    ensures llm.Some? && |results| > 0 ==> r == llm.value(results, intent)
    ensures |results| == 0 ==> r == []
  {
    if llm.None? || |results| == 0 then RuleBasedFiltering(results, intent)
    else llm.value(results, intent)
  }
}
