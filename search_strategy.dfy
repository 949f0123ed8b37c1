/**
 * `AdvancedSearchStrategy`: reads a search intent out of a natural-language
 * query by fixed rules and turns it into a list of CQL candidates, most
 * promising first.
 */
module SearchStrategy {
  import opened JsText
  import opened SeqUtils

  datatype SearchType = Biography | Historical | Academic | General

  datatype SearchIntent = SearchIntent(
    mainSubject: string,
    searchType: SearchType,
    timeContext: Option<string>,
    relatedTerms: seq<string>)

  /** A candidate; `expectedRelevance` is kept in hundredths. */
  datatype CqlCandidate = CqlCandidate(cql: string, priority: int, strategy: string, expectedRelevance: int)

  // ------------------------------------------------------------ vocabulary

  /**
   * The character class the query is split on: white space, the ideographic
   * space, Japanese punctuation, and every character of the particles the
   * class lists (the class matches characters, not words).
   */
  predicate IsSeparator(c: char) {
    IsSpace(c) || c in {'\U{3000}', '、', '。', '，', '．', '！', '？', 'の', 'に', 'を', 'が', 'は', 'で', 'と',
                        'か', 'ら', 'ま', 'つ', 'い', 'て', '関', 'し'}
  }

  const NoiseWords: seq<string> :=
    ["書籍", "本", "資料", "文献", "探して", "検索", "調べ", "について", "関して", "研究", "論文", "記事", "情報"]

  /** The dictionary of special terms. */
  const SpecialTerms: map<string, seq<string>> := map[
    "聖徳太子" := ["太子伝説", "厩戸皇子", "上宮太子", "聖徳太子伝暦"],
    "飛鳥時代" := ["推古朝", "蘇我氏", "物部氏"],
    "仏教伝来" := ["百済", "蘇我馬子", "物部守屋"],
    "古代史" := ["記紀", "日本書紀", "古事記"]]

  const DefaultSubject: string := "日本"

  // ------------------------------------------------------- intent analysis

  predicate IsSubjectWord(w: string) {
    |w| > 1 && w !in NoiseWords
  }

  /**
   * `extractMainSubject`: the first piece of the split longer than one unit
   * that is not a noise word, or `日本`. (Runs of separators give empty
   * pieces here where the regular expression gives none; empty pieces never
   * pass the length test, so the first word is the same.)
   */
  function ExtractMainSubject(query: string): (r: string)
    ensures var pieces := SplitWhere(query, IsSeparator);
      (forall i :: 0 <= i < |pieces| ==> !IsSubjectWord(pieces[i])) ==> r == DefaultSubject
    ensures var pieces := SplitWhere(query, IsSeparator);
      (exists i :: 0 <= i < |pieces| && IsSubjectWord(pieces[i])) ==>
        exists i :: 0 <= i < |pieces| && pieces[i] == r && IsSubjectWord(r)
          && forall j :: 0 <= j < i ==> !IsSubjectWord(pieces[j])
    ensures |r| > 1 && r !in NoiseWords && forall k :: 0 <= k < |r| ==> !IsSeparator(r[k])
  {
    var pieces := SplitWhere(query, IsSeparator);
    var f := FirstWhere(pieces, IsSubjectWord);
    FirstSubjectWord(pieces);
    var r := if f.Some? then f.value else DefaultSubject;
    assert (forall i :: 0 <= i < |pieces| ==> !IsSubjectWord(pieces[i])) ==> r == DefaultSubject;
    r
  }

  /** The first subject word of the pieces, stated with direct calls of the test. */
  lemma FirstSubjectWord(pieces: seq<string>)
    ensures var f := FirstWhere(pieces, IsSubjectWord);
      && (f.None? <==> forall i :: 0 <= i < |pieces| ==> !IsSubjectWord(pieces[i]))
      && (f.Some? ==> exists i :: 0 <= i < |pieces| && pieces[i] == f.value && IsSubjectWord(pieces[i])
                                  && forall j :: 0 <= j < i ==> !IsSubjectWord(pieces[j]))
      && (f.None? ==> |DefaultSubject| > 1 && DefaultSubject !in NoiseWords
                      && forall k :: 0 <= k < |DefaultSubject| ==> !IsSeparator(DefaultSubject[k]))
  {
  }

  /** `determineSearchType`: biography, then historical, then academic, else general. */
  function DetermineSearchType(query: string): (r: SearchType)
    ensures r == Biography <==> IncludesAny(query, ["生涯", "伝記", "人生"])
    ensures r == Historical <==> !IncludesAny(query, ["生涯", "伝記", "人生"]) && IncludesAny(query, ["歴史", "時代", "背景"])
    ensures r == Academic <==> !IncludesAny(query, ["生涯", "伝記", "人生"]) && !IncludesAny(query, ["歴史", "時代", "背景"])
                                && IncludesAny(query, ["研究", "学術", "論文"])
  {
    IncludesAnyOfThree(query, "生涯", "伝記", "人生");
    IncludesAnyOfThree(query, "歴史", "時代", "背景");
    IncludesAnyOfThree(query, "研究", "学術", "論文");
    if Includes(query, "生涯") || Includes(query, "伝記") || Includes(query, "人生") then Biography
    else if Includes(query, "歴史") || Includes(query, "時代") || Includes(query, "背景") then Historical
    else if Includes(query, "研究") || Includes(query, "学術") || Includes(query, "論文") then Academic
    else General
  }

  /** `expandRelatedTerms`: the dictionary entry, or none. */
  function ExpandRelatedTerms(mainSubject: string): (r: seq<string>)
    ensures mainSubject in SpecialTerms ==> r == SpecialTerms[mainSubject]
    ensures mainSubject !in SpecialTerms ==> r == []
  {
    if mainSubject in SpecialTerms then SpecialTerms[mainSubject] else []
  }

  /** The time patterns in the order they are tried, with the context each names. */
  const TimePatterns: seq<(string, string)> :=
    [("飛鳥時代", "飛鳥時代"), ("古代", "古代史"), ("推古", "推古朝"), ("七世紀", "7世紀")]

  /** `extractTimeContext`: the context of the first pattern the query contains. */
  function ExtractTimeContext(query: string): (r: Option<string>)
    ensures r.Some? <==> exists i :: 0 <= i < |TimePatterns| && Includes(query, TimePatterns[i].0)
    ensures r.Some? ==>
      exists i :: 0 <= i < |TimePatterns| && Includes(query, TimePatterns[i].0)
        && r.value == TimePatterns[i].1 && forall j :: 0 <= j < i ==> !Includes(query, TimePatterns[j].0)
  {
    match FirstWhere(TimePatterns, (p: (string, string)) => Includes(query, p.0))
    case Some(p) => Some(p.1)
    case None => None
  }

  /** `analyzeSearchIntent` on the trimmed query. */
  function AnalyzeSearchIntent(query: string): (r: SearchIntent)
    ensures r.mainSubject == ExtractMainSubject(Trim(query))
    ensures r.searchType == DetermineSearchType(Trim(query))
    ensures r.relatedTerms == ExpandRelatedTerms(r.mainSubject)
    ensures r.timeContext == ExtractTimeContext(Trim(query))
  {
    var q := Trim(query);
    var main := ExtractMainSubject(q);
    SearchIntent(main, DetermineSearchType(q), ExtractTimeContext(q), ExpandRelatedTerms(main))
  }

  // ----------------------------------------------------- candidate phases

  function Quoted(field: string, value: string): string {
    field + "=\"" + value + "\""
  }

  function SubjectRelated(term: string): CqlCandidate {
    CqlCandidate(Quoted("subject", term), 90, "subject-related", 80)
  }

  function LiteratureDirect(term: string): CqlCandidate {
    CqlCandidate(Quoted("title", term), 80, "literature-direct", 90)
  }

  function Primary(intent: SearchIntent): CqlCandidate {
    CqlCandidate(Quoted("subject", intent.mainSubject), 100, "subject-primary", 90)
  }

  /** Phase 1: the subject itself, each related term, and the time context when there is one. */
  function SubjectQueries(intent: SearchIntent): seq<CqlCandidate> {
    [Primary(intent)] + Each(intent.relatedTerms, SubjectRelated)
    + (if intent.timeContext.Some? && intent.timeContext.value != "" then
         [CqlCandidate(Quoted("subject", intent.mainSubject) + " AND " + Quoted("subject", intent.timeContext.value),
                       85, "subject-temporal", 85)]
       else [])
  }

  function DescriptionTerms(t: SearchType): (r: seq<string>)
    ensures |r| == if t == General then 3 else 4
  {
    match t
    case Biography => ["伝記", "生涯", "人生", "事跡"]
    case Historical => ["歴史", "史実", "背景", "時代"]
    case Academic => ["研究", "論考", "分析", "考察"]
    case General => ["概説", "入門", "解説"]
  }

  function SubjectByType(t: SearchType): string {
    match t
    case Biography => "伝記"
    case Historical => "歴史"
    case Academic => "研究"
    case General => "日本史"
  }

  /** Phase 2: the subject in the title with each description term, then with the type's subject. */
  function TitleDescriptionQueries(intent: SearchIntent): seq<CqlCandidate> {
    Each(DescriptionTerms(intent.searchType),
         (term: string) => CqlCandidate(Quoted("title", intent.mainSubject) + " AND " + Quoted("description", term),
                                        70, "title-description", 70))
    + [CqlCandidate(Quoted("title", intent.mainSubject) + " AND " + Quoted("subject", SubjectByType(intent.searchType)),
                    75, "title-subject", 75)]
  }

  /** `getRelevantNDC`: 280 for biographies, 210 always, 210.3 for ancient history. */
  function RelevantNdc(intent: SearchIntent): (r: seq<string>)
    ensures "210" in r
    ensures "280" in r <==> intent.searchType == Biography
    ensures "210.3" in r <==> intent.timeContext == Some("古代史")
    ensures |r| == (if intent.searchType == Biography then 1 else 0) + 1
                   + (if intent.timeContext == Some("古代史") then 1 else 0)
  {
    (if intent.searchType == Biography then ["280"] else [])
    + ["210"]
    + (if intent.timeContext == Some("古代史") then ["210.3"] else [])
  }

  /** Phase 3: each NDC class with the subject in the title. */
  function ClassificationQueries(intent: SearchIntent): seq<CqlCandidate> {
    Each(RelevantNdc(intent),
         (ndc: string) => CqlCandidate(Quoted("ndc", ndc) + " AND " + Quoted("title", intent.mainSubject),
                                       60, "ndc-classification", 65))
  }

  /** Phase 4: each related term as a title. */
  function RelatedLiteratureQueries(intent: SearchIntent): seq<CqlCandidate> {
    Each(intent.relatedTerms, LiteratureDirect)
  }

  /** The four phases in order, before sorting. */
  function Phases(intent: SearchIntent): seq<CqlCandidate> {
    SubjectQueries(intent) + TitleDescriptionQueries(intent) + ClassificationQueries(intent)
    + RelatedLiteratureQueries(intent)
  }

  function Priority(c: CqlCandidate): int {
    c.priority
  }

  /** `generateCQLCandidates`: the phases, sorted stably by descending priority. */
  function Candidates(intent: SearchIntent): seq<CqlCandidate> {
    SortDesc(Phases(intent), Priority)
  }

  // ------------------------------------------------- the generator methods

  /** `generateSubjectBasedQueries`. */
  method GenerateSubjectBasedQueries(intent: SearchIntent) returns (queries: seq<CqlCandidate>)
    ensures queries == SubjectQueries(intent)
  {
    queries := [Primary(intent)];
    queries := AppendEach(queries, intent.relatedTerms, SubjectRelated);
    if intent.timeContext.Some? && intent.timeContext.value != "" {
      queries := queries + [CqlCandidate(Quoted("subject", intent.mainSubject) + " AND "
                                         + Quoted("subject", intent.timeContext.value), 85, "subject-temporal", 85)];
    }
  }

  /** `generateTitleDescriptionQueries`. */
  method GenerateTitleDescriptionQueries(intent: SearchIntent) returns (queries: seq<CqlCandidate>)
    ensures queries == TitleDescriptionQueries(intent)
  {
    queries := AppendEach([], DescriptionTerms(intent.searchType),
      (term: string) => CqlCandidate(Quoted("title", intent.mainSubject) + " AND " + Quoted("description", term),
                                     70, "title-description", 70));
    queries := queries + [CqlCandidate(Quoted("title", intent.mainSubject) + " AND "
                                       + Quoted("subject", SubjectByType(intent.searchType)), 75, "title-subject", 75)];
  }

  /** `getRelevantNDC`. */
  method GetRelevantNdc(intent: SearchIntent) returns (codes: seq<string>)
    ensures codes == RelevantNdc(intent)
  {
    codes := [];
    if intent.searchType == Biography {
      codes := codes + ["280"];
    }
    codes := codes + ["210"];
    if intent.timeContext == Some("古代史") {
      codes := codes + ["210.3"];
    }
  }

  /** `generateClassificationQueries`. */
  method GenerateClassificationQueries(intent: SearchIntent) returns (queries: seq<CqlCandidate>)
    ensures queries == ClassificationQueries(intent)
  {
    var codes := GetRelevantNdc(intent);
    queries := AppendEach([], codes,
      (ndc: string) => CqlCandidate(Quoted("ndc", ndc) + " AND " + Quoted("title", intent.mainSubject),
                                    60, "ndc-classification", 65));
  }

  /** `generateRelatedLiteratureQueries`. */
  method GenerateRelatedLiteratureQueries(intent: SearchIntent) returns (queries: seq<CqlCandidate>)
    ensures queries == RelatedLiteratureQueries(intent)
  {
    queries := AppendEach([], intent.relatedTerms, LiteratureDirect);
  }

  /** `generateCQLCandidates`. */
  method GenerateCqlCandidates(intent: SearchIntent) returns (candidates: seq<CqlCandidate>)
    ensures candidates == Candidates(intent)
  {
    var phase1 := GenerateSubjectBasedQueries(intent);
    var phase2 := GenerateTitleDescriptionQueries(intent);
    var phase3 := GenerateClassificationQueries(intent);
    var phase4 := GenerateRelatedLiteratureQueries(intent);
    candidates := phase1 + phase2 + phase3 + phase4;
    candidates := SortDesc(candidates, Priority);
  }

  // ------------------------------------------------------------ properties

  /**
   * The number of candidates: two for the subject and the title-subject
   * pair, two per related term, one for a time context, one per
   * description term and one per NDC class.
   */
  lemma CandidateCount(intent: SearchIntent)
    ensures |Candidates(intent)| == 2 + 2 * |intent.relatedTerms|
      + (if intent.timeContext.Some? && intent.timeContext.value != "" then 1 else 0)
      + |DescriptionTerms(intent.searchType)| + |RelevantNdc(intent)|
  {
  }

  /** The candidates come out by non-increasing priority, and they are the phases' candidates rearranged. */
  lemma CandidatesOrdered(intent: SearchIntent)
    ensures SortedDesc(Candidates(intent), Priority)
    ensures multiset(Candidates(intent)) == multiset(Phases(intent))
  {
    SortDescSorted(Phases(intent), Priority);
    SortDescPermutation(Phases(intent), Priority);
  }

  /** Candidates of equal priority keep the order the phases produced them in. */
  lemma CandidatesStable(intent: SearchIntent, p: int)
    ensures WithKey(Candidates(intent), Priority, p) == WithKey(Phases(intent), Priority, p)
  {
    SortDescStable(Phases(intent), Priority, p);
  }

  /** Only the subject-primary candidate has priority 100; every other one has less. */
  lemma PrimaryIsUniqueTop(intent: SearchIntent)
    ensures Phases(intent)[0] == Primary(intent)
    ensures forall i :: 1 <= i < |Phases(intent)| ==> Phases(intent)[i].priority < 100
  {
    var s1 := SubjectQueries(intent);
    var rest := TitleDescriptionQueries(intent) + ClassificationQueries(intent) + RelatedLiteratureQueries(intent);
    assert Phases(intent) == s1 + rest;
    forall i | 1 <= i < |Phases(intent)| ensures Phases(intent)[i].priority < 100 {
      if i < |s1| {
        assert Phases(intent)[i] == s1[i];
      } else {
        assert Phases(intent)[i] == rest[i - |s1|];
      }
    }
  }

  /** `subject="<main>"` at priority 100 always comes first. */
  lemma PrimaryComesFirst(intent: SearchIntent)
    ensures |Candidates(intent)| > 0 && Candidates(intent)[0] == Primary(intent)
  {
    var ph := Phases(intent);
    var c := Candidates(intent);
    PrimaryIsUniqueTop(intent);
    CandidatesOrdered(intent);
    assert ph[0] in multiset(ph);
    assert ph[0] in multiset(c);
    var k :| 0 <= k < |c| && c[k] == ph[0];
    assert c[0].priority >= c[k].priority == 100;
    assert c[0] in multiset(ph);
    var j :| 0 <= j < |ph| && ph[j] == c[0];
    assert ph[j].priority >= 100;
    assert j == 0;
  }
}
