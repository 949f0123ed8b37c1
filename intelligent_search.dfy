/**
 * The staged search engine: a plan of queries built from the analysed
 * intent, run in parallel when the plan is short and otherwise one query
 * after another until enough results are in, then consolidated by title
 * and cut to the configured total.
 */
module IntelligentSearch {
  import opened JsText
  import opened SeqUtils
  import SearchNdl
  import IntentAnalyzer
  import IntelligentFilter
  import ResultScoring

  type FilteredResult = IntelligentFilter.FilteredResult

  /** The engine's configuration; the semantic threshold is in tenths (0.4 is 4). */
  datatype Config = Config(
    maxResultsPerQuery: int,
    maxTotalResults: int,
    enableParallelSearch: bool,
    semanticThreshold: int,
    timeoutMs: int)

  const DefaultConfig: Config := Config(10, 20, true, 4, 30000)

  datatype SearchQuery = SearchQuery(stage: string, strategy: string, query: string)

  /** One executed query and its filtered results (the execution time is not modelled). */
  datatype StageResult = StageResult(stage: string, strategy: string, query: string, results: seq<FilteredResult>)

  /** The language model as the engine meets it: its reply to the intent prompt and its filtering. */
  datatype LlmClient = LlmClient(intentReply: IntentAnalyzer.LlmReply, filter: IntelligentFilter.LlmFilter)

  /**
   * The engine's surroundings: the optional model, and the search, which
   * for a query and a record count gives the records or None when it throws.
   */
  datatype World = World(
    llm: Option<LlmClient>,
    fetch: (string, int) -> Option<seq<SearchNdl.NdlRecord>>)

  function IntentReply(w: World): IntentAnalyzer.LlmReply {
    if w.llm.Some? then w.llm.value.intentReply else IntentAnalyzer.NoClient
  }

  function FilterOf(w: World): Option<IntelligentFilter.LlmFilter> {
    if w.llm.Some? then Some(w.llm.value.filter) else None
  }

  // ------------------------------------------------------------- the plan

  /** `intent.targetSubjects[0] || intent.originalQuery.split(' ')[0]`. */
  function MainSubject(intent: IntentAnalyzer.SearchIntent): string {
    if |intent.targetSubjects| > 0 && intent.targetSubjects[0] != "" then intent.targetSubjects[0]
    else SplitOn(intent.originalQuery, ' ')[0]
  }

  /** A temporal context that JavaScript treats as true: present and not empty. */
  predicate HasTemporalContext(intent: IntentAnalyzer.SearchIntent) {
    intent.temporalContext.Some? && intent.temporalContext.value != ""
  }

  function SubjectQuery(subject: string): SearchQuery {
    SearchQuery("primary-subject", "subject-direct", "subject=\"" + subject + "\"")
  }

  function PriorityQuery(term: string): SearchQuery {
    SearchQuery("priority-terms", "title-priority", "title=\"" + term + "\"")
  }

  function ScopeQuery(strategy: string, query: string): SearchQuery {
    SearchQuery("scope-specific", strategy, query)
  }

  /** `generateScopeSpecificQueries`: the queries the scope adds. */
  function ScopeQueries(intent: IntentAnalyzer.SearchIntent): (r: seq<SearchQuery>)
    ensures intent.searchScope == IntentAnalyzer.Biography ==> |r| == 2
    ensures intent.searchScope == IntentAnalyzer.AcademicResearch ==> |r| == 2
    ensures intent.searchScope == IntentAnalyzer.PrimarySources ==> |r| == 1
    ensures intent.searchScope == IntentAnalyzer.HistoricalContext ==> |r| == (if HasTemporalContext(intent) then 2 else 1)
    ensures intent.searchScope == IntentAnalyzer.General ==> r == []
    ensures forall i :: 0 <= i < |r| ==> r[i].stage == "scope-specific"
  {
    var m := MainSubject(intent);
    match intent.searchScope
    case Biography =>
      [ScopeQuery("biography-focus", "title=\"" + m + "\" AND description=\"伝記\""),
       ScopeQuery("biography-focus", "title=\"" + m + "\" AND description=\"生涯\"")]
    case AcademicResearch =>
      [ScopeQuery("academic-focus", "title=\"" + m + "\" AND description=\"研究\""),
       ScopeQuery("academic-focus", "ndc=\"210\" AND title=\"" + m + "\"")]
    case PrimarySources =>
      [ScopeQuery("sources-focus", "title=\"" + m + "\" AND description=\"史料\"")]
    case HistoricalContext =>
      [ScopeQuery("historical-focus", "title=\"" + m + "\" AND description=\"歴史\"")]
      + (if HasTemporalContext(intent)
         then [ScopeQuery("historical-focus", "subject=\"" + intent.temporalContext.value + "\"")] else [])
    case General => []
  }

  function TemporalQuery(subject: string, context: string): SearchQuery {
    SearchQuery("temporal-context", "subject-temporal", "subject=\"" + subject + "\" AND subject=\"" + context + "\"")
  }

  function TemporalQueries(intent: IntentAnalyzer.SearchIntent): seq<SearchQuery> {
    if HasTemporalContext(intent) && |intent.targetSubjects| > 0 then
      [TemporalQuery(intent.targetSubjects[0], intent.temporalContext.value)]
    else []
  }

  function FallbackQuery(intent: IntentAnalyzer.SearchIntent): SearchQuery {
    SearchQuery("fallback", "title-fallback", "title=\"" + MainSubject(intent) + "\"")
  }

  /** What follows the subject and priority queries: scope, temporal, fallback. */
  function PlanTail(intent: IntentAnalyzer.SearchIntent): seq<SearchQuery> {
    ScopeQueries(intent) + TemporalQueries(intent) + [FallbackQuery(intent)]
  }

  /** The plan `generateSearchQueries` builds, stage by stage. */
  function QueryPlan(intent: IntentAnalyzer.SearchIntent): seq<SearchQuery> {
    Each(Take(intent.targetSubjects, 2), SubjectQuery)
    + Each(Take(intent.priorityTerms, 3), PriorityQuery)
    + PlanTail(intent)
  }

  /** `generateSearchQueries`: the two capped loops, the scope queries, the temporal query, the fallback. */
  method GenerateSearchQueries(intent: IntentAnalyzer.SearchIntent) returns (queries: seq<SearchQuery>)
    ensures queries == QueryPlan(intent)
  {
    queries := AppendEach([], Take(intent.targetSubjects, 2), SubjectQuery);
    queries := AppendEach(queries, Take(intent.priorityTerms, 3), PriorityQuery);
    ghost var leads := queries;
    queries := queries + ScopeQueries(intent);
    if HasTemporalContext(intent) && |intent.targetSubjects| > 0 {
      queries := queries + [TemporalQuery(intent.targetSubjects[0], intent.temporalContext.value)];
    }
    assert queries == leads + ScopeQueries(intent) + TemporalQueries(intent);
    queries := queries + [FallbackQuery(intent)];
    assert queries == leads + PlanTail(intent);
  }

  function SubjectCount(intent: IntentAnalyzer.SearchIntent): nat {
    if |intent.targetSubjects| < 2 then |intent.targetSubjects| else 2
  }

  function PriorityCount(intent: IntentAnalyzer.SearchIntent): nat {
    if |intent.priorityTerms| < 3 then |intent.priorityTerms| else 3
  }

  /**
   * The plan's length and its end: at most two subject queries, at most
   * three priority queries, the scope queries, the temporal query only
   * with a temporal context and a subject, and the fallback, always last.
   */
  lemma PlanLength(intent: IntentAnalyzer.SearchIntent)
    ensures |QueryPlan(intent)| == SubjectCount(intent) + PriorityCount(intent) + |ScopeQueries(intent)|
      + (if HasTemporalContext(intent) && |intent.targetSubjects| > 0 then 1 else 0) + 1
    ensures QueryPlan(intent)[|QueryPlan(intent)| - 1] == FallbackQuery(intent)
  {
  }

  /** The plan opens with one query per leading target subject, then one per leading priority term. */
  lemma PlanLeads(intent: IntentAnalyzer.SearchIntent)
    ensures SubjectCount(intent) + PriorityCount(intent) < |QueryPlan(intent)|
    ensures QueryPlan(intent)[..SubjectCount(intent)] == Each(Take(intent.targetSubjects, 2), SubjectQuery)
    ensures QueryPlan(intent)[SubjectCount(intent)..SubjectCount(intent) + PriorityCount(intent)]
         == Each(Take(intent.priorityTerms, 3), PriorityQuery)
  {
    var a := Each(Take(intent.targetSubjects, 2), SubjectQuery);
    var b := Each(Take(intent.priorityTerms, 3), PriorityQuery);
    var plan := QueryPlan(intent);
    assert plan == a + b + PlanTail(intent);
    assert plan[..|a|] == a;
    assert plan[|a|..|a| + |b|] == b;
  }

  /** The fallback query is the plan's only fallback-stage query. */
  lemma {:induction false} FallbackOnlyLast(intent: IntentAnalyzer.SearchIntent)
    ensures forall i :: 0 <= i < |QueryPlan(intent)| - 1 ==> QueryPlan(intent)[i].stage != "fallback"
  {
    var plan := QueryPlan(intent);
    var a := Each(Take(intent.targetSubjects, 2), SubjectQuery);
    var b := Each(Take(intent.priorityTerms, 3), PriorityQuery);
    var c := ScopeQueries(intent);
    var d := TemporalQueries(intent);
    assert PlanTail(intent) == c + d + [FallbackQuery(intent)];
    assert plan == a + b + c + d + [FallbackQuery(intent)];
    forall i | 0 <= i < |plan| - 1 ensures plan[i].stage != "fallback" {
      if i < |a| {
        assert plan[i] == a[i];
      } else if i < |a| + |b| {
        assert plan[i] == b[i - |a|];
      } else if i < |a| + |b| + |c| {
        assert plan[i] == c[i - |a| - |b|];
      } else {
        assert plan[i] == d[i - |a| - |b| - |c|];
      }
    }
  }

  // --------------------------------------------------------- the stages

  /** One query's stage: the search, then the filter; None when the search throws. */
  function RunStage(q: SearchQuery, intent: IntentAnalyzer.SearchIntent, w: World, cfg: Config): (r: Option<StageResult>)
    ensures r.Some? ==> r.value.query == q.query && r.value.stage == q.stage
  {
    var raw := w.fetch(q.query, cfg.maxResultsPerQuery);
    if raw.Some? then
      Some(StageResult(q.stage, q.strategy, q.query,
        IntelligentFilter.FilterAndAnalyzeResults(raw.value, intent, FilterOf(w))))
    else None
  }

  /** The stages, the results of all of them, and the count of model calls. */
  datatype Run = Run(stages: seq<StageResult>, results: seq<FilteredResult>, llmCalls: nat)

  /** The results of the stages, in stage order. */
  function AllResults(stages: seq<StageResult>): seq<FilteredResult>
    decreases |stages|
  {
    if |stages| == 0 then [] else AllResults(stages[..|stages| - 1]) + stages[|stages| - 1].results
  }

  lemma AllResultsSnoc(stages: seq<StageResult>, st: StageResult)
    ensures AllResults(stages + [st]) == AllResults(stages) + st.results
  {
    assert (stages + [st])[..|stages|] == stages;
  }

  /** `executeParallelSearch`: every query has its stage, a failed one with no results. */
  function ParallelStage(q: SearchQuery, intent: IntentAnalyzer.SearchIntent, w: World, cfg: Config): StageResult {
    var st := RunStage(q, intent, w, cfg);
    if st.Some? then st.value else StageResult(q.stage, q.strategy, q.query, [])
  }

  function ParallelSearch(queries: seq<SearchQuery>, intent: IntentAnalyzer.SearchIntent, w: World, cfg: Config): (r: Run)
    ensures |r.stages| == |queries|
    ensures forall i :: 0 <= i < |queries| ==> r.stages[i].query == queries[i].query
    ensures r.results == AllResults(r.stages)
    ensures r.llmCalls == if w.llm.Some? then |queries| else 0
  {
    var stages := seq(|queries|, i requires 0 <= i < |queries| => ParallelStage(queries[i], intent, w, cfg));
    Run(stages, AllResults(stages), if w.llm.Some? then |queries| else 0)
  }

  /** One turn of the sequential loop, once it has decided to run the query. */
  function SequentialStep(q: SearchQuery, acc: Run, intent: IntentAnalyzer.SearchIntent, w: World, cfg: Config): Run {
    var st := RunStage(q, intent, w, cfg);
    if st.Some? then
      Run(acc.stages + [st.value], acc.results + st.value.results,
          acc.llmCalls + (if w.llm.Some? then 1 else 0))
    else acc
  }

  /** The sequential loop from query `i` on, with what has been gathered so far. */
  function SequentialFrom(queries: seq<SearchQuery>, i: nat, acc: Run,
                          intent: IntentAnalyzer.SearchIntent, w: World, cfg: Config): Run
    requires i <= |queries|
    decreases |queries| - i
  {
    if i == |queries| || |acc.results| >= cfg.maxTotalResults then acc
    else SequentialFrom(queries, i + 1, SequentialStep(queries[i], acc, intent, w, cfg), intent, w, cfg)
  }

  function SequentialSearch(queries: seq<SearchQuery>, intent: IntentAnalyzer.SearchIntent, w: World, cfg: Config): Run {
    SequentialFrom(queries, 0, Run([], [], 0), intent, w, cfg)
  }

  /**
   * `executeSequentialSearch`: before each query, stop once the results
   * reach the total; a query that throws adds neither a stage nor results.
   */
  method ExecuteSequentialSearch(queries: seq<SearchQuery>, intent: IntentAnalyzer.SearchIntent, w: World, cfg: Config)
    returns (run: Run)
    ensures run == SequentialSearch(queries, intent, w, cfg)
  {
    var stages: seq<StageResult> := [];
    var allResults: seq<FilteredResult> := [];
    var llmCalls: nat := 0;
    var i := 0;
    while i < |queries|
      invariant 0 <= i <= |queries|
      invariant SequentialSearch(queries, intent, w, cfg)
             == SequentialFrom(queries, i, Run(stages, allResults, llmCalls), intent, w, cfg)
    {
      if |allResults| >= cfg.maxTotalResults {
        break;
      }
      var q := queries[i];
      var raw := w.fetch(q.query, cfg.maxResultsPerQuery);
      if raw.Some? {
        var filtered := IntelligentFilter.FilterAndAnalyzeResults(raw.value, intent, FilterOf(w));
        if w.llm.Some? {
          llmCalls := llmCalls + 1;
        }
        stages := stages + [StageResult(q.stage, q.strategy, q.query, filtered)];
        allResults := allResults + filtered;
      }
      i := i + 1;
    }
    run := Run(stages, allResults, llmCalls);
  }

  /** Every stage began while the results gathered before it were still below `max`. */
  predicate StartedBelow(stages: seq<StageResult>, max: int) {
    forall j :: 0 <= j < |stages| ==> |AllResults(stages[..j])| < max
  }

  /**
   * What the sequential loop keeps: the results are those of its stages,
   * in order, every stage started below the total, there are no more
   * stages than queries, and the model is called once per stage.
   */
  lemma {:induction false} SequentialKeeps(queries: seq<SearchQuery>, i: nat, acc: Run,
                                           intent: IntentAnalyzer.SearchIntent, w: World, cfg: Config)
    requires i <= |queries|
    requires acc.results == AllResults(acc.stages) && StartedBelow(acc.stages, cfg.maxTotalResults)
    requires |acc.stages| <= i
    requires acc.llmCalls == if w.llm.Some? then |acc.stages| else 0
    ensures var r := SequentialFrom(queries, i, acc, intent, w, cfg);
      && r.results == AllResults(r.stages) && StartedBelow(r.stages, cfg.maxTotalResults)
      && |r.stages| <= |queries|
      && r.llmCalls == if w.llm.Some? then |r.stages| else 0
    decreases |queries| - i
  {
    if i < |queries| && |acc.results| < cfg.maxTotalResults {
      var next := SequentialStep(queries[i], acc, intent, w, cfg);
      var st := RunStage(queries[i], intent, w, cfg);
      if st.Some? {
        AllResultsSnoc(acc.stages, st.value);
        var stages := acc.stages + [st.value];
        forall j | 0 <= j < |stages| ensures |AllResults(stages[..j])| < cfg.maxTotalResults {
          if j < |acc.stages| {
            assert stages[..j] == acc.stages[..j];
          } else {
            assert stages[..j] == acc.stages;
          }
        }
      }
      SequentialKeeps(queries, i + 1, next, intent, w, cfg);
    }
  }

  /** The sequential search, from nothing, keeps those facts. */
  lemma SequentialSearchFacts(queries: seq<SearchQuery>, intent: IntentAnalyzer.SearchIntent, w: World, cfg: Config)
    ensures var r := SequentialSearch(queries, intent, w, cfg);
      && r.results == AllResults(r.stages) && StartedBelow(r.stages, cfg.maxTotalResults)
      && |r.stages| <= |queries|
      && r.llmCalls == if w.llm.Some? then |r.stages| else 0
  {
    SequentialKeeps(queries, 0, Run([], [], 0), intent, w, cfg);
  }

  /** With a total of zero or less, the sequential search runs no query. */
  lemma NothingWantedNothingRun(queries: seq<SearchQuery>, intent: IntentAnalyzer.SearchIntent, w: World, cfg: Config)
    requires cfg.maxTotalResults <= 0
    ensures SequentialSearch(queries, intent, w, cfg) == Run([], [], 0)
  {
  }

  // ------------------------------------------------------ consolidation

  function TitleKey(r: FilteredResult): string {
    ResultScoring.NormalizeTitle(r.record.title)
  }

  function AboveThreshold(threshold: int): FilteredResult -> bool {
    (r: FilteredResult) => r.semanticRelevance >= threshold
  }

  /**
   * `consolidateResults`: the first result per normalised title, those at
   * or above the threshold, ordered by the final score, descending.
   */
  function Consolidated(results: seq<FilteredResult>, cfg: Config, finalScore: FilteredResult -> int): seq<FilteredResult> {
    SortDesc(Filter(DedupBy(results, TitleKey), AboveThreshold(cfg.semanticThreshold)), finalScore)
  }

  method ConsolidateResults(results: seq<FilteredResult>, cfg: Config, finalScore: FilteredResult -> int)
    returns (consolidated: seq<FilteredResult>)
    ensures consolidated == Consolidated(results, cfg, finalScore)
  {
    var unique := DedupByLoop(results, TitleKey);
    var filtered := Filter(unique, AboveThreshold(cfg.semanticThreshold));
    consolidated := SortDesc(filtered, finalScore);
  }

  /**
   * What consolidation gives: results of the input, pairwise distinct by
   * normalised title, each at or above the threshold, ordered by the final
   * score; and every input title at or above the threshold on its first
   * result is represented.
   */
  lemma ConsolidatedFacts(results: seq<FilteredResult>, cfg: Config, finalScore: FilteredResult -> int)
    ensures var c := Consolidated(results, cfg, finalScore);
      && (forall x :: x in c ==> x in results && x.semanticRelevance >= cfg.semanticThreshold)
      && Distinct(Keys(c, TitleKey))
      && SortedDesc(c, finalScore)
      && (forall x :: x in DedupBy(results, TitleKey) && x.semanticRelevance >= cfg.semanticThreshold ==> x in c)
  {
    var u := DedupBy(results, TitleKey);
    var f := Filter(u, AboveThreshold(cfg.semanticThreshold));
    var c := SortDesc(f, finalScore);
    FilterMembers(u, AboveThreshold(cfg.semanticThreshold));
    FilterKeepsDistinctKeys(u, AboveThreshold(cfg.semanticThreshold), TitleKey);
    SortDescPermutation(f, finalScore);
    SortDescKeepsDistinctKeys(f, finalScore, TitleKey);
    SortDescSorted(f, finalScore);
    forall x | x in c ensures x in f { assert x in multiset(c); }
    forall x | x in f ensures x in c { assert x in multiset(f); }
  }

  // ------------------------------------------------------------ the run

  /** `slice(0, n)` of JavaScript, negative `n` counting from the end. */
  function SliceTo<T>(s: seq<T>, n: int): (r: seq<T>)
    ensures r <= s
    ensures 0 <= n ==> |r| == if n < |s| then n else |s|
  {
    if n >= 0 then (if n < |s| then s[..n] else s)
    else if |s| + n > 0 then s[..|s| + n] else []
  }

  datatype IntelligentSearchResult = IntelligentSearchResult(
    originalQuery: string,
    analyzedIntent: IntentAnalyzer.SearchIntent,
    stages: seq<StageResult>,
    finalResults: seq<FilteredResult>,
    totalResults: nat,
    stagesExecuted: nat,
    llmCallsMade: nat,
    semanticFilteringApplied: bool)

  predicate UsesParallel(cfg: Config, queries: seq<SearchQuery>) {
    cfg.enableParallelSearch && |queries| <= 3
  }

  function Searched(queries: seq<SearchQuery>, intent: IntentAnalyzer.SearchIntent, w: World, cfg: Config): Run {
    if UsesParallel(cfg, queries) then ParallelSearch(queries, intent, w, cfg)
    else SequentialSearch(queries, intent, w, cfg)
  }

  function Assemble(query: string, intent: IntentAnalyzer.SearchIntent, run: Run,
                    consolidated: seq<FilteredResult>, w: World, cfg: Config): IntelligentSearchResult {
    IntelligentSearchResult(query, intent, run.stages,
      SliceTo(consolidated, cfg.maxTotalResults), |consolidated|, |run.stages|,
      (if w.llm.Some? then 1 else 0) + (if w.llm.Some? then run.llmCalls else 0),
      w.llm.Some?)
  }

  /** The whole search, as a function of the query and the surroundings. */
  function IntelligentSpec(query: string, w: World, cfg: Config, finalScore: FilteredResult -> int): IntelligentSearchResult {
    var intent := IntentAnalyzer.AnalyzeSearchIntent(query, IntentReply(w));
    var queries := QueryPlan(intent);
    var run := Searched(queries, intent, w, cfg);
    Assemble(query, intent, run, Consolidated(run.results, cfg, finalScore), w, cfg)
  }

  /**
   * `executeIntelligentSearch`. The final score the consolidation sorts by
   * is a parameter.
   */
  method ExecuteIntelligentSearch(query: string, w: World, cfg: Config, finalScore: FilteredResult -> int)
    returns (result: IntelligentSearchResult)
    ensures result == IntelligentSpec(query, w, cfg, finalScore)
  {
    var intent := IntentAnalyzer.AnalyzeSearchIntent(query, IntentReply(w));
    var queries := GenerateSearchQueries(intent);
    var run: Run;
    if cfg.enableParallelSearch && |queries| <= 3 {
      run := ParallelSearch(queries, intent, w, cfg);
    } else {
      run := ExecuteSequentialSearch(queries, intent, w, cfg);
    }
    var consolidated := ConsolidateResults(run.results, cfg, finalScore);
    result := Assemble(query, intent, run, consolidated, w, cfg);
  }

  /**
   * The final results are the consolidated list cut to the total, while
   * the reported total is the uncut count; without a model no call is
   * counted and no semantic filtering is reported.
   */
  lemma FinalResultsTruncated(query: string, w: World, cfg: Config, finalScore: FilteredResult -> int)
    ensures var r := IntelligentSpec(query, w, cfg, finalScore);
      var intent := IntentAnalyzer.AnalyzeSearchIntent(query, IntentReply(w));
      var c := Consolidated(Searched(QueryPlan(intent), intent, w, cfg).results, cfg, finalScore);
      && r.totalResults == |c|
      && r.finalResults <= c
      && (cfg.maxTotalResults >= 0 ==> |r.finalResults| == if cfg.maxTotalResults < |c| then cfg.maxTotalResults else |c|)
      && (w.llm.None? ==> r.llmCallsMade == 0 && !r.semanticFilteringApplied)
      && r.stagesExecuted == |r.stages|
  {
  }

  /**
   * The parallel path runs every planned query and is taken only when it
   * is enabled and the plan has at most three queries; the sequential
   * path otherwise, with its early stop.
   */
  lemma StagesByPath(query: string, w: World, cfg: Config, finalScore: FilteredResult -> int)
    ensures var r := IntelligentSpec(query, w, cfg, finalScore);
      var plan := QueryPlan(IntentAnalyzer.AnalyzeSearchIntent(query, IntentReply(w)));
      && (UsesParallel(cfg, plan) ==> |r.stages| == |plan|)
      && (!UsesParallel(cfg, plan) ==> |r.stages| <= |plan| && StartedBelow(r.stages, cfg.maxTotalResults))
  {
    var intent := IntentAnalyzer.AnalyzeSearchIntent(query, IntentReply(w));
    SequentialSearchFacts(QueryPlan(intent), intent, w, cfg);
  }

  /** Every final result is one the stages returned, with a distinct normalised title and enough relevance. */
  lemma FinalResultsDistinct(query: string, w: World, cfg: Config, finalScore: FilteredResult -> int)
    ensures var r := IntelligentSpec(query, w, cfg, finalScore);
      && Distinct(Keys(r.finalResults, TitleKey))
      && (forall x :: x in r.finalResults ==> x in AllResults(r.stages) && x.semanticRelevance >= cfg.semanticThreshold)
  {
    var intent := IntentAnalyzer.AnalyzeSearchIntent(query, IntentReply(w));
    var run := Searched(QueryPlan(intent), intent, w, cfg);
    SequentialSearchFacts(QueryPlan(intent), intent, w, cfg);
    var c := Consolidated(run.results, cfg, finalScore);
    ConsolidatedFacts(run.results, cfg, finalScore);
    var f := SliceTo(c, cfg.maxTotalResults);
    assert f == c[..|f|];
    forall a, b | 0 <= a < b < |f| ensures Keys(f, TitleKey)[a] != Keys(f, TitleKey)[b] {
      assert Keys(c, TitleKey)[a] != Keys(c, TitleKey)[b];
    }
    forall x | x in f ensures x in c { var k :| 0 <= k < |f| && f[k] == x; assert c[k] == x; }
  }
}
