/**
 * The `ndl_search_by_description` tool: a query on the `description` index
 * (narrowed by a title keyword when one is given) and the ranking of its
 * records by the words their titles carry.
 */
module SearchByDescription {
  import opened JsText
  import opened SeqUtils
  import SearchNdl
  import ToolRecords
  import NdlConnector
  import QueryValidator

  /** The tool's arguments; None for an omitted one. */
  datatype DescriptionArgs = DescriptionArgs(
    description: string,
    titleKeyword: Option<string>,
    maxRecords: Option<int>,
    publishToMcp: Option<bool>,
    outputFormat: Option<string>)

  function KeywordOf(args: DescriptionArgs): string {
    if args.titleKeyword.Some? then args.titleKeyword.value else ""
  }

  /** The CQL: `description="D"`, and `AND title="<trimmed keyword>"` when that is not blank. */
  function BuildCql(description: string, keyword: string): (r: string)
    ensures Trim(keyword) == "" ==> r == "description=\"" + description + "\""
    ensures Trim(keyword) != "" ==> r == "description=\"" + description + "\" AND title=\"" + Trim(keyword) + "\""
  {
    if Trim(keyword) != "" then "description=\"" + description + "\" AND title=\"" + Trim(keyword) + "\""
    else "description=\"" + description + "\""
  }

  /** Surrounding white space of the keyword never reaches the query. */
  lemma CqlIgnoresSurroundingSpace(description: string, keyword: string)
    ensures BuildCql(description, keyword) == BuildCql(description, Trim(keyword))
  {
    TrimIdempotent(keyword);
  }

  /**
   * The comparator's score of one record: 10 for the keyword (when one is
   * given), 5 for the description words, 3 for a study, 2 for a collected
   * works. Titles and terms are compared lower-cased.
   */
  function DescriptionScore(rec: SearchNdl.NdlRecord, description: string, keyword: string): (r: int)
    ensures 0 <= r <= 20
    ensures (keyword != "" && Includes(ToLower(rec.title), ToLower(keyword))
             && Includes(ToLower(rec.title), ToLower(description))) ==> r >= 15
    ensures !(keyword != "" && Includes(ToLower(rec.title), ToLower(keyword))) ==> r <= 10
  {
    var t := ToLower(rec.title);
    (if keyword != "" && Includes(t, ToLower(keyword)) then 10 else 0)
    + (if Includes(t, ToLower(description)) then 5 else 0)
    + (if Includes(t, "研究") || Includes(t, "論文") || Includes(t, "分析") then 3 else 0)
    + (if Includes(t, "全集") || Includes(t, "選集") || Includes(t, "大系") then 2 else 0)
  }

  function DescriptionKey(description: string, keyword: string): SearchNdl.NdlRecord -> int {
    (rec: SearchNdl.NdlRecord) => DescriptionScore(rec, description, keyword)
  }

  /** `sortByDescriptionRelevance`: the caller's array, sorted in place by descending score. */
  method SortByDescriptionRelevance(a: array<SearchNdl.NdlRecord>, description: string, keyword: string)
    modifies a
    ensures a[..] == SortDesc(old(a[..]), DescriptionKey(description, keyword))
  {
    SortDescInPlace(a, DescriptionKey(description, keyword));
  }

  /**
   * After the sort, every record whose title holds both the keyword and the
   * description words comes before every record whose title lacks the
   * keyword.
   */
  lemma FullMatchesBeforeOthers(records: seq<SearchNdl.NdlRecord>, description: string, keyword: string, i: nat, j: nat)
    requires keyword != ""
    requires i < j < |SortDesc(records, DescriptionKey(description, keyword))|
    requires var s := SortDesc(records, DescriptionKey(description, keyword));
      Includes(ToLower(s[j].title), ToLower(keyword)) && Includes(ToLower(s[j].title), ToLower(description))
    ensures var s := SortDesc(records, DescriptionKey(description, keyword));
      Includes(ToLower(s[i].title), ToLower(keyword))
  {
    var key := DescriptionKey(description, keyword);
    var s := SortDesc(records, key);
    SortDescSorted(records, key);
    assert key(s[i]) >= key(s[j]);
  }

  const ErrorPrefix: string := "Description search failed: "

  function DescriptionSpec(args: DescriptionArgs, w: ToolRecords.World)
    : (Result<ToolRecords.ToolResult, string>, seq<NdlConnector.Event>, seq<ToolRecords.Publisher.Event<ToolRecords.PublishRecord>>)
  {
    ToolRecords.RunSpec(BuildCql(args.description, KeywordOf(args)),
      if args.maxRecords.Some? then args.maxRecords.value else 20,
      DescriptionKey(args.description, KeywordOf(args)),
      ToolRecords.Converter(w.publish, true),
      if args.publishToMcp.Some? then args.publishToMcp.value else true,
      args.outputFormat, ErrorPrefix, w)
  }

  /** `handleSearchByDescription`. */
  method HandleSearchByDescription(args: DescriptionArgs, w: ToolRecords.World)
    returns (result: Result<ToolRecords.ToolResult, string>, trace: seq<NdlConnector.Event>,
             published: seq<ToolRecords.Publisher.Event<ToolRecords.PublishRecord>>)
    ensures (result, trace, published) == DescriptionSpec(args, w)
  {
    var keyword := KeywordOf(args);
    var cql := BuildCql(args.description, keyword);
    result, trace, published := ToolRecords.Run(cql,
      if args.maxRecords.Some? then args.maxRecords.value else 20,
      DescriptionKey(args.description, keyword),
      ToolRecords.Converter(w.publish, true),
      if args.publishToMcp.Some? then args.publishToMcp.value else true,
      args.outputFormat, ErrorPrefix, w);
  }

  /**
   * Every query this tool builds starts with the `description` field, which
   * is not on the validator's whitelist: the validator would refuse it, and
   * the tool sends it without asking.
   */
  lemma QueryOutsideWhitelist(description: string, keyword: string, maxRecords: Option<int>)
    ensures QueryValidator.ValidateQuery(BuildCql(description, keyword), maxRecords).Invalid?
  {
    var cql := BuildCql(description, keyword);
    var head := "description=\"";
    assert |cql| > 12 && forall k :: 0 <= k < 12 ==> cql[k] == head[k] by {
      if Trim(keyword) != "" {
        assert cql == head + description + "\" AND title=\"" + Trim(keyword) + "\"";
      } else {
        assert cql == head + description + "\"";
      }
    }
    forall k | 0 <= k < 11 ensures IsAsciiLetter(cql[k]) {
      assert cql[k] == head[k];
    }
    QueryValidator.FieldRefusedAtStart(cql, 11);
  }

  /** The built query is what reaches the search, with the tool's record count. */
  lemma SearchesBuiltQuery(args: DescriptionArgs, w: ToolRecords.World, i: nat)
    requires i < |DescriptionSpec(args, w).1| && DescriptionSpec(args, w).1[i].Get?
    ensures var q := DescriptionSpec(args, w).1[i].request.params;
      var max := if args.maxRecords.Some? then args.maxRecords.value else 20;
      q.query == BuildCql(args.description, KeywordOf(args)) && q.maximumRecords == (if max == 0 then 20 else max)
  {
    var max := if args.maxRecords.Some? then args.maxRecords.value else 20;
    ToolRecords.RunSearchesCql(BuildCql(args.description, KeywordOf(args)), max,
      DescriptionKey(args.description, KeywordOf(args)),
      ToolRecords.Converter(w.publish, true),
      if args.publishToMcp.Some? then args.publishToMcp.value else true, args.outputFormat, ErrorPrefix, w, i);
  }
}
