/**
 * The `ndl_search_by_title` tool: a title query (two title clauses joined by
 * AND when an additional title is given), its records ranked by how well
 * their titles match.
 */
module SearchByTitle {
  import opened JsText
  import opened SeqUtils
  import SearchNdl
  import ToolRecords
  import NdlConnector
  import QueryValidator

  /** The tool's arguments; None for an omitted one. */
  datatype TitleArgs = TitleArgs(
    title: string,
    additionalTitle: Option<string>,
    maxRecords: Option<int>,
    publishToMcp: Option<bool>,
    outputFormat: Option<string>)

  function AdditionalOf(args: TitleArgs): string {
    if args.additionalTitle.Some? then args.additionalTitle.value else ""
  }

  /** The CQL: `title="T"`, and `AND title="<trimmed additional>"` when that is not blank. */
  function BuildCql(title: string, additional: string): (r: string)
    ensures Trim(additional) == "" ==> r == "title=\"" + title + "\""
    ensures Trim(additional) != "" ==> r == "title=\"" + title + "\" AND title=\"" + Trim(additional) + "\""
  {
    if Trim(additional) != "" then "title=\"" + title + "\" AND title=\"" + Trim(additional) + "\""
    else "title=\"" + title + "\""
  }

  /** Surrounding white space of the additional title never reaches the query. */
  lemma CqlIgnoresSurroundingSpace(title: string, additional: string)
    ensures BuildCql(title, additional) == BuildCql(title, Trim(additional))
  {
    TrimIdempotent(additional);
  }

  /** `Math.max(0, 50 - length)`, in tenths of a point like the rest of the score. */
  function LengthBonus(t: string): (r: int)
    ensures 0 <= r <= 50
    ensures |t| >= 50 ==> r == 0
    ensures |t| < 50 ==> r == 50 - |t|
  {
    if |t| < 50 then 50 - |t| else 0
  }

  /**
   * The comparator's score of one record, in tenths: 20 for an exact
   * (lower-cased) match, 15 for a prefix match, 10 for containing the
   * additional title, the length bonus, 5 for a collected works, 3 for a
   * study.
   */
  function TitleScore(rec: SearchNdl.NdlRecord, title: string, additional: string): (r: int)
    ensures LengthBonus(ToLower(rec.title)) <= r <= 580
    ensures ToLower(rec.title) == ToLower(title) ==> r >= 350 + LengthBonus(ToLower(rec.title))
    ensures !StartsWith(ToLower(rec.title), ToLower(title)) ==> r <= 230
  {
    var t := ToLower(rec.title);
    var q := ToLower(title);
    (if t == q then 200 else 0)
    + (if StartsWith(t, q) then 150 else 0)
    + (if additional != "" && Includes(t, ToLower(additional)) then 100 else 0)
    + LengthBonus(t)
    + (if Includes(t, "全集") || Includes(t, "選集") then 50 else 0)
    + (if Includes(t, "研究") || Includes(t, "論文") then 30 else 0)
  }

  function TitleKey(title: string, additional: string): SearchNdl.NdlRecord -> int {
    (rec: SearchNdl.NdlRecord) => TitleScore(rec, title, additional)
  }

  /** `sortByTitleRelevance`: the caller's array, sorted in place by descending score. */
  method SortByTitleRelevance(a: array<SearchNdl.NdlRecord>, title: string, additional: string)
    modifies a
    ensures a[..] == SortDesc(old(a[..]), TitleKey(title, additional))
  {
    SortDescInPlace(a, TitleKey(title, additional));
  }

  /**
   * After the sort, every record whose title equals the query (ignoring
   * ASCII case) comes before every record whose title does not even start
   * with it.
   */
  lemma ExactMatchesBeforeOthers(records: seq<SearchNdl.NdlRecord>, title: string, additional: string, i: nat, j: nat)
    requires i < j < |SortDesc(records, TitleKey(title, additional))|
    requires var s := SortDesc(records, TitleKey(title, additional));
      ToLower(s[j].title) == ToLower(title)
    ensures var s := SortDesc(records, TitleKey(title, additional));
      StartsWith(ToLower(s[i].title), ToLower(title))
  {
    var key := TitleKey(title, additional);
    var s := SortDesc(records, key);
    SortDescSorted(records, key);
    assert key(s[i]) >= key(s[j]);
  }

  const ErrorPrefix: string := "Title search failed: "

  function TitleSpec(args: TitleArgs, w: ToolRecords.World)
    : (Result<ToolRecords.ToolResult, string>, seq<NdlConnector.Event>, seq<ToolRecords.Publisher.Event<ToolRecords.PublishRecord>>)
  {
    ToolRecords.RunSpec(BuildCql(args.title, AdditionalOf(args)),
      if args.maxRecords.Some? then args.maxRecords.value else 20,
      TitleKey(args.title, AdditionalOf(args)),
      ToolRecords.Converter(w.publish, true),
      if args.publishToMcp.Some? then args.publishToMcp.value else true,
      args.outputFormat, ErrorPrefix, w)
  }

  /** `handleSearchByTitle`. */
  method HandleSearchByTitle(args: TitleArgs, w: ToolRecords.World)
    returns (result: Result<ToolRecords.ToolResult, string>, trace: seq<NdlConnector.Event>,
             published: seq<ToolRecords.Publisher.Event<ToolRecords.PublishRecord>>)
    ensures (result, trace, published) == TitleSpec(args, w)
  {
    var additional := AdditionalOf(args);
    var cql := BuildCql(args.title, additional);
    result, trace, published := ToolRecords.Run(cql,
      if args.maxRecords.Some? then args.maxRecords.value else 20,
      TitleKey(args.title, additional),
      ToolRecords.Converter(w.publish, true),
      if args.publishToMcp.Some? then args.publishToMcp.value else true,
      args.outputFormat, ErrorPrefix, w);
  }

  /**
   * The built CQL goes to the search as it is, without the validator: a
   * title holding `*`, which the validator refuses, is still searched for.
   */
  lemma SearchesUnvalidatedCql(args: TitleArgs, w: ToolRecords.World, i: nat)
    requires i < |TitleSpec(args, w).1| && TitleSpec(args, w).1[i].Get?
    ensures TitleSpec(args, w).1[i].request.params.query == BuildCql(args.title, AdditionalOf(args))
    ensures '*' in args.title ==>
      QueryValidator.ValidateQuery(TitleSpec(args, w).1[i].request.params.query, None).Invalid?
  {
    var max := if args.maxRecords.Some? then args.maxRecords.value else 20;
    ToolRecords.RunSearchesCql(BuildCql(args.title, AdditionalOf(args)), max,
      TitleKey(args.title, AdditionalOf(args)), ToolRecords.Converter(w.publish, true),
      if args.publishToMcp.Some? then args.publishToMcp.value else true, args.outputFormat, ErrorPrefix, w, i);
    if '*' in args.title {
      WildcardTitleRefused(args.title, AdditionalOf(args));
    }
  }

  /** A title holding `*` makes a query the validator refuses. */
  lemma WildcardTitleRefused(title: string, additional: string)
    requires '*' in title
    ensures QueryValidator.ValidateQuery(BuildCql(title, additional), None).Invalid?
  {
    var cql := BuildCql(title, additional);
    var k :| 0 <= k < |title| && title[k] == '*';
    var head := "title=\"";
    assert cql[7 + k] == '*' by {
      if Trim(additional) != "" {
        assert cql == head + title + "\" AND title=\"" + Trim(additional) + "\"";
      } else {
        assert cql == head + title + "\"";
      }
    }
  }
}
