/**
 * What the search tools hand to the publisher: the flat record each tool's
 * `convertToMCPRecord` builds, and the optional publish step they share,
 * whose failure is logged and otherwise ignored.
 */
module ToolRecords {
  import opened JsText
  import opened SeqUtils
  import SearchNdl
  import XmlMapper
  import Publisher
  import NdlConnector
  import DataFormatter

  /**
   * The record a tool publishes. `retrievedAt` is the ISO time of the
   * conversion; `rawRecord` is the serialised source record, or None where
   * the tool leaves it out.
   */
  datatype PublishRecord = PublishRecord(
    id: string,
    title: string,
    creators: seq<string>,
    pubDate: SearchNdl.DateValue,
    subjects: seq<string>,
    ndlBibId: string,
    provider: string,
    retrievedAt: string,
    rawRecord: Option<string>)

  /**
   * What publishing meets: the endpoint, the outcome of each POST, the
   * clock's ISO time, and `JSON.stringify` of a mapped record.
   */
  datatype PublishEnv = PublishEnv(
    apiUrl: string,
    outcome: (nat, nat) -> Publisher.PostOutcome,
    now: string,
    stringify: XmlMapper.McpRecord -> string)

  /** `typeof date === 'object' ? date._ : date`. */
  function UnderscoreDate(d: SearchNdl.DateValue): (r: SearchNdl.DateValue)
    ensures !r.DateObject?
    ensures d.DateText? || d.NoDate? ==> r == d
    ensures d.DateObject? && d.Underscore().Some? ==> r == SearchNdl.DateText(d.Underscore().value)
    ensures d.DateObject? && d.Underscore().None? ==> r == SearchNdl.NoDate
  {
    match d
    case DateObject(_) => if d.Underscore().Some? then SearchNdl.DateText(d.Underscore().value) else SearchNdl.NoDate
    case _ => d
  }

  /**
   * `convertToMCPRecord` of the title, description and subject tools: the
   * creators or none, the text of the date, no subjects, the id as
   * NDLBibID, provider `NDL`, the conversion time, and the serialised
   * source record where the tool keeps it (the subject tool does not).
   */
  function ConvertToMcpRecord(rec: SearchNdl.NdlRecord, env: PublishEnv, keepRaw: bool): (r: PublishRecord)
    ensures r.id == rec.id && r.ndlBibId == rec.id && r.title == rec.title
    ensures r.creators == (if rec.creators.Some? then rec.creators.value else [])
    ensures r.pubDate == UnderscoreDate(rec.date) && r.subjects == []
    ensures r.provider == "NDL" && r.retrievedAt == env.now
    ensures r.rawRecord.Some? <==> keepRaw
    ensures keepRaw ==> r.rawRecord == Some(env.stringify(rec.raw))
  {
    PublishRecord(rec.id, rec.title, if rec.creators.Some? then rec.creators.value else [],
      UnderscoreDate(rec.date), [], rec.id, "NDL", env.now,
      if keepRaw then Some(env.stringify(rec.raw)) else None)
  }

  /** The conversion as a function value, as the tools hand it to the shared run. */
  function Converter(env: PublishEnv, keepRaw: bool): SearchNdl.NdlRecord -> PublishRecord {
    (rec: SearchNdl.NdlRecord) => ConvertToMcpRecord(rec, env, keepRaw)
  }

  /** The tools publish with the default options. */
  const NoOptions: Publisher.PublishOptions := Publisher.PublishOptions(None, None, None, None)

  /**
   * The publish step: only with `publishToMcp` set and at least one record.
   * What it returns is the publisher's requests and pauses; its result and
   * any error are dropped.
   */
  function PublishIfRequested(publishToMcp: bool, records: seq<PublishRecord>, env: PublishEnv)
    : seq<Publisher.Event<PublishRecord>>
  {
    if publishToMcp && |records| > 0 then Publisher.PublishSpec(records, NoOptions, env.apiUrl, env.outcome).1
    else []
  }

  /**
   * Nothing is sent without the flag or without records; otherwise the
   * first request is the first POST of the first slice of at most fifty
   * records, with the default settings.
   */
  lemma PublishGuard(publishToMcp: bool, records: seq<PublishRecord>, env: PublishEnv)
    ensures !publishToMcp || |records| == 0 ==> PublishIfRequested(publishToMcp, records, env) == []
    ensures publishToMcp && |records| > 0 ==>
      var t := PublishIfRequested(publishToMcp, records, env);
      |t| > 0 && t[0] == Publisher.Post(0, 0, Publisher.RequestFor(env.apiUrl,
                                          records[..Publisher.Min(Publisher.BatchSize, |records|)],
                                          Publisher.SettingsFor(NoOptions)))
  {
    if publishToMcp && |records| > 0 {
      var settings := Publisher.SettingsFor(NoOptions);
      var batches := Publisher.Batches(records);
      assert batches[0] == records[..Publisher.Min(Publisher.BatchSize, |records|)];
      var request := Publisher.RequestFor(env.apiUrl, batches[0], settings);
      var first := Publisher.Attempts(0, request, settings, env.outcome, 0);
      assert |first.1| > 0 && first.1[0] == Publisher.Post(0, 0, request);
    }
  }

  // ---------------------------------------------- search, sort, publish

  /** The result of the `searchBy*` tools: `{count, records, query, formatted_records?}`. */
  datatype ToolResult = ToolResult(count: int, records: seq<SearchNdl.NdlRecord>, query: string, formatted: Option<string>)

  /** The external world one tool call meets. */
  datatype World = World(
    config: NdlConnector.ConnectorConfig,
    outcome: nat -> NdlConnector.HttpOutcome,
    env: XmlMapper.Foreign,
    publish: PublishEnv,
    formatting: DataFormatter.Formatting)

  /** `searchNDL({cql, maximumRecords})`. */
  function SearchInputFor(cql: string, maxRecords: int): SearchNdl.SearchInput {
    SearchNdl.SearchInput(cql, Some(maxRecords), None, None, None, None)
  }

  /**
   * After a successful search: sort the records by descending `key`
   * (stably), publish them converted when asked, and answer with the
   * count, the records and the CQL; beside the answer, the publisher's
   * trace.
   */
  function Finish(cql: string, records: seq<SearchNdl.NdlRecord>, key: SearchNdl.NdlRecord -> int,
                  convert: SearchNdl.NdlRecord -> PublishRecord, publishToMcp: bool,
                  outputFormat: Option<string>, w: World)
    : (ToolResult, seq<Publisher.Event<PublishRecord>>)
  {
    var sorted := SortDesc(records, key);
    var out := DataFormatter.EnhanceToolOutput(DataFormatter.ToolOutput(|sorted|, sorted, None), outputFormat, w.formatting);
    (ToolResult(out.count, out.records, cql, out.formatted),
     PublishIfRequested(publishToMcp, Each(sorted, convert), w.publish))
  }

  /**
   * The body the title and description tools share: the answer (or the
   * message thrown, behind `prefix`), the connector's trace and the
   * publisher's trace.
   */
  function RunSpec(cql: string, maxRecords: int, key: SearchNdl.NdlRecord -> int,
                   convert: SearchNdl.NdlRecord -> PublishRecord, publishToMcp: bool,
                   outputFormat: Option<string>, prefix: string, w: World)
    : (Result<ToolResult, string>, seq<NdlConnector.Event>, seq<Publisher.Event<PublishRecord>>)
  {
    var (found, trace) := SearchNdl.Search(SearchInputFor(cql, maxRecords), w.config, w.outcome, w.env);
    match found
    case Err(e) => (Err(prefix + e), trace, [])
    case Ok(records) =>
      var (out, published) := Finish(cql, records, key, convert, publishToMcp, outputFormat, w);
      (Ok(out), trace, published)
  }

  /** Sorting in place on an array of the records, converting and publishing. */
  method SortAndPublish(cql: string, records: seq<SearchNdl.NdlRecord>, key: SearchNdl.NdlRecord -> int,
                        convert: SearchNdl.NdlRecord -> PublishRecord, publishToMcp: bool,
                        outputFormat: Option<string>, w: World)
    returns (out: ToolResult, published: seq<Publisher.Event<PublishRecord>>)
    ensures (out, published) == Finish(cql, records, key, convert, publishToMcp, outputFormat, w)
  {
    var a := new SearchNdl.NdlRecord[|records|](i requires 0 <= i < |records| => records[i]);
    assert a[..] == records;
    SortDescInPlace(a, key);
    var sorted := a[..];
    var mcpRecords := AppendEach([], sorted, convert);
    assert mcpRecords == Each(sorted, convert);
    published := PublishIfRequested(publishToMcp, mcpRecords, w.publish);
    var o := DataFormatter.EnhanceToolOutput(DataFormatter.ToolOutput(|sorted|, sorted, None), outputFormat, w.formatting);
    out := ToolResult(o.count, o.records, cql, o.formatted);
  }

  /** The tool body. */
  method Run(cql: string, maxRecords: int, key: SearchNdl.NdlRecord -> int,
             convert: SearchNdl.NdlRecord -> PublishRecord, publishToMcp: bool,
             outputFormat: Option<string>, prefix: string, w: World)
    returns (result: Result<ToolResult, string>, trace: seq<NdlConnector.Event>,
             published: seq<Publisher.Event<PublishRecord>>)
    ensures (result, trace, published) == RunSpec(cql, maxRecords, key, convert, publishToMcp, outputFormat, prefix, w)
  {
    var searched := SearchNdl.Search(SearchInputFor(cql, maxRecords), w.config, w.outcome, w.env);
    trace := searched.1;
    match searched.0
    case Err(e) =>
      result, published := Err(prefix + e), [];
    case Ok(records) =>
      var out;
      out, published := SortAndPublish(cql, records, key, convert, publishToMcp, outputFormat, w);
      result := Ok(out);
  }

  /**
   * On success: `query` is the CQL, the records are the search's records
   * ordered by descending key (a permutation, equal keys in search order),
   * and `count` is their number.
   */
  lemma RunResult(cql: string, maxRecords: int, key: SearchNdl.NdlRecord -> int,
                  convert: SearchNdl.NdlRecord -> PublishRecord, publishToMcp: bool,
                  outputFormat: Option<string>, prefix: string, w: World)
    requires RunSpec(cql, maxRecords, key, convert, publishToMcp, outputFormat, prefix, w).0.Ok?
    ensures var found := SearchNdl.Search(SearchInputFor(cql, maxRecords), w.config, w.outcome, w.env).0;
      var out := RunSpec(cql, maxRecords, key, convert, publishToMcp, outputFormat, prefix, w).0.value;
      && found.Ok?
      && out.query == cql
      && out.count == |out.records| == |found.value|
      && SortedDesc(out.records, key)
      && multiset(out.records) == multiset(found.value)
      && forall v :: WithKey(out.records, key, v) == WithKey(found.value, key, v)
  {
    var found := SearchNdl.Search(SearchInputFor(cql, maxRecords), w.config, w.outcome, w.env).0;
    SortDescSorted(found.value, key);
    SortDescPermutation(found.value, key);
    forall v ensures WithKey(SortDesc(found.value, key), key, v) == WithKey(found.value, key, v) {
      SortDescStable(found.value, key, v);
    }
  }

  /** A failing publish cannot change the answer: it depends on nothing the publisher meets. */
  lemma RunIgnoresPublishing(cql: string, maxRecords: int, key: SearchNdl.NdlRecord -> int,
                             convert: SearchNdl.NdlRecord -> PublishRecord, publishToMcp: bool,
                             outputFormat: Option<string>, prefix: string, w: World,
                             other: (nat, nat) -> Publisher.PostOutcome, publishAtAll: bool)
    ensures RunSpec(cql, maxRecords, key, convert, publishToMcp, outputFormat, prefix, w).0
         == RunSpec(cql, maxRecords, key, convert, publishAtAll, outputFormat, prefix,
                    w.(publish := w.publish.(outcome := other))).0
  {
  }

  /** The search is asked for the CQL as built, unvalidated, with the tool's record count. */
  lemma RunSearchesCql(cql: string, maxRecords: int, key: SearchNdl.NdlRecord -> int,
                       convert: SearchNdl.NdlRecord -> PublishRecord, publishToMcp: bool,
                       outputFormat: Option<string>, prefix: string, w: World, i: nat)
    requires i < |RunSpec(cql, maxRecords, key, convert, publishToMcp, outputFormat, prefix, w).1|
    requires RunSpec(cql, maxRecords, key, convert, publishToMcp, outputFormat, prefix, w).1[i].Get?
    ensures var q := RunSpec(cql, maxRecords, key, convert, publishToMcp, outputFormat, prefix, w).1[i].request.params;
      q.query == cql && q.maximumRecords == (if maxRecords == 0 then 20 else maxRecords)
  {
    SearchNdl.ForwardsQueryAndCount(SearchInputFor(cql, maxRecords), w.config, w.outcome, w.env, i);
  }
}
