/**
 * The `ndl_sru_search` tool: the caller's own CQL, validated first and then
 * sent through the search adapter, with an optional rendered listing.
 */
module SruSearch {
  import opened JsText
  import QueryValidator
  import SearchNdl
  import NdlConnector
  import XmlMapper
  import DataFormatter

  /** The tool's arguments; a number-valued property is `Some`. */
  datatype SruArgs = SruArgs(
    cql: string,
    maximumRecords: Option<int>,
    maxRecords: Option<int>,
    startRecord: Option<int>,
    format: Option<string>,
    outputFormat: Option<string>)

  /** `maximumRecords ?? maxRecords`. */
  function RequestedCount(args: SruArgs): (r: Option<int>)
    ensures args.maximumRecords.Some? ==> r == args.maximumRecords
    ensures args.maximumRecords.None? ==> r == args.maxRecords
  {
    if args.maximumRecords.Some? then args.maximumRecords else args.maxRecords
  }

  /** The parameters handed to the adapter: start record 1 and schema `dcndl` by default. */
  function SearchParams(args: SruArgs): (r: SearchNdl.SearchInput)
    ensures r.cql == args.cql && r.maximumRecords == RequestedCount(args) && r.maxRecords.None?
    ensures r.startRecord == Some(if args.startRecord.Some? then args.startRecord.value else 1)
    ensures r.recordSchema == Some(if args.format.Some? then args.format.value else "dcndl")
  {
    SearchNdl.SearchInput(
      args.cql,
      RequestedCount(args),
      None,
      Some(if args.startRecord.Some? then args.startRecord.value else 1),
      Some(if args.format.Some? then args.format.value else "dcndl"),
      None)
  }

  /** The count the validator sees: `params.maximumRecords || 20`. */
  function ValidationCount(args: SruArgs): int {
    var m := RequestedCount(args);
    if m.None? || m.value == 0 then 20 else m.value
  }

  const ErrorPrefix: string := "SRU search failed: "

  /**
   * `handleSruSearch`: the tool's output or the message it throws, and the
   * requests and pauses the connector made.
   */
  function HandleSruSearch(args: SruArgs, config: NdlConnector.ConnectorConfig,
                           outcome: nat -> NdlConnector.HttpOutcome, env: XmlMapper.Foreign,
                           f: DataFormatter.Formatting)
    : (Result<DataFormatter.ToolOutput, string>, seq<NdlConnector.Event>)
  {
    match QueryValidator.ValidateQuery(args.cql, Some(ValidationCount(args)))
    case Invalid(e) => (Err(ErrorPrefix + "CQL validation failed: " + e.message), [])
    case Valid(_, _) =>
      var (found, trace) := SearchNdl.Search(SearchParams(args), config, outcome, env);
      match found
      case Err(message) => (Err(ErrorPrefix + message), trace)
      case Ok(records) =>
        (Ok(DataFormatter.EnhanceToolOutput(DataFormatter.ToolOutput(|records|, records, None), args.outputFormat, f)),
         trace)
  }

  /**
   * Every failure is reported under the tool's prefix; a success counts its
   * records, and carries no listing unless one was asked for.
   */
  lemma OutputShape(args: SruArgs, config: NdlConnector.ConnectorConfig,
                    outcome: nat -> NdlConnector.HttpOutcome, env: XmlMapper.Foreign,
                    f: DataFormatter.Formatting)
    ensures var r := HandleSruSearch(args, config, outcome, env, f);
      (r.0.Ok? ==> r.0.value.count == |r.0.value.records|)
      && (r.0.Err? ==> StartsWith(r.0.error, ErrorPrefix))
      && (args.outputFormat.None? && r.0.Ok? ==> r.0.value.formatted.None?)
  {
    var r := HandleSruSearch(args, config, outcome, env, f);
    if r.0.Err? {
      var v := QueryValidator.ValidateQuery(args.cql, Some(ValidationCount(args)));
      var rest := if v.Invalid? then "CQL validation failed: " + v.error.message
                  else SearchNdl.Search(SearchParams(args), config, outcome, env).0.error;
      assert r.0.error == ErrorPrefix + rest;
      StartsWithPrefix(ErrorPrefix, rest);
    }
  }

  /** A query the validator rejects fails with its message and never reaches the network. */
  lemma RejectedQueryNeverSearches(args: SruArgs, config: NdlConnector.ConnectorConfig,
                                   outcome: nat -> NdlConnector.HttpOutcome, env: XmlMapper.Foreign,
                                   f: DataFormatter.Formatting)
    requires QueryValidator.ValidateQuery(args.cql, Some(ValidationCount(args))).Invalid?
    ensures var r := HandleSruSearch(args, config, outcome, env, f);
      r.1 == []
      && r.0 == Err(ErrorPrefix + "CQL validation failed: "
                    + QueryValidator.ValidateQuery(args.cql, Some(ValidationCount(args))).error.message)
  {
  }

  /**
   * An accepted query is searched with the count the caller asked for, not
   * the validator's capped one: every request carries the CQL and
   * `maximumRecords ?? maxRecords`, or 20 when that is absent or zero.
   */
  lemma SearchesWithUncappedCount(args: SruArgs, config: NdlConnector.ConnectorConfig,
                                  outcome: nat -> NdlConnector.HttpOutcome, env: XmlMapper.Foreign,
                                  f: DataFormatter.Formatting, i: nat)
    requires i < |HandleSruSearch(args, config, outcome, env, f).1|
    requires HandleSruSearch(args, config, outcome, env, f).1[i].Get?
    ensures var q := HandleSruSearch(args, config, outcome, env, f).1[i].request.params;
      q.query == args.cql && q.maximumRecords == ValidationCount(args)
  {
    var input := SearchParams(args);
    assert HandleSruSearch(args, config, outcome, env, f).1 == SearchNdl.Search(input, config, outcome, env).1;
    SearchNdl.ForwardsQueryAndCount(input, config, outcome, env, i);
  }

  /** A request for more than 200 records is accepted and forwarded as it is. */
  lemma LargeCountForwarded(args: SruArgs, config: NdlConnector.ConnectorConfig,
                            outcome: nat -> NdlConnector.HttpOutcome, env: XmlMapper.Foreign,
                            f: DataFormatter.Formatting, i: nat)
    requires args.maximumRecords == Some(500)
    requires i < |HandleSruSearch(args, config, outcome, env, f).1|
    requires HandleSruSearch(args, config, outcome, env, f).1[i].Get?
    ensures HandleSruSearch(args, config, outcome, env, f).1[i].request.params.maximumRecords == 500
    ensures QueryValidator.ValidateQuery(args.cql, Some(ValidationCount(args))).Valid?
      ==> QueryValidator.ValidateQuery(args.cql, Some(ValidationCount(args))).maximumRecords == 200
  {
    SearchesWithUncappedCount(args, config, outcome, env, f, i);
  }

  /** On success the records are the adapter's records and `count` is their number. */
  lemma ResultIsAdapterResult(args: SruArgs, config: NdlConnector.ConnectorConfig,
                              outcome: nat -> NdlConnector.HttpOutcome, env: XmlMapper.Foreign,
                              f: DataFormatter.Formatting)
    requires HandleSruSearch(args, config, outcome, env, f).0.Ok?
    ensures QueryValidator.ValidateQuery(args.cql, Some(ValidationCount(args))).Valid?
    ensures var found := SearchNdl.Search(SearchParams(args), config, outcome, env).0;
      var out := HandleSruSearch(args, config, outcome, env, f).0.value;
      found.Ok? && out.records == found.value && out.count == |found.value|
  {
  }
}
