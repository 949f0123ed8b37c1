/**
 * The search adapter the tools call: it folds the three accepted parameter
 * shapes into one, runs the connector, maps the XML and turns each mapped
 * record into the tools' flat record.
 */
module SearchNdl {
  import opened JsText
  import XmlMapper
  import NdlConnector

  /**
   * The parameters as the adapter reads them. A number-valued property is
   * `Some`; anything else (absent or not a number) is `None`.
   */
  datatype SearchInput = SearchInput(
    cql: string,
    maximumRecords: Option<int>,
    maxRecords: Option<int>,
    startRecord: Option<int>,
    recordSchema: Option<string>,
    format: Option<string>)

  datatype NormalizedParams = NormalizedParams(cql: string, maximumRecords: int, startRecord: int, recordSchema: string)

  /** `normalizeParams`. */
  function NormalizeParams(p: SearchInput): (r: NormalizedParams)
    ensures r.cql == p.cql
    // maximumRecords wins over the legacy maxRecords, and 20 is the default
    ensures p.maximumRecords.Some? ==> r.maximumRecords == p.maximumRecords.value
    ensures p.maximumRecords.None? && p.maxRecords.Some? ==> r.maximumRecords == p.maxRecords.value
    ensures p.maximumRecords.None? && p.maxRecords.None? ==> r.maximumRecords == 20
    ensures r.startRecord == (if p.startRecord.Some? then p.startRecord.value else 1)
    ensures p.recordSchema.Some? ==> r.recordSchema == p.recordSchema.value
    ensures p.recordSchema.None? ==> r.recordSchema == (if p.format.Some? then p.format.value else "dcndl")
  {
    NormalizedParams(
      p.cql,
      if p.maximumRecords.Some? then p.maximumRecords.value
      else if p.maxRecords.Some? then p.maxRecords.value
      else 20,
      if p.startRecord.Some? then p.startRecord.value else 1,
      if p.recordSchema.Some? then p.recordSchema.value
      else if p.format.Some? then p.format.value
      else "dcndl")
  }

  /** A publication date as the tools see it: absent, text, or a parsed element or array, kept whole. */
  datatype DateValue = NoDate | DateText(text: string) | DateObject(whole: XmlMapper.Node)
  {
    /** `date._` of an object date, when it is text. */
    function Underscore(): Option<string>
      requires DateObject?
    {
      if whole.Elem? && "_" in whole.fields && whole.fields["_"].Text? then Some(whole.fields["_"].text) else None
    }
  }

  /** The tools' record. `creators` is None when the property is absent. */
  datatype NdlRecord = NdlRecord(
    id: string,
    title: string,
    creators: Option<seq<string>>,
    date: DateValue,
    language: Option<string>,
    source: string,
    raw: XmlMapper.McpRecord)

  function DateOf(d: Option<XmlMapper.Node>): DateValue {
    if d.None? then NoDate
    else match d.value
      case Text(s) => DateText(s)
      case Elem(_) => DateObject(d.value)
      case List(_) => DateObject(d.value)
  }

  // ---------------------------------------------- the language in raw_record

  /** A case-insensitive occurrence of the lower-case `tag` at `p`. */
  predicate TagAt(s: string, p: nat, tag: string) {
    p + |tag| <= |s| && ToLower(s[p..p + |tag|]) == tag
  }

  const LanguageOpen: string := "<dc:language"
  const LanguageClose: string := "</dc:language>"

  /** The first `>` at or after `i`: where `[^>]*>` ends. */
  function NextGreater(s: string, i: nat): (r: Option<nat>)
    ensures r.Some? ==> i <= r.value < |s| && s[r.value] == '>' && forall j :: i <= j < r.value ==> s[j] != '>'
    ensures r.None? ==> forall j :: i <= j < |s| ==> s[j] != '>'
    decreases |s| - i
  {
    if i >= |s| then None
    else if s[i] == '>' then Some(i)
    else NextGreater(s, i + 1)
  }

  /**
   * The lazy `(.*?)</dc:language>` from `k`: the first closing tag reached
   * before any line terminator.
   */
  function LazyClose(s: string, k: nat): (r: Option<nat>)
    ensures r.Some? ==> (k <= r.value && TagAt(s, r.value, LanguageClose)
      && forall j :: k <= j < r.value ==> !IsLineTerminator(s[j]) && !TagAt(s, j, LanguageClose))
    decreases |s| - k
  {
    if k >= |s| then None
    else if TagAt(s, k, LanguageClose) then Some(k)
    else if IsLineTerminator(s[k]) then None
    else LazyClose(s, k + 1)
  }

  /** Where a match of the pattern lies: the opening tag, its `>`, and the closing tag. */
  datatype TagMatch = TagMatch(open: nat, gt: nat, close: nat)

  /**
   * The leftmost match of `/<dc:language[^>]*>(.*?)<\/dc:language>/i` at or
   * after `p`.
   */
  function LanguageMatch(s: string, p: nat): (r: Option<TagMatch>)
    ensures r.Some? ==> (
      var t := r.value;
      && p <= t.open && TagAt(s, t.open, LanguageOpen)
      && t.open + |LanguageOpen| <= t.gt < t.close && TagAt(s, t.close, LanguageClose)
      && s[t.gt] == '>'
      && (forall j :: t.open + |LanguageOpen| <= j < t.gt ==> s[j] != '>')
      && (forall j :: t.gt + 1 <= j < t.close ==> !IsLineTerminator(s[j]) && !TagAt(s, j, LanguageClose)))
    decreases |s| - p
  {
    if p >= |s| then None
    else if TagAt(s, p, LanguageOpen) then
      match NextGreater(s, p + |LanguageOpen|)
      case None => LanguageMatch(s, p + 1)
      case Some(gt) =>
        match LazyClose(s, gt + 1)
        case None => LanguageMatch(s, p + 1)
        case Some(k) => Some(TagMatch(p, gt, k))
    else LanguageMatch(s, p + 1)
  }

  /** The first capture of the pattern in `s`, or None when it does not match. */
  function LanguageIn(s: string): (r: Option<string>)
    ensures r.Some? ==> forall j :: 0 <= j < |r.value| ==> !IsLineTerminator(r.value[j])
  {
    match LanguageMatch(s, 0)
    case None => None
    case Some(t) => Some(s[t.gt + 1..t.close])
  }

  /**
   * The adapter's `extractLanguage`: the mapper never sets
   * `identifiers.language`, so the language is the first `dc:language`
   * element of the serialized record, if any.
   */
  function LanguageOf(m: XmlMapper.McpRecord): Option<string> {
    LanguageIn(m.rawRecord)
  }

  /**
   * `convertToNdlRecord`. Title and creators are typed as text by the tools;
   * they are taken through `String`.
   */
  function ConvertToNdlRecord(m: XmlMapper.McpRecord): (r: NdlRecord)
    ensures r.id == m.id && r.source == "NDL" && r.raw == m
    ensures r.title == XmlMapper.JsString(m.title)
    ensures r.creators.Some? && |r.creators.value| == |m.creators|
    ensures forall i :: 0 <= i < |m.creators| ==> r.creators.value[i] == XmlMapper.JsString(m.creators[i])
    ensures m.pubDate.None? <==> r.date == NoDate
    ensures m.pubDate.Some? && m.pubDate.value.Text? ==> r.date == DateText(m.pubDate.value.text)
    ensures m.pubDate.Some? && !m.pubDate.value.Text? ==> r.date == DateObject(m.pubDate.value)
    ensures r.language == LanguageIn(m.rawRecord)
  {
    NdlRecord(
      m.id,
      XmlMapper.JsString(m.title),
      Some(seq(|m.creators|, i requires 0 <= i < |m.creators| => XmlMapper.JsString(m.creators[i]))),
      DateOf(m.pubDate),
      LanguageOf(m),
      "NDL",
      m)
  }

  function ConvertAll(ms: seq<XmlMapper.McpRecord>): (r: seq<NdlRecord>)
    ensures |r| == |ms|
    ensures forall i :: 0 <= i < |ms| ==> r[i] == ConvertToNdlRecord(ms[i])
  {
    seq(|ms|, i requires 0 <= i < |ms| => ConvertToNdlRecord(ms[i]))
  }

  /** `coreSearch`: the records, or the message of the error it throws, and the connector's trace. */
  function CoreSearch(params: NormalizedParams, config: NdlConnector.ConnectorConfig,
                      outcome: nat -> NdlConnector.HttpOutcome, env: XmlMapper.Foreign)
    : (Result<seq<NdlRecord>, string>, seq<NdlConnector.Event>)
  {
    var count := if params.maximumRecords == 0 then 20 else params.maximumRecords;
    var (fetched, trace) := NdlConnector.SearchSpec(config, params.cql, count, outcome);
    match fetched
    case Err(e) => (Err(NdlConnector.ErrorMessage(e)), trace)
    case Ok(response) =>
      match XmlMapper.ParseRecords(response.rawXml, env)
      case Err(message) => (Err(message), trace)
      case Ok(mapped) => (Ok(ConvertAll(mapped)), trace)
  }

  /** `searchNDL` of the adapter. */
  function Search(input: SearchInput, config: NdlConnector.ConnectorConfig,
                  outcome: nat -> NdlConnector.HttpOutcome, env: XmlMapper.Foreign)
    : (Result<seq<NdlRecord>, string>, seq<NdlConnector.Event>)
  {
    CoreSearch(NormalizeParams(input), config, outcome, env)
  }

  /**
   * Only the CQL and the record count reach the connector: every request
   * carries the CQL and `maximumRecords || 20`, and the start record and
   * schema change nothing.
   */
  lemma ForwardsQueryAndCount(input: SearchInput, config: NdlConnector.ConnectorConfig,
                              outcome: nat -> NdlConnector.HttpOutcome, env: XmlMapper.Foreign, i: nat)
    requires i < |Search(input, config, outcome, env).1|
    requires Search(input, config, outcome, env).1[i].Get?
    ensures var q := Search(input, config, outcome, env).1[i].request.params;
      var count := NormalizeParams(input).maximumRecords;
      q.query == input.cql && q.maximumRecords == (if count == 0 then 20 else count)
  {
    var p := NormalizeParams(input);
    var count := if p.maximumRecords == 0 then 20 else p.maximumRecords;
    NdlConnector.RequestsCarryQuery(config, p.cql, count, outcome, i);
  }

  lemma IgnoresStartAndSchema(input: SearchInput, start: Option<int>, schema: Option<string>, format: Option<string>,
                              config: NdlConnector.ConnectorConfig, outcome: nat -> NdlConnector.HttpOutcome, env: XmlMapper.Foreign)
    ensures Search(input, config, outcome, env)
         == Search(input.(startRecord := start, recordSchema := schema, format := format), config, outcome, env)
  {
  }

  /**
   * On success the records are the mapper's records converted one to one,
   * in order.
   */
  lemma ConvertsOneToOne(input: SearchInput, config: NdlConnector.ConnectorConfig,
                         outcome: nat -> NdlConnector.HttpOutcome, env: XmlMapper.Foreign)
    requires Search(input, config, outcome, env).0.Ok?
    ensures var p := NormalizeParams(input);
      var count := if p.maximumRecords == 0 then 20 else p.maximumRecords;
      var fetched := NdlConnector.SearchSpec(config, input.cql, count, outcome).0;
      && fetched.Ok?
      && XmlMapper.ParseRecords(fetched.value.rawXml, env).Ok?
      && var mapped := XmlMapper.ParseRecords(fetched.value.rawXml, env).value;
      var out := Search(input, config, outcome, env).0.value;
      |out| == |mapped| && forall i :: 0 <= i < |out| ==> out[i].raw == mapped[i] && out[i].id == mapped[i].id
  {
  }

  /** A connector failure surfaces with the connector's message. */
  lemma ConnectorErrorsPropagate(input: SearchInput, config: NdlConnector.ConnectorConfig,
                                 outcome: nat -> NdlConnector.HttpOutcome, env: XmlMapper.Foreign)
    requires NdlConnector.IsClientError(outcome(0))
    ensures Search(input, config, outcome, env).0
         == Err("NDL SRU request failed with status " + IntToString(outcome(0).response.value))
  {
    var p := NormalizeParams(input);
    var count := if p.maximumRecords == 0 then 20 else p.maximumRecords;
    NdlConnector.ClientErrorNotRetried(config, p.cql, count, outcome);
  }
}
