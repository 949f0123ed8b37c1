/**
 * The formatter that turns the tools' records into clean book entries and,
 * on request, attaches a rendered (JSON or YAML) listing to a tool's output.
 * The renderers and `encodeURIComponent` are foreign and come in as
 * parameters.
 */
module DataFormatter {
  import opened JsText
  import SearchNdl

  /** `CleanBookRecord`; `isbn` and `series_title` are always undefined and are not carried. */
  datatype CleanBookRecord = CleanBookRecord(
    title: string,
    authors: seq<string>,
    publicationYear: Option<string>,
    publisher: Option<string>,
    description: Option<string>,
    subjects: seq<string>,
    ndlUrl: string)

  datatype FormattedSearchResult = FormattedSearchResult(totalResults: int, books: seq<CleanBookRecord>)

  datatype OutputFormat = Json | Yaml

  /**
   * The foreign pieces: `encodeURIComponent` (None where it throws, on a
   * lone surrogate) and the JSON / YAML serialisers.
   */
  datatype Formatting = Formatting(
    encode: string -> Option<string>,
    render: (FormattedSearchResult, OutputFormat) -> string)

  /** A tool's output: `{count, records, formatted_records?}`. */
  datatype ToolOutput = ToolOutput(count: int, records: seq<SearchNdl.NdlRecord>, formatted: Option<string>)

  const UnknownTitle: string := "タイトル不明"
  const BooksUrl: string := "https://ndlsearch.ndl.go.jp/books/"
  const SearchUrl: string := "https://ndlsearch.ndl.go.jp/search?q="
  const IdPrefix: string := "ndl:"

  // ------------------------------------------------------ /\d{4}/ match

  predicate FourDigitsAt(s: string, i: nat) {
    i + 4 <= |s| && IsDigit(s[i]) && IsDigit(s[i + 1]) && IsDigit(s[i + 2]) && IsDigit(s[i + 3])
  }

  /** The leftmost position at or after `i` where four digits start. */
  function FirstFourDigitsFrom(s: string, i: nat): (r: Option<nat>)
    ensures r.Some? ==> i <= r.value && FourDigitsAt(s, r.value)
    ensures r.Some? ==> forall j: nat :: i <= j < r.value ==> !FourDigitsAt(s, j)
    ensures r.None? ==> forall j: nat :: i <= j ==> !FourDigitsAt(s, j)
    decreases |s| - i
  {
    if i + 4 > |s| then None
    else if FourDigitsAt(s, i) then Some(i)
    else FirstFourDigitsFrom(s, i + 1)
  }

  /** `s.match(/\d{4}/)?.[0]`: the first run of four digits. */
  function FirstYear(s: string): (r: Option<string>)
    ensures r.Some? ==> |r.value| == 4 && forall k :: 0 <= k < 4 ==> IsDigit(r.value[k])
    ensures r.Some? ==>
      exists i: nat :: FourDigitsAt(s, i) && r.value == s[i..i + 4] && forall j: nat :: j < i ==> !FourDigitsAt(s, j)
    ensures r.None? <==> forall i: nat :: !FourDigitsAt(s, i)
  {
    match FirstFourDigitsFrom(s, 0)
    case None => None
    case Some(i) => Some(s[i..i + 4])
  }

  /** The year from a record's date: a non-empty text date, or the text `_` of an object date. */
  function PublicationYear(d: SearchNdl.DateValue): (r: Option<string>)
    ensures d.NoDate? || (d.DateObject? && d.Underscore().None?) ==> r.None?
    ensures d.DateText? ==> r == FirstYear(d.text)
    ensures d.DateObject? && d.Underscore().Some? ==> r == FirstYear(d.Underscore().value)
  {
    match d
    case NoDate => None
    case DateText(t) => if t == "" then None else FirstYear(t)
    case DateObject(_) => if d.Underscore().Some? then FirstYear(d.Underscore().value) else None
  }

  // ------------------------------------------------------------ buildNdlUrl

  /**
   * `buildNdlUrl`: an `ndl:` id points at the book page with the prefix
   * removed (the first occurrence of `ndl:` is the prefix itself); any other
   * id goes to the search page, percent-encoded; a throwing encoder gives
   * `#`.
   */
  function BuildNdlUrl(id: string, encode: string -> Option<string>): (r: string)
    ensures StartsWith(id, IdPrefix) ==> r == BooksUrl + id[|IdPrefix|..]
    ensures !StartsWith(id, IdPrefix) && encode(id).Some? ==> r == SearchUrl + encode(id).value
    ensures !StartsWith(id, IdPrefix) && encode(id).None? ==> r == "#"
  {
    if id != "" && StartsWith(id, IdPrefix) then BooksUrl + id[|IdPrefix|..]
    else match encode(id)
      case Some(e) => SearchUrl + e
      case None => "#"
  }

  /** The book page URL gives back the record id: `ndl:` followed by what follows the page prefix. */
  lemma BookUrlRoundTrip(bibId: string, encode: string -> Option<string>)
    ensures var url := BuildNdlUrl(IdPrefix + bibId, encode);
      StartsWith(url, BooksUrl) && IdPrefix + url[|BooksUrl|..] == IdPrefix + bibId
  {
    assert (IdPrefix + bibId)[..|IdPrefix|] == IdPrefix;
    assert (IdPrefix + bibId)[|IdPrefix|..] == bibId;
    var url := BuildNdlUrl(IdPrefix + bibId, encode);
    assert url == BooksUrl + bibId;
    assert url[..|BooksUrl|] == BooksUrl;
    assert url[|BooksUrl|..] == bibId;
  }

  // --------------------------------------------------- extractCleanBookData

  /**
   * `extractCleanBookData`. The record's `raw` is the mapper's record, whose
   * `source` is an object and never a string, so `publisher` is never set;
   * the tools' records carry no `subjects`, so they are always empty.
   */
  function ExtractCleanBookData(rec: SearchNdl.NdlRecord, encode: string -> Option<string>): (r: CleanBookRecord)
    ensures r.title == (if rec.title == "" then UnknownTitle else rec.title)
    ensures r.title != ""
    ensures r.authors == (if rec.creators.Some? then rec.creators.value else [])
    ensures r.publicationYear == PublicationYear(rec.date)
    ensures r.publisher.None? && r.subjects == []
    ensures r.description == (if rec.raw.description.Some? && rec.raw.description.value != ""
                              then rec.raw.description else None)
    ensures r.ndlUrl == BuildNdlUrl(rec.id, encode)
  {
    CleanBookRecord(
      if rec.title == "" then UnknownTitle else rec.title,
      if rec.creators.Some? then rec.creators.value else [],
      PublicationYear(rec.date),
      None,
      if rec.raw.description.Some? && rec.raw.description.value != "" then rec.raw.description else None,
      [],
      BuildNdlUrl(rec.id, encode))
  }

  /** The structure `formatSearchResults` serialises. */
  function FormattedResult(records: seq<SearchNdl.NdlRecord>, totalCount: int, encode: string -> Option<string>)
    : (r: FormattedSearchResult)
    ensures r.totalResults == totalCount
    ensures |r.books| == |records|
    ensures forall i :: 0 <= i < |records| ==> r.books[i] == ExtractCleanBookData(records[i], encode)
  {
    FormattedSearchResult(totalCount,
      seq(|records|, i requires 0 <= i < |records| => ExtractCleanBookData(records[i], encode)))
  }

  /** `'yaml'` selects YAML; every other value falls to the JSON default. */
  function FormatOf(format: string): (r: OutputFormat)
    ensures r == Yaml <==> format == "yaml"
  {
    if format == "yaml" then Yaml else Json
  }

  /** `formatSearchResults(records, totalCount, format)`. */
  function FormatSearchResults(records: seq<SearchNdl.NdlRecord>, totalCount: int, format: string, f: Formatting)
    : string
  {
    f.render(FormattedResult(records, totalCount, f.encode), FormatOf(format))
  }

  /**
   * `enhanceToolOutput`: without a format (absent or empty) the output is
   * returned as it is; with one, `count` and `records` are kept and the
   * rendering of the records, under `count` as total, is added.
   */
  function EnhanceToolOutput(output: ToolOutput, format: Option<string>, f: Formatting): (r: ToolOutput)
    ensures format.None? || format.value == "" ==> r == output
    ensures r.count == output.count && r.records == output.records
    ensures format.Some? && format.value != "" ==>
      r.formatted == Some(FormatSearchResults(output.records, output.count, format.value, f))
  {
    if format.None? || format.value == "" then output
    else output.(formatted := Some(FormatSearchResults(output.records, output.count, format.value, f)))
  }

  /** A record with an `ndl:` id and a text date gets its book page and the first year in the date. */
  lemma CleanBookOfNdlRecord(rec: SearchNdl.NdlRecord, encode: string -> Option<string>, bibId: string, year: string, rest: string)
    requires rec.id == IdPrefix + bibId
    requires |year| == 4 && forall k :: 0 <= k < 4 ==> IsDigit(year[k])
    requires rec.date == SearchNdl.DateText(year + rest)
    ensures ExtractCleanBookData(rec, encode).ndlUrl == BooksUrl + bibId
    ensures ExtractCleanBookData(rec, encode).publicationYear == Some(year)
  {
    assert (IdPrefix + bibId)[..|IdPrefix|] == IdPrefix;
    assert (IdPrefix + bibId)[|IdPrefix|..] == bibId;
    var s := year + rest;
    assert FourDigitsAt(s, 0);
    assert s[0..4] == year;
  }
}
