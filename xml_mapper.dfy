/**
 * The mapper from an SRU `searchRetrieve` response to the server's records.
 * The XML parser is foreign: the model starts from the tree it produces
 * (without explicit arrays and with attributes merged into elements), and
 * the parser, the XML serializer, the clock and the UUID generator are
 * parameters.
 */
module XmlMapper {
  import opened JsText
  import SeqUtils

  /**
   * A parsed value: text, an element's children by name, or the array the
   * parser makes of repeated children.
   */
  datatype Node = Text(text: string) | Elem(fields: map<string, Node>) | List(items: seq<Node>)

  /** JavaScript truthiness: among parsed values only the empty string is falsy. */
  predicate Truthy(n: Node) {
    !(n.Text? && n.text == "")
  }

  /** Truthiness of a property that may be `undefined` (None). */
  predicate Present(o: Option<Node>) {
    o.Some? && Truthy(o.value)
  }

  /** `o?.[key]`: only elements carry the names read here. */
  function Get(o: Option<Node>, key: string): Option<Node> {
    if o.Some? && o.value.Elem? && key in o.value.fields then Some(o.value.fields[key]) else None
  }

  /** `String(n)`: an element prints as "[object Object]", an array as its items joined by commas. */
  function JsString(n: Node): string
    decreases n
  {
    match n
    case Text(s) => s
    case Elem(_) => "[object Object]"
    case List(items) => Join(seq(|items|, i requires 0 <= i < |items| => JsString(items[i])), ",")
  }

  /** `Array.isArray(n) ? n : [n]`. */
  function Items(n: Node): seq<Node> {
    if n.List? then n.items else [n]
  }

  /** The items of an optional field, none when the field is falsy. */
  function FieldItems(f: Option<Node>): seq<Node> {
    if Present(f) then Items(f.value) else []
  }

  /** What the parser hands back: a document (None for a null result) or the error it throws. */
  datatype ParseOutcome = Parsed(doc: Option<Node>) | ParseFailed(error: string)

  /** The foreign collaborators of the mapper. */
  datatype Foreign = Foreign(
    parse: string -> ParseOutcome,   // the XML parser
    build: Node -> string,           // the XML serializer used for `raw_record`
    retrievedAt: string,             // the ISO time stamp of the mapping
    freshId: nat -> string)          // the UUID drawn for the i-th record

  datatype RecordSource = RecordSource(provider: string, retrievedAt: string, license: string, raw: Node)

  /**
   * A mapped record. `ndlBibId` stands for `identifiers.NDLBibID` (the
   * identifiers object exists exactly when it is set); None marks an
   * absent optional property.
   */
  datatype McpRecord = McpRecord(
    id: string,
    title: Node,
    creators: seq<Node>,
    pubDate: Option<Node>,
    ndlBibId: Option<Node>,
    subjects: Option<seq<string>>,
    description: Option<string>,
    source: RecordSource,
    rawRecord: string)

  // ---------------------------------------------------------------- lookups

  /** `dcterms:title`, or `dc:title` when that is falsy. */
  function ExtractTitle(bib: Node): Option<Node> {
    var t := Get(Some(bib), "dcterms:title");
    if Present(t) then t else Get(Some(bib), "dc:title")
  }

  predicate HasTitle(resource: Node) {
    Truthy(resource) && Present(ExtractTitle(resource))
  }

  function ExtractIssuedDate(bib: Node): Option<Node> {
    Get(Some(bib), "dcterms:issued")
  }

  function ExtractLanguage(bib: Node): Option<Node> {
    Get(Some(bib), "dcterms:language")
  }

  /** `v.includes(needle)`: text searches its characters, an array its items; an element has no `includes` and the call throws (None). */
  function IncludesCall(v: Node, needle: string): Option<bool> {
    match v
    case Text(s) => Some(Includes(s, needle))
    case List(items) => Some(Text(needle) in items)
    case Elem(_) => None
  }

  const NotAFunction: string := "TypeError: includes is not a function"

  /** A datatype that is present and whose `includes('NDLBibID')` holds. */
  predicate NamesBibId(dt: Option<Node>) {
    Present(dt) && IncludesCall(dt.value, "NDLBibID") == Some(true)
  }

  /** A datatype the `&&` guard turns down: absent or falsy, or one whose `includes('NDLBibID')` is false. */
  predicate DeclinesBibId(dt: Option<Node>) {
    !Present(dt) || IncludesCall(dt.value, "NDLBibID") == Some(false)
  }

  /** A datatype on which the guard calls `includes` and throws: an element. */
  predicate ThrowsOnIncludes(dt: Option<Node>) {
    Present(dt) && dt.value.Elem?
  }

  /**
   * The value `extractNDLBibID` returns (None for `undefined`), or Err when
   * it throws.
   */
  function ExtractNdlBibId(bib: Node): (r: Result<Option<Node>, string>)
    ensures var id := Get(Some(bib), "dcterms:identifier");
      && (!Present(id) ==> r == Ok(None))
      && (Present(id) && id.value.Text? ==> r == Ok(id))
      && (Present(id) && id.value.List? ==> r == Ok(None))
    ensures var id := Get(Some(bib), "dcterms:identifier");
      var dt := Get(id, "rdf:datatype");
      Present(id) && id.value.Elem? && Present(dt) && dt.value.Text? && Includes(dt.value.text, "NDLBibID") ==>
        r == Ok(if Present(Get(id, "_")) then Get(id, "_") else id)
    ensures var id := Get(Some(bib), "dcterms:identifier");
      var dt := Get(id, "rdf:datatype");
      var attrs := Get(id, "$");
      var dt2 := Get(attrs, "rdf:datatype");
      Present(id) && id.value.Elem? ==>
        && (ThrowsOnIncludes(dt) ==> r == Err(NotAFunction))
        && (NamesBibId(dt) ==> r == Ok(if Present(Get(id, "_")) then Get(id, "_") else id))
        && (DeclinesBibId(dt) && !Present(attrs) ==> r == Ok(None))
        && (DeclinesBibId(dt) && Present(attrs) && NamesBibId(dt2) ==> r == Ok(Get(id, "_")))
        && (DeclinesBibId(dt) && Present(attrs) && DeclinesBibId(dt2) ==> r == Ok(None))
        && (DeclinesBibId(dt) && Present(attrs) && ThrowsOnIncludes(dt2) ==> r == Err(NotAFunction))
  {
    var id := Get(Some(bib), "dcterms:identifier");
    if !Present(id) then Ok(None)
    else match id.value
      case Text(_) => Ok(id)
      case List(_) => Ok(None)
      case Elem(_) =>
        var dt := Get(id, "rdf:datatype");
        var direct := if Present(dt) then IncludesCall(dt.value, "NDLBibID") else Some(false);
        if direct.None? then Err(NotAFunction)
        else if direct.value then
          var text := Get(id, "_");
          Ok(if Present(text) then text else id)
        else
          var attrs := Get(id, "$");
          var dt2 := Get(attrs, "rdf:datatype");
          var nested := if Present(attrs) && Present(dt2) then IncludesCall(dt2.value, "NDLBibID") else Some(false);
          if nested.None? then Err(NotAFunction)
          else if nested.value then
            Ok(Get(id, "_"))
          else Ok(None)
  }

  /**
   * Each `rdf:datatype` guard of `extractNDLBibID` either names `NDLBibID`,
   * turns it down or throws, and exactly one of these: so the cases of
   * `ExtractNdlBibId`'s contract fix its result on every element identifier.
   */
  lemma BibIdGuardCases(dt: Option<Node>)
    ensures NamesBibId(dt) || DeclinesBibId(dt) || ThrowsOnIncludes(dt)
    ensures !(NamesBibId(dt) && DeclinesBibId(dt))
    ensures !(NamesBibId(dt) && ThrowsOnIncludes(dt))
    ensures !(DeclinesBibId(dt) && ThrowsOnIncludes(dt))
  {
  }

  // ------------------------------------------------------ creators, subjects

  function CreatorItems(bib: Node): seq<Node> {
    FieldItems(Get(Some(bib), "dcterms:creator")) + FieldItems(Get(Some(bib), "dc:creator"))
  }

  /** The name of one creator entry: the text itself, `foaf:Agent/foaf:name`, or `foaf:name`. */
  function CreatorName(c: Node): Option<Node> {
    if c.Text? then Some(c)
    else
      var agentName := Get(Get(Some(c), "foaf:Agent"), "foaf:name");
      if Present(agentName) then agentName
      else
        var name := Get(Some(c), "foaf:name");
        if Present(name) then name else None
  }

  /** The truthy names of `items`, in order, repetitions kept. */
  function CreatorNames(items: seq<Node>): (r: seq<Node>)
    ensures forall i :: 0 <= i < |r| ==> Truthy(r[i])
    decreases |items|
  {
    if |items| == 0 then []
    else
      var name := CreatorName(items[|items| - 1]);
      CreatorNames(items[..|items| - 1]) + (if Present(name) then [name.value] else [])
  }

  /**
   * `creators.includes(name)`: a text name is compared by value, while a
   * name that is a parsed element or array is a fresh object, equal to no
   * entry already kept.
   */
  predicate IncludesName(creators: seq<Node>, n: Node) {
    n.Text? && n in creators
  }

  /**
   * The names pushed by the loop over `names`: a text name is kept at its
   * first occurrence, every element or array name is kept each time.
   */
  function PushNames(names: seq<Node>): (r: seq<Node>)
    ensures forall n :: n in r <==> n in names
    decreases |names|
  {
    if |names| == 0 then []
    else
      var p := PushNames(names[..|names| - 1]);
      var n := names[|names| - 1];
      assert names == names[..|names| - 1] + [n];
      if IncludesName(p, n) then p else p + [n]
  }

  function Creators(bib: Node): seq<Node> {
    PushNames(CreatorNames(CreatorItems(bib)))
  }

  function SubjectItems(bib: Node): seq<Node> {
    FieldItems(Get(Some(bib), "dcterms:subject")) + FieldItems(Get(Some(bib), "dc:subject"))
  }

  /** The text entries of `items`, in order; the empty text is kept. */
  function SubjectTexts(items: seq<Node>): seq<string>
    decreases |items|
  {
    if |items| == 0 then []
    else
      var last := items[|items| - 1];
      SubjectTexts(items[..|items| - 1]) + (if last.Text? then [last.text] else [])
  }

  function Subjects(bib: Node): seq<string> {
    SeqUtils.Dedup(SubjectTexts(SubjectItems(bib)))
  }

  lemma {:induction false} CreatorNamesMembers(items: seq<Node>, n: Node)
    ensures n in CreatorNames(items) <==> exists c :: c in items && CreatorName(c) == Some(n) && Truthy(n)
    decreases |items|
  {
    if |items| > 0 {
      var p := items[..|items| - 1];
      CreatorNamesMembers(p, n);
      assert items == p + [items[|items| - 1]];
    }
  }

  lemma {:induction false} SubjectTextsMembers(items: seq<Node>, s: string)
    ensures s in SubjectTexts(items) <==> Text(s) in items
    decreases |items|
  {
    if |items| > 0 {
      var p := items[..|items| - 1];
      SubjectTextsMembers(p, s);
      assert items == p + [items[|items| - 1]];
    }
  }

  lemma {:induction false} CreatorNamesConcat(a: seq<Node>, b: seq<Node>)
    ensures CreatorNames(a + b) == CreatorNames(a) + CreatorNames(b)
    decreases |b|
  {
    if |b| == 0 {
      assert a + b == a;
    } else {
      assert (a + b)[..|a + b| - 1] == a + b[..|b| - 1];
      CreatorNamesConcat(a, b[..|b| - 1]);
    }
  }

  /** No text name is kept twice. */
  predicate TextsDistinct(ns: seq<Node>) {
    forall i, j :: 0 <= i < j < |ns| && ns[j].Text? ==> ns[i] != ns[j]
  }

  function IsObjectName(n: Node): bool {
    !n.Text?
  }

  lemma {:induction false} PushNamesTextsDistinct(names: seq<Node>)
    ensures TextsDistinct(PushNames(names))
    decreases |names|
  {
    if |names| > 0 {
      PushNamesTextsDistinct(names[..|names| - 1]);
    }
  }

  /** Every element or array name is kept, in order and with its repetitions. */
  lemma {:induction false} PushNamesKeepsObjects(names: seq<Node>)
    ensures SeqUtils.Filter(PushNames(names), IsObjectName) == SeqUtils.Filter(names, IsObjectName)
    decreases |names|
  {
    if |names| > 0 {
      var init := names[..|names| - 1];
      var n := names[|names| - 1];
      var p := PushNames(init);
      PushNamesKeepsObjects(init);
      if !IncludesName(p, n) {
        assert (p + [n])[..|p + [n]| - 1] == p;
      }
    }
  }

  /** Pushing over a longer list only appends. */
  lemma {:induction false} PushNamesPrefix(a: seq<Node>, b: seq<Node>)
    ensures PushNames(a) <= PushNames(a + b)
    decreases |b|
  {
    if |b| == 0 {
      assert a + b == a;
    } else {
      assert (a + b)[..|a + b| - 1] == a + b[..|b| - 1];
      PushNamesPrefix(a, b[..|b| - 1]);
    }
  }

  /** One step of `PushNames`. */
  lemma PushNamesSnoc(p: seq<Node>, x: Node)
    ensures PushNames(p + [x]) == if IncludesName(PushNames(p), x) then PushNames(p) else PushNames(p) + [x]
  {
    assert (p + [x])[..|p + [x]| - 1] == p;
  }

  /**
   * `creators` holds the names of the `dcterms:creator` entries and then of
   * the `dc:creator` entries: every text name once, at its first occurrence,
   * and every element or array name as often as it occurs.
   */
  lemma CreatorsUnion(bib: Node)
    ensures TextsDistinct(Creators(bib))
    ensures SeqUtils.Filter(Creators(bib), IsObjectName)
         == SeqUtils.Filter(CreatorNames(CreatorItems(bib)), IsObjectName)
    ensures forall i :: 0 <= i < |Creators(bib)| ==> Truthy(Creators(bib)[i])
    ensures forall n :: n in Creators(bib) <==>
      exists c :: c in CreatorItems(bib) && CreatorName(c) == Some(n) && Truthy(n)
    ensures PushNames(CreatorNames(FieldItems(Get(Some(bib), "dcterms:creator")))) <= Creators(bib)
  {
    var a := FieldItems(Get(Some(bib), "dcterms:creator"));
    var b := FieldItems(Get(Some(bib), "dc:creator"));
    forall n ensures n in Creators(bib) <==> exists c :: c in CreatorItems(bib) && CreatorName(c) == Some(n) && Truthy(n) {
      CreatorNamesMembers(CreatorItems(bib), n);
    }
    forall i | 0 <= i < |Creators(bib)| ensures Truthy(Creators(bib)[i]) {
      assert Creators(bib)[i] in CreatorNames(CreatorItems(bib));
    }
    PushNamesTextsDistinct(CreatorNames(CreatorItems(bib)));
    PushNamesKeepsObjects(CreatorNames(CreatorItems(bib)));
    CreatorNamesConcat(a, b);
    PushNamesPrefix(CreatorNames(a), CreatorNames(b));
  }

  /** `subjects` is the union of the text entries of both subject fields, each once, in order. */
  lemma SubjectsUnion(bib: Node)
    ensures SeqUtils.Distinct(Subjects(bib))
    ensures forall s :: s in Subjects(bib) <==> Text(s) in SubjectItems(bib)
  {
    forall s ensures s in Subjects(bib) <==> Text(s) in SubjectItems(bib) {
      SubjectTextsMembers(SubjectItems(bib), s);
    }
  }

  /** The loop over both creator fields that pushes every name not yet included. */
  method ExtractCreators(bib: Node) returns (creators: seq<Node>)
    ensures creators == Creators(bib)
  {
    var items := CreatorItems(bib);
    creators := [];
    var i := 0;
    while i < |items|
      invariant 0 <= i <= |items|
      invariant creators == PushNames(CreatorNames(items[..i]))
    {
      var name := CreatorName(items[i]);
      CreatorsStep(items, i, creators);
      if Present(name) && !IncludesName(creators, name.value) {
        creators := creators + [name.value];
      }
      i := i + 1;
    }
    assert items[..|items|] == items;
  }

  lemma CreatorsStep(items: seq<Node>, i: nat, creators: seq<Node>)
    requires i < |items| && creators == PushNames(CreatorNames(items[..i]))
    ensures var name := CreatorName(items[i]);
      PushNames(CreatorNames(items[..i + 1]))
        == if Present(name) && !IncludesName(creators, name.value) then creators + [name.value] else creators
  {
    var name := CreatorName(items[i]);
    var before := CreatorNames(items[..i]);
    assert items[..i + 1][..i] == items[..i];
    if Present(name) {
      assert CreatorNames(items[..i + 1]) == before + [name.value];
      PushNamesSnoc(before, name.value);
    } else {
      assert CreatorNames(items[..i + 1]) == before;
    }
  }

  /** The de-duplicating loop over both subject fields, keeping text entries only. */
  method ExtractSubjects(bib: Node) returns (subjects: seq<string>)
    ensures subjects == Subjects(bib)
  {
    var items := SubjectItems(bib);
    subjects := [];
    var i := 0;
    while i < |items|
      invariant 0 <= i <= |items|
      invariant subjects == SeqUtils.Dedup(SubjectTexts(items[..i]))
    {
      SubjectsStep(items, i, subjects);
      if items[i].Text? && items[i].text !in subjects {
        subjects := subjects + [items[i].text];
      }
      i := i + 1;
    }
    assert items[..|items|] == items;
  }

  lemma SubjectsStep(items: seq<Node>, i: nat, subjects: seq<string>)
    requires i < |items| && subjects == SeqUtils.Dedup(SubjectTexts(items[..i]))
    ensures SeqUtils.Dedup(SubjectTexts(items[..i + 1]))
        == if items[i].Text? && items[i].text !in subjects then subjects + [items[i].text] else subjects
  {
    var before := SubjectTexts(items[..i]);
    assert items[..i + 1][..i] == items[..i];
    if items[i].Text? {
      assert SubjectTexts(items[..i + 1]) == before + [items[i].text];
      SeqUtils.DedupSnoc(before, items[i].text);
    } else {
      assert SubjectTexts(items[..i + 1]) == before;
    }
  }

  // ----------------------------------------------------------------- records

  /** `record.recordData`, re-parsed when it is text; Err when that parse throws. */
  function RecordData(record: Node, parse: string -> ParseOutcome): Result<Option<Node>, string> {
    var stated := Get(Some(record), "recordData");
    if stated.Some? && stated.value.Text? then
      match parse(stated.value.text)
      case ParseFailed(e) => Err(e)
      case Parsed(doc) => Ok(doc)
    else Ok(stated)
  }

  /** The `dcndl:BibResource` entries under `rdf:RDF`, none when the path is missing. */
  function Resources(data: Option<Node>): seq<Node> {
    var rdf := Get(data, "rdf:RDF");
    var bibs := Get(rdf, "dcndl:BibResource");
    if Present(data) && Present(rdf) && Present(bibs) then Items(bibs.value) else []
  }

  /** The index of the first resource with a title. */
  function FirstTitled(rs: seq<Node>): (r: Option<nat>)
    ensures r.Some? ==> (r.value < |rs| && HasTitle(rs[r.value])
      && forall j :: 0 <= j < r.value ==> !HasTitle(rs[j]))
    ensures r.None? ==> forall j :: 0 <= j < |rs| ==> !HasTitle(rs[j])
    decreases |rs|
  {
    if |rs| == 0 then None
    else if HasTitle(rs[0]) then Some(0)
    else
      match FirstTitled(rs[1..])
      case None => None
      case Some(k) => Some(k + 1)
  }

  /** The record built from the chosen resource once its BibID lookup succeeded. */
  function Assemble(record: Node, bib: Node, bibId: Option<Node>, env: Foreign, index: nat): McpRecord
    requires HasTitle(bib)
  {
    var found := Present(bibId);
    var subjects := Subjects(bib);
    var date := ExtractIssuedDate(bib);
    var language := ExtractLanguage(bib);
    McpRecord(
      id := "ndl:" + (if found then JsString(bibId.value) else env.freshId(index)),
      title := ExtractTitle(bib).value,
      creators := Creators(bib),
      pubDate := if Present(date) then date else None,
      ndlBibId := if found then bibId else None,
      subjects := if |subjects| > 0 then Some(subjects) else None,
      description := if Present(language) then Some("Language: " + JsString(language.value)) else None,
      source := RecordSource("NDL", env.retrievedAt, "NDL Terms of Use", bib),
      rawRecord := env.build(Elem(map["record" := record])))
  }

  /**
   * `mapRecordToMCP`: None for `null`, including every failure it catches
   * (a failing re-parse, an identifier whose datatype has no `includes`).
   */
  function MapRecord(record: Node, env: Foreign, index: nat): Option<McpRecord>
  {
    match RecordData(record, env.parse)
    case Err(_) => None
    case Ok(data) =>
      var rs := Resources(data);
      match FirstTitled(rs)
      case None => None
      case Some(k) =>
        match ExtractNdlBibId(rs[k])
        case Err(_) => None
        case Ok(bibId) => Some(Assemble(record, rs[k], bibId, env, index))
  }

  /**
   * What a mapped record holds: the first resource with a title, its
   * title, the identifier rule, the creator union and the optional fields,
   * and None when the record data cannot be read or no resource has a title.
   */
  lemma MapRecordFacts(record: Node, env: Foreign, index: nat)
    ensures RecordData(record, env.parse).Err? ==> MapRecord(record, env, index) == None
    ensures RecordData(record, env.parse).Ok? && FirstTitled(Resources(RecordData(record, env.parse).value)).None? ==> MapRecord(record, env, index) == None
    ensures MapRecord(record, env, index).Some? ==>
      var m := MapRecord(record, env, index).value;
      var rs := Resources(RecordData(record, env.parse).value);
      var bibId := ExtractNdlBibId(m.source.raw);
      // the chosen resource is the first with a title, and the title is its
      // dcterms:title, else its dc:title
      && (exists k :: 0 <= k < |rs| && rs[k] == m.source.raw && forall j :: 0 <= j < k ==> !HasTitle(rs[j]))
      && Truthy(m.title)
      && Some(m.title) == ExtractTitle(m.source.raw)
      // the identifier rule
      && bibId.Ok?
      && (m.ndlBibId.Some? <==> Present(bibId.value))
      && (Present(bibId.value) ==> m.id == "ndl:" + JsString(bibId.value.value) && m.ndlBibId == bibId.value)
      && (!Present(bibId.value) ==> m.id == "ndl:" + env.freshId(index))
      // optional fields
      && m.creators == Creators(m.source.raw)
      && (m.pubDate.Some? <==> Present(ExtractIssuedDate(m.source.raw)))
      && (m.pubDate.Some? ==> m.pubDate == ExtractIssuedDate(m.source.raw))
      && (m.subjects.None? <==> Subjects(m.source.raw) == [])
      && (m.subjects.Some? ==> m.subjects.value == Subjects(m.source.raw))
      && (m.description.Some? <==> Present(ExtractLanguage(m.source.raw)))
      && m.source.provider == "NDL" && m.source.license == "NDL Terms of Use"
  {
  }

  /** The loop that picks the first resource with a title. */
  method FindTitledResource(rs: seq<Node>) returns (k: Option<nat>)
    ensures k == FirstTitled(rs)
  {
    var i := 0;
    while i < |rs|
      invariant 0 <= i <= |rs|
      invariant forall j :: 0 <= j < i ==> !HasTitle(rs[j])
    {
      if HasTitle(rs[i]) {
        FirstTitledIs(rs, i);
        return Some(i);
      }
      i := i + 1;
    }
    FirstTitledIsNone(rs);
    return None;
  }

  lemma {:induction false} FirstTitledIs(rs: seq<Node>, i: nat)
    requires i < |rs| && HasTitle(rs[i])
    requires forall j :: 0 <= j < i ==> !HasTitle(rs[j])
    ensures FirstTitled(rs) == Some(i)
    decreases i
  {
    if i > 0 {
      FirstTitledIs(rs[1..], i - 1);
    }
  }

  lemma {:induction false} FirstTitledIsNone(rs: seq<Node>)
    requires forall j :: 0 <= j < |rs| ==> !HasTitle(rs[j])
    ensures FirstTitled(rs) == None
    decreases |rs|
  {
    if |rs| > 0 {
      FirstTitledIsNone(rs[1..]);
    }
  }

  /** `mapRecordToMCP`, step by step. */
  method MapRecordToMcp(record: Node, env: Foreign, index: nat) returns (r: Option<McpRecord>)
    ensures r == MapRecord(record, env, index)
  {
    var data := RecordData(record, env.parse);
    if data.Err? {
      return None;
    }
    var rs := Resources(data.value);
    var chosen := FindTitledResource(rs);
    if chosen.None? {
      return None;
    }
    var bib := rs[chosen.value];
    var bibId := ExtractNdlBibId(bib);
    if bibId.Err? {
      return None;
    }
    var creators := ExtractCreators(bib);
    var subjects := ExtractSubjects(bib);
    var found := Present(bibId.value);
    var date := ExtractIssuedDate(bib);
    var language := ExtractLanguage(bib);
    r := Some(McpRecord(
      id := "ndl:" + (if found then JsString(bibId.value.value) else env.freshId(index)),
      title := ExtractTitle(bib).value,
      creators := creators,
      pubDate := if Present(date) then date else None,
      ndlBibId := if found then bibId.value else None,
      subjects := if |subjects| > 0 then Some(subjects) else None,
      description := if Present(language) then Some("Language: " + JsString(language.value)) else None,
      source := RecordSource("NDL", env.retrievedAt, "NDL Terms of Use", bib),
      rawRecord := env.build(Elem(map["record" := record]))));
  }

  // --------------------------------------------------------------- responses

  /** `searchRetrieveResponse.records.record` as a list, [] when any step is missing. */
  function RecordList(doc: Node): seq<Node> {
    var response := Get(Some(doc), "searchRetrieveResponse");
    var records := Get(response, "records");
    var record := Get(records, "record");
    if Present(response) && Present(records) && Present(record) then Items(record.value) else []
  }

  /** What `mapRecordToMCP` makes of each entry, by position. */
  function Outcomes(records: seq<Node>, env: Foreign): (r: seq<Option<McpRecord>>)
    ensures |r| == |records|
    decreases |records|
  {
    if |records| == 0 then []
    else
      var n := |records| - 1;
      Outcomes(records[..n], env) + [MapRecord(records[n], env, n)]
  }

  /** Entry `i` of the outcomes is what `mapRecordToMCP` makes of entry `i`, at index `i`. */
  lemma {:induction false} OutcomesAt(records: seq<Node>, env: Foreign)
    ensures forall i :: 0 <= i < |records| ==> Outcomes(records, env)[i] == MapRecord(records[i], env, i)
    decreases |records|
  {
    if |records| > 0 {
      var n := |records| - 1;
      var p := records[..n];
      OutcomesAt(p, env);
      assert forall i :: 0 <= i < n ==> p[i] == records[i];
    }
  }

  const NullDocument: string := "TypeError: Cannot read properties of null (reading 'searchRetrieveResponse')"

  /** `parseNdlXmlToRecords`: the records, or the message of the error it throws. */
  function ParseRecords(rawXml: string, env: Foreign): (r: Result<seq<McpRecord>, string>)
    ensures env.parse(rawXml).ParseFailed? ==> r == Err("XML parsing failed: " + env.parse(rawXml).error)
    ensures env.parse(rawXml) == Parsed(None) ==> r.Err?
    ensures env.parse(rawXml).Parsed? && env.parse(rawXml).doc.Some? ==>
      r.Ok? && |r.value| <= |RecordList(env.parse(rawXml).doc.value)|
    ensures env.parse(rawXml).Parsed? && env.parse(rawXml).doc.Some? && RecordList(env.parse(rawXml).doc.value) == [] ==>
      r == Ok([])
  {
    match env.parse(rawXml)
    case ParseFailed(e) => Err("XML parsing failed: " + e)
    case Parsed(None) => Err("XML parsing failed: " + NullDocument)
    case Parsed(Some(doc)) =>
      Ok(Somes(Outcomes(RecordList(doc), env)))
  }

  /** `parseNdlXmlToRecords`: the records, or the message of the error it throws. */
  method ParseNdlXmlToRecords(rawXml: string, env: Foreign) returns (r: Result<seq<McpRecord>, string>)
    ensures r == ParseRecords(rawXml, env)
  {
    var parsed := env.parse(rawXml);
    if parsed.ParseFailed? {
      return Err("XML parsing failed: " + parsed.error);
    }
    if parsed.doc.None? {
      return Err("XML parsing failed: " + NullDocument);
    }
    var records := RecordList(parsed.doc.value);
    var out := MapAll(records, env);
    assert ParseRecords(rawXml, env) == Ok(Somes(Outcomes(records, env)));
    return Ok(out);
  }

  /** The loop over the record list that keeps what maps and skips what does not. */
  method MapAll(records: seq<Node>, env: Foreign) returns (out: seq<McpRecord>)
    ensures out == Somes(Outcomes(records, env))
  {
    out := [];
    var i := 0;
    while i < |records|
      invariant 0 <= i <= |records|
      invariant out == Somes(Outcomes(records[..i], env))
    {
      var m := MapRecordToMcp(records[i], env, i);
      MapStep(records, env, i, out, m);
      if m.Some? {
        out := out + [m.value];
      }
      i := i + 1;
    }
    assert records[..|records|] == records;
  }

  lemma MapStep(records: seq<Node>, env: Foreign, i: nat, out: seq<McpRecord>, m: Option<McpRecord>)
    requires i < |records|
    requires out == Somes(Outcomes(records[..i], env))
    requires m == MapRecord(records[i], env, i)
    ensures Somes(Outcomes(records[..i + 1], env)) == if m.Some? then out + [m.value] else out
  {
    assert records[..i + 1][..i] == records[..i];
  }

  /**
   * Output order follows input order: every mapped record comes from an
   * entry, at increasing positions, and every entry that maps is kept, so
   * a failing entry drops only itself.
   */
  lemma MappedInOrder(rawXml: string, env: Foreign, doc: Node) returns (idx: seq<nat>)
    requires env.parse(rawXml) == Parsed(Some(doc))
    ensures ParseRecords(rawXml, env).Ok?
    ensures var out := ParseRecords(rawXml, env).value;
      var records := RecordList(doc);
      && |idx| == |out|
      && (forall j :: 0 <= j < |idx| ==> idx[j] < |records| && MapRecord(records[idx[j]], env, idx[j]) == Some(out[j]))
      && (forall j, k :: 0 <= j < k < |idx| ==> idx[j] < idx[k])
      && (forall i :: 0 <= i < |records| && MapRecord(records[i], env, i).Some? ==> MapRecord(records[i], env, i).value in out)
  {
    var records := RecordList(doc);
    OutcomesAt(records, env);
    idx := SomesInOrder(Outcomes(records, env));
  }

  /** The document whose response holds `record` under `records`. */
  function Response(record: Node): Node {
    Elem(map["searchRetrieveResponse" := Elem(map["records" := Elem(map["record" := record])])])
  }

  /** A single record and a one-element list of it map alike. */
  lemma SingleRecordLikeList(raw1: string, raw2: string, env: Foreign, record: Node)
    requires !record.List? && Truthy(record)
    requires env.parse(raw1) == Parsed(Some(Response(record)))
    requires env.parse(raw2) == Parsed(Some(Response(List([record]))))
    ensures ParseRecords(raw1, env) == ParseRecords(raw2, env)
  {
    assert RecordList(Response(record)) == [record];
    assert RecordList(Response(List([record]))) == [record];
  }
}
