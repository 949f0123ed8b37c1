/**
 * The `ndl_search_books` tool: three search modes (the staged intelligent
 * engine, the rule-based strategy, a plain title search), the safe
 * fallback CQL built from the query's words, the choice of the first
 * candidate CQL the validator accepts, the stable preference for records
 * in the requested language, and the optional publish step.
 */
module SearchBooks {
  import opened JsText
  import opened SeqUtils
  import SearchNdl
  import SearchStrategy
  import QueryValidator
  import ResultScoring
  import IntelligentSearch
  import IntelligentFilter
  import ToolRecords
  import Publisher
  import DataFormatter
  import NdlConnector
  import XmlMapper

  // ------------------------------------------------------------- escaping

  /** `keyword.replace(/"/g, '\\"')`: every double quote gets a backslash in front. */
  function EscapeQuotes(s: string): (r: string)
    ensures |r| >= |s|
    ensures |s| > 0 ==> |r| > 0 && r[0] != '"'
    decreases |s|
  {
    if |s| == 0 then ""
    else (if s[0] == '"' then "\\\"" else [s[0]]) + EscapeQuotes(s[1..])
  }

  /**
   * The escape as the value mapped over keyword lists (kept apart from the
   * recursive definition so that its uses as a value stay cheap to reason about).
   */
  function EscapeKeyword(keyword: string): string {
    EscapeQuotes(keyword)
  }

  /** The inverse reading: a backslash followed by a quote stands for the quote. */
  function Unescape(s: string): string
    decreases |s|
  {
    if |s| == 0 then ""
    else if |s| >= 2 && s[0] == '\\' && s[1] == '"' then "\"" + Unescape(s[2..])
    else [s[0]] + Unescape(s[1..])
  }

  /** Escaping loses nothing: reading the escaped keyword back gives the keyword. */
  lemma {:induction false} UnescapeEscape(s: string)
    ensures Unescape(EscapeQuotes(s)) == s
    decreases |s|
  {
    if |s| > 0 {
      var rest := EscapeQuotes(s[1..]);
      UnescapeEscape(s[1..]);
      if s[0] == '"' {
        assert EscapeQuotes(s) == "\\\"" + rest;
        assert (("\\\"" + rest)[2..]) == rest;
      } else {
        assert EscapeQuotes(s) == [s[0]] + rest;
        assert ([s[0]] + rest)[1..] == rest;
      }
    }
  }

  /** Every quote of the escaped keyword has a backslash in front of it. */
  lemma {:induction false} EscapedQuotesGuarded(s: string)
    ensures forall i :: 0 <= i < |EscapeQuotes(s)| && EscapeQuotes(s)[i] == '"' ==> i > 0 && EscapeQuotes(s)[i - 1] == '\\'
    decreases |s|
  {
    if |s| > 0 {
      EscapedQuotesGuarded(s[1..]);
      var head := if s[0] == '"' then "\\\"" else [s[0]];
      var rest := EscapeQuotes(s[1..]);
      assert EscapeQuotes(s) == head + rest;
      forall i | 0 <= i < |head + rest| ensures (head + rest)[i] == '"' ==> i > 0 && (head + rest)[i - 1] == '\\' {
        if i == |head| {
          assert (head + rest)[i] == rest[0];
        } else if i > |head| {
          assert (head + rest)[i] == rest[i - |head|];
          assert (head + rest)[i - 1] == rest[i - 1 - |head|];
        }
      }
    }
  }

  /** A keyword without backslashes escapes to one that does not end in a backslash. */
  lemma {:induction false} EscapedEndsClean(s: string)
    requires '\\' !in s
    ensures |EscapeQuotes(s)| > 0 ==> EscapeQuotes(s)[|EscapeQuotes(s)| - 1] != '\\'
    decreases |s|
  {
    if |s| > 0 {
      EscapedEndsClean(s[1..]);
      var head := if s[0] == '"' then "\\\"" else [s[0]];
      assert s[0] in s;
      assert EscapeQuotes(s) == head + EscapeQuotes(s[1..]);
    }
  }

  // ----------------------------------------------------- fallback keywords

  function LongerThanOne(k: string): bool {
    |k| > 1
  }

  const FallbackNoiseWords: seq<string> :=
    ["書籍", "本", "資料", "文献", "探して", "検索", "調べ", "について", "関して", "に関して"]

  function NotNoise(k: string): bool {
    k !in FallbackNoiseWords
  }

  /** The words of the trimmed query longer than one unit, split on the strategy's separator class. */
  function Tokens(query: string): (r: seq<string>)
    ensures forall i :: 0 <= i < |r| ==> |r[i]| > 1
  {
    Filter(SplitWhere(Trim(query), SearchStrategy.IsSeparator), LongerThanOne)
  }

  /**
   * One keyword's contribution: itself when at most four units long,
   * otherwise its fixed decomposition or its first four units.
   */
  function Decompose(kw: string): (r: seq<string>)
    ensures 1 <= |r| <= 2
  {
    if |kw| > 4 then
      if Includes(kw, "明王朝") then ["明代", "中国"]
      else if Includes(kw, "税制度") then ["税制"]
      else if Includes(kw, "機械学習") then ["機械学習"]
      else if Includes(kw, "伝統医学") then ["伝統", "医学"]
      else [kw[..4]]
    else [kw]
  }

  /** The keywords after decomposition, in order. */
  function Simplified(keywords: seq<string>): seq<string> {
    Publisher.Flatten(Each(keywords, Decompose))
  }

  /**
   * The keywords as the code computes them: escaped first, then filtered,
   * decomposed (cutting escaped words at four units), de-duplicated and cut
   * to two.
   */
  function FallbackKeywordsAsWritten(query: string): seq<string> {
    Take(Dedup(Simplified(Filter(Each(Tokens(query), EscapeKeyword), NotNoise))), 2)
  }

  /**
   * The keywords with the cut made before escaping: filtered, decomposed,
   * then escaped, de-duplicated and cut to two. Noise words hold no quote,
   * so filtering before or after escaping keeps the same words.
   */
  function FallbackKeywords(query: string): seq<string> {
    Take(Dedup(Each(Simplified(Filter(Tokens(query), NotNoise)), EscapeKeyword)), 2)
  }

  function TitleClause(keyword: string): string {
    "title=\"" + keyword + "\""
  }

  const DefaultFallbackCql: string := "title=\"日本\""

  /** No keyword gives `title="日本"`, one its title clause, two their clauses joined by OR. */
  function CqlOfKeywords(keywords: seq<string>): string {
    if |keywords| == 0 then DefaultFallbackCql
    else if |keywords| == 1 then TitleClause(keywords[0])
    else TitleClause(keywords[0]) + " OR " + TitleClause(keywords[1])
  }

  /** The fallback CQL the tools send: built from the keywords in the code's order. */
  function FallbackCql(query: string): string {
    CqlOfKeywords(FallbackKeywordsAsWritten(query))
  }

  /** The fallback CQL with the cut made before escaping. */
  function CorrectedFallbackCql(query: string): string {
    CqlOfKeywords(FallbackKeywords(query))
  }

  /** `simpleKeywords.push(...)` over the meaningful keywords. */
  lemma FlattenSnoc<T>(ss: seq<seq<T>>, s: seq<T>)
    ensures Publisher.Flatten(ss + [s]) == Publisher.Flatten(ss) + s
    decreases |ss|
  {
    if |ss| > 0 {
      assert (ss + [s])[1..] == ss[1..] + [s];
    }
  }

  lemma SimplifiedStep(ms: seq<string>, i: nat)
    requires i < |ms|
    ensures Simplified(ms[..i + 1]) == Simplified(ms[..i]) + Decompose(ms[i])
  {
    assert ms[..i + 1] == ms[..i] + [ms[i]];
    assert Each(ms[..i + 1], Decompose) == Each(ms[..i], Decompose) + [Decompose(ms[i])];
    FlattenSnoc(Each(ms[..i], Decompose), Decompose(ms[i]));
  }

  /** One turn of the keyword loop: the keyword's decomposition pushed onto the list. */
  method PushDecomposed(simple: seq<string>, kw: string) returns (r: seq<string>)
    ensures r == simple + Decompose(kw)
  {
    if |kw| > 4 {
      if Includes(kw, "明王朝") {
        r := simple + ["明代", "中国"];
      } else if Includes(kw, "税制度") {
        r := simple + ["税制"];
      } else if Includes(kw, "機械学習") {
        r := simple + ["機械学習"];
      } else if Includes(kw, "伝統医学") {
        r := simple + ["伝統", "医学"];
      } else {
        r := simple + [kw[..4]];
      }
    } else {
      r := simple + [kw];
    }
  }

  /** The CQL for the final keywords. */
  method BuildFallbackCql(finalKeywords: seq<string>) returns (cql: string)
    ensures cql == CqlOfKeywords(finalKeywords)
  {
    if |finalKeywords| == 0 {
      cql := DefaultFallbackCql;
    } else if |finalKeywords| == 1 {
      cql := TitleClause(finalKeywords[0]);
    } else {
      cql := TitleClause(finalKeywords[0]) + " OR " + TitleClause(finalKeywords[1]);
    }
  }

  /**
   * `createSafeFallbackCql`: the words escaped, the noise words dropped,
   * the keyword loop with its decompositions, then de-duplication, the
   * first two, and the CQL.
   */
  method CreateSafeFallbackCql(query: string) returns (cql: string)
    ensures cql == FallbackCql(query)
  {
    var rawKeywords := AppendEach([], Tokens(query), EscapeKeyword);
    assert rawKeywords == Each(Tokens(query), EscapeKeyword);
    var meaningful := Filter(rawKeywords, NotNoise);
    var simple: seq<string> := [];
    var i := 0;
    while i < |meaningful|
      invariant 0 <= i <= |meaningful|
      invariant simple == Simplified(meaningful[..i])
    {
      SimplifiedStep(meaningful, i);
      simple := PushDecomposed(simple, meaningful[i]);
      i := i + 1;
    }
    assert meaningful[..i] == meaningful;
    var finalKeywords := Take(Dedup(simple), 2);
    cql := BuildFallbackCql(finalKeywords);
  }

  // ------------------------------------------------- fallback keyword facts

  /** A word the fallback may keep: two to four units, no separator, not a noise word. */
  predicate PlainKeyword(u: string) {
    2 <= |u| <= 4 && u !in FallbackNoiseWords && forall j :: 0 <= j < |u| ==> !SearchStrategy.IsSeparator(u[j])
  }

  /** The fixed decompositions are plain keywords. */
  lemma DecompositionsPlain()
    ensures PlainKeyword("明代") && PlainKeyword("中国") && PlainKeyword("税制")
    ensures PlainKeyword("機械学習") && PlainKeyword("伝統") && PlainKeyword("医学")
  {
    ShortDecompositionsPlain();
    OtherDecompositionsPlain();
  }

  lemma ShortDecompositionsPlain()
    ensures PlainKeyword("明代") && PlainKeyword("中国") && PlainKeyword("税制")
  {
  }

  lemma OtherDecompositionsPlain()
    ensures PlainKeyword("機械学習") && PlainKeyword("伝統") && PlainKeyword("医学")
  {
  }

  /** A word the keyword loop may see: longer than one unit, no separator, not a noise word. */
  predicate MeaningfulWord(w: string) {
    |w| > 1 && w !in FallbackNoiseWords && forall j :: 0 <= j < |w| ==> !SearchStrategy.IsSeparator(w[j])
  }

  /**
   * A meaningful word decomposes into plain keywords; an ASCII character
   * the word lacks is in none of them (the fixed decompositions are all
   * outside ASCII).
   */
  lemma DecomposePlain(kw: string, c: char)
    requires MeaningfulWord(kw)
    ensures forall i :: 0 <= i < |Decompose(kw)| ==> PlainKeyword(Decompose(kw)[i])
    ensures c < '\U{80}' && c !in kw ==> forall i :: 0 <= i < |Decompose(kw)| ==> c !in Decompose(kw)[i]
  {
    DecompositionsPlain();
    if |kw| > 4 {
      var u := kw[..4];
      assert u[0] == kw[0] && !SearchStrategy.IsSeparator(kw[0]);
      assert u !in FallbackNoiseWords by {
        assert SearchStrategy.IsSeparator('に');
        assert forall w :: w in FallbackNoiseWords && |w| == 4 ==> w[0] == 'に';
      }
      if c in u {
        var j :| 0 <= j < |u| && u[j] == c;
        assert kw[j] == c;
      }
    }
  }

  /** The pieces of a split hold only characters of the split string. */
  lemma {:induction false} SplitWhereChars(s: string, isSep: char -> bool, c: char)
    requires c !in s
    ensures forall i :: 0 <= i < |SplitWhere(s, isSep)| ==> c !in SplitWhere(s, isSep)[i]
    decreases |s|
  {
    if |s| > 0 {
      SplitWhereChars(s[1..], isSep, c);
      assert s[0] in s;
      var rest := SplitWhere(s[1..], isSep);
      if !isSep(s[0]) {
        assert c !in [s[0]] + rest[0];
      }
    }
  }

  /** Trimming only removes characters. */
  lemma TrimChars(s: string, c: char)
    requires c !in s
    ensures c !in Trim(s)
  {
    var a := TrimStart(s);
    var b := TrimEnd(a);
    assert a == s[|s| - |a|..];
    assert b == a[..|b|];
    forall j | 0 <= j < |b| ensures b[j] != c {
      assert b[j] == s[|s| - |a| + j];
    }
  }

  /** Every word of the flattened list sits in one of the pieces. */
  lemma {:induction false} FlattenMember<T>(ss: seq<seq<T>>, k: nat) returns (i: nat, j: nat)
    requires k < |Publisher.Flatten(ss)|
    ensures i < |ss| && j < |ss[i]| && Publisher.Flatten(ss)[k] == ss[i][j]
    decreases |ss|
  {
    assert Publisher.Flatten(ss) == ss[0] + Publisher.Flatten(ss[1..]);
    if k < |ss[0]| {
      i, j := 0, k;
    } else {
      var i', j' := FlattenMember(ss[1..], k - |ss[0]|);
      i, j := i' + 1, j';
    }
  }

  /**
   * The words of the query are longer than one unit and free of
   * separators, and hold no character the query lacks.
   */
  lemma TokensShape(query: string, c: char)
    ensures forall t :: t in Tokens(query) ==>
      |t| > 1 && (forall j :: 0 <= j < |t| ==> !SearchStrategy.IsSeparator(t[j])) && (c !in query ==> c !in t)
  {
    var pieces := SplitWhere(Trim(query), SearchStrategy.IsSeparator);
    FilterMembers(pieces, LongerThanOne);
    if c !in query {
      TrimChars(query, c);
      SplitWhereChars(Trim(query), SearchStrategy.IsSeparator, c);
    }
    forall t | t in Tokens(query)
      ensures |t| > 1 && (forall j :: 0 <= j < |t| ==> !SearchStrategy.IsSeparator(t[j])) && (c !in query ==> c !in t)
    {
      var p :| 0 <= p < |pieces| && pieces[p] == t;
      assert forall q :: 0 <= q < |t| ==> !SearchStrategy.IsSeparator(pieces[p][q]);
    }
  }

  /**
   * The decompositions of meaningful words are plain keywords, and hold no
   * ASCII character that none of the words holds.
   */
  lemma SimplifiedOfMeaningful(m: seq<string>, c: char)
    requires AllMeaningful(m)
    ensures var s := Simplified(m);
      && (forall k :: 0 <= k < |s| ==> PlainKeyword(s[k]))
      && (c < '\U{80}' && (forall i :: 0 <= i < |m| ==> c !in m[i]) ==> forall k :: 0 <= k < |s| ==> c !in s[k])
  {
    var s := Simplified(m);
    forall k | 0 <= k < |s|
      ensures PlainKeyword(s[k])
      ensures c < '\U{80}' && (forall i :: 0 <= i < |m| ==> c !in m[i]) ==> c !in s[k]
    {
      var i, j := FlattenMember(Each(m, Decompose), k);
      DecomposePlain(m[i], c);
    }
  }

  /** The decomposed keywords of the meaningful words are plain keywords, free of ASCII characters the query lacks. */
  lemma SimplifiedPlain(query: string, c: char)
    ensures var s := Simplified(Filter(Tokens(query), NotNoise));
      forall k :: 0 <= k < |s| ==> PlainKeyword(s[k])
    ensures var s := Simplified(Filter(Tokens(query), NotNoise));
      c < '\U{80}' && c !in query ==> forall k :: 0 <= k < |s| ==> c !in s[k]
  {
    var toks := Tokens(query);
    var m := Filter(toks, NotNoise);
    TokensShape(query, c);
    FilterMembers(toks, NotNoise);
    forall i | 0 <= i < |m| ensures MeaningfulWord(m[i]) && (c !in query ==> c !in m[i]) {
      assert m[i] in m;
    }
    SimplifiedOfMeaningful(m, c);
  }

  /** Each fallback keyword is the escaping of one decomposed keyword. */
  lemma KeywordOrigin(query: string, i: nat) returns (k: nat)
    requires i < |FallbackKeywords(query)|
    ensures var s := Simplified(Filter(Tokens(query), NotNoise));
      k < |s| && FallbackKeywords(query)[i] == EscapeQuotes(s[k])
  {
    var s := Simplified(Filter(Tokens(query), NotNoise));
    var e := Each(s, EscapeKeyword);
    var d := Dedup(e);
    var ks := FallbackKeywords(query);
    assert ks == Take(d, 2) && ks <= d;
    assert ks[i] == d[i] && d[i] in d;
    assert ks[i] in e;
    k :| 0 <= k < |e| && e[k] == ks[i];
  }

  /**
   * The fallback keywords: at most two, pairwise distinct, each the
   * escaping of a plain keyword (two to four units, no separator, not a
   * noise word); and with no backslash in the query, none ends in a
   * backslash, so each title clause keeps its closing quote.
   */
  lemma FallbackKeywordsShape(query: string)
    ensures var ks := FallbackKeywords(query);
      && |ks| <= 2 && Distinct(ks)
      && (forall i :: 0 <= i < |ks| ==> PlainKeyword(Unescape(ks[i])))
      && ('\\' !in query ==> forall i :: 0 <= i < |ks| ==> |ks[i]| > 0 && ks[i][|ks[i]| - 1] != '\\')
  {
    var s := Simplified(Filter(Tokens(query), NotNoise));
    var ks := FallbackKeywords(query);
    var d := Dedup(Each(s, EscapeKeyword));
    SimplifiedPlain(query, '\\');
    forall i | 0 <= i < |ks|
      ensures PlainKeyword(Unescape(ks[i]))
      ensures '\\' !in query ==> |ks[i]| > 0 && ks[i][|ks[i]| - 1] != '\\'
    {
      var k := KeywordOrigin(query, i);
      UnescapeEscape(s[k]);
      if '\\' !in query {
        EscapedEndsClean(s[k]);
      }
    }
    assert ks <= d;
    forall a, b | 0 <= a < b < |ks| ensures ks[a] != ks[b] {
      assert ks[a] == d[a] && ks[b] == d[b];
    }
  }

  predicate AllMeaningful(ws: seq<string>) {
    forall i :: 0 <= i < |ws| ==> MeaningfulWord(ws[i])
  }

  /** A character property that holds of the backslash and of every unit of a word holds of every unit of its escaping. */
  lemma {:induction false} EscapeKeepsProperty(t: string, p: char -> bool)
    requires p('\\') && forall j :: 0 <= j < |t| ==> p(t[j])
    ensures forall q :: 0 <= q < |EscapeQuotes(t)| ==> p(EscapeQuotes(t)[q])
    decreases |t|
  {
    if |t| > 0 {
      EscapeKeepsProperty(t[1..], p);
      var head := if t[0] == '"' then "\\\"" else [t[0]];
      var rest := EscapeQuotes(t[1..]);
      assert EscapeQuotes(t) == head + rest;
      forall q | 0 <= q < |head + rest| ensures p((head + rest)[q]) {
        if q >= |head| {
          assert (head + rest)[q] == rest[q - |head|];
        }
      }
    }
  }

  function NotSeparator(c: char): bool {
    !SearchStrategy.IsSeparator(c)
  }

  lemma BackslashNotSeparator()
    ensures NotSeparator('\\')
  {
    assert !IsSpace('\\');
  }

  /** Escaping a separator-free word longer than one unit keeps it so; outside the noise words it is meaningful. */
  lemma EscapedMeaningful(t: string)
    requires |t| > 1 && forall j :: 0 <= j < |t| ==> !SearchStrategy.IsSeparator(t[j])
    requires NotNoise(EscapeQuotes(t))
    ensures MeaningfulWord(EscapeQuotes(t))
  {
    EscapedNoSeparator(t);
    MeaningfulOf(EscapeQuotes(t));
  }

  /** A word longer than one unit, not a noise word and without separators is meaningful. */
  lemma MeaningfulOf(w: string)
    requires |w| > 1 && NotNoise(w) && forall q :: 0 <= q < |w| ==> NotSeparator(w[q])
    ensures MeaningfulWord(w)
  {
  }

  /** Escaping a separator-free word adds no separator. */
  lemma EscapedNoSeparator(t: string)
    requires forall j :: 0 <= j < |t| ==> NotSeparator(t[j])
    ensures forall q :: 0 <= q < |EscapeQuotes(t)| ==> NotSeparator(EscapeQuotes(t)[q])
  {
    BackslashNotSeparator();
    EscapeKeepsProperty(t, NotSeparator);
  }

  /** Words longer than one unit and free of separators, escaped and rid of noise words, are meaningful words. */
  lemma FilteredEscapesMeaningful(toks: seq<string>)
    requires forall t :: t in toks ==> |t| > 1 && forall j :: 0 <= j < |t| ==> !SearchStrategy.IsSeparator(t[j])
    ensures AllMeaningful(Filter(Each(toks, EscapeKeyword), NotNoise))
  {
    var e := Each(toks, EscapeKeyword);
    var m := Filter(e, NotNoise);
    FilterMembers(e, NotNoise);
    forall i | 0 <= i < |m| ensures MeaningfulWord(m[i]) {
      assert m[i] in m;
      var j :| 0 <= j < |e| && e[j] == m[i];
      assert toks[j] in toks;
      EscapedMeaningful(toks[j]);
    }
  }

  /** The escaped words of the query that survive the noise filter are meaningful words. */
  lemma EscapedWordsMeaningful(query: string)
    ensures AllMeaningful(Filter(Each(Tokens(query), EscapeKeyword), NotNoise))
  {
    TokensShape(query, '\\');
    FilteredEscapesMeaningful(Tokens(query));
  }

  /** The first two distinct words of a list of plain keywords are distinct plain keywords. */
  lemma FirstTwoDistinctPlain(s: seq<string>)
    requires forall k :: 0 <= k < |s| ==> PlainKeyword(s[k])
    ensures var ks := Take(Dedup(s), 2);
      |ks| <= 2 && Distinct(ks) && forall i :: 0 <= i < |ks| ==> PlainKeyword(ks[i])
  {
    var d := Dedup(s);
    var ks := Take(d, 2);
    assert ks <= d;
    forall i | 0 <= i < |ks| ensures PlainKeyword(ks[i]) {
      assert ks[i] == d[i] && d[i] in d;
      var k :| 0 <= k < |s| && s[k] == ks[i];
    }
    forall a, b | 0 <= a < b < |ks| ensures ks[a] != ks[b] {
      assert ks[a] == d[a] && ks[b] == d[b];
    }
  }

  /**
   * The keywords the code computes: at most two, pairwise distinct, each a
   * plain keyword (two to four units, no separator, not a noise word).
   */
  lemma FallbackKeywordsAsWrittenShape(query: string)
    ensures var ks := FallbackKeywordsAsWritten(query);
      && |ks| <= 2 && Distinct(ks)
      && forall i :: 0 <= i < |ks| ==> PlainKeyword(ks[i])
  {
    var m := Filter(Each(Tokens(query), EscapeKeyword), NotNoise);
    EscapedWordsMeaningful(query);
    SimplifiedOfMeaningful(m, '\\');
    FirstTwoDistinctPlain(Simplified(m));
  }

  /** No word of the list holds a double quote. */
  predicate NoQuotes(ws: seq<string>) {
    forall k :: 0 <= k < |ws| ==> '"' !in ws[k]
  }

  /** A query without a double quote has none in its words, before or after decomposition. */
  lemma QuoteFreeWords(query: string)
    requires '"' !in query
    ensures NoQuotes(Tokens(query))
    ensures NoQuotes(Simplified(Filter(Tokens(query), NotNoise)))
  {
    var toks := Tokens(query);
    TokensShape(query, '"');
    forall k | 0 <= k < |toks| ensures '"' !in toks[k] {
      assert toks[k] in toks;
    }
    SimplifiedPlain(query, '"');
  }

  /** Words without a double quote are left alone by escaping. */
  lemma EscapeFreeWords(ws: seq<string>)
    requires NoQuotes(ws)
    ensures Each(ws, EscapeKeyword) == ws
  {
    forall k | 0 <= k < |ws| ensures EscapeKeyword(ws[k]) == ws[k] {
      EscapeQuoteFree(ws[k]);
    }
  }

  /**
   * Without a double quote in the query escaping changes nothing, so the
   * code's order and the corrected one send the same CQL.
   */
  lemma QuoteFreeOrdersAgree(query: string)
    requires '"' !in query
    ensures FallbackKeywordsAsWritten(query) == FallbackKeywords(query)
    ensures FallbackCql(query) == CorrectedFallbackCql(query)
  {
    QuoteFreeWords(query);
    EscapeFreeWords(Tokens(query));
    EscapeFreeWords(Simplified(Filter(Tokens(query), NotNoise)));
  }

  // --------------------------------------------- the cut that splits an escape

  /** A string whose ends are not white space is its own trim. */
  lemma TrimUnchanged(s: string)
    requires |s| > 0 && !IsSpace(s[0]) && !IsSpace(s[|s| - 1])
    ensures Trim(s) == s
  {
    var a := TrimStart(s);
    assert !IsSpace(s[0]);
    assert a == s;
    assert !IsSpace(a[|a| - 1]);
    assert TrimEnd(a) == a;
  }

  /** With no separator in it, the split gives the string itself. */
  lemma {:induction false} SplitWhereNone(s: string, isSep: char -> bool)
    requires forall i :: 0 <= i < |s| ==> !isSep(s[i])
    ensures SplitWhere(s, isSep) == [s]
    decreases |s|
  {
    if |s| > 0 {
      SplitWhereNone(s[1..], isSep);
      assert !isSep(s[0]);
      assert [s[0]] + s[1..] == s;
    }
  }

  /** Escaping distributes over concatenation. */
  lemma {:induction false} EscapeConcat(a: string, b: string)
    ensures EscapeQuotes(a + b) == EscapeQuotes(a) + EscapeQuotes(b)
    decreases |a|
  {
    if |a| == 0 {
      assert a + b == b;
    } else {
      var h := if a[0] == '"' then "\\\"" else [a[0]];
      assert (a + b)[0] == a[0];
      assert (a + b)[1..] == a[1..] + b;
      assert EscapeQuotes(a + b) == h + EscapeQuotes(a[1..] + b);
      EscapeConcat(a[1..], b);
      assert EscapeQuotes(a) == h + EscapeQuotes(a[1..]);
    }
  }

  /** A string without quotes escapes to itself. */
  lemma {:induction false} EscapeQuoteFree(s: string)
    requires '"' !in s
    ensures EscapeQuotes(s) == s
    decreases |s|
  {
    if |s| > 0 {
      assert s[0] in s;
      EscapeQuoteFree(s[1..]);
      assert [s[0]] + s[1..] == s;
    }
  }

  /** A string that includes `t` holds `t`'s first character. */
  lemma {:induction false} IncludesFirstChar(s: string, t: string)
    requires |t| > 0
    ensures Includes(s, t) ==> t[0] in s
    decreases |s|
  {
    if |s| > 0 {
      IncludesFirstChar(s[1..], t);
      assert s[0] in s;
      assert forall c :: c in s[1..] ==> c in s;
    }
  }

  /** A word over five units holding none of the decomposition triggers is cut to its first four units. */
  lemma DecomposeCuts(kw: string)
    requires |kw| > 4 && forall i :: 0 <= i < |kw| ==> kw[i] < '\U{80}'
    ensures Decompose(kw) == [kw[..4]]
  {
    IncludesFirstChar(kw, "明王朝");
    IncludesFirstChar(kw, "税制度");
    IncludesFirstChar(kw, "機械学習");
    IncludesFirstChar(kw, "伝統医学");
  }

  /** A query with no separator and more than one unit is a single token. */
  lemma SingleToken(q: string)
    requires |q| > 1 && forall i :: 0 <= i < |q| ==> !SearchStrategy.IsSeparator(q[i])
    ensures Tokens(q) == [q]
  {
    assert !IsSpace(q[0]) && !IsSpace(q[|q| - 1]);
    TrimUnchanged(q);
    SplitWhereNone(q, SearchStrategy.IsSeparator);
    assert Filter([q], LongerThanOne) == [q];
  }

  /** No noise word is longer than four units. */
  lemma LongWordNotNoise(k: string)
    requires |k| > 4
    ensures NotNoise(k)
  {
    assert forall w :: w in FallbackNoiseWords ==> |w| <= 4;
  }

  /** A single long ASCII word is kept, then cut to its first four units. */
  lemma SingleWordKeywords(k: string)
    requires |k| > 4 && forall i :: 0 <= i < |k| ==> k[i] < '\U{80}'
    ensures Simplified(Filter([k], NotNoise)) == [k[..4]]
  {
    var kept := Filter([k], NotNoise);
    assert kept == [k] by {
      LongWordNotNoise(k);
    }
    var parts := Each(kept, Decompose);
    assert parts == [[k[..4]]] by {
      DecomposeCuts(k);
    }
    assert Publisher.Flatten(parts) == [k[..4]] + Publisher.Flatten([]);
  }

  /** One keyword survives de-duplication and the cut to two unchanged. */
  lemma SingleKeywordKept(k: string)
    ensures Take(Dedup([k]), 2) == [k]
  {
    assert [k][..0] == [];
  }

  /** Escaping adds backslashes and nothing else. */
  lemma {:induction false} EscapedChars(s: string)
    ensures forall c :: c in EscapeQuotes(s) ==> c in s || c == '\\'
    decreases |s|
  {
    if |s| > 0 {
      EscapedChars(s[1..]);
      assert s[0] in s;
      assert forall c :: c in s[1..] ==> c in s;
    }
  }

  /** After a quote-free start, a quote gains its backslash and the rest is escaped on its own. */
  lemma EscapeAfterQuoteFree(head: string, rest: string)
    requires '"' !in head
    ensures EscapeQuotes(head + ['"'] + rest) == head + "\\\"" + EscapeQuotes(rest)
  {
    var t := ['"'] + rest;
    assert head + ['"'] + rest == head + t;
    EscapeConcat(head, t);
    EscapeQuoteFree(head);
    assert t[0] == '"' && t[1..] == rest;
  }

  /** A word whose fourth unit is its first quote: the quote gains its backslash there. */
  lemma EscapeAtFourth(q: string)
    requires |q| > 4 && q[3] == '"' && '"' !in q[..3]
    ensures EscapeQuotes(q) == q[..3] + "\\\"" + EscapeQuotes(q[4..])
    ensures EscapeQuotes(q[..4]) == q[..3] + "\\\""
  {
    assert q == q[..3] + ['"'] + q[4..];
    EscapeAfterQuoteFree(q[..3], q[4..]);
    assert q[..4] == q[..3] + ['"'] + [];
    EscapeAfterQuoteFree(q[..3], []);
    assert q[..3] + "\\\"" + EscapeQuotes([]) == q[..3] + "\\\"";
  }

  /**
   * A query that is one ASCII word of five or more units, free of
   * separators and backslashes, whose fourth unit is its first double
   * quote (`abc"def`, say): the code escapes the word to `abc\"def` first
   * and keeps the first four units afterwards, `abc\`, so the CQL reads
   * `title="abc\"`, whose closing quote is escaped and the clause never
   * closes.
   */
  lemma DanglingBackslash(q: string)
    requires |q| > 4 && q[3] == '"' && '"' !in q[..3]
    requires forall i :: 0 <= i < |q| ==> q[i] < '\U{80}' && q[i] != '\\' && !SearchStrategy.IsSeparator(q[i])
    ensures FallbackKeywordsAsWritten(q) == [q[..3] + "\\"]
    ensures FallbackCql(q) == "title=\"" + q[..3] + "\\\""
  {
    SingleToken(q);
    var e := EscapeQuotes(q);
    EscapeAtFourth(q);
    EscapedChars(q);
    assert forall i :: 0 <= i < |e| ==> e[i] < '\U{80}' by {
      forall i | 0 <= i < |e|
        ensures e[i] < '\U{80}'
      {
        assert e[i] in e;
      }
    }
    assert Each([q], EscapeKeyword) == [e];
    SingleWordKeywords(e);
    assert e[..4] == q[..3] + "\\";
    SingleKeywordKept(q[..3] + "\\");
  }

  /** On the same queries, cutting before escaping keeps the quote whole and the clause closes. */
  lemma CutBeforeEscapeCloses(q: string)
    requires |q| > 4 && q[3] == '"' && '"' !in q[..3]
    requires forall i :: 0 <= i < |q| ==> q[i] < '\U{80}' && !SearchStrategy.IsSeparator(q[i])
    ensures FallbackKeywords(q) == [q[..3] + "\\\""]
    ensures CorrectedFallbackCql(q) == "title=\"" + q[..3] + "\\\"\""
  {
    SingleToken(q);
    SingleWordKeywords(q);
    EscapeAtFourth(q);
    assert Each([q[..4]], EscapeKeyword) == [q[..3] + "\\\""];
    SingleKeywordKept(q[..3] + "\\\"");
  }

  // ------------------------------------------------ choosing the CQL

  /** The CQL of a candidate passes the validator with the cap of 200 records. */
  predicate Accepted(c: SearchStrategy.CqlCandidate) {
    QueryValidator.ValidateQuery(c.cql, Some(200)).Valid?
  }

  /** `{cql, strategy}`: the CQL to send and the name of the strategy that produced it. */
  datatype Chosen = Chosen(cql: string, strategy: string)

  const FallbackStrategy: string := "simple-fallback"
  const AllFailedPrefix: string := "All search strategies failed: "

  /**
   * `buildCqlFromQueryWithStrategy`: the first candidate, in the order
   * given, whose CQL validates; when none does, the fallback CQL if it
   * validates, and otherwise the validator's message behind the prefix.
   */
  function ChooseCql(query: string, candidates: seq<SearchStrategy.CqlCandidate>): Result<Chosen, string> {
    match FirstIndexWhere(candidates, Accepted, 0)
    case Some(i) => Ok(Chosen(candidates[i].cql, candidates[i].strategy))
    case None => FallbackChoice(query)
  }

  /**
   * What is chosen always validates and is a candidate's CQL with its
   * strategy, or the fallback CQL under `simple-fallback`; the choice fails
   * exactly when every candidate and the fallback are rejected, with the
   * message behind `All search strategies failed: `.
   */
  lemma ChooseCqlFacts(query: string, candidates: seq<SearchStrategy.CqlCandidate>)
    ensures var r := ChooseCql(query, candidates);
      && (r.Ok? ==> QueryValidator.ValidateQuery(r.value.cql, Some(200)).Valid?)
      && (r.Ok? ==> (exists i :: 0 <= i < |candidates| && r.value == Chosen(candidates[i].cql, candidates[i].strategy))
                    || r.value == Chosen(FallbackCql(query), FallbackStrategy))
      && (r.Err? <==> (forall i :: 0 <= i < |candidates| ==> !Accepted(candidates[i]))
                      && QueryValidator.ValidateQuery(FallbackCql(query), Some(200)).Invalid?)
      && (r.Err? ==> StartsWith(r.error, AllFailedPrefix))
  {
    var f := FirstIndexWhere(candidates, Accepted, 0);
    if f.Some? {
      var i := f.value;
      assert ChooseCql(query, candidates).value == Chosen(candidates[i].cql, candidates[i].strategy);
    }
  }

  /** After every candidate was rejected: the fallback CQL if it validates, else the failure. */
  function FallbackChoice(query: string): (r: Result<Chosen, string>)
    ensures r.Ok? <==> QueryValidator.ValidateQuery(FallbackCql(query), Some(200)).Valid?
    ensures r.Ok? ==> r.value == Chosen(FallbackCql(query), FallbackStrategy)
    ensures r.Err? ==> StartsWith(r.error, AllFailedPrefix)
  {
    var v := QueryValidator.ValidateQuery(FallbackCql(query), Some(200));
    if v.Valid? then Ok(Chosen(v.cql, FallbackStrategy))
    else
      StartsWithPrefix(AllFailedPrefix, v.error.message);
      Err(AllFailedPrefix + v.error.message)
  }

  /** The fallback step: build the fallback CQL, validate it, and fail with the validator's message. */
  method ValidateFallback(query: string) returns (r: Result<Chosen, string>)
    ensures r == FallbackChoice(query)
  {
    var fallback := CreateSafeFallbackCql(query);
    var v := QueryValidator.ValidateQuery(fallback, Some(200));
    if v.Invalid? {
      return Err(AllFailedPrefix + v.error.message);
    }
    return Ok(Chosen(v.cql, FallbackStrategy));
  }

  /** The candidate chosen is the first accepted one: every candidate before it was rejected. */
  lemma ChoosesFirstAccepted(query: string, candidates: seq<SearchStrategy.CqlCandidate>, i: nat)
    requires i < |candidates| && Accepted(candidates[i])
    requires forall j :: 0 <= j < i ==> !Accepted(candidates[j])
    ensures ChooseCql(query, candidates) == Ok(Chosen(candidates[i].cql, candidates[i].strategy))
  {
    var f := FirstIndexWhere(candidates, Accepted, 0);
    assert f.Some? && f.value == i;
  }

  /** The fallback is used only when every candidate was rejected. */
  lemma FallbackOnlyAfterRejections(query: string, candidates: seq<SearchStrategy.CqlCandidate>)
    requires exists i :: 0 <= i < |candidates| && Accepted(candidates[i])
    ensures ChooseCql(query, candidates).Ok?
    ensures exists i :: 0 <= i < |candidates| && Accepted(candidates[i])
              && ChooseCql(query, candidates).value == Chosen(candidates[i].cql, candidates[i].strategy)
  {
    var f := FirstIndexWhere(candidates, Accepted, 0);
    assert f.Some?;
  }

  /** One candidate through the validator: whether it passes, and the CQL the validator hands back. */
  method ValidateCandidate(c: SearchStrategy.CqlCandidate) returns (ok: bool, cql: string)
    ensures ok == Accepted(c)
    ensures ok ==> cql == c.cql
  {
    var v := QueryValidator.ValidateQuery(c.cql, Some(200));
    ok := v.Valid?;
    cql := if v.Valid? then v.cql else c.cql;
  }

  /** The loop over the candidates, then the fallback. */
  method BuildCqlFromQueryWithStrategy(query: string, candidates: seq<SearchStrategy.CqlCandidate>)
    returns (r: Result<Chosen, string>)
    ensures r == ChooseCql(query, candidates)
  {
    for i := 0 to |candidates|
      invariant FirstIndexWhere(candidates, Accepted, i) == FirstIndexWhere(candidates, Accepted, 0)
    {
      var ok, cql := ValidateCandidate(candidates[i]);
      if ok {
        return Ok(Chosen(cql, candidates[i].strategy));
      }
    }
    r := ValidateFallback(query);
  }

  /**
   * For the strategy's own candidates: when the subject query validates it
   * is the one sent, under the strategy name `subject-primary`.
   */
  lemma PrimaryChosenWhenAccepted(query: string)
    requires Accepted(SearchStrategy.Primary(SearchStrategy.AnalyzeSearchIntent(query)))
    ensures var p := SearchStrategy.Primary(SearchStrategy.AnalyzeSearchIntent(query));
      ChooseCql(query, SearchStrategy.Candidates(SearchStrategy.AnalyzeSearchIntent(query)))
        == Ok(Chosen(p.cql, "subject-primary"))
  {
    var intent := SearchStrategy.AnalyzeSearchIntent(query);
    SearchStrategy.PrimaryComesFirst(intent);
    ChoosesFirstAccepted(query, SearchStrategy.Candidates(intent), 0);
  }

  // ------------------------------------------------- language preference

  /** 1 for a record in the preferred language, 0 otherwise. */
  function LanguageKey(lang: string): SearchNdl.NdlRecord -> int {
    (rec: SearchNdl.NdlRecord) => if rec.language == Some(lang) then 1 else 0
  }

  /**
   * `rankByPreferredLanguage`: a stable sort on that key, which puts the
   * records in the preferred language first and keeps the order within
   * each group.
   */
  function RankByPreferredLanguage(records: seq<SearchNdl.NdlRecord>, lang: string): (r: seq<SearchNdl.NdlRecord>)
    ensures r == WithKey(records, LanguageKey(lang), 1) + WithKey(records, LanguageKey(lang), 0)
    ensures multiset(r) == multiset(records)
  {
    SortDescPartition01(records, LanguageKey(lang));
    SortDescPermutation(records, LanguageKey(lang));
    SortDesc(records, LanguageKey(lang))
  }

  /**
   * The ranked list splits at one point: before it every record is in the
   * preferred language, after it none is.
   */
  lemma PreferredLanguageFirst(records: seq<SearchNdl.NdlRecord>, lang: string)
    ensures var r := RankByPreferredLanguage(records, lang);
      var n := |WithKey(records, LanguageKey(lang), 1)|;
      n <= |r|
      && (forall i :: 0 <= i < n ==> r[i].language == Some(lang))
      && (forall i :: n <= i < |r| ==> r[i].language != Some(lang))
  {
    var key := LanguageKey(lang);
    var first := WithKey(records, key, 1);
    var rest := WithKey(records, key, 0);
    WithKeyMembers(records, key, 1);
    WithKeyMembers(records, key, 0);
    var r := RankByPreferredLanguage(records, lang);
    forall i | 0 <= i < |first|
      ensures r[i].language == Some(lang)
    {
      assert r[i] == first[i] && first[i] in first;
    }
    forall i | |first| <= i < |r|
      ensures r[i].language != Some(lang)
    {
      assert r[i] == rest[i - |first|] && rest[i - |first|] in rest;
    }
  }

  /** A list already in the preferred order is left as it is. */
  lemma RankIdempotent(records: seq<SearchNdl.NdlRecord>, lang: string)
    ensures RankByPreferredLanguage(RankByPreferredLanguage(records, lang), lang)
         == RankByPreferredLanguage(records, lang)
  {
    var key := LanguageKey(lang);
    var a := WithKey(records, key, 1);
    var b := WithKey(records, key, 0);
    KeptWithKey(records, key, 1);
    KeptWithKey(records, key, 0);
    assert WithKey(a + b, key, 1) == a by {
      WithKeyConcat(a, b, key, 1);
      AllWithKey(a, key, 1);
      NoneWithKey(b, key, 1);
    }
    assert WithKey(a + b, key, 0) == b by {
      WithKeyConcat(a, b, key, 0);
      NoneWithKey(a, key, 0);
      AllWithKey(b, key, 0);
    }
  }

  /** Every record kept for key value `v` has that value. */
  lemma KeptWithKey(records: seq<SearchNdl.NdlRecord>, key: SearchNdl.NdlRecord -> int, v: int)
    ensures forall i :: 0 <= i < |WithKey(records, key, v)| ==> key(WithKey(records, key, v)[i]) == v
  {
    var kept := WithKey(records, key, v);
    WithKeyMembers(records, key, v);
    forall i | 0 <= i < |kept| ensures key(kept[i]) == v {
      assert kept[i] in kept;
    }
  }

  // ----------------------------------------------------- the publish record

  /**
   * This tool's `convertToMCPRecord`: like the other tools' conversion with
   * the serialised record kept, except that the date goes out as the record
   * holds it, without taking the text out of a date object.
   */
  function ConvertToMcpRecord(rec: SearchNdl.NdlRecord, env: ToolRecords.PublishEnv): (r: ToolRecords.PublishRecord)
    ensures r.pubDate == rec.date
    ensures r == ToolRecords.ConvertToMcpRecord(rec, env, true).(pubDate := rec.date)
    ensures r == ToolRecords.ConvertToMcpRecord(rec, env, true) <==> !rec.date.DateObject?
  {
    ToolRecords.PublishRecord(rec.id, rec.title, if rec.creators.Some? then rec.creators.value else [],
      rec.date, [], rec.id, "NDL", env.now, Some(env.stringify(rec.raw)))
  }

  function Converter(env: ToolRecords.PublishEnv): SearchNdl.NdlRecord -> ToolRecords.PublishRecord {
    (rec: SearchNdl.NdlRecord) => ConvertToMcpRecord(rec, env)
  }

  // ------------------------------------------------------------- the modes

  /** The tool's arguments; None for an omitted one. */
  datatype BooksArgs = BooksArgs(
    query: string,
    maxRecords: Option<int>,
    searchMode: Option<string>,
    preferLanguage: Option<string>,
    publishToMcp: Option<bool>,
    outputFormat: Option<string>)

  /**
   * What the three modes meet: the search service (its settings, the
   * outcome of each request, what record mapping needs from outside);
   * whether a language model is configured (provider `openai` and a key),
   * whether building its client throws, and the client; the search the
   * engine runs its stages with; and, as order keys, the scores the
   * engine's and the scoring engine's float arithmetic produce.
   */
  datatype ModeWorld = ModeWorld(
    config: NdlConnector.ConnectorConfig,
    outcome: nat -> NdlConnector.HttpOutcome,
    env: XmlMapper.Foreign,
    llmConfigured: bool,
    llmClientFails: bool,
    llm: IntelligentSearch.LlmClient,
    engineFetch: (string, int) -> Option<seq<SearchNdl.NdlRecord>>,
    finalScore: IntelligentFilter.FilteredResult -> int,
    relevance: SearchNdl.NdlRecord -> int)

  /** What one call meets: the modes' surroundings, the publisher, and the formatter. */
  datatype BooksWorld = BooksWorld(
    modes: ModeWorld,
    publish: ToolRecords.PublishEnv,
    formatting: DataFormatter.Formatting)

  function MaxRecordsOf(args: BooksArgs): int {
    if args.maxRecords.Some? then args.maxRecords.value else 20
  }

  function ModeOf(args: BooksArgs): string {
    if args.searchMode.Some? then args.searchMode.value else "intelligent"
  }

  function LanguageOf(args: BooksArgs): string {
    if args.preferLanguage.Some? then args.preferLanguage.value else "jpn"
  }

  function PublishOf(args: BooksArgs): bool {
    if args.publishToMcp.Some? then args.publishToMcp.value else true
  }

  /** `searchNDL({cql, maximumRecords})`: the records, or the message thrown. */
  function SearchRecords(cql: string, maxRecords: int, w: ModeWorld): Result<seq<SearchNdl.NdlRecord>, string> {
    SearchNdl.Search(ToolRecords.SearchInputFor(cql, maxRecords), w.config, w.outcome, w.env).0
  }

  /**
   * `executeSimpleSearch`: the fallback CQL sent without validation, the
   * records it brings ranked by language.
   */
  function SimpleSearch(query: string, maxRecords: int, lang: string, w: ModeWorld)
    : (r: Result<seq<SearchNdl.NdlRecord>, string>)
    ensures r.Err? <==> SearchRecords(FallbackCql(query), maxRecords, w).Err?
    ensures r.Ok? ==> multiset(r.value) == multiset(SearchRecords(FallbackCql(query), maxRecords, w).value)
  {
    match SearchRecords(FallbackCql(query), maxRecords, w)
    case Err(e) => Err(e)
    case Ok(records) => Ok(RankByPreferredLanguage(records, lang))
  }

  method ExecuteSimpleSearch(query: string, maxRecords: int, lang: string, w: ModeWorld)
    returns (r: Result<seq<SearchNdl.NdlRecord>, string>)
    ensures r == SimpleSearch(query, maxRecords, lang, w)
  {
    var cql := CreateSafeFallbackCql(query);
    var found := SearchRecords(cql, maxRecords, w);
    if found.Err? {
      return Err(found.error);
    }
    r := Ok(RankByPreferredLanguage(found.value, lang));
  }

  function RecordOf(s: ResultScoring.ScoredResult): SearchNdl.NdlRecord {
    s.record
  }

  /** The CQL the advanced mode sends: the choice among the strategy's candidates, then the fallback. */
  function AdvancedCql(query: string): Result<Chosen, string> {
    ChooseCql(query, SearchStrategy.Candidates(SearchStrategy.AnalyzeSearchIntent(query)))
  }

  method ChooseAdvancedCql(query: string) returns (r: Result<Chosen, string>)
    ensures r == AdvancedCql(query)
  {
    var intent := SearchStrategy.AnalyzeSearchIntent(query);
    var candidates := SearchStrategy.GenerateCqlCandidates(intent);
    r := BuildCqlFromQueryWithStrategy(query, candidates);
  }

  /** Scoring, de-duplication by normalised title, and the language ranking. */
  function Refined(records: seq<SearchNdl.NdlRecord>, relevance: SearchNdl.NdlRecord -> int, lang: string)
    : seq<SearchNdl.NdlRecord>
  {
    RankByPreferredLanguage(Each(DedupBy(ResultScoring.ScoreAndRank(records, relevance), ResultScoring.TitleKey), RecordOf), lang)
  }

  method RefineResults(records: seq<SearchNdl.NdlRecord>, relevance: SearchNdl.NdlRecord -> int, lang: string)
    returns (r: seq<SearchNdl.NdlRecord>)
    ensures r == Refined(records, relevance, lang)
  {
    var scored := ResultScoring.ScoreAndRank(records, relevance);
    var deduplicated := ResultScoring.DeduplicateResults(scored);
    var kept := AppendEach([], deduplicated, RecordOf);
    assert kept == Each(deduplicated, RecordOf);
    r := RankByPreferredLanguage(kept, lang);
  }

  /** The search with the chosen CQL and the refinement of what it brings. */
  function SearchChosen(chosen: Result<Chosen, string>, maxRecords: int, lang: string, w: ModeWorld)
    : Result<seq<SearchNdl.NdlRecord>, string>
  {
    match chosen
    case Err(e) => Err(e)
    case Ok(c) =>
      match SearchRecords(c.cql, maxRecords, w)
      case Err(e) => Err(e)
      case Ok(records) => Ok(Refined(records, w.relevance, lang))
  }

  method SearchWithChosen(chosen: Result<Chosen, string>, maxRecords: int, lang: string, w: ModeWorld)
    returns (r: Result<seq<SearchNdl.NdlRecord>, string>)
    ensures r == SearchChosen(chosen, maxRecords, lang, w)
  {
    if chosen.Err? {
      return Err(chosen.error);
    }
    var found := SearchRecords(chosen.value.cql, maxRecords, w);
    if found.Err? {
      return Err(found.error);
    }
    var refined := RefineResults(found.value, w.relevance, lang);
    r := Ok(refined);
  }

  /**
   * `executeAdvancedSearch`: the strategy's candidates, the first that
   * validates (or the fallback), the search, scoring, de-duplication by
   * normalised title, and the language ranking.
   */
  function AdvancedSearch(query: string, maxRecords: int, lang: string, w: ModeWorld)
    : Result<seq<SearchNdl.NdlRecord>, string>
  {
    SearchChosen(AdvancedCql(query), maxRecords, lang, w)
  }

  /** An answer of the advanced mode comes from a search with a CQL the validator accepted. */
  lemma AdvancedSearchesValidatedCql(query: string, maxRecords: int, lang: string, w: ModeWorld)
    requires AdvancedSearch(query, maxRecords, lang, w).Ok?
    ensures AdvancedCql(query).Ok?
    ensures QueryValidator.ValidateQuery(AdvancedCql(query).value.cql, Some(200)).Valid?
    ensures SearchRecords(AdvancedCql(query).value.cql, maxRecords, w).Ok?
  {
    ChooseCqlFacts(query, SearchStrategy.Candidates(SearchStrategy.AnalyzeSearchIntent(query)));
  }

  method ExecuteAdvancedSearch(query: string, maxRecords: int, lang: string, w: ModeWorld)
    returns (r: Result<seq<SearchNdl.NdlRecord>, string>)
    ensures r == AdvancedSearch(query, maxRecords, lang, w)
  {
    var chosen := ChooseAdvancedCql(query);
    r := SearchWithChosen(chosen, maxRecords, lang, w);
  }

  /** The engine's settings: 8 per query, the requested total, parallel allowed, threshold 0.4, 30 s. */
  function EngineConfig(maxRecords: int): IntelligentSearch.Config {
    IntelligentSearch.Config(8, maxRecords, true, 4, 30000)
  }

  /** The engine gets the client only when a model is configured. */
  function EngineWorld(w: ModeWorld): IntelligentSearch.World {
    IntelligentSearch.World(if w.llmConfigured then Some(w.llm) else None, w.engineFetch)
  }

  function FilteredRecord(f: IntelligentFilter.FilteredResult): SearchNdl.NdlRecord {
    f.record
  }

  /** The engine's final results as records, ranked by language. */
  function EngineResults(query: string, maxRecords: int, lang: string, w: ModeWorld): seq<SearchNdl.NdlRecord> {
    var result := IntelligentSearch.IntelligentSpec(query, EngineWorld(w), EngineConfig(maxRecords), w.finalScore);
    RankByPreferredLanguage(Each(result.finalResults, FilteredRecord), lang)
  }

  method RunEngine(query: string, maxRecords: int, lang: string, w: ModeWorld) returns (r: seq<SearchNdl.NdlRecord>)
    ensures r == EngineResults(query, maxRecords, lang, w)
  {
    var result := IntelligentSearch.ExecuteIntelligentSearch(query, EngineWorld(w), EngineConfig(maxRecords), w.finalScore);
    var records := AppendEach([], result.finalResults, FilteredRecord);
    assert records == Each(result.finalResults, FilteredRecord);
    r := RankByPreferredLanguage(records, lang);
  }

  /**
   * `executeIntelligentSearch`: when the configured client cannot be
   * built, the advanced mode; otherwise the engine's final results, ranked
   * by language.
   */
  function IntelligentMode(query: string, maxRecords: int, lang: string, w: ModeWorld)
    : Result<seq<SearchNdl.NdlRecord>, string>
  {
    if w.llmConfigured && w.llmClientFails then AdvancedSearch(query, maxRecords, lang, w)
    else Ok(EngineResults(query, maxRecords, lang, w))
  }

  method ExecuteIntelligentSearch(query: string, maxRecords: int, lang: string, w: ModeWorld)
    returns (r: Result<seq<SearchNdl.NdlRecord>, string>)
    ensures r == IntelligentMode(query, maxRecords, lang, w)
  {
    if w.llmConfigured && w.llmClientFails {
      r := ExecuteAdvancedSearch(query, maxRecords, lang, w);
    } else {
      var records := RunEngine(query, maxRecords, lang, w);
      r := Ok(records);
    }
  }

  /**
   * Unless the client fails to build, the intelligent mode always answers,
   * with at most the requested number of records, each from a distinct
   * normalised title.
   */
  lemma IntelligentModeBounded(query: string, maxRecords: int, lang: string, w: ModeWorld)
    requires !(w.llmConfigured && w.llmClientFails) && maxRecords >= 0
    ensures IntelligentMode(query, maxRecords, lang, w).Ok?
    ensures |IntelligentMode(query, maxRecords, lang, w).value| <= maxRecords
  {
    IntelligentSearch.FinalResultsTruncated(query, EngineWorld(w), EngineConfig(maxRecords), w.finalScore);
  }

  // ------------------------------------------------------------ the handler

  const UnknownModePrefix: string := "Unknown search mode: "
  const FailurePrefix: string := "Search failed: "

  /** The mode switch: the records of the chosen mode, or the message thrown. */
  function RecordsFor(mode: string, query: string, maxRecords: int, lang: string, w: ModeWorld)
    : Result<seq<SearchNdl.NdlRecord>, string>
  {
    if mode == "intelligent" then IntelligentMode(query, maxRecords, lang, w)
    else if mode == "advanced" then AdvancedSearch(query, maxRecords, lang, w)
    else if mode == "simple" then SimpleSearch(query, maxRecords, lang, w)
    else Err(UnknownModePrefix + mode)
  }

  method SearchByMode(mode: string, query: string, maxRecords: int, lang: string, w: ModeWorld)
    returns (found: Result<seq<SearchNdl.NdlRecord>, string>)
    ensures found == RecordsFor(mode, query, maxRecords, lang, w)
  {
    if mode == "intelligent" {
      found := ExecuteIntelligentSearch(query, maxRecords, lang, w);
    } else if mode == "advanced" {
      found := ExecuteAdvancedSearch(query, maxRecords, lang, w);
    } else if mode == "simple" {
      found := ExecuteSimpleSearch(query, maxRecords, lang, w);
    } else {
      found := Err(UnknownModePrefix + mode);
    }
  }

  /**
   * `handleSearchBooks`: the answer `{count, records}` with the formatting
   * asked for, or the message behind `Search failed: `; beside it, the
   * publisher's trace (its failure is swallowed).
   */
  function BooksSpec(args: BooksArgs, w: BooksWorld)
    : (Result<DataFormatter.ToolOutput, string>, seq<Publisher.Event<ToolRecords.PublishRecord>>)
  {
    Respond(args, RecordsFor(ModeOf(args), args.query, MaxRecordsOf(args), LanguageOf(args), w.modes), w)
  }

  /** After the switch: the answer and the publish step, or the failure behind `Search failed: `. */
  function Respond(args: BooksArgs, found: Result<seq<SearchNdl.NdlRecord>, string>, w: BooksWorld)
    : (Result<DataFormatter.ToolOutput, string>, seq<Publisher.Event<ToolRecords.PublishRecord>>)
  {
    match found
    case Err(e) => (Err(FailurePrefix + e), [])
    case Ok(records) =>
      var out := DataFormatter.EnhanceToolOutput(DataFormatter.ToolOutput(|records|, records, None),
                                                 args.outputFormat, w.formatting);
      (Ok(out), ToolRecords.PublishIfRequested(PublishOf(args), Each(records, Converter(w.publish)), w.publish))
  }

  /**
   * Every failure reads `Search failed: ...` and publishes nothing; an
   * answer carries the mode's records and their count; something is
   * published only with the flag set and at least one record.
   */
  lemma RespondFacts(args: BooksArgs, found: Result<seq<SearchNdl.NdlRecord>, string>, w: BooksWorld)
    ensures var r := Respond(args, found, w);
      && (r.0.Err? <==> found.Err?)
      && (r.0.Err? ==> r.0.error == FailurePrefix + found.error && StartsWith(r.0.error, FailurePrefix) && r.1 == [])
      && (r.0.Ok? ==> r.0.value.records == found.value && r.0.value.count == |found.value|)
      && (r.1 != [] ==> PublishOf(args) && r.0.Ok? && r.0.value.count > 0)
  {
    if found.Err? {
      StartsWithPrefix(FailurePrefix, found.error);
    } else {
      ToolRecords.PublishGuard(PublishOf(args), Each(found.value, Converter(w.publish)), w.publish);
    }
  }

  /** An unknown mode fails with its name and publishes nothing. */
  lemma UnknownModeFails(args: BooksArgs, w: BooksWorld)
    requires ModeOf(args) !in {"intelligent", "advanced", "simple"}
    ensures BooksSpec(args, w) == (Err(FailurePrefix + UnknownModePrefix + ModeOf(args)), [])
  {
    assert FailurePrefix + UnknownModePrefix + ModeOf(args) == FailurePrefix + (UnknownModePrefix + ModeOf(args));
  }

  /** The publish step and the answer for the records of the mode, or the failure. */
  method RespondTo(args: BooksArgs, found: Result<seq<SearchNdl.NdlRecord>, string>, w: BooksWorld)
    returns (result: Result<DataFormatter.ToolOutput, string>,
             published: seq<Publisher.Event<ToolRecords.PublishRecord>>)
    ensures (result, published) == Respond(args, found, w)
  {
    if found.Err? {
      return Err(FailurePrefix + found.error), [];
    }
    var records := found.value;
    published := [];
    if PublishOf(args) && |records| > 0 {
      var mcpRecords := AppendEach([], records, Converter(w.publish));
      assert mcpRecords == Each(records, Converter(w.publish));
      published := ToolRecords.PublishIfRequested(true, mcpRecords, w.publish);
    }
    result := Ok(DataFormatter.EnhanceToolOutput(DataFormatter.ToolOutput(|records|, records, None),
                                                 args.outputFormat, w.formatting));
  }

  method HandleSearchBooks(args: BooksArgs, w: BooksWorld)
    returns (result: Result<DataFormatter.ToolOutput, string>,
             published: seq<Publisher.Event<ToolRecords.PublishRecord>>)
    ensures (result, published) == BooksSpec(args, w)
  {
    var found := SearchByMode(ModeOf(args), args.query, MaxRecordsOf(args), LanguageOf(args), w.modes);
    result, published := RespondTo(args, found, w);
  }

  /** The answer does not depend on the publish flag or on how publishing goes. */
  lemma AnswerIgnoresPublishing(args: BooksArgs, w: BooksWorld, publish: Option<bool>, env: ToolRecords.PublishEnv)
    ensures BooksSpec(args.(publishToMcp := publish), w.(publish := env)).0 == BooksSpec(args, w).0
  {
    var found := RecordsFor(ModeOf(args), args.query, MaxRecordsOf(args), LanguageOf(args), w.modes);
    assert BooksSpec(args, w) == Respond(args, found, w);
    assert BooksSpec(args.(publishToMcp := publish), w.(publish := env))
        == Respond(args.(publishToMcp := publish), found, w.(publish := env));
  }

  /** A configured client that fails to build turns the intelligent mode into the advanced one. */
  lemma ClientFailureMeansAdvanced(query: string, maxRecords: int, lang: string, w: ModeWorld)
    requires w.llmConfigured && w.llmClientFails
    ensures RecordsFor("intelligent", query, maxRecords, lang, w) == RecordsFor("advanced", query, maxRecords, lang, w)
  {
  }
}
