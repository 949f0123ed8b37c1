/**
 * The result scoring engine of the advanced search: integer sub-scores of a
 * record against the analysed query, the ranking by relevance, and the
 * removal of results whose titles normalise alike.
 */
module ResultScoring {
  import opened JsText
  import opened SeqUtils
  import SearchNdl
  import SearchStrategy

  /** `ScoringCriteria`: the query, its analysed intent and the strategy that found the records. */
  datatype ScoringCriteria = ScoringCriteria(query: string, intent: SearchStrategy.SearchIntent, usedStrategy: string)

  /** A ranked record; `relevanceScore` is the ranking key. */
  datatype ScoredResult = ScoredResult(record: SearchNdl.NdlRecord, relevanceScore: int)

  const AcademicKeywords: seq<string> :=
    ["研究", "論考", "分析", "考察", "史料", "検討", "再考", "学会", "大学", "博士論文", "修士論文", "紀要"]

  const TimeKeywords: seq<string> := ["古代", "飛鳥", "奈良", "平安", "鎌倉", "室町", "江戸", "明治"]

  function Min(a: int, b: int): int {
    if a <= b then a else b
  }

  // ------------------------------------------------------------ subject

  /** The subject score: 80 for a subject strategy, 60 for the main subject, 30 for a related term, capped at 100. */
  function SubjectMatch(rec: SearchNdl.NdlRecord, c: ScoringCriteria): (r: int)
    ensures 0 <= r <= 100
    ensures r == 0 <==> !Includes(c.usedStrategy, "subject")
                        && !Includes(ToLower(rec.title), ToLower(c.intent.mainSubject))
                        && !IncludesAnyLower(ToLower(rec.title), c.intent.relatedTerms)
    ensures Includes(c.usedStrategy, "subject") ==> r >= 80
    ensures Includes(c.usedStrategy, "subject") && Includes(ToLower(rec.title), ToLower(c.intent.mainSubject)) ==> r == 100
  {
    var t := ToLower(rec.title);
    Min((if Includes(c.usedStrategy, "subject") then 80 else 0)
        + (if Includes(t, ToLower(c.intent.mainSubject)) then 60 else 0)
        + (if IncludesAnyLower(t, c.intent.relatedTerms) then 30 else 0), 100)
  }

  /** `calculateSubjectScore`: the related-term loop stops at the first term found. */
  method CalculateSubjectScore(rec: SearchNdl.NdlRecord, c: ScoringCriteria) returns (score: int)
    ensures score == SubjectMatch(rec, c)
  {
    score := 0;
    if Includes(c.usedStrategy, "subject") {
      score := score + 80;
    }
    var title := ToLower(rec.title);
    if Includes(title, ToLower(c.intent.mainSubject)) {
      score := score + 60;
    }
    var related := ScanIncludesLower(title, c.intent.relatedTerms);
    if related {
      score := score + 30;
    }
    score := Min(score, 100);
  }

  // ------------------------------------------------------------ creator

  /** The creator score: 30 for an academic marker among the joined names, 10 for several creators. */
  function CreatorMatch(rec: SearchNdl.NdlRecord): (r: int)
    ensures rec.creators.None? || |rec.creators.value| == 0 ==> r == 0
    ensures r in {0, 10, 30, 40}
    ensures r >= 10 && r != 30 <==> rec.creators.Some? && |rec.creators.value| > 1
  {
    if rec.creators.None? || |rec.creators.value| == 0 then 0
    else
      var names := ToLower(Join(rec.creators.value, " "));
      (if Includes(names, "大学") || Includes(names, "教授") || Includes(names, "博士") then 30 else 0)
      + (if |rec.creators.value| > 1 then 10 else 0)
  }

  // ----------------------------------------------------------- temporal

  /** The time context, when it is set and not empty. */
  function TimeContextOf(c: ScoringCriteria): Option<string> {
    if c.intent.timeContext.Some? && c.intent.timeContext.value != "" then c.intent.timeContext else None
  }

  /** The year of an object date with a non-empty `_`: `parseInt` of the text before the first `-`. */
  function PublicationYear(d: SearchNdl.DateValue): Option<int> {
    if d.DateObject? && d.Underscore().Some? && d.Underscore().value != "" then
      ParseInt(SplitOn(d.Underscore().value, '-')[0])
    else None
  }

  function YearBonus(d: SearchNdl.DateValue): (r: int)
    ensures r in {0, 10, 20}
  {
    match PublicationYear(d)
    case None => 0
    case Some(y) => if y >= 2000 then 20 else if y >= 1990 then 10 else 0
  }

  /**
   * The temporal score: base 50; with a time context, 40 when the title
   * names it and 20 for the first era keyword found; the year bonus; capped
   * at 100.
   */
  function TemporalMatch(rec: SearchNdl.NdlRecord, c: ScoringCriteria): (r: int)
    ensures 50 <= r <= 100
    ensures TimeContextOf(c).None? && !rec.date.DateObject? ==> r == 50
    ensures TimeContextOf(c).Some? && Includes(ToLower(rec.title), ToLower(TimeContextOf(c).value))
            ==> r >= 90
  {
    var t := ToLower(rec.title);
    var contextBonus :=
      match TimeContextOf(c)
      case None => 0
      case Some(tc) =>
        (if Includes(t, ToLower(tc)) then 40 else 0) + (if IncludesAny(t, TimeKeywords) then 20 else 0);
    Min(50 + contextBonus + YearBonus(rec.date), 100)
  }

  /** `calculateTemporalScore`: the era loop stops at the first keyword found. */
  method CalculateTemporalScore(rec: SearchNdl.NdlRecord, c: ScoringCriteria) returns (score: int)
    ensures score == TemporalMatch(rec, c)
  {
    score := 50;
    var title := ToLower(rec.title);
    if c.intent.timeContext.Some? && c.intent.timeContext.value != "" {
      if Includes(title, ToLower(c.intent.timeContext.value)) {
        score := score + 40;
      }
      var era := ScanIncludes(title, TimeKeywords);
      if era {
        score := score + 20;
      }
    }
    score := score + YearBonus(rec.date);
    score := Min(score, 100);
  }

  /** A date object dated in or after 2000 earns the full year bonus. */
  lemma RecentYearBonus(d: SearchNdl.DateValue, year: string, rest: string)
    requires d.DateObject? && d.Underscore() == Some(year + "-" + rest)
    requires |year| > 0 && forall k :: 0 <= k < |year| ==> IsDigit(year[k])
    requires DigitsValue(year) >= 2000
    ensures YearBonus(d) == 20
  {
    var text := year + "-" + rest;
    assert |text| > 0;
    SplitOnPrefix(year, rest);
    ParseDigits(year);
    assert PublicationYear(d) == Some(DigitsValue(year) as int);
  }

  /** `parseInt` of a string of digits is its decimal value. */
  lemma ParseDigits(s: string)
    requires |s| > 0 && forall k :: 0 <= k < |s| ==> IsDigit(s[k])
    ensures ParseInt(s) == Some(DigitsValue(s) as int)
  {
    DigitsText(s);
    DigitsOwnValue(s);
  }

  /** A run of digits has no `0x` prefix, so `parseInt` reads it in decimal. */
  lemma DigitsText(s: string)
    requires |s| > 0 && forall k :: 0 <= k < |s| ==> IsDigit(s[k])
    ensures ParseInt(s) == SignedDigits(s, false)
  {
    assert !HasHexPrefix(s) by {
      if |s| >= 2 {
        assert IsDigit(s[1]);
      }
    }
    DecimalText(s);
  }

  /** Read in decimal, a run of digits gives its whole value. */
  lemma DigitsOwnValue(s: string)
    requires |s| > 0 && forall k :: 0 <= k < |s| ==> IsDigit(s[k])
    ensures SignedDigits(s, false) == Some(DigitsValue(s) as int)
  {
    LeadingDigitsAll(s);
    assert s[..|s|] == s;
  }

  /** Text that starts with a digit and not with `0x` is read in decimal. */
  lemma DecimalText(u: string)
    requires |u| > 0 && IsDigit(u[0]) && !HasHexPrefix(u)
    ensures ParseInt(u) == SignedDigits(u, false)
  {
    assert !IsSpace(u[0]);
    assert TrimStart(u) == u;
    assert Unsigned(u) == u;
  }

  /** `parseInt` of `0x` followed by hexadecimal digits is their value in base 16. */
  lemma ParseHexDigits(h: string)
    requires |h| > 0 && forall k :: 0 <= k < |h| ==> IsHexDigit(h[k])
    ensures ParseInt("0x" + h) == Some(HexDigitsValue(h) as int)
  {
    HexText("0x" + h);
    assert ("0x" + h)[2..] == h;
    HexValue(h);
  }

  lemma HexValue(h: string)
    requires |h| > 0 && forall k :: 0 <= k < |h| ==> IsHexDigit(h[k])
    ensures SignedHexDigits(h, false) == Some(HexDigitsValue(h) as int)
  {
    LeadingHexDigitsAll(h);
    assert h[..|h|] == h;
  }

  /** Text that starts with `0x` is read in base 16 from its third character on. */
  lemma HexText(u: string)
    requires |u| >= 2 && u[0] == '0' && (u[1] == 'x' || u[1] == 'X')
    ensures ParseInt(u) == SignedHexDigits(u[2..], false)
  {
    assert !IsSpace(u[0]);
    assert TrimStart(u) == u;
    assert Unsigned(u) == u;
  }

  /** `parseInt` of `0x` not followed by a hexadecimal digit is `NaN`, even though `0` is a digit. */
  lemma ParseHexPrefixOnly(rest: string)
    requires |rest| == 0 || !IsHexDigit(rest[0])
    ensures ParseInt("0x" + rest) == None
  {
    var s := "0x" + rest;
    assert HasHexPrefix(s) && s[2..] == rest;
    HexText(s);
  }

  lemma {:induction false} LeadingHexDigitsAll(s: string)
    requires forall k :: 0 <= k < |s| ==> IsHexDigit(s[k])
    ensures LeadingHexDigits(s) == |s|
    decreases |s|
  {
    if |s| > 0 {
      LeadingHexDigitsAll(s[1..]);
    }
  }

  /** A date object whose year is written `0x…` is dated by the hexadecimal value. */
  lemma HexYearBonus(d: SearchNdl.DateValue, h: string, rest: string)
    requires d.DateObject? && d.Underscore() == Some("0x" + h + "-" + rest)
    requires |h| > 0 && forall k :: 0 <= k < |h| ==> IsHexDigit(h[k])
    requires HexDigitsValue(h) >= 2000
    ensures YearBonus(d) == 20
  {
    var year := "0x" + h;
    assert "0x" + h + "-" + rest == year + "-" + rest;
    HexHasNoDash(h);
    SplitOnPrefix(year, rest);
    ParseHexDigits(h);
  }

  lemma HexHasNoDash(h: string)
    requires forall k :: 0 <= k < |h| ==> IsHexDigit(h[k])
    ensures forall k :: 0 <= k < |"0x" + h| ==> ("0x" + h)[k] != '-'
  {
    forall k | 2 <= k < |"0x" + h| ensures ("0x" + h)[k] != '-' {
      assert ("0x" + h)[k] == h[k - 2];
    }
  }

  lemma {:induction false} LeadingDigitsAll(s: string)
    requires forall k :: 0 <= k < |s| ==> IsDigit(s[k])
    ensures LeadingDigits(s) == |s|
    decreases |s|
  {
    if |s| > 0 {
      LeadingDigitsAll(s[1..]);
    }
  }

  lemma {:induction false} SplitOnPrefix(w: string, rest: string)
    requires forall k :: 0 <= k < |w| ==> w[k] != '-'
    ensures SplitOn(w + "-" + rest, '-')[0] == w
    decreases |w|
  {
    if |w| == 0 {
      assert w + "-" + rest == "-" + rest;
    } else {
      assert (w + "-" + rest)[1..] == w[1..] + "-" + rest;
      SplitOnPrefix(w[1..], rest);
    }
  }

  // ------------------------------------------------------------ quality

  /**
   * The quality score: base 30, plus 25 for an academic keyword, 20 for an
   * institution, 15 for a collected works and 10 for a volume number.
   */
  function QualityMatch(rec: SearchNdl.NdlRecord): (r: int)
    ensures 30 <= r <= 100
    ensures r == 30 <==> !IncludesAny(ToLower(rec.title), AcademicKeywords)
                         && !(Includes(ToLower(rec.title), "大学") || Includes(ToLower(rec.title), "研究所")
                              || Includes(ToLower(rec.title), "学会"))
                         && !(Includes(ToLower(rec.title), "全集") || Includes(ToLower(rec.title), "選集")
                              || Includes(ToLower(rec.title), "大系"))
                         && !HasVolumeMark(ToLower(rec.title))
  {
    var t := ToLower(rec.title);
    Min(30
        + (if IncludesAny(t, AcademicKeywords) then 25 else 0)
        + (if Includes(t, "大学") || Includes(t, "研究所") || Includes(t, "学会") then 20 else 0)
        + (if Includes(t, "全集") || Includes(t, "選集") || Includes(t, "大系") then 15 else 0)
        + (if HasVolumeMark(t) then 10 else 0), 100)
  }

  /** `calculateQualityScore`, with `containsAcademicKeywords` as its scan loop. */
  method CalculateQualityScore(rec: SearchNdl.NdlRecord) returns (score: int)
    ensures score == QualityMatch(rec)
  {
    score := 30;
    var title := ToLower(rec.title);
    var academic := ScanIncludes(title, AcademicKeywords);
    if academic {
      score := score + 25;
    }
    if Includes(title, "大学") || Includes(title, "研究所") || Includes(title, "学会") {
      score := score + 20;
    }
    if Includes(title, "全集") || Includes(title, "選集") || Includes(title, "大系") {
      score := score + 15;
    }
    if HasVolumeMark(title) {
      score := score + 10;
    }
    score := Min(score, 100);
  }

  // ----------------------------------------------------------- language

  /** `calculateLanguageScore`: Japanese over Chinese over English over the rest; unknown in the middle. */
  function LanguageMatch(rec: SearchNdl.NdlRecord): (r: int)
    ensures rec.language.None? || rec.language == Some("") ==> r == 50
    ensures r == 100 <==> rec.language == Some("jpn")
    ensures r == 80 <==> rec.language == Some("chi")
    ensures r == 60 <==> rec.language == Some("eng")
    ensures r == 40 <==> rec.language.Some? && rec.language.value !in {"", "jpn", "chi", "eng"}
  {
    if rec.language.None? || rec.language.value == "" then 50
    else if rec.language.value == "jpn" then 100
    else if rec.language.value == "chi" then 80
    else if rec.language.value == "eng" then 60
    else 40
  }

  // ------------------------------------------------------------ ranking

  function Scored(relevance: SearchNdl.NdlRecord -> int): SearchNdl.NdlRecord -> ScoredResult {
    (rec: SearchNdl.NdlRecord) => ScoredResult(rec, relevance(rec))
  }

  function RelevanceOf(s: ScoredResult): int {
    s.relevanceScore
  }

  /** `scoreAndRankResults`: every record scored, then sorted by descending relevance. */
  function ScoreAndRank(results: seq<SearchNdl.NdlRecord>, relevance: SearchNdl.NdlRecord -> int): seq<ScoredResult> {
    SortDesc(Each(results, Scored(relevance)), RelevanceOf)
  }

  /**
   * One scored result per input record, carrying that record's relevance,
   * in non-increasing order of relevance, equal scores in input order.
   */
  lemma ScoreAndRankOrdered(results: seq<SearchNdl.NdlRecord>, relevance: SearchNdl.NdlRecord -> int)
    ensures var ranked := ScoreAndRank(results, relevance);
      && |ranked| == |results|
      && multiset(ranked) == multiset(Each(results, Scored(relevance)))
      && (forall i :: 0 <= i < |ranked| ==> ranked[i].relevanceScore == relevance(ranked[i].record))
      && SortedDesc(ranked, RelevanceOf)
      && forall v :: WithKey(ranked, RelevanceOf, v) == WithKey(Each(results, Scored(relevance)), RelevanceOf, v)
  {
    var scored := Each(results, Scored(relevance));
    SortDescSorted(scored, RelevanceOf);
    SortDescPermutation(scored, RelevanceOf);
    forall v ensures WithKey(SortDesc(scored, RelevanceOf), RelevanceOf, v) == WithKey(scored, RelevanceOf, v) {
      SortDescStable(scored, RelevanceOf, v);
    }
    var ranked := SortDesc(scored, RelevanceOf);
    forall i | 0 <= i < |ranked| ensures ranked[i].relevanceScore == relevance(ranked[i].record) {
      assert ranked[i] in multiset(scored);
    }
  }

  // ------------------------------------------------------ de-duplication

  const Brackets: set<char> := {'「', '」', '『', '』', '（', '）', '(', ')', '【', '】', '[', ']'}

  /**
   * `normalizeTitle`: lower-cased, brackets removed, white-space runs made
   * one space, trimmed.
   */
  function NormalizeTitle(title: string): (r: string)
    ensures forall i :: 0 <= i < |r| ==> r[i] !in Brackets && !('A' <= r[i] <= 'Z')
    ensures forall i :: 0 <= i < |r| && IsSpace(r[i]) ==> r[i] == ' '
    ensures SingleSpaced(r)
    ensures |r| > 0 ==> !IsSpace(r[0]) && !IsSpace(r[|r| - 1])
  {
    var x := RemoveChars(ToLower(title), Brackets);
    LoweredRemoved(title, Brackets, x);
    var y := CollapseSpaces(x);
    SpaceIsNoBracket();
    CollapsedCharacters(x, Brackets, y);
    TrimmedShape(y, Brackets, Trim(y));
    Trim(y)
  }

  lemma SpaceIsNoBracket()
    ensures ' ' !in Brackets
  {
  }

  /** Trimming a collapsed text keeps it collapsed and free of the characters `cs` and capitals. */
  lemma TrimmedShape(y: string, cs: set<char>, r: string)
    requires forall i :: 0 <= i < |y| ==> y[i] !in cs && !('A' <= y[i] <= 'Z')
    requires forall i :: 0 <= i < |y| && IsSpace(y[i]) ==> y[i] == ' '
    requires SingleSpaced(y)
    requires r == Trim(y)
    ensures forall i :: 0 <= i < |r| ==> r[i] !in cs && !('A' <= r[i] <= 'Z')
    ensures forall i :: 0 <= i < |r| && IsSpace(r[i]) ==> r[i] == ' '
    ensures SingleSpaced(r)
  {
    var k := TrimIsSlice(y);
    SliceKeepsShape(y, k, r, cs);
  }

  /** A contiguous piece of a collapsed text is collapsed, with the same characters. */
  lemma SliceKeepsShape(y: string, k: nat, r: string, cs: set<char>)
    requires k + |r| <= |y| && r == y[k..k + |r|]
    requires forall i :: 0 <= i < |y| ==> y[i] !in cs && !('A' <= y[i] <= 'Z')
    requires forall i :: 0 <= i < |y| && IsSpace(y[i]) ==> y[i] == ' '
    requires SingleSpaced(y)
    ensures forall i :: 0 <= i < |r| ==> r[i] !in cs && !('A' <= r[i] <= 'Z')
    ensures forall i :: 0 <= i < |r| && IsSpace(r[i]) ==> r[i] == ' '
    ensures SingleSpaced(r)
  {
    forall i | 0 <= i < |r| ensures r[i] == y[k + i] {
    }
    forall i, j | 0 <= i < |r| && 0 <= j < |r| && j == i + 1 ensures !(IsSpace(r[i]) && IsSpace(r[j])) {
      assert r[i] == y[k + i] && r[j] == y[k + j];
    }
  }

  lemma LoweredRemoved(title: string, cs: set<char>, x: string)
    requires x == RemoveChars(ToLower(title), cs)
    ensures forall i :: 0 <= i < |x| ==> x[i] !in cs && !('A' <= x[i] <= 'Z')
  {
    var lowered := ToLower(title);
    forall i | 0 <= i < |x| ensures !('A' <= x[i] <= 'Z') {
      assert x[i] in lowered;
      var m :| 0 <= m < |lowered| && lowered[m] == x[i];
      assert lowered[m] == LowerChar(title[m]);
    }
  }

  lemma CollapsedCharacters(x: string, cs: set<char>, y: string)
    requires ' ' !in cs
    requires forall i :: 0 <= i < |x| ==> x[i] !in cs && !('A' <= x[i] <= 'Z')
    requires y == CollapseSpaces(x)
    ensures forall i :: 0 <= i < |y| ==> y[i] !in cs && !('A' <= y[i] <= 'Z')
    ensures forall i :: 0 <= i < |y| && IsSpace(y[i]) ==> y[i] == ' '
    ensures SingleSpaced(y)
  {
    forall i | 0 <= i < |y| ensures y[i] !in cs && !('A' <= y[i] <= 'Z') {
      if y[i] != ' ' {
        assert y[i] in x;
      }
    }
  }

  /** The trimmed text is a contiguous piece of the original. */
  lemma TrimIsSlice(s: string) returns (k: nat)
    ensures k + |Trim(s)| <= |s| && Trim(s) == s[k..k + |Trim(s)|]
  {
    var t := TrimStart(s);
    k := |s| - |t|;
    assert t == s[k..];
    assert Trim(s) == t[..|Trim(s)|];
  }

  /** Titles that differ only in the case of their letters normalise alike. */
  lemma NormalizeIgnoresCase(title: string)
    ensures NormalizeTitle(ToLower(title)) == NormalizeTitle(title)
  {
    ToLowerIdempotent(title);
  }

  /** A bracket anywhere in a title does not change its normal form. */
  lemma NormalizeIgnoresBracket(a: string, b: char, c: string)
    requires b in Brackets
    ensures NormalizeTitle(a + [b] + c) == NormalizeTitle(a + c)
  {
    DropRemovedChar(ToLower(a), b, ToLower(c), Brackets);
    assert ToLower(a + [b] + c) == ToLower(a) + [b] + ToLower(c) by {
      ToLowerConcat(a + [b], c);
      ToLowerConcat(a, [b]);
      assert ToLower([b]) == [b];
    }
    ToLowerConcat(a, c);
  }

  lemma DropRemovedChar(a: string, b: char, c: string, cs: set<char>)
    requires b in cs
    ensures RemoveChars(a + [b] + c, cs) == RemoveChars(a + c, cs)
  {
    RemoveCharsConcat(a + [b], c, cs);
    RemoveCharsConcat(a, [b], cs);
    RemoveCharsConcat(a, c, cs);
    assert RemoveChars([b], cs) == [];
  }

  /** White space before a title does not change its normal form. */
  lemma NormalizeIgnoresLeadingSpace(title: string)
    ensures NormalizeTitle(" " + title) == NormalizeTitle(title)
  {
    var lowered := ToLower(title);
    ToLowerConcat(" ", title);
    assert ToLower(" ") == " ";
    RemoveCharsConcat(" ", lowered, Brackets);
    assert RemoveChars(" ", Brackets) == " ";
    var x := RemoveChars(lowered, Brackets);
    assert RemoveChars(ToLower(" " + title), Brackets) == " " + x;
    var y := CollapseSpaces(x);
    assert (" " + x)[1..] == x;
    if |x| > 0 && IsSpace(x[0]) {
      assert CollapseSpaces(" " + x) == y;
    } else {
      assert CollapseSpaces(" " + x) == " " + y;
      assert (" " + y)[1..] == y;
      assert TrimStart(" " + y) == TrimStart(y);
    }
  }

  function TitleKey(s: ScoredResult): string {
    NormalizeTitle(s.record.title)
  }

  /**
   * `deduplicateResults`: the first result for each normalised title, in
   * order.
   */
  method DeduplicateResults(results: seq<ScoredResult>) returns (deduplicated: seq<ScoredResult>)
    ensures deduplicated == DedupBy(results, TitleKey)
  {
    deduplicated := DedupByLoop(results, TitleKey);
  }

  /**
   * What de-duplication keeps: results of the input with pairwise distinct
   * normalised titles, every input title represented, the first result for
   * each title kept, and order kept (de-duplicating a prefix gives a prefix).
   */
  lemma DeduplicateKeepsFirst(results: seq<ScoredResult>, j: nat, more: seq<ScoredResult>)
    requires j < |results|
    requires forall k :: 0 <= k < j ==> TitleKey(results[k]) != TitleKey(results[j])
    ensures var d := DedupBy(results, TitleKey);
      && (forall x :: x in d ==> x in results)
      && (forall a, b :: 0 <= a < b < |d| ==> NormalizeTitle(d[a].record.title) != NormalizeTitle(d[b].record.title))
      && (forall x :: x in results ==> exists y :: y in d && NormalizeTitle(y.record.title) == NormalizeTitle(x.record.title))
      && results[j] in d
      && d <= DedupBy(results + more, TitleKey)
  {
    DedupByKeepsFirst(results, TitleKey, j);
    DedupByPrefix(results, more, TitleKey);
    DedupTitlesDistinct(results);
    DedupTitlesCover(results);
  }

  lemma DedupTitlesDistinct(results: seq<ScoredResult>)
    ensures var d := DedupBy(results, TitleKey);
      forall a, b :: 0 <= a < b < |d| ==> NormalizeTitle(d[a].record.title) != NormalizeTitle(d[b].record.title)
  {
    var d := DedupBy(results, TitleKey);
    forall a, b | 0 <= a < b < |d| ensures NormalizeTitle(d[a].record.title) != NormalizeTitle(d[b].record.title) {
      assert Keys(d, TitleKey)[a] != Keys(d, TitleKey)[b];
    }
  }

  lemma DedupTitlesCover(results: seq<ScoredResult>)
    ensures var d := DedupBy(results, TitleKey);
      forall x :: x in results ==> exists y :: y in d && NormalizeTitle(y.record.title) == NormalizeTitle(x.record.title)
  {
    var d := DedupBy(results, TitleKey);
    forall x | x in results ensures exists y :: y in d && NormalizeTitle(y.record.title) == NormalizeTitle(x.record.title) {
      var m :| 0 <= m < |d| && Keys(d, TitleKey)[m] == TitleKey(x);
      assert d[m] in d;
    }
  }
}
