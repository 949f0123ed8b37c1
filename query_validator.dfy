/**
 * The CQL guard that every query passes before it reaches the National Diet
 * Library: length, wildcard, field whitelist, OR-count and syntax checks,
 * applied in this order, and the cap on the number of records.
 */
module QueryValidator {
  import opened JsText

  /** The whitelist, in the order the error message lists it. */
  const AllowedFieldList: seq<string> := ["title", "creator", "subject", "isbn", "issued", "language"]
  const AllowedFields: set<string> := {"title", "creator", "subject", "isbn", "issued", "language"}
  const MaxCqlLength: nat := 1024
  const MaxOrConditions: nat := 10
  const DefaultMaxRecords: int := 20
  const AbsoluteMaxRecords: int := 200

  datatype ErrorCode = TooLong | WildcardTooBroad | DisallowedField | PotentialDdos | InvalidSyntax

  datatype Details =
    | LengthDetail(length: nat)
    | PatternDetail(pattern: string)
    | FieldDetail(field: string)
    | OrCountDetail(orCount: nat)
    | CqlDetail(cql: string)

  datatype ValidationError = ValidationError(code: ErrorCode, message: string, details: Details)

  /** `ValidatedQuery | ValidationError`. */
  datatype Validated =
    | Valid(cql: string, maximumRecords: int)
    | Invalid(error: ValidationError)

  // ---------------------------------------------------------------------
  // The field scan: /\b([A-Za-z]+)\s*(?:>=|<=|=|>|<)/g

  /** End of the run of ASCII letters that starts at `p`. */
  function LetterRunEnd(s: string, p: nat): (q: nat)
    requires p <= |s|
    ensures p <= q <= |s|
    ensures forall k :: p <= k < q ==> IsAsciiLetter(s[k])
    ensures q < |s| ==> !IsAsciiLetter(s[q])
    decreases |s| - p
  {
    if p < |s| && IsAsciiLetter(s[p]) then LetterRunEnd(s, p + 1) else p
  }

  /** A run of letters that a non-letter ends. */
  lemma LetterRunTo(s: string, p: nat, q: nat)
    requires p <= q < |s|
    requires forall k :: p <= k < q ==> IsAsciiLetter(s[k])
    requires !IsAsciiLetter(s[q])
    ensures LetterRunEnd(s, p) == q
  {
  }

  /** Letters from the start of a word up to a comparator make a field match. */
  lemma FieldBeforeComparator(s: string, p: nat, q: nat)
    requires p < q < |s|
    requires forall k :: p <= k < q ==> IsAsciiLetter(s[k])
    requires p == 0 || !IsWordChar(s[p - 1])
    requires IsComparatorStart(s[q])
    ensures FieldMatchAt(s, p) && FieldAt(s, p) == s[p..q]
  {
    LetterRunTo(s, p, q);
    assert SpaceRunEnd(s, q) == q;
  }

  /** End of the run of white space that starts at `p`. */
  function SpaceRunEnd(s: string, p: nat): (q: nat)
    requires p <= |s|
    ensures p <= q <= |s|
    ensures forall k :: p <= k < q ==> IsSpace(s[k])
    ensures q < |s| ==> !IsSpace(s[q])
    decreases |s| - p
  {
    if p < |s| && IsSpace(s[p]) then SpaceRunEnd(s, p + 1) else p
  }

  predicate IsComparatorStart(c: char) {
    c == '=' || c == '<' || c == '>'
  }

  /**
   * The field pattern matches at `p`: a word boundary, letters (the whole
   * run: a shorter run would leave a letter where white space or a
   * comparator is needed), optional white space, a comparator.
   */
  predicate FieldMatchAt(s: string, p: nat) {
    p < |s| && IsAsciiLetter(s[p]) && (p == 0 || !IsWordChar(s[p - 1]))
    && var r := SpaceRunEnd(s, LetterRunEnd(s, p));
       r < |s| && IsComparatorStart(s[r])
  }

  /** The field name a match at `p` yields once its comparator is stripped. */
  function FieldAt(s: string, p: nat): string
    requires p < |s|
  {
    s[p..LetterRunEnd(s, p)]
  }

  /** One past the last character of the match at `p`. */
  function MatchEnd(s: string, p: nat): nat
    requires FieldMatchAt(s, p)
  {
    var r := SpaceRunEnd(s, LetterRunEnd(s, p));
    if (s[r] == '>' || s[r] == '<') && r + 1 < |s| && s[r + 1] == '=' then r + 2 else r + 1
  }

  /**
   * No match starts inside another: the global scan, which resumes after
   * each match, meets exactly the positions where `FieldMatchAt` holds.
   */
  lemma MatchesDoNotOverlap(s: string, p: nat, k: nat)
    requires FieldMatchAt(s, p)
    requires p < k < MatchEnd(s, p)
    ensures !FieldMatchAt(s, k)
  {
    var q := LetterRunEnd(s, p);
    if k < q {
      assert IsAsciiLetter(s[k - 1]);
    }
  }

  /** A field pattern matches at `p` and yields a field off the whitelist. */
  predicate Refused(s: string, p: nat) {
    p < |s| && FieldMatchAt(s, p) && FieldAt(s, p) !in AllowedFields
  }

  /** The position of the first refused field from `i` on, or `|s|` when there is none. */
  function FirstRefusedFrom(s: string, i: nat): (k: nat)
    ensures i <= k || k == |s|
    ensures k <= |s|
    ensures k < |s| ==> Refused(s, k)
    ensures forall q :: i <= q < k ==> !Refused(s, q)
    decreases |s| - i
  {
    if i >= |s| then |s|
    else if Refused(s, i) then i
    else FirstRefusedFrom(s, i + 1)
  }

  /** The first field, from `i` on, that is not on the whitelist. */
  function FirstDisallowedFrom(s: string, i: nat): (r: Option<string>)
    ensures r.None? <==> forall p :: i <= p < |s| ==> !Refused(s, p)
    ensures r.Some? ==> exists p :: i <= p < |s| && Refused(s, p) && FieldAt(s, p) == r.value
                                    && forall q :: i <= q < p ==> !Refused(s, q)
  {
    var k := FirstRefusedFrom(s, i);
    if k < |s| then Some(FieldAt(s, k)) else None
  }

  /** A query that opens with a word of a length no whitelisted field has, then a comparator, is refused. */
  lemma FieldRefusedAtStart(s: string, q: nat)
    requires 0 < q < |s|
    requires forall k :: 0 <= k < q ==> IsAsciiLetter(s[k])
    requires IsComparatorStart(s[q])
    requires q < 4 || q > 8
    ensures FirstDisallowedFrom(s, 0).Some?
  {
    FieldBeforeComparator(s, 0, q);
    AllowedFieldLengths();
    assert |FieldAt(s, 0)| == q;
    DisallowedFieldFound(s, 0);
  }

  lemma AllowedFieldLengths()
    ensures forall f :: f in AllowedFields ==> 4 <= |f| <= 8
  {
  }

  /** A match of a field off the whitelist is found by the scan. */
  lemma DisallowedFieldFound(s: string, p: nat)
    requires Refused(s, p)
    ensures FirstDisallowedFrom(s, 0).Some?
  {
  }

  // ---------------------------------------------------------------------
  // The OR count: /\bOR\b/gi

  predicate OrAt(s: string, p: nat) {
    p + 2 <= |s| && (s[p] == 'O' || s[p] == 'o') && (s[p + 1] == 'R' || s[p + 1] == 'r')
    && (p == 0 || !IsWordChar(s[p - 1]))
    && (p + 2 == |s| || !IsWordChar(s[p + 2]))
  }

  /** Two OR matches never overlap, so counting positions counts matches. */
  lemma OrMatchesDoNotOverlap(s: string, p: nat)
    requires OrAt(s, p)
    ensures !OrAt(s, p + 1)
  {
  }

  /** Number of positions from `i` on where `OR` (any case) stands as a word. */
  function CountOrFrom(s: string, i: nat): (n: nat)
    ensures n <= if i <= |s| then |s| - i else 0
    ensures n == 0 <==> forall p :: i <= p < |s| ==> !OrAt(s, p)
    decreases |s| - i
  {
    if i >= |s| then 0
    else (if OrAt(s, i) then 1 else 0) + CountOrFrom(s, i + 1)
  }

  // ---------------------------------------------------------------------
  // isValidCqlSyntax

  /** `/=\s*$/`: the query ends in `=` followed only by white space. */
  predicate EndsWithDanglingEquals(s: string) {
    var t := TrimEnd(s);
    |t| > 0 && t[|t| - 1] == '='
  }

  /** `/\|{3,}/`. */
  predicate HasTriplePipe(s: string) {
    exists p :: 0 <= p < |s| - 2 && s[p] == '|' && s[p + 1] == '|' && s[p + 2] == '|'
  }

  /** `/[{}[\]]/`. */
  predicate HasBracket(s: string) {
    '{' in s || '}' in s || '[' in s || ']' in s
  }

  /** Start of the run of white space that ends just before `j`. */
  function SpaceRunStart(s: string, j: nat): (m: nat)
    requires j <= |s|
    ensures m <= j
    ensures forall k :: m <= k < j ==> IsSpace(s[k])
    ensures m > 0 ==> !IsSpace(s[m - 1])
  {
    if j > 0 && IsSpace(s[j - 1]) then SpaceRunStart(s, j - 1) else j
  }

  /**
   * `/\w+\s*=\s*[^=]+/` matches with its `=` at `j`: a word character
   * before the white space in front of `j`, and a character other than
   * `=` right after it (white space included, since `[^=]` takes it).
   */
  predicate FieldValueAt(s: string, j: nat) {
    j + 1 < |s| && s[j] == '=' && s[j + 1] != '='
    && var m := SpaceRunStart(s, j); m > 0 && IsWordChar(s[m - 1])
  }

  predicate HasFieldValue(s: string) {
    exists j :: 0 <= j < |s| && FieldValueAt(s, j)
  }

  predicate IsValidCqlSyntax(s: string) {
    !EndsWithDanglingEquals(s) && !HasTriplePipe(s) && !HasBracket(s) && HasFieldValue(s)
  }

  // ---------------------------------------------------------------------
  // validateQuery

  function OrCount(cql: string): nat {
    CountOrFrom(cql, 0) + 1
  }

  function CappedMaxRecords(maxRecords: Option<int>): int {
    var m := if maxRecords.Some? then maxRecords.value else DefaultMaxRecords;
    if m < AbsoluteMaxRecords then m else AbsoluteMaxRecords
  }

  function TooLongError(length: nat): ValidationError
  {
    ValidationError(TooLong,
      "CQL query is too long. Maximum length: " + NatToString(MaxCqlLength) + " characters",
      LengthDetail(length))
  }

  function WildcardError(): ValidationError
  {
    ValidationError(WildcardTooBroad,
      "Wildcard \"*\" is not allowed for security reasons", PatternDetail("*"))
  }

  function FieldError(field: string): ValidationError
  {
    ValidationError(DisallowedField,
      "Field \"" + field + "\" is not allowed. Allowed fields: " + Join(AllowedFieldList, ", "),
      FieldDetail(field))
  }

  function OrError(orCount: nat): ValidationError
  {
    ValidationError(PotentialDdos,
      "Too many OR conditions (" + NatToString(orCount) + "). Maximum allowed: "
        + NatToString(MaxOrConditions),
      OrCountDetail(orCount))
  }

  function SyntaxError(cql: string): ValidationError
  {
    ValidationError(InvalidSyntax, "CQL syntax is invalid", CqlDetail(cql))
  }

  /**
   * `validateQuery(candidate, maxRecords)`; `None` stands for the omitted
   * argument, which defaults to 20.
   */
  function ValidateQuery(cql: string, maxRecords: Option<int>): (r: Validated)
    ensures r.Valid? ==> r.cql == cql
    ensures r.Valid? ==> r.maximumRecords <= AbsoluteMaxRecords
    ensures r.Valid? <==>
      |cql| <= MaxCqlLength && '*' !in cql && FirstDisallowedFrom(cql, 0).None?
      && OrCount(cql) <= MaxOrConditions && IsValidCqlSyntax(cql)
    ensures r.Invalid? && r.error.code == TooLong ==> r.error.details == LengthDetail(|cql|)
    ensures r.Invalid? && r.error.code == WildcardTooBroad ==> r.error.details == PatternDetail("*")
    ensures r.Invalid? && r.error.code == PotentialDdos ==> r.error.details == OrCountDetail(OrCount(cql))
    ensures r.Invalid? && r.error.code == InvalidSyntax ==> r.error.details == CqlDetail(cql)
  {
    if |cql| > MaxCqlLength then Invalid(TooLongError(|cql|))
    else if '*' in cql then Invalid(WildcardError())
    else if FirstDisallowedFrom(cql, 0).Some? then Invalid(FieldError(FirstDisallowedFrom(cql, 0).value))
    else if OrCount(cql) > MaxOrConditions then Invalid(OrError(OrCount(cql)))
    else if !IsValidCqlSyntax(cql) then Invalid(SyntaxError(cql))
    else
      Valid(cql, CappedMaxRecords(maxRecords))
  }

  // ---------------------------------------------------------------------
  // Properties

  /** The checks run in order: the first one that fails names the error. */
  lemma CheckOrder(cql: string, maxRecords: Option<int>)
    ensures var r := ValidateQuery(cql, maxRecords);
      (r.Invalid? && r.error.code == TooLong <==> |cql| > MaxCqlLength)
      && (r.Invalid? && r.error.code == WildcardTooBroad <==>
            |cql| <= MaxCqlLength && '*' in cql)
      && (r.Invalid? && r.error.code == DisallowedField <==>
            |cql| <= MaxCqlLength && '*' !in cql
            && exists p :: 0 <= p < |cql| && Refused(cql, p))
      && (r.Invalid? && r.error.code == PotentialDdos <==>
            |cql| <= MaxCqlLength && '*' !in cql && FirstDisallowedFrom(cql, 0).None?
            && OrCount(cql) > MaxOrConditions)
      && (r.Invalid? && r.error.code == InvalidSyntax <==>
            |cql| <= MaxCqlLength && '*' !in cql && FirstDisallowedFrom(cql, 0).None?
            && OrCount(cql) <= MaxOrConditions && !IsValidCqlSyntax(cql))
  {
    var k := FirstRefusedFrom(cql, 0);
    assert FirstDisallowedFrom(cql, 0).Some? <==> k < |cql|;
  }

  /** The rejected field is the first field, in text order, off the whitelist. */
  lemma DisallowedFieldIsFirst(cql: string, maxRecords: Option<int>)
    requires ValidateQuery(cql, maxRecords).Invalid?
    requires ValidateQuery(cql, maxRecords).error.code == DisallowedField
    ensures var f := ValidateQuery(cql, maxRecords).error.details;
      f.FieldDetail? && f.field !in AllowedFields
      && exists p :: 0 <= p < |cql| && Refused(cql, p) && FieldAt(cql, p) == f.field
                     && forall q :: 0 <= q < p ==> !Refused(cql, q)
  {
    var k := FirstRefusedFrom(cql, 0);
    assert ValidateQuery(cql, maxRecords).error.details == FieldDetail(FieldAt(cql, k));
  }

  /** An accepted query asks for at most 200 records, and for what it asked up to that. */
  lemma RecordCap(cql: string, maxRecords: Option<int>)
    requires ValidateQuery(cql, maxRecords).Valid?
    ensures var r := ValidateQuery(cql, maxRecords);
      r.maximumRecords == (if maxRecords.None? then DefaultMaxRecords
                           else if maxRecords.value < AbsoluteMaxRecords then maxRecords.value
                           else AbsoluteMaxRecords)
  {
  }

  /** Every field in an accepted query is on the whitelist. */
  lemma AcceptedFieldsAllowed(cql: string, maxRecords: Option<int>, p: nat)
    requires ValidateQuery(cql, maxRecords).Valid?
    requires p < |cql| && FieldMatchAt(cql, p)
    ensures FieldAt(cql, p) in AllowedFields
  {
    assert !Refused(cql, p);
  }
}
