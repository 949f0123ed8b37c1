/**
 * String primitives of JavaScript as the search server uses them.
 * A Dafny `char` stands for one UTF-16 code unit (characters outside the
 * Basic Multilingual Plane are not modelled).
 */
module JsText {

  /** Membership in JavaScript's `\s` class (WhiteSpace and LineTerminator). */
  predicate IsSpace(c: char) {
    c == '\t' || c == '\n' || c == '\U{B}' || c == '\U{C}' || c == '\r' || c == ' '
    || c == '\U{A0}' || c == '\U{1680}' || ('\U{2000}' <= c <= '\U{200A}')
    || c == '\U{2028}' || c == '\U{2029}' || c == '\U{202F}' || c == '\U{205F}'
    || c == '\U{3000}' || c == '\U{FEFF}'
  }

  /** The characters `.` does not match. */
  predicate IsLineTerminator(c: char) {
    c == '\n' || c == '\r' || c == '\U{2028}' || c == '\U{2029}'
  }

  predicate IsAsciiLetter(c: char) {
    ('A' <= c <= 'Z') || ('a' <= c <= 'z')
  }

  predicate IsDigit(c: char) {
    '0' <= c <= '9'
  }

  /** JavaScript's `\w` (no `u` flag): ASCII letters, digits and `_`. */
  predicate IsWordChar(c: char) {
    IsAsciiLetter(c) || IsDigit(c) || c == '_'
  }

  function LowerChar(c: char): (r: char)
    ensures 'A' <= c <= 'Z' ==> 'a' <= r <= 'z'
    ensures !('A' <= c <= 'Z') ==> r == c
  {
    if 'A' <= c <= 'Z' then (c as int + 32) as char else c
  }

  /** `toLowerCase`, for the ASCII letters. */
  function ToLower(s: string): (r: string)
    ensures |r| == |s|
    ensures forall i :: 0 <= i < |s| ==> r[i] == LowerChar(s[i])
  {
    seq(|s|, i requires 0 <= i < |s| => LowerChar(s[i]))
  }

  predicate StartsWith(s: string, t: string) {
    |t| <= |s| && s[..|t|] == t
  }

  lemma StartsWithPrefix(p: string, rest: string)
    ensures StartsWith(p + rest, p)
  {
    assert (p + rest)[..|p|] == p;
  }

  /** `s.includes(t)`. */
  predicate Includes(s: string, t: string)
    decreases |s|
  {
    StartsWith(s, t) || (|s| > 0 && Includes(s[1..], t))
  }

  /** `s.includes(t)` for at least one `t` of `ts`. */
  predicate IncludesAny(s: string, ts: seq<string>) {
    exists i :: 0 <= i < |ts| && Includes(s, ts[i])
  }

  /** `a || b || c` written as one `IncludesAny`. */
  lemma IncludesAnyOfThree(s: string, a: string, b: string, c: string)
    ensures IncludesAny(s, [a, b, c]) <==> Includes(s, a) || Includes(s, b) || Includes(s, c)
  {
    if Includes(s, a) {
      assert [a, b, c][0] == a;
    } else if Includes(s, b) {
      assert [a, b, c][1] == b;
    } else if Includes(s, c) {
      assert [a, b, c][2] == c;
    }
  }

  /**
   * `/第?\d+[巻冊]/` finds a match exactly where an ASCII digit is directly
   * followed by 巻 or 冊: the optional 第 and any earlier digits do not
   * decide whether there is one.
   */
  predicate HasVolumeMark(t: string) {
    exists i :: 0 <= i < |t| - 1 && IsDigit(t[i]) && (t[i + 1] == '巻' || t[i + 1] == '冊')
  }

  /** A title with a volume number such as `第3巻` earns the volume bonus. */
  lemma VolumeNumberCounts(prefix: string, digits: string, suffix: string)
    requires |digits| > 0 && forall k :: 0 <= k < |digits| ==> IsDigit(digits[k])
    ensures HasVolumeMark(prefix + "第" + digits + "巻" + suffix)
    ensures HasVolumeMark(prefix + digits + "冊" + suffix)
  {
    var t := prefix + "第" + digits + "巻" + suffix;
    var i := |prefix| + 1 + |digits| - 1;
    assert IsDigit(t[i]) && t[i + 1] == '巻';
    var u := prefix + digits + "冊" + suffix;
    var k := |prefix| + |digits| - 1;
    assert IsDigit(u[k]) && u[k + 1] == '冊';
  }

  /** `s.includes(t.toLowerCase())` for at least one `t` of `ts`. */
  predicate IncludesAnyLower(s: string, ts: seq<string>) {
    exists i :: 0 <= i < |ts| && Includes(s, ToLower(ts[i]))
  }

  /** The loop that tests each term in turn and stops at the first one `s` includes. */
  method ScanIncludes(s: string, ts: seq<string>) returns (found: bool)
    ensures found <==> IncludesAny(s, ts)
  {
    found := false;
    var i := 0;
    while i < |ts|
      invariant 0 <= i <= |ts|
      invariant forall k :: 0 <= k < i ==> !Includes(s, ts[k])
    {
      if Includes(s, ts[i]) {
        found := true;
        return;
      }
      i := i + 1;
    }
  }

  /** As `ScanIncludes`, lower-casing each term before the test. */
  method ScanIncludesLower(s: string, ts: seq<string>) returns (found: bool)
    ensures found <==> IncludesAnyLower(s, ts)
  {
    found := false;
    var i := 0;
    while i < |ts|
      invariant 0 <= i <= |ts|
      invariant forall k :: 0 <= k < i ==> !Includes(s, ToLower(ts[k]))
    {
      if Includes(s, ToLower(ts[i])) {
        found := true;
        return;
      }
      i := i + 1;
    }
  }

  /** The first of `ts` that `s` includes, as `Array.prototype.find` reports it. */
  function FirstIncluded(s: string, ts: seq<string>): (r: Option<string>)
    ensures r.Some? <==> IncludesAny(s, ts)
    ensures r.Some? ==> r.value in ts && Includes(s, r.value)
  {
    if |ts| == 0 then None
    else if Includes(s, ts[0]) then Some(ts[0])
    else
      var rest := FirstIncluded(s, ts[1..]);
      assert forall i :: 1 <= i < |ts| ==> ts[i] == ts[1..][i - 1];
      rest
  }

  datatype Option<T> = None | Some(value: T)

  /** The present values of `os`, in order: a map whose `null` results are skipped. */
  function Somes<T>(os: seq<Option<T>>): (r: seq<T>)
    ensures |r| <= |os|
    decreases |os|
  {
    if |os| == 0 then []
    else Somes(os[..|os| - 1]) + (if os[|os| - 1].Some? then [os[|os| - 1].value] else [])
  }

  lemma SomesStep<T>(os: seq<Option<T>>, i: nat)
    requires i < |os|
    ensures Somes(os[..i + 1]) == Somes(os[..i]) + (if os[i].Some? then [os[i].value] else [])
  {
    assert os[..i + 1][..i] == os[..i];
  }

  /**
   * `Somes` keeps order: each kept value sits at a strictly later position
   * of `os` than the one before it, and every present value is kept.
   */
  lemma {:induction false} SomesInOrder<T>(os: seq<Option<T>>) returns (idx: seq<nat>)
    ensures |idx| == |Somes(os)|
    ensures forall j :: 0 <= j < |idx| ==> idx[j] < |os| && os[idx[j]] == Some(Somes(os)[j])
    ensures forall j, k :: 0 <= j < k < |idx| ==> idx[j] < idx[k]
    ensures forall i :: 0 <= i < |os| && os[i].Some? ==> os[i].value in Somes(os)
    decreases |os|
  {
    if |os| == 0 {
      idx := [];
    } else {
      var p := os[..|os| - 1];
      var before := Somes(p);
      var q := SomesInOrder(p);
      var last := os[|os| - 1];
      var kept := Somes(os);
      if last.Some? {
        idx := q + [|os| - 1];
        assert kept == before + [last.value];
      } else {
        idx := q;
        assert kept == before;
      }
      forall j | 0 <= j < |idx| ensures idx[j] < |os| && os[idx[j]] == Some(kept[j]) {
        if j < |q| {
          assert idx[j] == q[j] && kept[j] == before[j];
          assert os[q[j]] == p[q[j]];
        }
      }
      SomesKeepsPresent(os);
    }
  }

  /** Every present value of `os` is among its `Somes`. */
  lemma {:induction false} SomesKeepsPresent<T>(os: seq<Option<T>>)
    ensures forall i :: 0 <= i < |os| && os[i].Some? ==> os[i].value in Somes(os)
    decreases |os|
  {
    if |os| > 0 {
      var p := os[..|os| - 1];
      SomesKeepsPresent(p);
      var kept := Somes(os);
      assert Somes(p) <= kept;
      forall i | 0 <= i < |os| && os[i].Some? ensures os[i].value in kept {
        if i < |p| {
          assert os[i] == p[i];
        }
      }
    }
  }

  /** A value or the error a JavaScript function would throw instead. */
  datatype Result<T, E> = Ok(value: T) | Err(error: E)

  function TrimStart(s: string): (r: string)
    ensures |r| <= |s| && r == s[|s| - |r|..]
    ensures |r| > 0 ==> !IsSpace(r[0])
    ensures forall i :: 0 <= i < |s| - |r| ==> IsSpace(s[i])
    decreases |s|
  {
    if |s| > 0 && IsSpace(s[0]) then TrimStart(s[1..]) else s
  }

  function TrimEnd(s: string): (r: string)
    ensures |r| <= |s| && r == s[..|r|]
    ensures |r| > 0 ==> !IsSpace(r[|r| - 1])
    ensures forall i :: |r| <= i < |s| ==> IsSpace(s[i])
    decreases |s|
  {
    if |s| > 0 && IsSpace(s[|s| - 1]) then TrimEnd(s[..|s| - 1]) else s
  }

  /** `s.trim()`. */
  function Trim(s: string): (r: string)
    ensures |r| > 0 ==> !IsSpace(r[0]) && !IsSpace(r[|r| - 1])
    ensures |r| <= |s|
  {
    TrimEnd(TrimStart(s))
  }

  /** Trimming twice is trimming once. */
  lemma TrimIdempotent(s: string)
    ensures Trim(Trim(s)) == Trim(s)
  {
    var r := Trim(s);
    if |r| > 0 {
      assert TrimStart(r) == r;
      assert TrimEnd(r) == r;
    }
  }

  /** `s.split(sep)` for a one-character separator: never empty. */
  function SplitOn(s: string, sep: char): (r: seq<string>)
    ensures |r| >= 1
    ensures forall i :: 0 <= i < |r| ==> sep !in r[i]
    decreases |s|
  {
    if |s| == 0 then [""]
    else
      var rest := SplitOn(s[1..], sep);
      if s[0] == sep then [""] + rest
      else [[s[0]] + rest[0]] + rest[1..]
  }

  /** `parts.join(sep)`. */
  function Join(parts: seq<string>, sep: string): string {
    if |parts| == 0 then ""
    else if |parts| == 1 then parts[0]
    else parts[0] + sep + Join(parts[1..], sep)
  }

  /**
   * The pieces between separator characters, one piece per separator
   * (so consecutive separators give empty pieces).
   */
  function SplitWhere(s: string, isSep: char -> bool): (r: seq<string>)
    ensures |r| >= 1
    ensures forall i, j :: 0 <= i < |r| && 0 <= j < |r[i]| ==> !isSep(r[i][j])
    decreases |s|
  {
    if |s| == 0 then [""]
    else
      var rest := SplitWhere(s[1..], isSep);
      if isSep(s[0]) then [""] + rest
      else [[s[0]] + rest[0]] + rest[1..]
  }

  /** No two neighbouring characters are both white space. */
  predicate SingleSpaced(s: string) {
    forall i, j :: 0 <= i < |s| && 0 <= j < |s| && j == i + 1 ==> !(IsSpace(s[i]) && IsSpace(s[j]))
  }

  /** `s.replace(/\s+/g, ' ')`: every maximal white-space run becomes one space. */
  function CollapseSpaces(s: string): (r: string)
    ensures |s| > 0 ==> |r| > 0 && r[0] == (if IsSpace(s[0]) then ' ' else s[0])
    ensures forall i :: 0 <= i < |r| && IsSpace(r[i]) ==> r[i] == ' '
    ensures SingleSpaced(r)
    ensures forall i :: 0 <= i < |r| ==> r[i] == ' ' || r[i] in s
    decreases |s|
  {
    if |s| == 0 then ""
    else
      var rest := CollapseSpaces(s[1..]);
      if IsSpace(s[0]) then
        if |s| > 1 && IsSpace(s[1]) then rest else [' '] + rest
      else [s[0]] + rest
  }

  /** Removes every character of `cs`. */
  function RemoveChars(s: string, cs: set<char>): (r: string)
    ensures forall i :: 0 <= i < |r| ==> r[i] !in cs
    ensures forall i :: 0 <= i < |r| ==> r[i] in s
    decreases |s|
  {
    if |s| == 0 then ""
    else
      var rest := RemoveChars(s[1..], cs);
      assert s == [s[0]] + s[1..];
      if s[0] in cs then rest else [s[0]] + rest
  }

  /** Removing characters works piece by piece. */
  lemma {:induction false} RemoveCharsConcat(a: string, b: string, cs: set<char>)
    ensures RemoveChars(a + b, cs) == RemoveChars(a, cs) + RemoveChars(b, cs)
    decreases |a|
  {
    if |a| > 0 {
      assert (a + b)[1..] == a[1..] + b;
      RemoveCharsConcat(a[1..], b, cs);
    } else {
      assert a + b == b;
    }
  }

  /** Lower-casing works piece by piece. */
  lemma ToLowerConcat(a: string, b: string)
    ensures ToLower(a + b) == ToLower(a) + ToLower(b)
  {
  }

  /** Lower-casing twice is lower-casing once. */
  lemma ToLowerIdempotent(s: string)
    ensures ToLower(ToLower(s)) == ToLower(s)
  {
  }

  function DigitChar(d: nat): char
    requires d < 10
  {
    "0123456789"[d]
  }

  /** Decimal text of a natural number, as `String(n)` prints it. */
  function NatToString(n: nat): (r: string)
    ensures |r| >= 1
    ensures forall i :: 0 <= i < |r| ==> IsDigit(r[i])
    decreases n
  {
    if n < 10 then [DigitChar(n)] else NatToString(n / 10) + [DigitChar(n % 10)]
  }

  /** Decimal text of an integer, as `String(n)` prints it. */
  function IntToString(n: int): string {
    if n < 0 then "-" + NatToString(-n) else NatToString(n)
  }

  function DigitValue(c: char): nat
    requires IsDigit(c)
  {
    c as int - '0' as int
  }

  /** Value of a string of decimal digits. */
  function DigitsValue(s: string): nat
    requires forall i :: 0 <= i < |s| ==> IsDigit(s[i])
  {
    if |s| == 0 then 0 else 10 * DigitsValue(s[..|s| - 1]) + DigitValue(s[|s| - 1])
  }

  lemma {:induction false} NatToStringValue(n: nat)
    ensures DigitsValue(NatToString(n)) == n
    decreases n
  {
    if n >= 10 {
      NatToStringValue(n / 10);
      var s := NatToString(n / 10) + [DigitChar(n % 10)];
      assert s[..|s| - 1] == NatToString(n / 10);
    }
  }

  /** Length of the run of decimal digits at the start of `s`. */
  function LeadingDigits(s: string): (k: nat)
    ensures k <= |s|
    ensures forall i :: 0 <= i < k ==> IsDigit(s[i])
    ensures k < |s| ==> !IsDigit(s[k])
    decreases |s|
  {
    if |s| > 0 && IsDigit(s[0]) then 1 + LeadingDigits(s[1..]) else 0
  }

  predicate IsHexDigit(c: char) {
    IsDigit(c) || 'a' <= c <= 'f' || 'A' <= c <= 'F'
  }

  function HexDigitValue(c: char): (r: nat)
    requires IsHexDigit(c)
    ensures r < 16
  {
    if IsDigit(c) then DigitValue(c)
    else if 'a' <= c <= 'f' then c as int - 'a' as int + 10
    else c as int - 'A' as int + 10
  }

  /** Value of a string of hexadecimal digits. */
  function HexDigitsValue(s: string): nat
    requires forall i :: 0 <= i < |s| ==> IsHexDigit(s[i])
  {
    if |s| == 0 then 0 else 16 * HexDigitsValue(s[..|s| - 1]) + HexDigitValue(s[|s| - 1])
  }

  /** Length of the run of hexadecimal digits at the start of `s`. */
  function LeadingHexDigits(s: string): (k: nat)
    ensures k <= |s|
    ensures forall i :: 0 <= i < k ==> IsHexDigit(s[i])
    ensures k < |s| ==> !IsHexDigit(s[k])
    decreases |s|
  {
    if |s| > 0 && IsHexDigit(s[0]) then 1 + LeadingHexDigits(s[1..]) else 0
  }

  /** The text after one leading sign, if there is one. */
  function Unsigned(t: string): string {
    if |t| > 0 && (t[0] == '-' || t[0] == '+') then t[1..] else t
  }

  /** `0x` or `0X`: with no radix given, `parseInt` reads the rest in base 16. */
  predicate HasHexPrefix(u: string) {
    |u| >= 2 && u[0] == '0' && (u[1] == 'x' || u[1] == 'X')
  }

  /**
   * `parseInt(s)` with no radix: leading white space and one sign are
   * skipped; a `0x` or `0X` prefix switches to hexadecimal digits, any other
   * text is read in decimal; `None` stands for `NaN` (no digit follows).
   */
  function ParseInt(s: string): (r: Option<int>)
    ensures var u := Unsigned(TrimStart(s));
      r.Some? <==> if HasHexPrefix(u) then |u| > 2 && IsHexDigit(u[2]) else |u| > 0 && IsDigit(u[0])
  {
    var t := TrimStart(s);
    var neg := |t| > 0 && t[0] == '-';
    var u := Unsigned(t);
    if HasHexPrefix(u) then SignedHexDigits(u[2..], neg) else SignedDigits(u, neg)
  }

  /** The leading hexadecimal digits of `u` as a number, negated when `neg`; `None` when there are none. */
  function SignedHexDigits(u: string, neg: bool): (r: Option<int>)
    ensures r.Some? <==> |u| > 0 && IsHexDigit(u[0])
  {
    var k := LeadingHexDigits(u);
    if k == 0 then None
    else
      var v: int := HexDigitsValue(u[..k]);
      Some(if neg then -v else v)
  }

  /** The leading digits of `u` as a number, negated when `neg`; `None` when there are none. */
  function SignedDigits(u: string, neg: bool): (r: Option<int>)
    ensures r.Some? <==> |u| > 0 && IsDigit(u[0])
  {
    var k := LeadingDigits(u);
    if k == 0 then None
    else
      var v: int := DigitsValue(u[..k]);
      Some(if neg then -v else v)
  }
}
