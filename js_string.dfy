/**
 * The JavaScript string operations the components rely on, with the
 * semantics of the ECMAScript built-ins they stand for:
 * `toLowerCase`, `includes`, `trim`, `substring` and the conversion of an
 * integer-valued number to its decimal text in a template literal.
 */
module JsString {

  /** An ASCII upper-case letter. */
  predicate IsUpper(c: char) {
    'A' <= c <= 'Z'
  }

  /** `toLowerCase` on one character (ASCII letters only). */
  function LowerChar(c: char): char {
    if IsUpper(c) then (c as int + 32) as char else c
  }

  /** `s.toLowerCase()`: maps every character through LowerChar, keeping positions. */
  function ToLowerCase(s: string): (r: string)
    ensures |r| == |s|
    ensures forall i :: 0 <= i < |s| ==> r[i] == LowerChar(s[i])
    ensures forall i :: 0 <= i < |r| ==> !IsUpper(r[i])
  {
    if s == [] then [] else [LowerChar(s[0])] + ToLowerCase(s[1..])
  }

  /** A string without upper-case letters is its own lower-case form. */
  lemma ToLowerCaseOfLower(s: string)
    requires forall i :: 0 <= i < |s| ==> !IsUpper(s[i])
    ensures ToLowerCase(s) == s
  {
    var r := ToLowerCase(s);
    assert forall i :: 0 <= i < |s| ==> r[i] == s[i];
  }

  /** `s.startsWith(t)`. */
  predicate StartsWith(s: string, t: string) {
    |t| <= |s| && s[..|t|] == t
  }

  /** `s.includes(t)`: some position of `s` starts a copy of `t`. */
  predicate Includes(s: string, t: string)
    ensures Includes(s, t) ==> |t| <= |s|
    decreases |s|
  {
    StartsWith(s, t) || (|s| > 0 && Includes(s[1..], t))
  }

  /** A copy of `t` starts at position `i` of `s`. */
  predicate OccursAt(s: string, t: string, i: int) {
    0 <= i <= |s| - |t| && s[i..i + |t|] == t
  }

  /** Includes searches exactly the positions 0..|s|-|t|. */
  lemma {:induction false} IncludesIff(s: string, t: string)
    ensures Includes(s, t) <==> exists i :: OccursAt(s, t, i)
    decreases |s|
  {
    assert StartsWith(s, t) <==> OccursAt(s, t, 0);
    if |s| == 0 {
      assert forall i :: OccursAt(s, t, i) ==> i == 0;
    } else {
      IncludesIff(s[1..], t);
      forall i | 0 <= i
        ensures OccursAt(s[1..], t, i) <==> OccursAt(s, t, i + 1)
      {
        if 0 <= i <= |s[1..]| - |t| {
          assert s[1..][i..i + |t|] == s[i + 1..i + 1 + |t|];
        }
      }
      assert (exists i :: OccursAt(s, t, i)) ==> OccursAt(s, t, 0) || exists i :: OccursAt(s[1..], t, i) by {
        if exists i :: OccursAt(s, t, i) {
          var i :| OccursAt(s, t, i);
          assert i == 0 || OccursAt(s[1..], t, i - 1);
        }
      }
    }
  }

  /** A copy of `t` found at position `i` makes `s.includes(t)` true. */
  lemma IncludesAt(s: string, t: string, i: int)
    requires OccursAt(s, t, i)
    ensures Includes(s, t)
  {
    IncludesIff(s, t);
  }

  /** Every string includes the empty string. */
  lemma IncludesEmpty(s: string)
    ensures Includes(s, "")
  {
    IncludesAt(s, "", 0);
  }

  /** A string that includes `t` contains each of `t`'s characters. */
  lemma IncludesOnlyIfChars(s: string, t: string, j: int)
    requires Includes(s, t) && 0 <= j < |t|
    ensures t[j] in s
  {
    IncludesIff(s, t);
    var i :| OccursAt(s, t, i);
    assert s[i + j] == s[i..i + |t|][j];
  }

  /** A string lacking one of `t`'s characters does not include `t`. */
  lemma MissingCharExcludes(s: string, t: string, j: int)
    requires 0 <= j < |t| && t[j] !in s
    ensures !Includes(s, t)
  {
    if Includes(s, t) {
      IncludesOnlyIfChars(s, t, j);
    }
  }

  /**
   * The characters `trim` removes: ECMAScript's WhiteSpace (tab, vertical
   * tab, form feed, the zero-width no-break space U+FEFF and every space
   * separator of category Zs) and LineTerminator (line feed, carriage
   * return, U+2028 and U+2029).
   */
  predicate IsWhitespace(c: char) {
    || '\t' <= c <= '\r'  // tab, line feed, vertical tab, form feed, carriage return
    || c == ' ' || c == '\U{00A0}' || c == '\U{1680}' || '\U{2000}' <= c <= '\U{200A}'
    || '\U{2028}' <= c <= '\U{2029}' || c == '\U{202F}' || c == '\U{205F}' || c == '\U{3000}'
    || c == '\U{FEFF}'
  }

  /** Every character of `s` is whitespace. */
  predicate IsBlank(s: string) {
    forall i :: 0 <= i < |s| ==> IsWhitespace(s[i])
  }

  /** Drops the leading whitespace. */
  function TrimStart(s: string): (r: string)
    ensures |r| <= |s| && r == s[|s| - |r|..]
    ensures IsBlank(s[..|s| - |r|])
    ensures r == [] || !IsWhitespace(r[0])
  {
    if s != [] && IsWhitespace(s[0]) then
      var r := TrimStart(s[1..]);
      assert s[..|s| - |r|] == [s[0]] + s[1..][..|s| - 1 - |r|];
      r
    else s
  }

  /** Drops the trailing whitespace. */
  function TrimEnd(s: string): (r: string)
    ensures |r| <= |s| && r == s[..|r|]
    ensures IsBlank(s[|r|..])
    ensures r == [] || !IsWhitespace(r[|r| - 1])
  {
    if s != [] && IsWhitespace(s[|s| - 1]) then
      var r := TrimEnd(s[..|s| - 1]);
      assert s[|r|..] == s[..|s| - 1][|r|..] + [s[|s| - 1]];
      r
    else s
  }

  /** `s.trim()`. */
  function Trim(s: string): (r: string)
    ensures exists i :: OccursAt(s, r, i)
    ensures r == [] || (!IsWhitespace(r[0]) && !IsWhitespace(r[|r| - 1]))
  {
    TrimPiece(s, TrimStart(s), TrimEnd(TrimStart(s)));
    TrimEnd(TrimStart(s))
  }

  /** Cutting a suffix `t` of `s`, then a prefix `u` of `t`, leaves a piece of `s` starting where `t` does. */
  lemma TrimPiece(s: string, t: string, u: string)
    requires |t| <= |s| && t == s[|s| - |t|..]
    requires |u| <= |t| && u == t[..|u|]
    ensures OccursAt(s, u, |s| - |t|)
    ensures u != [] ==> u[0] == t[0]
  {
    assert s[|s| - |t|..|s| - |t| + |u|] == t[..|u|];
  }

  /** Two leading blanks and a trailing one around a non-blank character are all trimmed. */
  lemma TrimAround(a: char, b: char, x: char, c: char)
    requires IsWhitespace(a) && IsWhitespace(b) && !IsWhitespace(x) && IsWhitespace(c)
    ensures Trim([a, b, x, c]) == [x]
  {
    assert [a, b, x, c][1..] == [b, x, c] && [b, x, c][1..] == [x, c];
    assert TrimStart([b, x, c]) == [x, c];
    assert TrimStart([a, b, x, c]) == [x, c];
    assert [x, c][..1] == [x];
    assert TrimEnd([x, c]) == [x];
  }

  /** Ideographic space, a Zs separator outside Latin-1, is trimmed like a plain space. */
  lemma TrimIdeographicSpace()
    ensures Trim("\U{3000}") == ""
    ensures Trim(" \U{3000}x\U{2003}") == "x"
  {
    TrimEmptyIff("\U{3000}");
    TrimAround(' ', '\U{3000}', 'x', '\U{2003}');
  }

  /** `s.trim()` is empty exactly when `s` is blank, which is what `!s.trim()` tests. */
  lemma TrimEmptyIff(s: string)
    ensures Trim(s) == "" <==> IsBlank(s)
  {
    var t := TrimStart(s);
    var u := TrimEnd(t);
    assert t != [] ==> t[0] == s[|s| - |t|];
    assert u == [] ==> t == t[|u|..];
    assert t == [] ==> s[..|s| - |t|] == s;
  }

  /** JavaScript's clamp of a `substring` index to 0..len. */
  function ClampIndex(i: int, len: nat): (r: nat)
    ensures r <= len
    ensures 0 <= i <= len ==> r == i
  {
    if i < 0 then 0 else if i > len then len else i
  }

  /**
   * `s.substring(start, end)`: both indices are clamped to 0..|s| and the
   * smaller one is taken as the start.
   */
  function Substring(s: string, start: int, end: int): (r: string)
    ensures var a := ClampIndex(start, |s|); var b := ClampIndex(end, |s|);
      OccursAt(s, r, if a <= b then a else b) && |r| == if a <= b then b - a else a - b
  {
    var a := ClampIndex(start, |s|);
    var b := ClampIndex(end, |s|);
    if a <= b then s[a..b] else s[b..a]
  }

  /** `s.substring(start)`, that is, up to the end of `s`. */
  function SubstringFrom(s: string, start: int): string {
    Substring(s, start, |s|)
  }

  /** Within bounds, `substring` is the plain slice; out of bounds it clamps. */
  lemma SubstringSlices(s: string, start: int, end: int)
    ensures 0 <= start <= end <= |s| ==> Substring(s, start, end) == s[start..end]
    ensures end <= start ==> Substring(s, start, end) == Substring(s, end, start)
    ensures start <= 0 ==> SubstringFrom(s, start) == s
    ensures |s| <= end ==> Substring(s, 0, end) == s
  {
  }

  /** The decimal digit character for `d`. */
  function DigitChar(d: int): (c: char)
    requires 0 <= d < 10
  {
    "0123456789"[d]
  }

  function DigitValue(c: char): int {
    if '0' <= c <= '9' then c as int - '0' as int else 0
  }

  predicate IsDigit(c: char) {
    '0' <= c <= '9'
  }

  /** The decimal text of a natural number, without leading zeros. */
  function NatToString(n: nat): (r: string)
    ensures |r| > 0
    ensures forall i :: 0 <= i < |r| ==> IsDigit(r[i])
    ensures r[0] == '0' ==> n == 0
  {
    if n < 10 then [DigitChar(n)] else NatToString(n / 10) + [DigitChar(n % 10)]
  }

  /** The value of a string of decimal digits. */
  function DecimalValue(s: string): int {
    if s == [] then 0 else DecimalValue(s[..|s| - 1]) * 10 + DigitValue(s[|s| - 1])
  }

  /** Reading back the decimal text of `n` gives `n`. */
  lemma {:induction false} NatToStringRoundTrip(n: nat)
    ensures DecimalValue(NatToString(n)) == n
    decreases n
  {
    if n >= 10 {
      NatToStringRoundTrip(n / 10);
      var r := NatToString(n);
      assert r[..|r| - 1] == NatToString(n / 10);
    }
  }

  /** `${n}` for an integer-valued number. */
  function NumberToString(n: int): (r: string)
    ensures |r| > 0
  {
    if n < 0 then "-" + NatToString(-n) else NatToString(n)
  }

  /** A non-negative number prints as its plain decimal text, a negative one with a leading minus. */
  lemma NumberToStringSign(n: int)
    ensures n >= 0 ==> NumberToString(n) == NatToString(n) && DecimalValue(NumberToString(n)) == n
    ensures n < 0 ==> NumberToString(n)[0] == '-' && DecimalValue(NumberToString(n)[1..]) == -n
  {
    if n >= 0 {
      NatToStringRoundTrip(n);
    } else {
      NatToStringRoundTrip(-n);
      var r := NumberToString(n);
      assert r == "-" + NatToString(-n);
      assert r[1..] == NatToString(-n);
    }
  }
}
