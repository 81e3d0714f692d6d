/**
 * String helpers shared by the model: decimal rendering of integers (JavaScript template
 * literals and Python f-strings agree on it for integers), prefix / suffix / infix tests,
 * ASCII case mapping, the two languages' whitespace trimming, and the two `split` idioms
 * the sources use (`s.split(c)[0]` and the last piece of `s.split(c)`).
 */
module Text {

  // ------------------------------------------------------------------
  // Decimal rendering of integers
  // ------------------------------------------------------------------

  predicate IsDigit(c: char) { '0' <= c <= '9' }

  predicate AllDigits(s: string) { forall i :: 0 <= i < |s| ==> IsDigit(s[i]) }

  function DigitValue(c: char): nat
    requires IsDigit(c)
  {
    c as int - '0' as int
  }

  function DigitChar(d: nat): (c: char)
    requires d < 10
    ensures IsDigit(c) && DigitValue(c) == d
  {
    (d + '0' as int) as char
  }

  /** The decimal digits of `n`, most significant first, without leading zeros. */
  function NatToString(n: nat): (s: string)
    ensures |s| > 0 && AllDigits(s)
    ensures s[0] == '0' ==> n == 0
  {
    if n < 10 then [DigitChar(n)] else NatToString(n / 10) + [DigitChar(n % 10)]
  }

  /** The number a string of decimal digits denotes. */
  function DigitsValue(s: string): nat
    requires AllDigits(s)
  {
    if s == [] then 0 else DigitsValue(s[..|s| - 1]) * 10 + DigitValue(s[|s| - 1])
  }

  /** Reading back the digits of `n` gives `n`. */
  lemma {:induction false} DigitsValueOfNatToString(n: nat)
    ensures DigitsValue(NatToString(n)) == n
  {
    if n >= 10 {
      DigitsValueOfNatToString(n / 10);
      var s := NatToString(n);
      assert s[..|s| - 1] == NatToString(n / 10);
    }
  }

  /** `${i}` in JavaScript and `f"{i}"` in Python, for an integer `i`. */
  function IntToString(i: int): (s: string)
    ensures |s| > 0
    ensures s[0] == '-' <==> i < 0
  {
    if i < 0 then "-" + NatToString(-i) else NatToString(i)
  }

  /** Distinct integers are rendered as distinct strings. */
  lemma IntToStringInjective(a: int, b: int)
    ensures IntToString(a) == IntToString(b) <==> a == b
  {
    if IntToString(a) == IntToString(b) {
      if a < 0 && b < 0 {
        assert NatToString(-a) == IntToString(a)[1..];
        assert NatToString(-b) == IntToString(b)[1..];
      }
      if (a < 0) == (b < 0) {
        DigitsValueOfNatToString(if a < 0 then -a else a);
        DigitsValueOfNatToString(if b < 0 then -b else b);
      }
    }
  }

  // ------------------------------------------------------------------
  // Prefixes, suffixes, infixes
  // ------------------------------------------------------------------

  predicate StartsWith(s: string, p: string) { |p| <= |s| && s[..|p|] == p }

  predicate EndsWith(s: string, p: string) { |p| <= |s| && s[|s| - |p|..] == p }

  predicate OccursAt(s: string, t: string, i: int) { 0 <= i && i + |t| <= |s| && s[i..i + |t|] == t }

  /** JavaScript `s.includes(t)`, Python `t in s`. */
  predicate Contains(s: string, t: string) { exists i | 0 <= i <= |s| :: OccursAt(s, t, i) }

  // ------------------------------------------------------------------
  // ASCII case mapping
  // ------------------------------------------------------------------

  function LowerChar(c: char): char { if 'A' <= c <= 'Z' then (c as int + 32) as char else c }

  function UpperChar(c: char): char { if 'a' <= c <= 'z' then (c as int - 32) as char else c }

  function Lower(s: string): (r: string)
    ensures |r| == |s| && forall i :: 0 <= i < |s| ==> r[i] == LowerChar(s[i])
  {
    if s == [] then [] else [LowerChar(s[0])] + Lower(s[1..])
  }

  function Upper(s: string): (r: string)
    ensures |r| == |s| && forall i :: 0 <= i < |s| ==> r[i] == UpperChar(s[i])
  {
    if s == [] then [] else [UpperChar(s[0])] + Upper(s[1..])
  }

  // ------------------------------------------------------------------
  // Splitting
  // ------------------------------------------------------------------

  /** `s.split(c)[0]` in both languages: the text before the first `c`, or all of `s`. */
  function BeforeFirst(s: string, c: char): (r: string)
    ensures |r| <= |s| && r == s[..|r|]
    ensures c !in r
    ensures |r| < |s| ==> s[|r|] == c
  {
    if s == [] || s[0] == c then [] else [s[0]] + BeforeFirst(s[1..], c)
  }

  /** The last piece of `s.split(c)`: the text after the last `c`, or all of `s`. */
  function AfterLast(s: string, c: char): (r: string)
    ensures |r| <= |s| && r == s[|s| - |r|..]
    ensures c !in r
    ensures |r| < |s| ==> s[|s| - |r| - 1] == c
  {
    if s == [] || s[|s| - 1] == c then [] else AfterLast(s[..|s| - 1], c) + [s[|s| - 1]]
  }

  // ------------------------------------------------------------------
  // Whitespace trimming
  // ------------------------------------------------------------------

  /** Drops the leading characters that satisfy `ws`. */
  function TrimStart(s: string, ws: char -> bool): (r: string)
    ensures |r| <= |s| && r == s[|s| - |r|..]
    ensures forall i :: 0 <= i < |s| - |r| ==> ws(s[i])
    ensures r == [] || !ws(r[0])
  {
    if s != [] && ws(s[0]) then TrimStart(s[1..], ws) else s
  }

  /** Drops the trailing characters that satisfy `ws`. */
  function TrimEnd(s: string, ws: char -> bool): (r: string)
    ensures |r| <= |s| && r == s[..|r|]
    ensures forall i :: |r| <= i < |s| ==> ws(s[i])
    ensures r == [] || !ws(r[|r| - 1])
  {
    if s != [] && ws(s[|s| - 1]) then TrimEnd(s[..|s| - 1], ws) else s
  }

  /**
   * `r` is `s` with some leading and some trailing characters removed, all of which
   * satisfy `ws`.
   */
  predicate TrimmedSlice(s: string, ws: char -> bool, r: string)
  {
    exists a, b :: 0 <= a <= b <= |s| && r == s[a..b]
      && (forall i :: 0 <= i < a ==> ws(s[i]))
      && (forall i :: b <= i < |s| ==> ws(s[i]))
  }

  /** Drops the leading and trailing characters that satisfy `ws`, and nothing in between. */
  function Strip(s: string, ws: char -> bool): (r: string)
    ensures |r| <= |s|
    ensures TrimmedSlice(s, ws, r)
    ensures r == [] || (!ws(r[0]) && !ws(r[|r| - 1]))
    ensures s == [] || (!ws(s[0]) && !ws(s[|s| - 1])) ==> r == s
  {
    var t := TrimStart(s, ws);
    var r := TrimEnd(t, ws);
    StripIsSlice(s, ws, t, r);
    r
  }

  /** Trimming a prefix and then a suffix of whitespace leaves a trimmed slice of the input. */
  lemma StripIsSlice(s: string, ws: char -> bool, t: string, r: string)
    requires |t| <= |s| && t == s[|s| - |t|..] && forall i :: 0 <= i < |s| - |t| ==> ws(s[i])
    requires |r| <= |t| && r == t[..|r|] && forall i :: |r| <= i < |t| ==> ws(t[i])
    ensures TrimmedSlice(s, ws, r)
  {
    var a := |s| - |t|;
    var b := a + |r|;
    PrefixOfSuffix(s, t, r);
    forall i | b <= i < |s|
      ensures ws(s[i])
    {
      SuffixAt(s, t, i);
    }
    SliceWitness(s, ws, r, a, b);
  }

  /** A prefix `r` of a suffix `t` of `s` is a slice of `s`, and `s` past it is `t` past it. */
  lemma PrefixOfSuffix<T>(s: seq<T>, t: seq<T>, r: seq<T>)
    requires |t| <= |s| && t == s[|s| - |t|..]
    requires |r| <= |t| && r == t[..|r|]
    ensures r == s[|s| - |t|..|s| - |t| + |r|]
  {
  }

  /** Inside a suffix `t` of `s`, `s` and `t` agree up to the offset. */
  lemma SuffixAt<T>(s: seq<T>, t: seq<T>, i: int)
    requires |t| <= |s| && t == s[|s| - |t|..]
    requires |s| - |t| <= i < |s|
    ensures s[i] == t[i - (|s| - |t|)]
  {
  }

  lemma SliceWitness(s: string, ws: char -> bool, r: string, a: int, b: int)
    requires 0 <= a <= b <= |s| && r == s[a..b]
    requires forall i :: 0 <= i < a ==> ws(s[i])
    requires forall i :: b <= i < |s| ==> ws(s[i])
    ensures TrimmedSlice(s, ws, r)
  {
  }

  /** Stripping leaves nothing exactly when every character is whitespace. */
  lemma StripEmptyIff(s: string, ws: char -> bool)
    ensures Strip(s, ws) == [] <==> forall i :: 0 <= i < |s| ==> ws(s[i])
  {
    if Strip(s, ws) == [] {
      assert TrimStart(s, ws) == [];
    }
  }

  /** The characters JavaScript's `String.prototype.trim` removes (WhiteSpace and LineTerminator). */
  predicate IsJsWhitespace(c: char)
  {
    c in {'\t', '\n', '\U{000B}', '\U{000C}', '\r', ' ', '\U{00A0}', '\U{1680}',
          '\U{2028}', '\U{2029}', '\U{202F}', '\U{205F}', '\U{3000}', '\U{FEFF}'}
    || ('\U{2000}' <= c <= '\U{200A}')
  }

  /** The characters Python's `str.strip()` removes (those for which `str.isspace` holds). */
  predicate IsPyWhitespace(c: char)
  {
    c in {'\t', '\n', '\U{000B}', '\U{000C}', '\r', '\U{001C}', '\U{001D}', '\U{001E}', '\U{001F}',
          ' ', '\U{0085}', '\U{00A0}', '\U{1680}', '\U{2028}', '\U{2029}', '\U{202F}', '\U{205F}', '\U{3000}'}
    || ('\U{2000}' <= c <= '\U{200A}')
  }

  /** JavaScript `s.trim()`. */
  function JsTrim(s: string): (r: string)
    ensures |r| <= |s|
    ensures TrimmedSlice(s, IsJsWhitespace, r)
    ensures r == [] || (!IsJsWhitespace(r[0]) && !IsJsWhitespace(r[|r| - 1]))
    ensures s == [] || (!IsJsWhitespace(s[0]) && !IsJsWhitespace(s[|s| - 1])) ==> r == s
  {
    Strip(s, IsJsWhitespace)
  }

  /** Python `s.strip()`. */
  function PyStrip(s: string): (r: string)
    ensures |r| <= |s|
    ensures TrimmedSlice(s, IsPyWhitespace, r)
    ensures r == [] || (!IsPyWhitespace(r[0]) && !IsPyWhitespace(r[|r| - 1]))
    ensures s == [] || (!IsPyWhitespace(s[0]) && !IsPyWhitespace(s[|s| - 1])) ==> r == s
  {
    Strip(s, IsPyWhitespace)
  }
}
