/** Character and string helpers: ASCII case mapping (the part of
    ToUpperInvariant, ToLower and OrdinalIgnoreCase the model keeps) and
    decimal digit strings. */
module Text {

  predicate IsUpperLetter(c: char) { 'A' <= c <= 'Z' }

  predicate IsLowerLetter(c: char) { 'a' <= c <= 'z' }

  /** Reference definition of ordinal case-insensitive equality of two
      characters: equal, or the upper- and lower-case form of one ASCII letter. */
  predicate SameIgnoringCase(c: char, d: char) {
    || c == d
    || (IsUpperLetter(c) && d as int == c as int + 32)
    || (IsUpperLetter(d) && c as int == d as int + 32)
  }

  /** Reference definition of `string.Equals(s, t, OrdinalIgnoreCase)`. */
  predicate EqualsIgnoreCase(s: string, t: string) {
    |s| == |t| && forall i :: 0 <= i < |s| ==> SameIgnoringCase(s[i], t[i])
  }

  /** True when `s` has no upper-case letter (a lower-case literal). */
  predicate HasNoUpper(s: string) {
    forall i :: 0 <= i < |s| ==> !IsUpperLetter(s[i])
  }

  function UpperChar(c: char): (u: char)
    ensures !IsLowerLetter(u) && SameIgnoringCase(c, u)
  {
    if IsLowerLetter(c) then (c as int - 32) as char else c
  }

  function LowerChar(c: char): (l: char)
    ensures !IsUpperLetter(l) && SameIgnoringCase(c, l)
  {
    if IsUpperLetter(c) then (c as int + 32) as char else c
  }

  /** `ToUpperInvariant` on ASCII: same length, the same letters, none lower-case. */
  function ToUpper(s: string): (r: string)
    ensures EqualsIgnoreCase(s, r)
    ensures forall i :: 0 <= i < |r| ==> !IsLowerLetter(r[i])
  {
    seq(|s|, i requires 0 <= i < |s| => UpperChar(s[i]))
  }

  /** `ToLower`/`ToLowerInvariant` on ASCII: same letters, none upper-case. */
  function ToLower(s: string): (r: string)
    ensures EqualsIgnoreCase(s, r)
    ensures HasNoUpper(r)
  {
    seq(|s|, i requires 0 <= i < |s| => LowerChar(s[i]))
  }

  lemma UpperCharAgrees(c: char, d: char)
    ensures UpperChar(c) == UpperChar(d) <==> SameIgnoringCase(c, d)
  {
  }

  /** Two strings have the same upper-case form exactly when they are equal
      ignoring case: keying a dictionary by `ToUpper` implements OrdinalIgnoreCase. */
  lemma ToUpperMatchesIgnoreCase(s: string, t: string)
    ensures ToUpper(s) == ToUpper(t) <==> EqualsIgnoreCase(s, t)
  {
    if ToUpper(s) == ToUpper(t) {
      forall i | 0 <= i < |s| ensures SameIgnoringCase(s[i], t[i]) {
        assert ToUpper(s)[i] == ToUpper(t)[i];
        UpperCharAgrees(s[i], t[i]);
      }
    }
    if EqualsIgnoreCase(s, t) {
      forall i | 0 <= i < |s| ensures ToUpper(s)[i] == ToUpper(t)[i] {
        UpperCharAgrees(s[i], t[i]);
      }
    }
  }

  /** Lower-casing lands on a lower-case literal exactly when the string
      equals that literal ignoring case. */
  lemma ToLowerMatchesLiteral(s: string, t: string)
    requires HasNoUpper(t)
    ensures ToLower(s) == t <==> EqualsIgnoreCase(s, t)
  {
    if EqualsIgnoreCase(s, t) {
      forall i | 0 <= i < |s| ensures ToLower(s)[i] == t[i] {
        assert SameIgnoringCase(s[i], t[i]);
      }
    }
  }

  /** Upper-casing twice changes nothing more. */
  lemma ToUpperIdempotent(s: string)
    ensures ToUpper(ToUpper(s)) == ToUpper(s)
  {
  }

  // White space (`Trim`)

  /** `char.IsWhiteSpace`: the controls U+0009 to U+000D and U+0085, and the
      Unicode space, line and paragraph separators. */
  predicate IsWhiteSpace(c: char) {
    || '\t' <= c <= '\r' || c == ' ' || c == '\U{85}' || c == '\U{A0}' || c == '\U{1680}'
    || '\U{2000}' <= c <= '\U{200A}' || c == '\U{2028}' || c == '\U{2029}'
    || c == '\U{202F}' || c == '\U{205F}' || c == '\U{3000}'
  }

  predicate AllWhiteSpace(s: string) {
    forall i :: 0 <= i < |s| ==> IsWhiteSpace(s[i])
  }

  /** `TrimStart`: the suffix left after every leading white-space character. */
  function TrimStart(s: string): (r: string)
    ensures r == [] || !IsWhiteSpace(r[0])
  {
    if s != [] && IsWhiteSpace(s[0]) then TrimStart(s[1..]) else s
  }

  /** `TrimEnd`: the prefix left before every trailing white-space character. */
  function TrimEnd(s: string): (r: string)
    ensures r == [] || !IsWhiteSpace(r[|r| - 1])
  {
    if s != [] && IsWhiteSpace(s[|s| - 1]) then TrimEnd(s[..|s| - 1]) else s
  }

  /** `Trim`: both ends. */
  function Trim(s: string): string {
    TrimEnd(TrimStart(s))
  }

  /** TrimStart leaves a suffix and drops only white space. */
  lemma {:induction false} TrimStartIsSuffix(s: string)
    ensures var r := TrimStart(s);
      && |r| <= |s| && r == s[|s| - |r|..]
      && AllWhiteSpace(s[..|s| - |r|])
  {
    if s != [] && IsWhiteSpace(s[0]) {
      TrimStartIsSuffix(s[1..]);
      var r := TrimStart(s);
      assert s[..|s| - |r|] == [s[0]] + s[1..][..|s| - 1 - |r|];
    }
  }

  /** TrimEnd leaves a prefix and drops only white space. */
  lemma {:induction false} TrimEndIsPrefix(s: string)
    ensures var r := TrimEnd(s);
      && |r| <= |s| && r == s[..|r|]
      && AllWhiteSpace(s[|r|..])
  {
    if s != [] && IsWhiteSpace(s[|s| - 1]) {
      TrimEndIsPrefix(s[..|s| - 1]);
      var r := TrimEnd(s);
      assert s[|r|..] == s[..|s| - 1][|r|..] + [s[|s| - 1]];
    }
  }

  lemma {:induction false} TrimStartSkips(pre: string, s: string)
    requires AllWhiteSpace(pre)
    ensures TrimStart(pre + s) == TrimStart(s)
  {
    if pre == [] {
      assert pre + s == s;
    } else {
      assert (pre + s)[0] == pre[0] && (pre + s)[1..] == pre[1..] + s;
      TrimStartSkips(pre[1..], s);
    }
  }

  lemma {:induction false} TrimEndSkips(s: string, post: string)
    requires AllWhiteSpace(post)
    ensures TrimEnd(s + post) == TrimEnd(s)
  {
    if post == [] {
      assert s + post == s;
    } else {
      assert (s + post)[|s + post| - 1] == post[|post| - 1];
      assert (s + post)[..|s + post| - 1] == s + post[..|post| - 1];
      TrimEndSkips(s, post[..|post| - 1]);
    }
  }

  /** Trimming removes exactly the white space around a string that neither
      starts nor ends with white space. */
  lemma TrimRemovesSurroundingWhiteSpace(pre: string, s: string, post: string)
    requires AllWhiteSpace(pre) && AllWhiteSpace(post)
    requires s == [] || (!IsWhiteSpace(s[0]) && !IsWhiteSpace(s[|s| - 1]))
    ensures Trim(pre + s + post) == s
  {
    assert pre + s + post == pre + (s + post);
    TrimStartSkips(pre, s + post);
    if s == [] {
      assert s + post == post + [];
      TrimStartSkips(post, []);
    } else {
      assert TrimStart(s + post) == s + post;
    }
    TrimEndSkips(s, post);
  }

  // Decimal digits

  predicate IsDigit(c: char) { '0' <= c <= '9' }

  predicate AllDigits(s: string) {
    forall i :: 0 <= i < |s| ==> IsDigit(s[i])
  }

  function DigitChar(d: nat): (c: char)
    requires d < 10
    ensures IsDigit(c) && c as int - '0' as int == d
  {
    ('0' as int + d) as char
  }

  function Pow10(n: nat): (p: nat)
    ensures p >= 1
  {
    if n == 0 then 1 else 10 * Pow10(n - 1)
  }

  /** The number a string of decimal digits denotes. */
  function DecimalValue(s: string): nat
    requires AllDigits(s)
  {
    if s == [] then 0 else 10 * DecimalValue(s[..|s| - 1]) + (s[|s| - 1] as int - '0' as int)
  }

  /** The last `width` decimal digits of `n`, zero-padded (a `0000` format). */
  function PadDecimal(n: nat, width: nat): (s: string)
    ensures |s| == width && AllDigits(s)
  {
    if width == 0 then [] else PadDecimal(n / 10, width - 1) + [DigitChar(n % 10)]
  }

  /** Zero-padded rendering loses nothing when the number fits the width. */
  lemma {:induction false} PadDecimalRoundTrip(n: nat, width: nat)
    requires n < Pow10(width)
    ensures DecimalValue(PadDecimal(n, width)) == n
  {
    if width > 0 {
      var s := PadDecimal(n, width);
      assert s[..|s| - 1] == PadDecimal(n / 10, width - 1);
      assert n / 10 < Pow10(width - 1);
      PadDecimalRoundTrip(n / 10, width - 1);
    }
  }

  /** Shortest decimal rendering of `n` (how C# prints a non-negative integer). */
  function DecimalString(n: nat): (s: string)
    ensures |s| >= 1 && AllDigits(s)
    ensures DecimalValue(s) == n
  {
    if n < 10 then [DigitChar(n)]
    else
      var s := DecimalString(n / 10) + [DigitChar(n % 10)];
      assert s[..|s| - 1] == DecimalString(n / 10);
      s
  }
}
