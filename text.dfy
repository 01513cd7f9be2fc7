/**
 * The .NET string primitives the service relies on: `char.IsWhiteSpace`,
 * `string.IsNullOrWhiteSpace`, `string.IsNullOrEmpty`, `string.Trim` and the
 * decimal rendering of an `int` in an interpolated string.
 */
module Text {
  import opened Wrappers

  /**
   * `char.IsWhiteSpace`: the Unicode space, line and paragraph separators
   * plus U+0009..U+000D, U+0085 and U+00A0. The same set is what `\s`
   * matches in a .NET regular expression.
   */
  predicate IsWhiteSpace(c: char) {
    ('\t' <= c <= '\r') || c == ' ' || c == '\U{85}' || c == '\U{A0}' || c == '\U{1680}'
    || ('\U{2000}' <= c <= '\U{200A}') || c == '\U{2028}' || c == '\U{2029}'
    || c == '\U{202F}' || c == '\U{205F}' || c == '\U{3000}'
  }

  predicate AllWhiteSpace(s: string) {
    forall i :: 0 <= i < |s| ==> IsWhiteSpace(s[i])
  }

  /** `string.IsNullOrWhiteSpace`; `None` stands for `null`. */
  predicate IsNullOrWhiteSpace(s: Option<string>) {
    s.None? || AllWhiteSpace(s.value)
  }

  /** `string.IsNullOrEmpty`. */
  predicate IsNullOrEmpty(s: Option<string>) {
    s.None? || s.value == ""
  }

  /** `string.TrimStart()`: drops leading white space only. */
  function TrimStart(s: string): (r: string)
    ensures |r| <= |s| && r == s[|s| - |r|..]
    ensures AllWhiteSpace(s[..|s| - |r|])
    ensures r != [] ==> !IsWhiteSpace(r[0])
  {
    if s != [] && IsWhiteSpace(s[0]) then TrimStart(s[1..]) else s
  }

  /** `string.TrimEnd()`: drops trailing white space only. */
  function TrimEnd(s: string): (r: string)
    ensures |r| <= |s| && r == s[..|r|]
    ensures AllWhiteSpace(s[|r|..])
    ensures r != [] ==> !IsWhiteSpace(r[|r| - 1])
  {
    if s != [] && IsWhiteSpace(s[|s| - 1]) then
      var r := TrimEnd(s[..|s| - 1]);
      assert s[|r|..] == s[..|s| - 1][|r|..] + [s[|s| - 1]];
      r
    else s
  }

  /**
   * `string.Trim()`: never lengthens its input, and what it yields neither
   * starts nor ends with white space.
   */
  function Trim(s: string): (r: string)
    ensures |r| <= |s|
    ensures r != [] ==> !IsWhiteSpace(r[0]) && !IsWhiteSpace(r[|r| - 1])
  {
    var t := TrimStart(s);
    var r := TrimEnd(t);
    assert r != [] ==> r[0] == t[0];
    r
  }

  /** How many leading white-space characters `Trim` drops. */
  function TrimOffset(s: string): nat {
    |s| - |TrimStart(s)|
  }

  /**
   * What `Trim` yields: the piece of its input that starts at `TrimOffset(s)`,
   * with only white space before and after it.
   */
  lemma {:induction false} TrimPiece(s: string)
    ensures TrimOffset(s) + |Trim(s)| <= |s|
    ensures Trim(s) == s[TrimOffset(s)..TrimOffset(s) + |Trim(s)|]
    ensures AllWhiteSpace(s[..TrimOffset(s)]) && AllWhiteSpace(s[TrimOffset(s) + |Trim(s)|..])
  {
    var t := TrimStart(s);
    var a := TrimOffset(s);
    var r := TrimEnd(t);
    assert Trim(s) == r;
    assert t == s[a..] && AllWhiteSpace(s[..a]);
    assert r == t[..|r|] && AllWhiteSpace(t[|r|..]);
    assert s[a..a + |r|] == t[..|r|];
    assert s[a + |r|..] == t[|r|..];
  }

  /** `Trim` yields the empty string exactly when its input is all white space. */
  lemma {:induction false} TrimEmptyIff(s: string)
    ensures Trim(s) == [] <==> AllWhiteSpace(s)
  {
    TrimPiece(s);
    var a := TrimOffset(s);
    if Trim(s) == [] {
      assert s[..a] == s;
    } else {
      assert Trim(s)[0] == s[a];
    }
  }

  /** Trimming twice is trimming once. */
  lemma TrimIdempotent(s: string)
    ensures Trim(Trim(s)) == Trim(s)
  {
    var t := Trim(s);
    assert TrimStart(t) == t;
  }

  /** The character of decimal digit `d`. */
  function DigitChar(d: nat): (c: char)
    requires d < 10
    ensures '0' <= c <= '9' && c as int - '0' as int == d
  {
    ('0' as int + d) as char
  }

  predicate AllDigits(s: string) {
    forall i :: 0 <= i < |s| ==> '0' <= s[i] <= '9'
  }

  /** The number a string of decimal digits denotes, most significant digit first. */
  function DigitsValue(s: string): nat
    requires AllDigits(s)
  {
    if s == [] then 0 else 10 * DigitsValue(s[..|s| - 1]) + (s[|s| - 1] as int - '0' as int)
  }

  /**
   * The decimal digits of `n`, most significant first: they read back as
   * `n`, and there is no leading zero unless `n` is 0.
   */
  function NatToString(n: nat): (r: string)
    ensures r != [] && AllDigits(r)
    ensures DigitsValue(r) == n
    ensures r[0] == '0' <==> n == 0
    ensures r[0] == '0' ==> |r| == 1
  {
    if n < 10 then [DigitChar(n)]
    else
      var r := NatToString(n / 10) + [DigitChar(n % 10)];
      assert r[..|r| - 1] == NatToString(n / 10);
      r
  }

  /**
   * `int.ToString()` in an interpolated string (invariant culture): a minus
   * sign exactly for a negative number, followed by the digits of its
   * magnitude.
   */
  function IntToString(n: int): (r: string)
    ensures r != []
    ensures r[0] == '-' <==> n < 0
    ensures n >= 0 ==> AllDigits(r) && DigitsValue(r) == n
    ensures n < 0 ==> AllDigits(r[1..]) && DigitsValue(r[1..]) == -n
    ensures n >= 0 ==> (r[0] == '0' ==> |r| == 1)
    ensures n < 0 ==> |r| >= 2 && r[1] != '0'
  {
    if n < 0 then
      var r := "-" + NatToString(-n);
      assert r[1..] == NatToString(-n);
      r
    else NatToString(n)
  }

  /** Different numbers print differently. */
  lemma IntToStringInjective(m: int, n: int)
    requires IntToString(m) == IntToString(n)
    ensures m == n
  {
    if m < 0 {
      assert DigitsValue(IntToString(m)[1..]) == -m;
    }
  }
}
