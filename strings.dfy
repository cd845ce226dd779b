/** The JavaScript string operations the game relies on: `trim()` (for the
    empty-action guard), number-to-decimal conversion inside template
    literals, `Array.prototype.join`, and the truthiness of a string that may
    be absent. */
module Strings {
  import opened Wrappers

  /** JavaScript truthiness of a string that may be null or undefined: present
      and non-empty (`if (imageUrl)`, `!apiKey`, `!p1Name`). */
  predicate Truthy(s: Option<string>) {
    s.Some? && s.value != ""
  }

  /** ECMAScript WhiteSpace and LineTerminator code points: the characters
      `String.prototype.trim` removes. */
  predicate IsWhitespace(c: char) {
    // WhiteSpace: TAB, VT, FF, ZWNBSP and the Zs space separators
    || c == '\U{0009}' || c == '\U{000B}' || c == '\U{000C}' || c == '\U{FEFF}'
    || c == '\U{0020}' || c == '\U{00A0}' || c == '\U{1680}'
    || ('\U{2000}' <= c <= '\U{200A}')
    || c == '\U{202F}' || c == '\U{205F}' || c == '\U{3000}'
    // LineTerminator: LF, CR, LS, PS
    || c == '\U{000A}' || c == '\U{000D}' || c == '\U{2028}' || c == '\U{2029}'
  }

  /** Every character is whitespace (the empty string included). */
  predicate IsBlank(s: string) {
    forall i :: 0 <= i < |s| ==> IsWhitespace(s[i])
  }

  /** Drops the leading whitespace: the result is the suffix of `s` that
      starts at its first non-whitespace character. */
  function TrimStart(s: string): (r: string)
    ensures |r| <= |s| && r == s[|s| - |r|..]
    ensures forall k :: 0 <= k < |s| - |r| ==> IsWhitespace(s[k])
    ensures r == [] || !IsWhitespace(r[0])
  {
    if s == [] || !IsWhitespace(s[0]) then s
    else
      var rest := TrimStart(s[1..]);
      assert forall k :: 1 <= k < |s| - |rest| ==> s[k] == s[1..][k - 1];
      rest
  }

  /** Drops the trailing whitespace: the result is the prefix of `s` that
      ends at its last non-whitespace character. */
  function TrimEnd(s: string): (r: string)
    ensures |r| <= |s| && r == s[..|r|]
    ensures forall k :: |r| <= k < |s| ==> IsWhitespace(s[k])
    ensures r == [] || !IsWhitespace(r[|r| - 1])
  {
    if s == [] || !IsWhitespace(s[|s| - 1]) then s
    else
      var rest := TrimEnd(s[..|s| - 1]);
      assert forall k :: |rest| <= k < |s| - 1 ==> s[k] == s[..|s| - 1][k];
      rest
  }

  /** `s.trim()` */
  function Trim(s: string): string {
    TrimEnd(TrimStart(s))
  }

  /** `!s.trim()` holds exactly for the strings made only of whitespace. */
  lemma TrimEmptyIffBlank(s: string)
    ensures Trim(s) == "" <==> IsBlank(s)
  {
    var t := TrimStart(s);
    if Trim(s) == "" {
      // TrimEnd leaves nothing only of an all-whitespace string, and t does
      // not start with whitespace, so t is empty and s was all whitespace
      assert |t| == 0;
    } else {
      var r := Trim(s);
      assert r[0] == t[0];
      assert t[0] == s[|s| - |t|];
    }
  }

  /** `!s.trim()`: whether trimming leaves nothing. */
  method TrimmedIsEmpty(s: string) returns (empty: bool)
    ensures empty <==> IsBlank(s)
  {
    var trimmed := Trim(s);
    TrimEmptyIffBlank(s);
    empty := trimmed == "";
  }

  /** The decimal digit character for 0..9. */
  function DigitChar(d: nat): (c: char)
    requires d < 10
    ensures '0' <= c <= '9' && (c as int) - ('0' as int) == d
  {
    (('0' as int) + d) as char
  }

  predicate IsDigits(s: string) {
    forall i :: 0 <= i < |s| ==> '0' <= s[i] <= '9'
  }

  /** The number a string of decimal digits denotes. */
  function DecimalValue(s: string): nat
    requires IsDigits(s)
  {
    if s == [] then 0
    else DecimalValue(s[..|s| - 1]) * 10 + ((s[|s| - 1] as int) - ('0' as int))
  }

  /** The rendering of a non-negative integer in a template literal: decimal
      digits, no leading zero. (JavaScript switches to exponent form from
      10^21 on, which no turn number reaches.) */
  function NatToString(n: nat): (r: string)
    ensures |r| >= 1 && IsDigits(r)
    ensures |r| > 1 ==> r[0] != '0'
  {
    if n < 10 then [DigitChar(n)] else NatToString(n / 10) + [DigitChar(n % 10)]
  }

  /** The rendering reads back as the same number. */
  lemma {:induction false} NatToStringRoundTrip(n: nat)
    ensures DecimalValue(NatToString(n)) == n
  {
    if n >= 10 {
      var s := NatToString(n);
      assert s[..|s| - 1] == NatToString(n / 10);
      NatToStringRoundTrip(n / 10);
    }
  }

  /** JavaScript's rendering of any integer: a minus sign before negatives. */
  function IntToString(i: int): (r: string)
    ensures i >= 0 ==> r == NatToString(i)
    ensures i < 0 ==> r == "-" + NatToString(-i)
  {
    if i < 0 then "-" + NatToString(-i) else NatToString(i)
  }

  /** An integer renders as its decimal digits, after a minus sign when it is
      negative, and those digits read back as its magnitude. */
  lemma IntToStringValue(i: int)
    ensures i >= 0 ==> IsDigits(IntToString(i)) && DecimalValue(IntToString(i)) == i
    ensures i < 0 ==>
      && IntToString(i)[0] == '-'
      && IsDigits(IntToString(i)[1..])
      && DecimalValue(IntToString(i)[1..]) == -i
  {
    if i >= 0 {
      NatToStringRoundTrip(i);
    } else {
      NatToStringRoundTrip(-i);
      assert IntToString(i)[1..] == NatToString(-i);
    }
  }

  /** `xs.join(sep)` */
  function Join(xs: seq<string>, sep: string): string {
    if xs == [] then ""
    else if |xs| == 1 then xs[0]
    else xs[0] + sep + Join(xs[1..], sep)
  }

  /** Joining one more element puts one separator before it. */
  lemma {:induction false} JoinAppend(xs: seq<string>, x: string, sep: string)
    requires xs != []
    ensures Join(xs + [x], sep) == Join(xs, sep) + sep + x
  {
    if |xs| > 1 {
      assert (xs + [x])[1..] == xs[1..] + [x];
      JoinAppend(xs[1..], x, sep);
    }
  }
}
