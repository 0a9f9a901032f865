/**
 * String helpers with the semantics of the JavaScript built-ins the application relies on:
 * `String.prototype.trim`, `startsWith`, `padStart`, `slice` and the decimal rendering of
 * integers by `String(n)` / template literals.
 */
module Text {

  /** The characters `String.prototype.trim` removes: WhiteSpace (tab, vertical tab, form feed,
      space, no-break space, byte-order mark and every other Unicode Zs character) and
      LineTerminator (LF, CR, line separator, paragraph separator). */
  predicate IsJsWhitespace(c: char) {
    || c == '\t' || c == '\U{000B}' || c == '\U{000C}' || c == ' ' || c == '\U{00A0}' || c == '\U{FEFF}'
    || c == '\U{1680}' || ('\U{2000}' <= c <= '\U{200A}') || c == '\U{202F}' || c == '\U{205F}' || c == '\U{3000}'
    || c == '\n' || c == '\r' || c == '\U{2028}' || c == '\U{2029}'
  }

  predicate AllWhitespace(s: string) {
    forall i :: 0 <= i < |s| ==> IsJsWhitespace(s[i])
  }

  /** Number of whitespace characters at the start of `s`. */
  function LeadCount(s: string): (n: nat)
    ensures n <= |s|
    ensures forall i :: 0 <= i < n ==> IsJsWhitespace(s[i])
    ensures n < |s| ==> !IsJsWhitespace(s[n])
  {
    if s != [] && IsJsWhitespace(s[0]) then 1 + LeadCount(s[1..]) else 0
  }

  /** Number of whitespace characters at the end of `s`. */
  function TrailCount(s: string): (n: nat)
    ensures n <= |s|
    ensures forall i :: |s| - n <= i < |s| ==> IsJsWhitespace(s[i])
    ensures n < |s| ==> !IsJsWhitespace(s[|s| - n - 1])
  {
    if s != [] && IsJsWhitespace(s[|s| - 1]) then 1 + TrailCount(s[..|s| - 1]) else 0
  }

  /** The part of `s` between its leading and its trailing whitespace. */
  function Core(s: string): string {
    var t := s[LeadCount(s)..];
    t[..|t| - TrailCount(t)]
  }

  /** The core is the infix of `s` that starts after the leading whitespace. */
  lemma CoreInfix(s: string)
    ensures LeadCount(s) + |Core(s)| <= |s| && Core(s) == s[LeadCount(s)..LeadCount(s) + |Core(s)|]
  {
  }

  /** Only whitespace follows the core. */
  lemma CoreTail(s: string)
    ensures forall i :: LeadCount(s) + |Core(s)| <= i < |s| ==> IsJsWhitespace(s[i])
  {
    var k := LeadCount(s);
    var t := s[k..];
    assert forall i :: k + |Core(s)| <= i < |s| ==> s[i] == t[i - k];
  }

  /** A non-empty core neither starts nor ends with whitespace. */
  lemma CoreEnds(s: string)
    ensures Core(s) != [] ==> !IsJsWhitespace(Core(s)[0]) && !IsJsWhitespace(Core(s)[|Core(s)| - 1])
  {
    var t := s[LeadCount(s)..];
    var r := Core(s);
    assert r != [] ==> r[0] == s[LeadCount(s)] && r[|r| - 1] == t[|t| - TrailCount(t) - 1];
  }

  /** `s.trim()`: the infix of `s` left after removing leading and trailing whitespace. */
  function Trim(s: string): (r: string)
    ensures |r| <= |s|
    ensures var k := LeadCount(s); k + |r| <= |s| && r == s[k..k + |r|]
    ensures forall i :: 0 <= i < LeadCount(s) ==> IsJsWhitespace(s[i])
    ensures forall i :: LeadCount(s) + |r| <= i < |s| ==> IsJsWhitespace(s[i])
    ensures r == [] || (!IsJsWhitespace(r[0]) && !IsJsWhitespace(r[|r| - 1]))
    ensures r == [] <==> AllWhitespace(s)
  {
    CoreInfix(s);
    CoreTail(s);
    CoreEnds(s);
    var r := Core(s);
    assert r == [] && !AllWhitespace(s) ==> LeadCount(s) < |s|;
    r
  }

  /** JavaScript's `!s.trim()`: the string is empty or only whitespace. */
  predicate IsBlank(s: string) {
    Trim(s) == []
  }

  /** Trimming is idempotent. */
  lemma TrimIdempotent(s: string)
    ensures Trim(Trim(s)) == Trim(s)
  {
    var r := Trim(s);
    assert LeadCount(r) == 0;
    assert r[0..] == r;
    assert TrailCount(r) == 0;
  }

  /** A string without whitespace at either end is its own trim. */
  lemma TrimUnchanged(s: string)
    requires s != [] && !IsJsWhitespace(s[0]) && !IsJsWhitespace(s[|s| - 1])
    ensures Trim(s) == s
  {
    assert LeadCount(s) == 0;
    assert s[0..] == s;
  }

  predicate StartsWith(s: string, prefix: string) {
    prefix <= s
  }

  predicate IsDigit(c: char) {
    '0' <= c <= '9'
  }

  predicate AllDigits(s: string) {
    forall i :: 0 <= i < |s| ==> IsDigit(s[i])
  }

  function DigitChar(d: nat): (c: char)
    requires d < 10
    ensures IsDigit(c)
  {
    ('0' as int + d) as char
  }

  function DigitValue(c: char): (d: nat)
    requires IsDigit(c)
    ensures d < 10
  {
    c as int - '0' as int
  }

  /** The decimal rendering of a non-negative integer, as `String(n)` produces it. */
  function NatToString(n: nat): (s: string)
    ensures |s| >= 1 && AllDigits(s)
    ensures |s| > 1 ==> s[0] != '0'
    decreases n
  {
    if n < 10 then [DigitChar(n)] else NatToString(n / 10) + [DigitChar(n % 10)]
  }

  /** The value of a string of decimal digits (the inverse of NatToString). */
  function ParseDigits(s: string): nat
    requires AllDigits(s)
  {
    if s == [] then 0 else 10 * ParseDigits(s[..|s| - 1]) + DigitValue(s[|s| - 1])
  }

  lemma {:induction false} ParseNatToString(n: nat)
    ensures ParseDigits(NatToString(n)) == n
    decreases n
  {
    var s := NatToString(n);
    if n >= 10 {
      assert s[..|s| - 1] == NatToString(n / 10);
      ParseNatToString(n / 10);
    }
  }

  /** Distinct numbers render as distinct strings. */
  lemma NatToStringInjective(a: nat, b: nat)
    requires NatToString(a) == NatToString(b)
    ensures a == b
  {
    ParseNatToString(a);
    ParseNatToString(b);
  }

  /** The rendering of any integer, with a leading `-` for negative ones. */
  function IntToString(i: int): (s: string)
    ensures i >= 0 ==> s == NatToString(i)
    ensures i < 0 ==> s == "-" + NatToString(-i)
  {
    if i < 0 then "-" + NatToString(-i) else NatToString(i)
  }

  function Repeat(c: char, n: nat): (s: string)
    ensures |s| == n && forall i :: 0 <= i < n ==> s[i] == c
  {
    if n == 0 then [] else [c] + Repeat(c, n - 1)
  }

  /** `s.padStart(width, c)` for a one-character pad string. */
  function PadStart(s: string, width: nat, c: char): (r: string)
    ensures |r| == if |s| >= width then |s| else width
    ensures r[|r| - |s|..] == s
    ensures forall i :: 0 <= i < |r| - |s| ==> r[i] == c
  {
    if |s| >= width then s else Repeat(c, width - |s|) + s
  }

  /** `s.slice(0, n)` for `n >= 0`: the longest prefix of `s` with at most `n` characters. */
  function Prefix(s: string, n: nat): (r: string)
    ensures |r| == if |s| < n then |s| else n
    ensures r <= s
  {
    if |s| < n then s else s[..n]
  }
}
