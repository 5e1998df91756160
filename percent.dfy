/**
 * Percent-encoding of one path segment, as Python 2's `urllib.quote(s, safe="")`
 * performs it: letters, digits and `_.-` are kept, every other byte becomes
 * `%` followed by two upper-case hex digits (section 2.1 of RFC 3986).
 * `Unquote` is the decoding of section 2.1 of RFC 3986; it is the partner
 * definition against which quoting is proved reversible.
 */
module PercentEncoding {

  /** Python 2 strings are byte strings: every character is below 256. */
  predicate IsByteString(s: string) {
    forall i :: 0 <= i < |s| ==> s[i] as int < 256
  }

  /** The characters `quote` never escapes (`urllib.always_safe`). */
  predicate AlwaysSafe(c: char) {
    ('A' <= c <= 'Z') || ('a' <= c <= 'z') || ('0' <= c <= '9') || c == '_' || c == '.' || c == '-'
  }

  predicate IsHexDigit(c: char) {
    ('0' <= c <= '9') || ('A' <= c <= 'F') || ('a' <= c <= 'f')
  }

  function HexDigit(n: nat): (c: char)
    requires n < 16
    ensures IsHexDigit(c) && AlwaysSafe(c)
  {
    "0123456789ABCDEF"[n]
  }

  function HexValue(c: char): (n: nat)
    requires IsHexDigit(c)
    ensures n < 16
  {
    if '0' <= c <= '9' then (c as int - '0' as int) as nat
    else if 'A' <= c <= 'F' then (c as int - 'A' as int + 10) as nat
    else (c as int - 'a' as int + 10) as nat
  }

  /** The escape of one byte: itself when safe, `%XY` otherwise. */
  function QuoteChar(c: char): (q: string)
    requires c as int < 256
  {
    if AlwaysSafe(c) then [c]
    else ['%', HexDigit(c as int / 16), HexDigit(c as int % 16)]
  }

  /** `urllib.quote(s, safe="")` of a byte string. */
  function Quote(s: string): (q: string)
    requires IsByteString(s)
    ensures |q| >= |s|
    decreases |s|
  {
    if s == [] then [] else QuoteChar(s[0]) + Quote(s[1..])
  }

  /** Percent-decoding: each `%` followed by two hex digits stands for one character. */
  function Unquote(s: string): (r: string)
    decreases |s|
  {
    if |s| >= 3 && s[0] == '%' && IsHexDigit(s[1]) && IsHexDigit(s[2]) then
      [(16 * HexValue(s[1]) + HexValue(s[2])) as char] + Unquote(s[3..])
    else if s == [] then []
    else [s[0]] + Unquote(s[1..])
  }

  lemma HexRoundTrip(n: nat)
    requires n < 16
    ensures IsHexDigit(HexDigit(n)) && HexValue(HexDigit(n)) == n
  {
  }

  /** Decoding undoes the escape of one byte, whatever follows it. */
  lemma QuoteCharRoundTrip(c: char, rest: string)
    requires c as int < 256
    ensures Unquote(QuoteChar(c) + rest) == [c] + Unquote(rest)
  {
    var q := QuoteChar(c) + rest;
    if AlwaysSafe(c) {
      assert q[0] == c && q[1..] == rest;
    } else {
      HexRoundTrip(c as int / 16);
      HexRoundTrip(c as int % 16);
      assert q[3..] == rest;
    }
  }

  /** Quoting loses nothing: decoding a quoted segment gives the segment back. */
  lemma {:induction false} QuoteRoundTrip(s: string)
    requires IsByteString(s)
    ensures Unquote(Quote(s)) == s
    decreases |s|
  {
    if s != [] {
      QuoteRoundTrip(s[1..]);
      QuoteCharRoundTrip(s[0], Quote(s[1..]));
    }
  }

  /** A quoted segment consists only of safe characters, `%` and hex digits. */
  lemma {:induction false} QuoteAlphabet(s: string)
    requires IsByteString(s)
    ensures forall i :: 0 <= i < |Quote(s)| ==> AlwaysSafe(Quote(s)[i]) || Quote(s)[i] == '%'
    decreases |s|
  {
    if s != [] {
      QuoteAlphabet(s[1..]);
      var h, t := QuoteChar(s[0]), Quote(s[1..]);
      assert Quote(s) == h + t;
      if !AlwaysSafe(s[0]) {
        HexRoundTrip(s[0] as int / 16);
        HexRoundTrip(s[0] as int % 16);
      }
      forall i | 0 <= i < |h + t| ensures AlwaysSafe((h + t)[i]) || (h + t)[i] == '%' {
        if i >= |h| { assert (h + t)[i] == t[i - |h|]; }
      }
    }
  }

  /** In particular a quoted segment never contains a `/`. */
  lemma QuoteHasNoSlash(s: string)
    requires IsByteString(s)
    ensures '/' !in Quote(s)
  {
    QuoteAlphabet(s);
  }

  /** A segment made only of safe characters is left as it is. */
  lemma {:induction false} QuoteSafeIdentity(s: string)
    requires forall i :: 0 <= i < |s| ==> AlwaysSafe(s[i])
    ensures IsByteString(s) && Quote(s) == s
    decreases |s|
  {
    if s != [] {
      QuoteSafeIdentity(s[1..]);
    }
  }
}
