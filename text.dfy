/**
 * String operations the source relies on: Python's `str.strip`, `str.startswith`,
 * `str.replace(old, "")`, `str.zfill`, `str(n)` for a natural number, `re.sub` with a
 * character class and an empty replacement, and JavaScript's `String.prototype.trim`
 * and `Array.prototype.join`.
 */
module Text {
  import opened Wrappers

  /** The characters for which Python's `str.isspace()` holds (what `str.strip()` removes). */
  predicate IsPyWhitespace(c: char) {
    ('\t' <= c <= '\r') || c == ' ' || ('\U{1C}' <= c <= '\U{1F}') || c == '\U{85}' || c == '\U{A0}'
    || c == '\U{1680}' || ('\U{2000}' <= c <= '\U{200A}') || c == '\U{2028}' || c == '\U{2029}'
    || c == '\U{202F}' || c == '\U{205F}' || c == '\U{3000}'
  }

  /** The characters that JavaScript's `trim()` removes (WhiteSpace and LineTerminator). */
  predicate IsJsWhitespace(c: char) {
    ('\t' <= c <= '\r') || c == ' ' || c == '\U{A0}' || c == '\U{FEFF}'
    || c == '\U{1680}' || ('\U{2000}' <= c <= '\U{200A}') || c == '\U{2028}' || c == '\U{2029}'
    || c == '\U{202F}' || c == '\U{205F}' || c == '\U{3000}'
  }

  predicate AllOf(ws: char -> bool, s: string) {
    forall k :: 0 <= k < |s| ==> ws(s[k])
  }

  /** How many leading characters of `s` satisfy `ws`. */
  function LeadCount(ws: char -> bool, s: string): (n: nat)
    ensures n <= |s|
    ensures forall k :: 0 <= k < n ==> ws(s[k])
    ensures n < |s| ==> !ws(s[n])
  {
    if s != [] && ws(s[0]) then
      var n := 1 + LeadCount(ws, s[1..]);
      assert forall k :: 1 <= k < n ==> s[k] == s[1..][k - 1];
      n
    else 0
  }

  /** Where the run of trailing characters satisfying `ws` starts, looking no further left than `lo`. */
  function TrailEnd(ws: char -> bool, s: string, lo: nat): (e: nat)
    requires lo <= |s|
    ensures lo <= e <= |s|
    ensures forall k :: e <= k < |s| ==> ws(s[k])
    ensures lo < e ==> !ws(s[e - 1])
    decreases |s|
  {
    if lo < |s| && ws(s[|s| - 1]) then
      var e := TrailEnd(ws, s[..|s| - 1], lo);
      assert forall k :: e <= k < |s| - 1 ==> s[k] == s[..|s| - 1][k];
      e
    else |s|
  }

  /** Both ends removed: `s.strip()` with `ws = IsPyWhitespace`, `s.trim()` with `IsJsWhitespace`. */
  function Trim(ws: char -> bool, s: string): (r: string)
    ensures |r| <= |s|
    ensures r == [] || (!ws(r[0]) && !ws(r[|r| - 1]))
    ensures exists i :: 0 <= i <= |s| - |r| && r == s[i..i + |r|]
              && AllOf(ws, s[..i]) && AllOf(ws, s[i + |r|..])
  {
    var i := LeadCount(ws, s);
    var e := TrailEnd(ws, s, i);
    assert AllOf(ws, s[..i]) by { assert forall k :: 0 <= k < i ==> s[..i][k] == s[k]; }
    assert AllOf(ws, s[e..]) by { assert forall k :: 0 <= k < |s| - e ==> s[e..][k] == s[e + k]; }
    s[i..e]
  }

  /** Python `s.strip()`. */
  function Strip(s: string): string {
    Trim(IsPyWhitespace, s)
  }

  /** JavaScript `s.trim()`. */
  function JsTrim(s: string): string {
    Trim(IsJsWhitespace, s)
  }

  /** Trimming yields the empty string exactly when every character is trimmable. */
  lemma TrimEmptyIff(ws: char -> bool, s: string)
    ensures Trim(ws, s) == [] <==> AllOf(ws, s)
  {
    var i := LeadCount(ws, s);
    var e := TrailEnd(ws, s, i);
    assert Trim(ws, s) == s[i..e];
  }

  /** Trimming twice is trimming once. */
  lemma TrimIdempotent(ws: char -> bool, s: string)
    ensures Trim(ws, Trim(ws, s)) == Trim(ws, s)
  {
    var r := Trim(ws, s);
    assert LeadCount(ws, r) == 0;
    assert TrailEnd(ws, r, 0) == |r|;
    assert r[0..|r|] == r;
  }

  /** A string with nothing trimmable at either end is its own trim. */
  lemma TrimUntrimmed(ws: char -> bool, s: string)
    requires s == [] || (!ws(s[0]) && !ws(s[|s| - 1]))
    ensures Trim(ws, s) == s
  {
    assert LeadCount(ws, s) == 0;
    assert TrailEnd(ws, s, 0) == |s|;
    assert s[0..|s|] == s;
  }

  /** Python `s.startswith(p)`. */
  predicate StartsWith(s: string, p: string) {
    |p| <= |s| && s[..|p|] == p
  }

  /** `pat` occurs in `s` at index `i`. */
  predicate OccursAt(s: string, pat: string, i: nat) {
    i + |pat| <= |s| && s[i..i + |pat|] == pat
  }

  /**
   * Python `s.replace(pat, "")`: scan from the left and drop every non-overlapping
   * occurrence of `pat`.
   */
  function RemoveAll(s: string, pat: string): (r: string)
    requires pat != []
    ensures |r| <= |s|
    decreases |s|
  {
    if |s| < |pat| then s
    else if s[..|pat|] == pat then RemoveAll(s[|pat|..], pat)
    else [s[0]] + RemoveAll(s[1..], pat)
  }

  /** A string in which `pat` does not occur is returned unchanged. */
  lemma {:induction false} RemoveAllAbsent(s: string, pat: string)
    requires pat != []
    requires forall i: nat :: !OccursAt(s, pat, i)
    ensures RemoveAll(s, pat) == s
    decreases |s|
  {
    if |s| >= |pat| {
      assert !OccursAt(s, pat, 0);
      forall i: nat ensures !OccursAt(s[1..], pat, i) {
        assert !OccursAt(s, pat, i + 1);
        if i + 1 + |pat| <= |s| {
          assert s[1..][i..i + |pat|] == s[i + 1..i + 1 + |pat|];
        }
      }
      RemoveAllAbsent(s[1..], pat);
    }
  }

  /** Python `re.sub("[...]", "", s)`: every character of `bad` removed, the rest kept in order. */
  function RemoveChars(s: string, bad: set<char>): (r: string)
    ensures |r| <= |s|
    ensures forall k :: 0 <= k < |r| ==> r[k] !in bad
    ensures forall c :: c !in bad ==> multiset(r)[c] == multiset(s)[c]
  {
    if s == [] then []
    else
      var rest := RemoveChars(s[1..], bad);
      assert s == [s[0]] + s[1..];
      if s[0] in bad then rest else [s[0]] + rest
  }

  /** Python `s[:n]`. */
  function Take(s: string, n: nat): (r: string)
    ensures |r| == if |s| < n then |s| else n
    ensures r == s[..|r|]
  {
    if |s| <= n then s else s[..n]
  }

  predicate IsDigit(c: char) {
    '0' <= c <= '9'
  }

  predicate AllDigits(s: string) {
    forall k :: 0 <= k < |s| ==> IsDigit(s[k])
  }

  function DigitChar(d: nat): (c: char)
    requires d < 10
    ensures IsDigit(c)
  {
    (d + '0' as int) as char
  }

  /** Python `str(n)` for a non-negative integer. */
  function NatToString(n: nat): (r: string)
    ensures r != [] && AllDigits(r)
    ensures |r| > 1 ==> r[0] != '0'
  {
    if n < 10 then [DigitChar(n)] else NatToString(n / 10) + [DigitChar(n % 10)]
  }

  /** The number a string of decimal digits denotes (Python `int(s)` on digits). */
  function DigitsValue(s: string): nat
    requires AllDigits(s)
  {
    if s == [] then 0
    else DigitsValue(s[..|s| - 1]) * 10 + ((s[|s| - 1] as int) - ('0' as int))
  }

  /** `str(n)` is read back as `n`. */
  lemma {:induction false} NatToStringRoundTrip(n: nat)
    ensures DigitsValue(NatToString(n)) == n
  {
    if n >= 10 {
      NatToStringRoundTrip(n / 10);
      var s := NatToString(n);
      assert s[..|s| - 1] == NatToString(n / 10);
    }
  }

  /** Distinct numbers print differently. */
  lemma NatToStringInjective(m: nat, n: nat)
    requires NatToString(m) == NatToString(n)
    ensures m == n
  {
    NatToStringRoundTrip(m);
    NatToStringRoundTrip(n);
  }

  function Repeat(c: char, n: nat): (r: string)
    ensures |r| == n && forall k :: 0 <= k < n ==> r[k] == c
  {
    if n == 0 then [] else [c] + Repeat(c, n - 1)
  }

  /** Python `s.zfill(width)` for a string without a sign. */
  function ZFill(s: string, width: nat): (r: string)
    ensures |r| == if |s| < width then width else |s|
    ensures r == Repeat('0', |r| - |s|) + s
  {
    if |s| < width then Repeat('0', width - |s|) + s else s
  }

  /** Leading zeros do not change the value of a digit string. */
  lemma {:induction false} LeadingZerosValue(n: nat, s: string)
    requires AllDigits(s)
    ensures AllDigits(Repeat('0', n) + s)
    ensures DigitsValue(Repeat('0', n) + s) == DigitsValue(s)
    decreases |s|
  {
    var z := Repeat('0', n) + s;
    if s == [] {
      assert z == Repeat('0', n);
      ZerosValue(n);
    } else {
      var init := s[..|s| - 1];
      LeadingZerosValue(n, init);
      assert z[..|z| - 1] == Repeat('0', n) + init;
      assert z[|z| - 1] == s[|s| - 1];
    }
  }

  lemma {:induction false} ZerosValue(n: nat)
    ensures DigitsValue(Repeat('0', n)) == 0
  {
    if n > 0 {
      var z := Repeat('0', n);
      assert z[..n - 1] == Repeat('0', n - 1);
      ZerosValue(n - 1);
    }
  }

  /** `str(n).zfill(w)` still denotes `n`, and is never shorter than `str(n)`. */
  lemma ZFillNatRoundTrip(n: nat, width: nat)
    ensures AllDigits(ZFill(NatToString(n), width))
    ensures DigitsValue(ZFill(NatToString(n), width)) == n
    ensures |ZFill(NatToString(n), width)| >= |NatToString(n)|
  {
    var s := NatToString(n);
    LeadingZerosValue(|ZFill(s, width)| - |s|, s);
    NatToStringRoundTrip(n);
  }

  /** JavaScript `items.join(sep)`. */
  function Join(items: seq<string>, sep: string): (r: string)
    ensures items == [] ==> r == ""
    ensures |items| == 1 ==> r == items[0]
  {
    if items == [] then ""
    else if |items| == 1 then items[0]
    else items[0] + sep + Join(items[1..], sep)
  }

  /** The first index at which `pat` occurs in `s` (Python `s.find(pat)`, `None` for -1). */
  function IndexOf(s: string, pat: string): (r: Option<nat>)
    ensures r.Some? ==> OccursAt(s, pat, r.value)
    ensures r.Some? ==> forall j: nat :: j < r.value ==> !OccursAt(s, pat, j)
    ensures r.None? ==> forall j: nat :: !OccursAt(s, pat, j)
    decreases |s|
  {
    if |s| < |pat| then None
    else if s[..|pat|] == pat then Some(0)
    else match IndexOf(s[1..], pat)
      case None =>
        assert forall j: nat :: OccursAt(s, pat, j + 1) ==> OccursAt(s[1..], pat, j) by {
          forall j: nat | OccursAt(s, pat, j + 1) ensures OccursAt(s[1..], pat, j) {
            assert s[1..][j..j + |pat|] == s[j + 1..j + 1 + |pat|];
          }
        }
        assert forall j: nat :: !OccursAt(s, pat, j) by {
          forall j: nat ensures !OccursAt(s, pat, j) {
            if j > 0 { assert !OccursAt(s[1..], pat, j - 1); }
          }
        }
        None
      case Some(i) =>
        assert s[i + 1..i + 1 + |pat|] == s[1..][i..i + |pat|];
        assert forall j: nat :: j < i + 1 ==> !OccursAt(s, pat, j) by {
          forall j: nat | j < i + 1 ensures !OccursAt(s, pat, j) {
            if j == 0 {
              assert s[0..|pat|] == s[..|pat|];
            } else if j + |pat| <= |s| {
              assert !OccursAt(s[1..], pat, j - 1);
              assert s[1..][j - 1..j - 1 + |pat|] == s[j..j + |pat|];
            }
          }
        }
        Some(i + 1)
  }

  /**
   * When `pat` starts with a character that `p` does not contain, the first occurrence of
   * `pat` in `p + pat + rest` is right after `p`.
   */
  lemma IndexOfAfterPrefix(p: string, pat: string, rest: string)
    requires pat != [] && pat[0] !in p
    ensures IndexOf(p + pat + rest, pat) == Some(|p|)
  {
    var s := p + pat + rest;
    assert OccursAt(s, pat, |p|) by { assert s[|p|..|p| + |pat|] == pat; }
    var r := IndexOf(s, pat);
    forall j: nat | j < |p| ensures !OccursAt(s, pat, j) {
      if j + |pat| <= |s| {
        assert s[j] == p[j];
        assert s[j..j + |pat|][0] == s[j];
      }
    }
  }

  // ---------------------------------------------------------------- percent-encoding

  /** The characters `urllib.parse.quote` never encodes, with `safe="/~!*()'"` added to its own `_.-~`. */
  predicate UrlSafe(c: char) {
    ('A' <= c <= 'Z') || ('a' <= c <= 'z') || ('0' <= c <= '9')
    || c == '_' || c == '.' || c == '-' || c == '~' || c == '/' || c == '!' || c == '*' || c == '(' || c == ')' || c == '\''
  }

  /** The UTF-8 encoding of one character. */
  function Utf8(c: char): (bs: seq<nat>)
    ensures 1 <= |bs| <= 4 && forall i | 0 <= i < |bs| :: bs[i] < 256
    ensures |bs| == 1 <==> c as int < 0x80
    ensures |bs| == 1 ==> bs[0] == c as int
  {
    var n := c as int;
    if n < 0x80 then [n]
    else if n < 0x800 then [0xC0 + n / 0x40, 0x80 + n % 0x40]
    else if n < 0x1_0000 then [0xE0 + n / 0x1000, 0x80 + (n / 0x40) % 0x40, 0x80 + n % 0x40]
    else [0xF0 + n / 0x4_0000, 0x80 + (n / 0x1000) % 0x40, 0x80 + (n / 0x40) % 0x40, 0x80 + n % 0x40]
  }

  /** An upper-case hexadecimal digit. */
  function HexDigit(d: nat): (c: char)
    requires d < 16
    ensures UrlSafe(c) && c != '%' && HexValue(c) == d
  {
    "0123456789ABCDEF"[d]
  }

  /** The value of an upper-case hexadecimal digit (0 for any other character). */
  function HexValue(c: char): (v: nat)
    ensures v < 16
  {
    if '0' <= c <= '9' then c as int - '0' as int
    else if 'A' <= c <= 'F' then c as int - 'A' as int + 10
    else 0
  }

  /** `%XX` for each byte. */
  function PercentBytes(bs: seq<nat>): (r: string)
    requires forall i | 0 <= i < |bs| :: bs[i] < 256
    ensures |r| == 3 * |bs|
    ensures forall i | 0 <= i < |r| :: UrlSafe(r[i]) || r[i] == '%'
  {
    if bs == [] then [] else ['%', HexDigit(bs[0] / 16), HexDigit(bs[0] % 16)] + PercentBytes(bs[1..])
  }

  /** One character as `quote` writes it: itself when safe, else its UTF-8 bytes percent-encoded. */
  function QuoteChar(c: char): (r: string)
    ensures r != [] && forall i | 0 <= i < |r| :: UrlSafe(r[i]) || r[i] == '%'
    ensures UrlSafe(c) ==> r == [c]
    ensures !UrlSafe(c) ==> r[0] == '%'
  {
    if UrlSafe(c) then [c] else PercentBytes(Utf8(c))
  }

  /**
   * `urllib.parse.quote(s, safe="/~!*()'")`: only safe characters and `%` remain, and a string
   * of safe characters is kept as it is.
   */
  function Quote(s: string): (r: string)
    ensures forall i | 0 <= i < |r| :: UrlSafe(r[i]) || r[i] == '%'
    ensures (forall i | 0 <= i < |s| :: UrlSafe(s[i])) ==> r == s
    ensures |r| >= |s|
  {
    if s == [] then [] else QuoteChar(s[0]) + Quote(s[1..])
  }

  /** Quoting works character by character, so it distributes over concatenation. */
  lemma {:induction false} QuoteAppend(a: string, b: string)
    ensures Quote(a + b) == Quote(a) + Quote(b)
  {
    if a == [] {
      assert a + b == b;
    } else {
      assert (a + b)[0] == a[0] && (a + b)[1..] == a[1..] + b;
      QuoteAppend(a[1..], b);
    }
  }

  /** Quoting a name of six parts quotes each part. */
  lemma QuoteParts(a: string, b: string, c: string, d: string, e: string, f: string)
    ensures Quote(a + b + c + d + e + f) == Quote(a) + Quote(b) + Quote(c) + Quote(d) + Quote(e) + Quote(f)
  {
    QuoteAppend(a + b + c + d + e, f);
    QuoteAppend(a + b + c + d, e);
    QuoteAppend(a + b + c, d);
    QuoteAppend(a + b, c);
    QuoteAppend(a, b);
  }

  /** The separator `" - "` is quoted with its spaces escaped. */
  lemma QuoteDash()
    ensures Quote(" - ") == "%20-%20"
  {
    assert QuoteChar(' ') == "%20" by {
      assert Utf8(' ') == [32];
      assert PercentBytes([32]) == ['%', HexDigit(2), HexDigit(0)] + PercentBytes([]);
    }
    assert Quote(" - ") == QuoteChar(' ') + Quote("- ");
    assert Quote("- ") == QuoteChar('-') + Quote(" ");
    assert Quote(" ") == QuoteChar(' ') + Quote("");
  }

  /** The reading of `%XX` escapes back into characters, as `urllib.parse.unquote` does for ASCII. */
  function UnquoteAscii(t: string): string {
    if t == [] then []
    else if t[0] == '%' && |t| >= 3 then [(16 * HexValue(t[1]) + HexValue(t[2])) as char] + UnquoteAscii(t[3..])
    else [t[0]] + UnquoteAscii(t[1..])
  }

  /** An ASCII name reads back from its quoted form, so quoting loses nothing. */
  lemma {:induction false} QuoteAsciiRoundTrip(s: string)
    requires forall i | 0 <= i < |s| :: s[i] as int < 0x80
    ensures UnquoteAscii(Quote(s)) == s
  {
    if s != [] {
      QuoteAsciiRoundTrip(s[1..]);
      UnquoteQuoteChar(s[0], Quote(s[1..]));
    }
  }

  /** The escape of one ASCII character reads back as that character, whatever follows it. */
  lemma UnquoteQuoteChar(c: char, rest: string)
    requires c as int < 0x80
    ensures UnquoteAscii(QuoteChar(c) + rest) == [c] + UnquoteAscii(rest)
  {
    var q := QuoteChar(c) + rest;
    if UrlSafe(c) {
      assert q[0] == c && q[1..] == rest;
    } else {
      var n := c as int;
      assert QuoteChar(c) == ['%', HexDigit(n / 16), HexDigit(n % 16)];
      assert q[0] == '%' && q[1] == HexDigit(n / 16) && q[2] == HexDigit(n % 16) && q[3..] == rest;
      assert (16 * (n / 16) + n % 16) as char == c;
    }
  }
}
