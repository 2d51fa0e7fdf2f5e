/**
 * The three JavaScript string operations the two request handlers rely on:
 * `String.prototype.trim`, the decimal rendering of a positive integer inside
 * a template literal, and `Array.prototype.join` over strings.
 */
module JsText {

  /** ECMAScript WhiteSpace and LineTerminator code points: what `trim` strips. */
  predicate IsSpace(c: char) {
    || c == '\t' || c == '\n' || c == '\U{000B}' || c == '\U{000C}' || c == '\r'
    || c == ' ' || c == '\U{00A0}' || c == '\U{1680}'
    || ('\U{2000}' <= c <= '\U{200A}')
    || c == '\U{2028}' || c == '\U{2029}' || c == '\U{202F}' || c == '\U{205F}'
    || c == '\U{3000}' || c == '\U{FEFF}'
  }

  predicate AllSpace(s: string) {
    forall i :: 0 <= i < |s| ==> IsSpace(s[i])
  }

  /** Neither end of `s` is white space (the empty string qualifies). */
  predicate Bare(s: string) {
    s == [] || (!IsSpace(s[0]) && !IsSpace(s[|s| - 1]))
  }

  /** Length of the longest all-white-space prefix. */
  function LeadingSpaces(s: string): (k: nat)
    ensures k <= |s|
    ensures forall m :: 0 <= m < k ==> IsSpace(s[m])
    ensures k < |s| ==> !IsSpace(s[k])
  {
    if |s| == 0 || !IsSpace(s[0]) then 0 else 1 + LeadingSpaces(s[1..])
  }

  /** Length of the longest all-white-space suffix. */
  function TrailingSpaces(s: string): (k: nat)
    ensures k <= |s|
    ensures forall m :: |s| - k <= m < |s| ==> IsSpace(s[m])
    ensures k < |s| ==> !IsSpace(s[|s| - 1 - k])
  {
    if |s| == 0 || !IsSpace(s[|s| - 1]) then 0 else 1 + TrailingSpaces(s[..|s| - 1])
  }

  /** `s.trim()`: white space removed from both ends. */
  function Trim(s: string): (r: string)
    ensures |r| <= |s|
    ensures Bare(r)
    ensures r == [] <==> AllSpace(s)
  {
    var t := s[LeadingSpaces(s)..];
    t[..|t| - TrailingSpaces(t)]
  }

  /**
   * `trim` keeps a contiguous middle of its argument and drops only white
   * space on either side of it.
   */
  lemma TrimInfix(s: string)
    ensures LeadingSpaces(s) + |Trim(s)| <= |s|
    ensures s[LeadingSpaces(s)..LeadingSpaces(s) + |Trim(s)|] == Trim(s)
    ensures AllSpace(s[..LeadingSpaces(s)])
    ensures AllSpace(s[LeadingSpaces(s) + |Trim(s)|..])
  {
    var k := LeadingSpaces(s);
    var t := s[k..];
    var n := |t| - TrailingSpaces(t);
    assert Trim(s) == t[..n] == s[k..k + n];
    assert s[k + n..] == t[n..];
    assert AllSpace(t[n..]) by {
      forall m | 0 <= m < |t| - n ensures IsSpace(t[n..][m]) {
        assert t[n..][m] == t[n + m];
      }
    }
  }

  /**
   * `trim` is characterised by its result: the only way to write `s` as
   * white space, a bare middle and white space again is with `Trim(s)` as the
   * middle.
   */
  lemma TrimUnique(s: string, p: string, m: string, q: string)
    requires s == p + m + q && AllSpace(p) && AllSpace(q) && Bare(m)
    ensures Trim(s) == m
  {
    if m == [] {
      assert AllSpace(s) by {
        forall i | 0 <= i < |s| ensures IsSpace(s[i]) {
          if i < |p| { assert s[i] == p[i]; } else { assert s[i] == q[i - |p|]; }
        }
      }
    } else {
      var k := LeadingSpaces(s);
      assert s[|p|] == m[0];
      assert forall i :: 0 <= i < |p| ==> s[i] == p[i];
      assert k == |p|;
      var t := s[k..];
      assert t == m + q;
      var j := TrailingSpaces(t);
      assert t[|t| - 1 - |q|] == m[|m| - 1];
      assert forall i :: |t| - |q| <= i < |t| ==> t[i] == q[i - (|t| - |q|)];
      assert j == |q|;
      assert t[..|t| - j] == m;
    }
  }

  lemma TrimIdempotent(s: string)
    ensures Trim(Trim(s)) == Trim(s)
  {
    TrimUnique(Trim(s), [], Trim(s), []);
  }

  /** The ASCII digit for `d`. */
  function DigitChar(d: nat): (c: char)
    requires d < 10
    ensures '0' <= c <= '9'
  {
    (48 + d) as char
  }

  predicate AllDigits(s: string) {
    forall i :: 0 <= i < |s| ==> '0' <= s[i] <= '9'
  }

  /** Decimal rendering of a natural number, as a template literal prints it. */
  function Decimal(n: nat): (s: string)
    ensures |s| >= 1 && AllDigits(s)
    ensures s[0] == '0' ==> n == 0
    decreases n
  {
    if n < 10 then [DigitChar(n)] else Decimal(n / 10) + [DigitChar(n % 10)]
  }

  /** The number a string of decimal digits denotes. */
  function DecimalValue(s: string): nat
    requires AllDigits(s)
  {
    if |s| == 0 then 0
    else 10 * DecimalValue(s[..|s| - 1]) + (s[|s| - 1] as int - 48)
  }

  lemma {:induction false} DecimalRoundTrip(n: nat)
    ensures DecimalValue(Decimal(n)) == n
    decreases n
  {
    if n >= 10 {
      DecimalRoundTrip(n / 10);
      var s := Decimal(n);
      assert s[..|s| - 1] == Decimal(n / 10);
    }
  }

  /** `parts.join(sep)`. */
  function Join(parts: seq<string>, sep: string): (r: string)
    ensures |parts| == 0 ==> r == ""
    ensures |parts| == 1 ==> r == parts[0]
    ensures |parts| > 0 ==> parts[0] <= r
  {
    if |parts| == 0 then ""
    else if |parts| == 1 then parts[0]
    else parts[0] + sep + Join(parts[1..], sep)
  }

  /** Joining one more part appends the separator and that part. */
  lemma {:induction false} JoinSnoc(parts: seq<string>, x: string, sep: string)
    requires |parts| > 0
    ensures Join(parts + [x], sep) == Join(parts, sep) + sep + x
    decreases |parts|
  {
    var ps := parts + [x];
    assert ps[0] == parts[0] && ps[1..] == parts[1..] + [x];
    if |parts| == 1 {
      assert ps[1..] == [x];
    } else {
      JoinSnoc(parts[1..], x, sep);
      calc {
        Join(ps, sep);
        parts[0] + sep + Join(parts[1..] + [x], sep);
        parts[0] + sep + (Join(parts[1..], sep) + sep + x);
        (parts[0] + sep + Join(parts[1..], sep)) + sep + x;
      }
    }
  }

  /** Joining splits at any inner boundary into the two halves joined, with one separator between. */
  lemma {:induction false} JoinSplit(parts: seq<string>, i: nat, sep: string)
    requires 0 < i < |parts|
    ensures Join(parts, sep) == Join(parts[..i], sep) + sep + Join(parts[i..], sep)
    decreases i
  {
    if i > 1 {
      JoinSplit(parts[1..], i - 1, sep);
      assert parts[1..][..i - 1] == parts[..i][1..];
      assert parts[1..][i - 1..] == parts[i..];
    } else {
      assert parts[..1] == [parts[0]];
    }
  }

  /** `a` occurs in `b` starting at position `k`. */
  predicate InfixAt(a: string, b: string, k: int) {
    0 <= k <= |b| - |a| && b[k..k + |a|] == a
  }

  /** `a` occurs in `b` at some position. */
  ghost predicate IsInfix(a: string, b: string) {
    exists k :: InfixAt(a, b, k)
  }

  /** Every part occurs in the joined text. */
  lemma JoinContainsParts(parts: seq<string>, i: nat, sep: string)
    requires i < |parts|
    ensures IsInfix(parts[i], Join(parts, sep))
  {
    var r := Join(parts, sep);
    var x := parts[i];
    if i == 0 {
      assert InfixAt(x, r, 0);
    } else {
      JoinSplit(parts, i, sep);
      var k := |Join(parts[..i], sep)| + |sep|;
      var tail := Join(parts[i..], sep);
      assert x <= tail;
      assert r == Join(parts[..i], sep) + sep + tail;
      assert r[k..k + |x|] == tail[..|x|];
      assert InfixAt(x, r, k);
    }
  }
}
