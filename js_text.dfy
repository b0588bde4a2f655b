/** The few JavaScript string primitives the orchestrator relies on:
    the `\d` and `\s` character classes, ASCII upper-casing as the `/i`
    flag compares letters, `String.prototype.trim`, `Number.prototype.toString`
    and `parseInt(_, 10)` on non-negative integers, and `padStart(2, '0')`. */
module JsText {

  /** `\d` in a regular expression without the `u` flag: ASCII digits only. */
  predicate IsDigit(c: char) {
    '0' <= c <= '9'
  }

  predicate AllDigits(s: string) {
    forall i :: 0 <= i < |s| ==> IsDigit(s[i])
  }

  /** `\s`: the WhiteSpace and LineTerminator code points of ECMAScript,
      which are also exactly what `String.prototype.trim` removes. */
  predicate IsSpace(c: char) {
    || c == '\t' || c == '\n' || c == '\U{000B}' || c == '\U{000C}' || c == '\r'
    || c == ' ' || c == '\U{00A0}' || c == '\U{1680}'
    || ('\U{2000}' <= c <= '\U{200A}')
    || c == '\U{2028}' || c == '\U{2029}' || c == '\U{202F}' || c == '\U{205F}'
    || c == '\U{3000}' || c == '\U{FEFF}'
  }

  /** Case folding of the `/i` flag restricted to what the pattern needs:
      only ASCII letters fold onto ASCII upper case. */
  function Upper(c: char): (u: char)
    ensures !('a' <= u <= 'z')
    ensures 'A' <= u <= 'Z' <==> 'a' <= c <= 'z' || 'A' <= c <= 'Z'
  {
    if 'a' <= c <= 'z' then (c as int - 32) as char else c
  }

  function DigitValue(c: char): (d: nat)
    requires IsDigit(c)
    ensures d < 10
  {
    c as int - '0' as int
  }

  function DigitChar(d: nat): (c: char)
    requires d < 10
    ensures IsDigit(c) && DigitValue(c) == d
  {
    ('0' as int + d) as char
  }

  /** `parseInt(s, 10)` for a non-empty run of digits (leading zeros allowed). */
  function Value(s: string): nat
    requires AllDigits(s)
  {
    if s == [] then 0 else Value(s[..|s| - 1]) * 10 + DigitValue(s[|s| - 1])
  }

  /** `n.toString()` for a non-negative integer: shortest decimal form. */
  function Render(n: nat): (r: string)
    ensures |r| >= 1 && AllDigits(r)
    ensures Value(r) == n
    ensures |r| > 1 ==> r[0] != '0'
  {
    if n < 10 then [DigitChar(n)]
    else
      var r := Render(n / 10) + [DigitChar(n % 10)];
      assert r[..|r| - 1] == Render(n / 10);
      r
  }

  /** `s.padStart(2, '0')`: zeros are added in front until the length is two;
      a longer string is left as it is. */
  function PadStart2(s: string): (r: string)
    ensures |r| == if |s| < 2 then 2 else |s|
    ensures r[|r| - |s|..] == s
    ensures forall i :: 0 <= i < |r| - |s| ==> r[i] == '0'
  {
    if |s| >= 2 then s else if |s| == 1 then "0" + s else "00"
  }

  /** A leading zero does not change the value `parseInt` reads. */
  lemma {:induction false} LeadingZero(s: string)
    requires AllDigits(s)
    ensures AllDigits("0" + s) && Value("0" + s) == Value(s)
  {
    if s != [] {
      var t := "0" + s;
      assert t[..|t| - 1] == "0" + s[..|s| - 1];
      LeadingZero(s[..|s| - 1]);
    }
  }

  /** Rendering, padding and reading back returns the number. */
  lemma PaddedRoundTrip(n: nat)
    ensures AllDigits(PadStart2(Render(n)))
    ensures Value(PadStart2(Render(n))) == n
  {
    var r := Render(n);
    if |r| == 1 {
      LeadingZero(r);
    }
  }

  /** `s.trim()`: the characters from the first to the last one that is not
      white space. */
  function Trim(s: string): (r: string)
    ensures |r| <= |s|
    ensures r != [] ==> !IsSpace(r[0]) && !IsSpace(r[|r| - 1])
  {
    var a := SpaceRun(s, 0);
    var b := SpaceRunBack(s, a, |s|);
    s[a..b]
  }

  /** What `trim` removes is white space at both ends, and nothing else. */
  lemma TrimRemovesEnds(s: string)
    ensures exists a, b ::
              && 0 <= a <= b <= |s| && Trim(s) == s[a..b]
              && (forall i :: 0 <= i < a ==> IsSpace(s[i]))
              && (forall i :: b <= i < |s| ==> IsSpace(s[i]))
  {
    var a := SpaceRun(s, 0);
    var b := SpaceRunBack(s, a, |s|);
    assert Trim(s) == s[a..b];
  }

  /** The first index at or after `i` that does not hold white space. */
  function SpaceRun(s: string, i: nat): (a: nat)
    requires i <= |s|
    ensures i <= a <= |s|
    ensures forall k :: i <= k < a ==> IsSpace(s[k])
    ensures a < |s| ==> !IsSpace(s[a])
    decreases |s| - i
  {
    if i < |s| && IsSpace(s[i]) then SpaceRun(s, i + 1) else i
  }

  /** The smallest end `b`, between `lo` and `hi`, after which `s[..hi]` holds only white space. */
  function SpaceRunBack(s: string, lo: nat, hi: nat): (b: nat)
    requires lo <= hi <= |s|
    ensures lo <= b <= hi
    ensures forall k :: b <= k < hi ==> IsSpace(s[k])
    ensures b > lo ==> !IsSpace(s[b - 1])
  {
    if hi > lo && IsSpace(s[hi - 1]) then SpaceRunBack(s, lo, hi - 1) else hi
  }

  /** A line is blank after trimming exactly when it consists of white space. */
  lemma TrimBlank(s: string)
    ensures Trim(s) == [] <==> forall i :: 0 <= i < |s| ==> IsSpace(s[i])
  {
    var a := SpaceRun(s, 0);
    var b := SpaceRunBack(s, a, |s|);
    if b > a {
      assert !IsSpace(s[b - 1]);
    }
  }

  /** Trimming twice is trimming once. */
  lemma TrimIdempotent(s: string)
    ensures Trim(Trim(s)) == Trim(s)
  {
    var t := Trim(s);
    var a := SpaceRun(t, 0);
    if t != [] {
      assert a == 0;
      var b := SpaceRunBack(t, 0, |t|);
      assert b == |t|;
    }
  }
}
