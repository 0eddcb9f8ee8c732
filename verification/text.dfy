/** String primitives of the JavaScript runtime that the client's rules rely on:
    `String.prototype.trim`, `startsWith`, `replace` of a single character,
    `padStart(2, '0')`, `Number.prototype.toString()` for non-negative integers
    and `parseInt(s, 10)`. */
module Text {
  import opened Wrappers

  /** How JavaScript reads a string-or-null in a condition: `null`, `undefined`
      and the empty string are falsy. */
  predicate Truthy(v: Option<string>) {
    v.Some? && v.value != ""
  }

  // ---------------------------------------------------------------------------
  // Whitespace and trim
  // ---------------------------------------------------------------------------

  /** The ECMAScript WhiteSpace and LineTerminator code points, which is the set
      `trim` removes from both ends. */
  predicate IsSpace(c: char) {
    var n := c as int;
    || n == 0x09 || n == 0x0A || n == 0x0B || n == 0x0C || n == 0x0D
    || n == 0x20 || n == 0xA0 || n == 0x1680 || (0x2000 <= n <= 0x200A)
    || n == 0x2028 || n == 0x2029 || n == 0x202F || n == 0x205F
    || n == 0x3000 || n == 0xFEFF
  }

  /** Every character of `s` is whitespace (so `s.trim()` is falsy). */
  predicate IsBlank(s: string) {
    forall i :: 0 <= i < |s| ==> IsSpace(s[i])
  }

  /** Length of the whitespace run at the start of `s`. */
  function LeadingSpaces(s: string): (k: nat)
    ensures k <= |s|
    ensures forall i :: 0 <= i < k ==> IsSpace(s[i])
    ensures k < |s| ==> !IsSpace(s[k])
  {
    if s == [] || !IsSpace(s[0]) then 0 else 1 + LeadingSpaces(s[1..])
  }

  /** Length of the whitespace run at the end of `s`. */
  function TrailingSpaces(s: string): (k: nat)
    ensures k <= |s|
    ensures forall i :: |s| - k <= i < |s| ==> IsSpace(s[i])
    ensures k < |s| ==> !IsSpace(s[|s| - 1 - k])
  {
    if s == [] || !IsSpace(s[|s| - 1]) then 0 else 1 + TrailingSpaces(s[..|s| - 1])
  }

  /** `s.trim()`. */
  function Trim(s: string): (r: string)
    ensures |r| <= |s|
    ensures r == [] <==> IsBlank(s)
    ensures r != [] ==> !IsSpace(r[0]) && !IsSpace(r[|r| - 1])
    ensures LeadingSpaces(s) + |r| <= |s|
    ensures forall i :: 0 <= i < |r| ==> r[i] == s[LeadingSpaces(s) + i]
    ensures forall i :: LeadingSpaces(s) + |r| <= i < |s| ==> IsSpace(s[i])
  {
    var lead := LeadingSpaces(s);
    if lead == |s| then
      []
    else
      var trail := TrailingSpaces(s);
      var r := s[lead..|s| - trail];
      r
  }

  /** Trimming twice is trimming once. */
  lemma TrimIdempotent(s: string)
    ensures Trim(Trim(s)) == Trim(s)
  {
    var t := Trim(s);
    if t != [] {
      assert LeadingSpaces(t) == 0;
      assert TrailingSpaces(t) == 0;
      assert t[0..|t|] == t;
    }
  }

  // ---------------------------------------------------------------------------
  // Length
  // ---------------------------------------------------------------------------

  /** The UTF-16 code units one character takes: two for a character outside
      the Basic Multilingual Plane (a surrogate pair), one otherwise. */
  function CodeUnits(c: char): (n: nat)
    ensures n == 1 || n == 2
    ensures n == 2 <==> c as int >= 0x10000
  {
    if c as int >= 0x10000 then 2 else 1
  }

  /** `s.length`, which counts UTF-16 code units rather than characters. */
  function JsLength(s: string): (n: nat)
    ensures |s| <= n <= 2 * |s|
    ensures n == |s| <==> forall i :: 0 <= i < |s| ==> CodeUnits(s[i]) == 1
  {
    if s == [] then 0
    else
      assert forall i :: 1 <= i < |s| ==> s[i] == s[1..][i - 1];
      CodeUnits(s[0]) + JsLength(s[1..])
  }

  /** The length of a concatenation is the sum of the lengths. */
  lemma {:induction false} JsLengthAppend(a: string, b: string)
    ensures JsLength(a + b) == JsLength(a) + JsLength(b)
    decreases |a|
  {
    if a != [] {
      assert (a + b)[0] == a[0];
      assert (a + b)[1..] == a[1..] + b;
      JsLengthAppend(a[1..], b);
    } else {
      assert a + b == b;
    }
  }

  /** One emoji is one character but two code units. */
  lemma AstralCharCountsTwice()
    ensures |"\U{1F600}"| == 1 && JsLength("\U{1F600}") == 2
  {
  }

  // ---------------------------------------------------------------------------
  // Prefixes and single-character replacement
  // ---------------------------------------------------------------------------

  /** `s.startsWith(p)`. */
  predicate StartsWith(s: string, p: string) {
    |p| <= |s| && s[..|p|] == p
  }

  /** `s.replace(c, '')` for a one-character pattern: removes the FIRST
      occurrence of `c` only. */
  function RemoveFirst(s: string, c: char): (r: string)
    ensures c !in s ==> r == s
    ensures c in s ==> |r| == |s| - 1
    ensures multiset(r) + (if c in s then multiset{c} else multiset{}) == multiset(s)
  {
    if s == [] then []
    else if s[0] == c then
      assert s == [s[0]] + s[1..];
      s[1..]
    else
      assert s == [s[0]] + s[1..];
      [s[0]] + RemoveFirst(s[1..], c)
  }

  /** `s.replace(pat, rep)` with a string pattern: the first occurrence of
      `pat` is replaced, wherever it is; an empty pattern matches at the start. */
  function ReplaceFirst(s: string, pat: string, rep: string): (r: string)
    ensures StartsWith(s, pat) ==> r == rep + s[|pat|..]
    decreases |s|
  {
    if StartsWith(s, pat) then rep + s[|pat|..]
    else if |s| <= |pat| then s
    else [s[0]] + ReplaceFirst(s[1..], pat, rep)
  }

  /** `s.replace(/^pat/, rep)` for a literal `pat`: only a match at the very
      start is replaced. */
  function ReplacePrefix(s: string, pat: string, rep: string): (r: string)
    ensures StartsWith(s, pat) ==> r == rep + s[|pat|..]
    ensures !StartsWith(s, pat) ==> r == s
  {
    if StartsWith(s, pat) then rep + s[|pat|..] else s
  }

  /** The two replacements differ: a pattern that occurs only later in the
      string is replaced by the first and left alone by the second. */
  lemma ReplaceFirstReachesPastStart()
    ensures ReplaceFirst("xhttp", "http", "ws") == "xws"
    ensures ReplacePrefix("xhttp", "http", "ws") == "xhttp"
  {
    assert !StartsWith("xhttp", "http");
    assert "xhttp"[1..] == "http";
    assert StartsWith("http", "http");
  }

  // ---------------------------------------------------------------------------
  // Decimal digits
  // ---------------------------------------------------------------------------

  predicate IsDigit(c: char) {
    '0' <= c <= '9'
  }

  predicate AllDigits(s: string) {
    forall i :: 0 <= i < |s| ==> IsDigit(s[i])
  }

  function DigitChar(d: nat): (c: char)
    requires d < 10
    ensures IsDigit(c)
  {
    (('0' as int) + d) as char
  }

  function DigitValue(c: char): (d: nat)
    requires IsDigit(c)
    ensures d < 10
  {
    (c as int) - ('0' as int)
  }

  /** The number a string of decimal digits denotes. */
  function DecimalValue(s: string): nat
    requires AllDigits(s)
  {
    if s == [] then 0 else 10 * DecimalValue(s[..|s| - 1]) + DigitValue(s[|s| - 1])
  }

  /** `n.toString()` for a non-negative integer: the shortest decimal numeral. */
  function NatToString(n: nat): (r: string)
    ensures 1 <= |r|
    ensures AllDigits(r)
    ensures |r| == 1 <==> n < 10
    ensures r[0] != '0' || n == 0
  {
    if n < 10 then [DigitChar(n)] else NatToString(n / 10) + [DigitChar(n % 10)]
  }

  /** Printing then reading the numeral gives the number back. */
  lemma {:induction false} DecimalRoundTrip(n: nat)
    ensures DecimalValue(NatToString(n)) == n
  {
    if n >= 10 {
      var s := NatToString(n);
      assert s[..|s| - 1] == NatToString(n / 10);
      DecimalRoundTrip(n / 10);
      assert DigitValue(DigitChar(n % 10)) == n % 10;
    } else {
      assert DigitValue(DigitChar(n)) == n;
    }
  }

  /** Leading zeros do not change the value of a numeral. */
  lemma {:induction false} LeadingZeroValue(s: string)
    requires AllDigits(s)
    ensures AllDigits("0" + s) && DecimalValue("0" + s) == DecimalValue(s)
  {
    if s != [] {
      var z := "0" + s;
      assert z[..|z| - 1] == "0" + s[..|s| - 1];
      LeadingZeroValue(s[..|s| - 1]);
    }
  }

  /** `s.padStart(2, '0')`. */
  function PadStart2(s: string): (r: string)
    ensures |r| >= 2
    ensures |s| >= 2 ==> r == s
    ensures |s| < 2 ==> r == seq(2 - |s|, _ => '0') + s
  {
    if |s| >= 2 then s else if |s| == 1 then "0" + s else "00"
  }

  /** Zero-padding a numeral keeps its value. */
  lemma PadStart2Value(n: nat)
    ensures AllDigits(PadStart2(NatToString(n)))
    ensures DecimalValue(PadStart2(NatToString(n))) == n
  {
    var s := NatToString(n);
    DecimalRoundTrip(n);
    if |s| < 2 {
      LeadingZeroValue(s);
    }
  }

  // ---------------------------------------------------------------------------
  // parseInt(s, 10)
  // ---------------------------------------------------------------------------

  /** Length of the decimal-digit run at the start of `s`. */
  function DigitRun(s: string): (k: nat)
    ensures k <= |s|
    ensures AllDigits(s[..k])
    ensures k < |s| ==> !IsDigit(s[k])
  {
    if s == [] || !IsDigit(s[0]) then 0
    else
      var k := 1 + DigitRun(s[1..]);
      assert s[..k] == [s[0]] + s[1..][..k - 1];
      k
  }

  /** `parseInt(s, 10)`: skip leading whitespace, read an optional sign, then
      the longest run of decimal digits; `None` stands for `NaN` (no digit). */
  function ParseInt(s: string): Option<int>
  {
    var t := s[LeadingSpaces(s)..];
    var (sign, u) := SignedPart(t);
    var k := DigitRun(u);
    if k == 0 then None else Some(sign * DecimalValue(u[..k]))
  }

  /** The sign and the remainder of a string after an optional `+` or `-`. */
  function SignedPart(t: string): (r: (int, string))
    ensures r.0 == 1 || r.0 == -1
    ensures r.0 == -1 <==> (t != [] && t[0] == '-')
    ensures |r.1| + 1 == |t| || r.1 == t
  {
    if t != [] && t[0] == '-' then (-1, t[1..])
    else if t != [] && t[0] == '+' then (1, t[1..])
    else (1, t)
  }

  /** A numeral followed by anything that is not a digit parses to its value. */
  lemma ParseIntOfNumeral(digits: string, rest: string)
    requires |digits| >= 1 && AllDigits(digits)
    requires rest == [] || !IsDigit(rest[0])
    ensures ParseInt(digits + rest) == Some(DecimalValue(digits))
  {
    var s := digits + rest;
    assert !IsSpace(s[0]);
    assert LeadingSpaces(s) == 0;
    assert s[0..] == s;
    assert SignedPart(s) == (1, s);
    DigitRunOfNumeral(digits, rest);
    assert s[..|digits|] == digits;
  }

  lemma {:induction false} DigitRunOfNumeral(digits: string, rest: string)
    requires AllDigits(digits)
    requires rest == [] || !IsDigit(rest[0])
    ensures DigitRun(digits + rest) == |digits|
  {
    if digits != [] {
      assert (digits + rest)[1..] == digits[1..] + rest;
      DigitRunOfNumeral(digits[1..], rest);
    } else {
      assert digits + rest == rest;
    }
  }
}
