/**
 * The JavaScript string built-ins the core relies on: `String(n)` for integers,
 * `padStart`, `Array.prototype.join` and `parseInt` without a radix argument.
 */
module Strings {
  import opened Wrappers

  predicate IsDigit(c: char) { '0' <= c <= '9' }

  /** Every character of s is an ASCII decimal digit (written recursively, so it unfolds only on demand). */
  predicate AllDigits(s: string) {
    s == [] || (IsDigit(s[0]) && AllDigits(s[1..]))
  }

  lemma {:induction false} AllDigitsAt(s: string, i: nat)
    requires AllDigits(s) && i < |s|
    ensures IsDigit(s[i])
  {
    if i > 0 {
      AllDigitsAt(s[1..], i - 1);
      assert s[1..][i - 1] == s[i];
    }
  }

  lemma {:induction false} AllDigitsByIndex(s: string)
    requires forall i :: 0 <= i < |s| ==> IsDigit(s[i])
    ensures AllDigits(s)
  {
    if s != [] {
      forall i | 0 <= i < |s[1..]| ensures IsDigit(s[1..][i]) {
        assert s[1..][i] == s[i + 1];
      }
      AllDigitsByIndex(s[1..]);
    }
  }

  /** Every slice of a digit string is a digit string. */
  lemma DigitSlice(s: string, a: nat, b: nat)
    requires a <= b <= |s| && AllDigits(s)
    ensures AllDigits(s[a..b])
  {
    forall i | 0 <= i < b - a ensures IsDigit(s[a..b][i]) {
      AllDigitsAt(s, a + i);
      assert s[a..b][i] == s[a + i];
    }
    AllDigitsByIndex(s[a..b]);
  }

  /** Two digit strings laid end to end make a digit string. */
  lemma {:induction false} DigitsConcat(a: string, b: string)
    requires AllDigits(a) && AllDigits(b)
    ensures AllDigits(a + b)
  {
    if a == [] {
      assert a + b == b;
    } else {
      DigitsConcat(a[1..], b);
      assert (a + b)[1..] == a[1..] + b;
    }
  }

  /** The value `parseInt` gives a character in any radix: 0-9, then a/A = 10 up to z/Z = 35; 36 for none. */
  function DigitOf(c: char): nat {
    if '0' <= c <= '9' then c as int - '0' as int
    else if 'a' <= c <= 'z' then c as int - 'a' as int + 10
    else if 'A' <= c <= 'Z' then c as int - 'A' as int + 10
    else 36
  }

  predicate IsRadixDigit(c: char, radix: nat) { DigitOf(c) < radix }

  /** The value of a digit string in the given radix, most significant digit first. */
  function RadixValue(s: string, radix: nat): nat {
    if s == [] then 0 else RadixValue(s[..|s| - 1], radix) * radix + DigitOf(s[|s| - 1])
  }

  function DecimalValue(s: string): nat { RadixValue(s, 10) }

  /** Appending a digit multiplies the value by the radix and adds the digit. */
  lemma RadixValueSnoc(p: string, c: char, radix: nat)
    ensures RadixValue(p + [c], radix) == RadixValue(p, radix) * radix + DigitOf(c)
  {
    assert (p + [c])[..|p|] == p;
  }

  function Digit(d: nat): (c: char)
    requires d < 10
    ensures IsDigit(c) && DigitOf(c) == d
  {
    ('0' as int + d) as char
  }

  /** `String(n)` for a non-negative integer. */
  function NatToString(n: nat): (r: string)
    ensures |r| > 0 && AllDigits(r) && DecimalValue(r) == n
    ensures r[0] == '0' ==> r == "0"
  {
    if n < 10 then
      RadixValueSnoc([], Digit(n), 10);
      assert [] + [Digit(n)] == [Digit(n)];
      assert [Digit(n)][1..] == [];
      [Digit(n)]
    else
      var prefix := NatToString(n / 10);
      assert (prefix + [Digit(n % 10)])[..|prefix|] == prefix;
      assert [Digit(n % 10)][1..] == [];
      DigitsConcat(prefix, [Digit(n % 10)]);
      prefix + [Digit(n % 10)]
  }

  /** `String(n)` for any integer: a minus sign before the magnitude of a negative one. */
  function IntToString(n: int): (r: string)
    ensures n >= 0 ==> r == NatToString(n)
    ensures n < 0 ==> r == "-" + NatToString(-n)
  {
    if n < 0 then "-" + NatToString(-n) else NatToString(n)
  }

  lemma {:induction false} LeadingNonZeroIsPositive(s: string)
    requires |s| > 0 && AllDigits(s) && s[0] != '0'
    ensures DecimalValue(s) > 0
    decreases |s|
  {
    if |s| > 1 {
      DigitSlice(s, 0, |s| - 1);
      LeadingNonZeroIsPositive(s[..|s| - 1]);
    }
  }

  /** `String` gives back every canonical digit string (no leading zero unless it is "0"). */
  lemma {:induction false} NatToStringOfDigits(s: string)
    requires |s| > 0 && AllDigits(s) && (s[0] == '0' ==> |s| == 1)
    ensures NatToString(DecimalValue(s)) == s
    decreases |s|
  {
    var last := s[|s| - 1];
    if |s| == 1 {
      assert s == [] + [last];
      RadixValueSnoc([], last, 10);
      assert Digit(DigitOf(last)) == last;
    } else {
      var prefix := s[..|s| - 1];
      assert prefix[0] == s[0];
      DigitSlice(s, 0, |s| - 1);
      AllDigitsAt(s, |s| - 1);
      LeadingNonZeroIsPositive(prefix);
      NatToStringOfDigits(prefix);
      var v := DecimalValue(s);
      assert v == DecimalValue(prefix) * 10 + DigitOf(last);
      assert v / 10 == DecimalValue(prefix) && v % 10 == DigitOf(last);
      assert Digit(DigitOf(last)) == last;
      assert s == prefix + [last];
    }
  }

  function Repeat(c: char, n: nat): (r: string)
    ensures |r| == n && forall i :: 0 <= i < n ==> r[i] == c
  {
    if n == 0 then [] else [c] + Repeat(c, n - 1)
  }

  /** `s.padStart(len, fill)` for a one-character fill string. */
  function PadStart(s: string, len: nat, fill: char): (r: string)
    ensures |r| == if |s| >= len then |s| else len
    ensures r[|r| - |s|..] == s
    ensures forall i :: 0 <= i < |r| - |s| ==> r[i] == fill
  {
    if |s| >= len then s else Repeat(fill, len - |s|) + s
  }

  /** `String(n).padStart(2, '0')` is two digits worth n, for n < 100. */
  lemma PadTwoDigits(n: nat)
    requires n < 100
    ensures var r := PadStart(NatToString(n), 2, '0');
      |r| == 2 && AllDigits(r) && DecimalValue(r) == n
  {
    if n < 10 {
      PadOneDigit(n);
    } else {
      var q := n / 10;
      assert NatToString(q) == [Digit(q)];
      assert |NatToString(n)| == 2;
    }
  }

  lemma PadOneDigit(n: nat)
    requires n < 10
    ensures PadStart(NatToString(n), 2, '0') == ['0', Digit(n)]
    ensures DecimalValue(['0', Digit(n)]) == n
  {
    var d := Digit(n);
    assert NatToString(n) == [d];
    assert Repeat('0', 1) == ['0'];
    assert PadStart([d], 2, '0') == ['0'] + [d];
    assert ['0', d] == ['0'] + [d];
    RadixValueSnoc(['0'], Digit(n), 10);
    RadixValueSnoc([], '0', 10);
    assert [] + ['0'] == ['0'];
  }

  /** Zero-padded formatting gives back every two-digit string. */
  lemma TwoDigitsRoundTrip(s: string)
    requires |s| == 2 && AllDigits(s)
    ensures PadStart(NatToString(DecimalValue(s)), 2, '0') == s
  {
    if s[0] == '0' {
      assert s == ['0'] + [s[1]];
      RadixValueSnoc(['0'], s[1], 10);
      RadixValueSnoc([], '0', 10);
      assert [] + ['0'] == ['0'];
      assert DecimalValue(s) == DigitOf(s[1]);
      assert Digit(DigitOf(s[1])) == s[1];
      assert NatToString(DecimalValue(s)) == [s[1]];
    } else {
      NatToStringOfDigits(s);
    }
  }

  /** `xs.join(sep)`. */
  function Join(xs: seq<string>, sep: string): string {
    if |xs| == 0 then ""
    else if |xs| == 1 then xs[0]
    else xs[0] + sep + Join(xs[1..], sep)
  }

  predicate EndsWith(s: string, suffix: string) {
    |suffix| <= |s| && s[|s| - |suffix|..] == suffix
  }

  lemma EndsWithAppended(a: string, b: string)
    ensures EndsWith(a + b, b)
  {
    assert (a + b)[|a + b| - |b|..] == b;
  }

  lemma EndsWithTransitive(s: string, t: string, u: string)
    requires EndsWith(s, t) && EndsWith(t, u)
    ensures EndsWith(s, u)
  {
    assert s[|s| - |u|..] == s[|s| - |t|..][|t| - |u|..];
  }

  /** Strings that end with each of two suffixes agree on their last characters. */
  lemma EndsWithLastChar(s: string, t: string)
    ensures EndsWith(s, t) && |t| > 0 ==> s[|s| - 1] == t[|t| - 1]
  {
    if EndsWith(s, t) && |t| > 0 {
      assert s[|s| - |t|..][|t| - 1] == s[|s| - 1];
    }
  }

  /** A joined list ends with its last element. */
  lemma {:induction false} JoinEndsWithLast(xs: seq<string>, sep: string)
    requires |xs| > 0
    ensures EndsWith(Join(xs, sep), xs[|xs| - 1])
  {
    if |xs| > 1 {
      JoinEndsWithLast(xs[1..], sep);
      var j := Join(xs[1..], sep);
      var last := xs[|xs| - 1];
      assert (xs[0] + sep + j)[|xs[0] + sep + j| - |last|..] == j[|j| - |last|..];
    }
  }

  predicate StartsWith(s: string, prefix: string) {
    |prefix| <= |s| && s[..|prefix|] == prefix
  }

  /** WhiteSpace and LineTerminator code points of ECMAScript, which `parseInt` skips first. */
  predicate IsJsWhitespace(c: char) {
    var u := c as int;
    u == 0x09 || u == 0x0A || u == 0x0B || u == 0x0C || u == 0x0D || u == 0x20 ||
    u == 0xA0 || u == 0x1680 || (0x2000 <= u <= 0x200A) || u == 0x2028 || u == 0x2029 ||
    u == 0x202F || u == 0x205F || u == 0x3000 || u == 0xFEFF
  }

  function TrimStart(s: string): (r: string)
    ensures |r| <= |s|
    ensures (s == [] || !IsJsWhitespace(s[0])) ==> r == s
  {
    if s != [] && IsJsWhitespace(s[0]) then TrimStart(s[1..]) else s
  }

  /** TrimStart drops exactly the leading white space: a suffix of s that does not start with one. */
  lemma {:induction false} TrimStartIsSuffix(s: string)
    ensures var r := TrimStart(s); r == s[|s| - |r|..] && (r != [] ==> !IsJsWhitespace(r[0]))
    ensures forall i :: 0 <= i < |s| - |TrimStart(s)| ==> IsJsWhitespace(s[i])
  {
    if s != [] && IsJsWhitespace(s[0]) {
      TrimStartIsSuffix(s[1..]);
      forall i | 0 <= i < |s| - |TrimStart(s)| ensures IsJsWhitespace(s[i]) {
        if i > 0 { assert s[i] == s[1..][i - 1]; }
      }
    }
  }

  /** The length of the longest prefix of s made of digits of the radix. */
  function LeadingRadixDigits(s: string, radix: nat): (k: nat)
    ensures k <= |s|
  {
    if s != [] && IsRadixDigit(s[0], radix) then 1 + LeadingRadixDigits(s[1..], radix) else 0
  }

  /** The run LeadingRadixDigits measures is made of digits and cannot be extended. */
  lemma {:induction false} LeadingRadixDigitsMaximal(s: string, radix: nat)
    ensures var k := LeadingRadixDigits(s, radix);
      (forall i :: 0 <= i < k ==> IsRadixDigit(s[i], radix)) && (k < |s| ==> !IsRadixDigit(s[k], radix))
  {
    if s != [] && IsRadixDigit(s[0], radix) {
      LeadingRadixDigitsMaximal(s[1..], radix);
      var k := LeadingRadixDigits(s, radix);
      forall i | 0 <= i < k ensures IsRadixDigit(s[i], radix) {
        if i > 0 { assert s[i] == s[1..][i - 1]; }
      }
      if k < |s| { assert s[k] == s[1..][k - 1]; }
    }
  }

  /** The text after an optional leading sign. */
  function Unsigned(t: string): string {
    if |t| > 0 && (t[0] == '-' || t[0] == '+') then t[1..] else t
  }

  predicate HasHexPrefix(u: string) {
    |u| >= 2 && u[0] == '0' && (u[1] == 'x' || u[1] == 'X')
  }

  /** The radix `parseInt` reads u in: 16 after a hex prefix, 10 otherwise. */
  function RadixOf(u: string): nat {
    if HasHexPrefix(u) then 16 else 10
  }

  /** The text whose leading digits `parseInt` reads: u without its hex prefix. */
  function DigitsPart(u: string): string {
    if HasHexPrefix(u) then u[2..] else u
  }

  /**
   * `parseInt(s)`: skip leading white space, read an optional sign, switch to radix 16
   * after a `0x`/`0X` prefix, then read the longest run of digits. None is NaN (no digits).
   */
  function ParseInt(s: string): (r: Option<int>)
    ensures var t := TrimStart(s); var u := Unsigned(t);
      var w, radix := DigitsPart(u), RadixOf(u);
      var k := LeadingRadixDigits(w, radix);
      (r.None? <==> k == 0) &&
      (r.Some? ==> r.value == if |t| > 0 && t[0] == '-' then -(RadixValue(w[..k], radix) as int) else RadixValue(w[..k], radix))
    ensures s == [] ==> r.None?
  {
    ParseSigned(TrimStart(s))
  }

  function ParseSigned(t: string): (r: Option<int>)
    ensures var u := Unsigned(t); var m := ParseMagnitude(u);
      (r.None? <==> m.None?) && (r.Some? ==> r.value == if |t| > 0 && t[0] == '-' then -m.value else m.value)
  {
    if |t| > 0 && t[0] == '-' then
      match ParseMagnitude(t[1..])
      case Some(n) => Some(-n)
      case None => None
    else if |t| > 0 && t[0] == '+' then ParseMagnitude(t[1..])
    else ParseMagnitude(t)
  }

  function ParseMagnitude(u: string): (r: Option<int>)
    ensures r == ParseRun(DigitsPart(u), RadixOf(u))
  {
    if |u| >= 2 && u[0] == '0' && (u[1] == 'x' || u[1] == 'X') then ParseRun(u[2..], 16)
    else ParseRun(u, 10)
  }

  /** The value of the longest prefix of digits of the radix; None when there is none. */
  function ParseRun(w: string, radix: nat): (r: Option<int>)
    ensures var k := LeadingRadixDigits(w, radix);
      (r.None? <==> k == 0) && (r.Some? ==> r.value == RadixValue(w[..k], radix) && r.value >= 0)
  {
    var k := LeadingRadixDigits(w, radix);
    if k == 0 then None else Some(RadixValue(w[..k], radix))
  }

  /** A string whose first character is no white space, sign or digit is NaN to `parseInt`. */
  lemma NonNumericIsNaN(s: string)
    requires |s| > 0 && !IsJsWhitespace(s[0]) && s[0] != '-' && s[0] != '+' && !IsDigit(s[0])
    ensures ParseInt(s).None?
  {
    assert TrimStart(s) == s;
  }

  /** On a non-empty string of decimal digits, `parseInt` is the decimal value. */
  lemma ParseIntOfDigits(s: string)
    requires |s| > 0 && AllDigits(s)
    ensures ParseInt(s) == Some(DecimalValue(s))
  {
    assert !IsJsWhitespace(s[0]);
    assert TrimStart(s) == s;
    if |s| >= 2 {
      assert IsDigit(s[1]);
    }
    AllDigitsAreLeading(s);
    assert s[..|s|] == s;
    assert ParseSigned(s) == ParseMagnitude(s);
  }

  lemma {:induction false} AllDigitsAreLeading(s: string)
    requires AllDigits(s)
    ensures LeadingRadixDigits(s, 10) == |s|
  {
    if s != [] {
      assert IsDigit(s[0]);
      AllDigitsAreLeading(s[1..]);
    }
  }
}
