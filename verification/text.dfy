/**
 * The string operations the coordination layer relies on: ASCII case
 * mapping, substring search, Python's ordering of `str` values, and the
 * zero-padded decimal numbers inside generated identifiers.
 */
module Text {
  import opened Common

  predicate IsDigit(c: char) {
    '0' <= c <= '9'
  }

  predicate AllDigits(s: string) {
    forall i :: 0 <= i < |s| ==> IsDigit(s[i])
  }

  function DigitValue(c: char): (d: nat)
    requires IsDigit(c)
    ensures d < 10
  {
    (c as int) - ('0' as int)
  }

  function DigitChar(d: nat): (c: char)
    requires d < 10
    ensures IsDigit(c) && DigitValue(c) == d
  {
    (('0' as int) + d) as char
  }

  /** `str(n)` for a natural number: its decimal digits, without leading zeros. */
  function Decimal(n: nat): (s: string)
    ensures |s| >= 1 && AllDigits(s)
  {
    if n < 10 then [DigitChar(n)] else Decimal(n / 10) + [DigitChar(n % 10)]
  }

  /** The number a string of decimal digits denotes (Python's `int(s)`). */
  function DecimalValue(s: string): nat
    requires AllDigits(s)
  {
    if s == [] then 0 else DecimalValue(s[..|s| - 1]) * 10 + DigitValue(s[|s| - 1])
  }

  /** Reading back what `Decimal` wrote gives the number. */
  lemma {:induction false} DecimalRoundTrip(n: nat)
    ensures DecimalValue(Decimal(n)) == n
  {
    if n >= 10 {
      var s := Decimal(n);
      assert s[..|s| - 1] == Decimal(n / 10);
      DecimalRoundTrip(n / 10);
    }
  }

  function Zeros(k: nat): (z: string)
    ensures |z| == k && AllDigits(z)
  {
    seq(k, _ => '0')
  }

  /** Leading zeros do not change the value of a digit string. */
  lemma {:induction false} LeadingZeros(k: nat, s: string)
    requires AllDigits(s)
    ensures AllDigits(Zeros(k) + s)
    ensures DecimalValue(Zeros(k) + s) == DecimalValue(s)
  {
    var t := Zeros(k) + s;
    assert AllDigits(t) by {
      forall i | 0 <= i < |t| ensures IsDigit(t[i]) {
        if i < k { assert t[i] == Zeros(k)[i]; } else { assert t[i] == s[i - k]; }
      }
    }
    if s == [] {
      assert t == Zeros(k);
      AllZerosValue(k);
    } else {
      assert t[..|t| - 1] == Zeros(k) + s[..|s| - 1];
      LeadingZeros(k, s[..|s| - 1]);
    }
  }

  lemma {:induction false} AllZerosValue(k: nat)
    ensures DecimalValue(Zeros(k)) == 0
  {
    if k > 0 {
      assert Zeros(k)[..k - 1] == Zeros(k - 1);
      AllZerosValue(k - 1);
    }
  }

  /** Python's `f"{n:0wd}"`: the decimal digits of `n`, left-padded with zeros to `width`. */
  function Padded(n: nat, width: nat): string {
    var d := Decimal(n);
    if |d| < width then Zeros(width - |d|) + d else d
  }

  /** The padded rendering reads back as the number, so distinct counters render distinctly. */
  lemma PaddedRoundTrip(n: nat, width: nat)
    ensures |Padded(n, width)| >= width && AllDigits(Padded(n, width))
    ensures DecimalValue(Padded(n, width)) == n
  {
    var d := Decimal(n);
    DecimalRoundTrip(n);
    if |d| < width {
      LeadingZeros(width - |d|, d);
      assert Padded(n, width) == Zeros(width - |d|) + d;
    } else {
      assert Padded(n, width) == d;
    }
  }

  /** An identifier of the form `prefix + f"{n:0wd}"` (e.g. `"REQ-0001"`). */
  function Tag(prefix: string, n: nat, width: nat): string {
    prefix + Padded(n, width)
  }

  /** Two tags with the same prefix coincide only when their numbers do. */
  lemma TagInjective(prefix: string, n1: nat, n2: nat, width: nat)
    requires Tag(prefix, n1, width) == Tag(prefix, n2, width)
    ensures n1 == n2
  {
    var t := Tag(prefix, n1, width);
    assert t[|prefix|..] == Padded(n1, width);
    assert Tag(prefix, n2, width)[|prefix|..] == Padded(n2, width);
    PaddedRoundTrip(n1, width);
    PaddedRoundTrip(n2, width);
  }

  /** A dated identifier `prefix + day + "-" + f"{n:0wd}"` (e.g. `"MEM-20240101-000001"`). */
  function Stamp(prefix: string, day: string, n: nat, width: nat): string {
    Tag(prefix + day + "-", n, width)
  }

  /**
   * Dated identifiers whose day texts have the same length (as `strftime('%Y%m%d')`
   * always produces) are equal only when both the day and the counter agree.
   */
  lemma StampInjective(prefix: string, d1: string, n1: nat, d2: string, n2: nat, width: nat)
    requires |d1| == |d2|
    requires Stamp(prefix, d1, n1, width) == Stamp(prefix, d2, n2, width)
    ensures d1 == d2 && n1 == n2
  {
    var s1 := Stamp(prefix, d1, n1, width);
    var s2 := Stamp(prefix, d2, n2, width);
    assert s1[|prefix|..|prefix| + |d1|] == d1;
    assert s2[|prefix|..|prefix| + |d2|] == d2;
    TagInjective(prefix + d1 + "-", n1, n2, width);
  }

  /** `str(i)` for any integer: a minus sign before the digits of a negative number. */
  function IntText(i: int): string {
    if i < 0 then "-" + Decimal(-i) else Decimal(i)
  }

  /** Python's `int(s)` restricted to an optional minus sign followed by digits. */
  function ParseInt(s: string): Option<int> {
    if |s| >= 2 && s[0] == '-' && AllDigits(s[1..]) then Some(-(DecimalValue(s[1..]) as int))
    else if |s| >= 1 && AllDigits(s) then Some(DecimalValue(s))
    else None
  }

  lemma IntTextRoundTrip(i: int)
    ensures ParseInt(IntText(i)) == Some(i)
  {
    if i < 0 {
      var d := Decimal(-i);
      assert IntText(i) == "-" + d;
      assert ("-" + d)[0] == '-' && ("-" + d)[1..] == d;
      DecimalRoundTrip(-i);
    } else {
      var d := Decimal(i);
      assert IntText(i) == d && IsDigit(d[0]);
      DecimalRoundTrip(i);
    }
  }

  /** Python's `str.lower()` on ASCII letters; other characters are kept. */
  function LowerChar(c: char): char {
    if 'A' <= c <= 'Z' then ((c as int) + 32) as char else c
  }

  function UpperChar(c: char): char {
    if 'a' <= c <= 'z' then ((c as int) - 32) as char else c
  }

  function Lower(s: string): (r: string)
    ensures |r| == |s| && forall i :: 0 <= i < |s| ==> r[i] == LowerChar(s[i])
  {
    seq(|s|, i requires 0 <= i < |s| => LowerChar(s[i]))
  }

  function Upper(s: string): (r: string)
    ensures |r| == |s| && forall i :: 0 <= i < |s| ==> r[i] == UpperChar(s[i])
  {
    seq(|s|, i requires 0 <= i < |s| => UpperChar(s[i]))
  }

  /** Python's `sub in s`. */
  function Contains(s: string, sub: string): (b: bool)
    ensures b <==> exists i :: 0 <= i <= |s| - |sub| && sub <= s[i..]
  {
    if |sub| > |s| then false
    else if sub <= s then (assert s[0..] == s; true)
    else
      var r := Contains(s[1..], sub);
      assert forall i :: 1 <= i <= |s| - |sub| ==> s[i..] == s[1..][i - 1..];
      assert r ==> exists i :: 0 <= i <= |s| - |sub| && sub <= s[i..] by {
        if r {
          var j :| 0 <= j <= |s| - 1 - |sub| && sub <= s[1..][j..];
          assert sub <= s[j + 1..];
        }
      }
      r
  }

  /**
   * Python's `a < b` on strings: lexicographic by code point, and a proper
   * prefix is smaller.
   */
  function StrLess(a: string, b: string): bool {
    if a == [] then b != []
    else if b == [] then false
    else if a[0] != b[0] then a[0] < b[0]
    else StrLess(a[1..], b[1..])
  }

  /** Python's `<` on strings is a strict order: never `a < a`. */
  lemma {:induction false} StrLessIrreflexive(a: string)
    ensures !StrLess(a, a)
  {
    if a != [] {
      StrLessIrreflexive(a[1..]);
    }
  }

  /** Python's `<` on strings is transitive. */
  lemma {:induction false} StrLessTransitive(a: string, b: string, c: string)
    requires StrLess(a, b) && StrLess(b, c)
    ensures StrLess(a, c)
  {
    if a != [] && b != [] && c != [] && a[0] == b[0] && b[0] == c[0] {
      StrLessTransitive(a[1..], b[1..], c[1..]);
    }
  }

  /** The position of the first `c` in `s`, or `|s|` when there is none. */
  function FirstIndex(s: string, c: char): (k: nat)
    ensures k <= |s|
    ensures k < |s| ==> s[k] == c
    ensures forall i :: 0 <= i < k ==> s[i] != c
  {
    if s == [] then 0 else if s[0] == c then 0 else 1 + FirstIndex(s[1..], c)
  }
}
