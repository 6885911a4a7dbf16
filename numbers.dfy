/**
 * Decimal rendering of integers as Python's `str(n)` and `f"{n:,}"` produce
 * them, with the parser that inverts the plain rendering.
 */
module Numbers {
  import opened Text

  function DigitChar(d: nat): (c: char)
    requires d < 10
    ensures IsDigit(c)
  {
    ('0' as int + d) as char
  }

  function DigitValue(c: char): (d: nat)
    requires IsDigit(c)
    ensures d < 10 && DigitChar(d) == c
  {
    c as int - '0' as int
  }

  ghost predicate AllDigits(s: string)
  {
    forall i :: 0 <= i < |s| ==> IsDigit(s[i])
  }

  /** `str(n)` for a natural number: digits only, no leading zero. */
  function NatToString(n: nat): (r: string)
    ensures |r| >= 1 && AllDigits(r)
    ensures |r| > 1 ==> r[0] != '0'
    decreases n
  {
    if n < 10 then [DigitChar(n)] else NatToString(n / 10) + [DigitChar(n % 10)]
  }

  /** The number a string of decimal digits denotes. */
  function DigitsValue(s: string): nat
    requires AllDigits(s)
  {
    if s == [] then 0 else DigitsValue(s[..|s| - 1]) * 10 + DigitValue(s[|s| - 1])
  }

  /** Reading back a rendered number gives the number. */
  lemma {:induction false} NatToStringRoundTrip(n: nat)
    ensures DigitsValue(NatToString(n)) == n
    decreases n
  {
    var r := NatToString(n);
    if n >= 10 {
      NatToStringRoundTrip(n / 10);
      assert r[..|r| - 1] == NatToString(n / 10);
    }
  }

  /** Different numbers render differently. */
  lemma NatToStringInjective(a: nat, b: nat)
    requires NatToString(a) == NatToString(b)
    ensures a == b
  {
    NatToStringRoundTrip(a);
    NatToStringRoundTrip(b);
  }

  /** `str(i)` for any integer: a minus sign in front of negative numbers. */
  function IntToString(i: int): (r: string)
    ensures i >= 0 ==> r == NatToString(i)
    ensures i < 0 ==> r == "-" + NatToString(-i)
  {
    if i < 0 then "-" + NatToString(-i) else NatToString(i)
  }

  /** Three digits with leading zeros, for one group of `f"{n:,}"`. */
  function Pad3(k: nat): (r: string)
    requires k < 1000
    ensures |r| == 3 && AllDigits(r)
  {
    [DigitChar(k / 100), DigitChar(k / 10 % 10), DigitChar(k % 10)]
  }

  /** `f"{n:,}"`: the decimal digits in groups of three separated by commas. */
  function WithThousands(n: nat): (r: string)
    decreases n
  {
    if n < 1000 then NatToString(n) else WithThousands(n / 1000) + "," + Pad3(n % 1000)
  }

  /** `s` with every comma taken out. */
  function DropCommas(s: string): (r: string)
  {
    if s == [] then [] else (if s[0] == ',' then [] else [s[0]]) + DropCommas(s[1..])
  }

  lemma {:induction false} DropCommasAppend(a: string, b: string)
    ensures DropCommas(a + b) == DropCommas(a) + DropCommas(b)
    decreases |a|
  {
    if a == [] {
      assert a + b == b;
    } else {
      assert (a + b)[0] == a[0];
      assert (a + b)[1..] == a[1..] + b;
      DropCommasAppend(a[1..], b);
    }
  }

  lemma {:induction false} DropCommasOfDigits(s: string)
    requires AllDigits(s)
    ensures DropCommas(s) == s
    decreases |s|
  {
    if s != [] {
      DropCommasOfDigits(s[1..]);
    }
  }

  /** Rendering `n` with the thousands separator splits off the last three digits. */
  lemma NatToStringSplit3(n: nat)
    requires n >= 1000
    ensures NatToString(n) == NatToString(n / 1000) + Pad3(n % 1000)
  {
    var q1 := n / 10;
    var q2 := q1 / 10;
    var q3 := q2 / 10;
    assert q3 == n / 1000;
    assert n % 1000 / 100 == q2 % 10;
    assert n % 1000 / 10 % 10 == q1 % 10;
    assert n % 1000 % 10 == n % 10;
    assert NatToString(n) == NatToString(q1) + [DigitChar(n % 10)];
    assert NatToString(q1) == NatToString(q2) + [DigitChar(q1 % 10)];
    assert NatToString(q2) == NatToString(q3) + [DigitChar(q2 % 10)];
  }

  /** Taking the commas out of `f"{n:,}"` gives back `str(n)`. */
  lemma {:induction false} WithThousandsDigits(n: nat)
    ensures DropCommas(WithThousands(n)) == NatToString(n)
    decreases n
  {
    if n < 1000 {
      DropCommasOfDigits(NatToString(n));
    } else {
      WithThousandsDigits(n / 1000);
      DropCommasAppend(WithThousands(n / 1000) + ",", Pad3(n % 1000));
      DropCommasAppend(WithThousands(n / 1000), ",");
      DropCommasOfDigits(Pad3(n % 1000));
      NatToStringSplit3(n);
    }
  }
}
