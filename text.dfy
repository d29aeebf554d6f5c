/** Strings the keypad compares key labels with: the decimal text of an integer and the
    first-match search over a list of labels. */
module Text {
  import opened Wrappers

  /** A Java `int` / Kotlin `Int`. */
  type Int32 = x: int | -0x8000_0000 <= x < 0x8000_0000

  predicate IsDigit(c: char) {
    '0' <= c <= '9'
  }

  predicate AllDigits(s: string) {
    forall i :: 0 <= i < |s| ==> IsDigit(s[i])
  }

  function DigitChar(d: nat): (c: char)
    requires d < 10
    ensures IsDigit(c) && (c as int) - ('0' as int) == d
  {
    (('0' as int) + d) as char
  }

  function DigitValue(c: char): nat
    requires IsDigit(c)
  {
    (c as int) - ('0' as int)
  }

  /** The decimal digits of n, most significant first, with no leading zero. */
  function NaturalDecimal(n: nat): (s: string)
    ensures |s| > 0 && AllDigits(s)
    ensures s[0] == '0' <==> n == 0
  {
    if n < 10 then [DigitChar(n)] else NaturalDecimal(n / 10) + [DigitChar(n % 10)]
  }

  /** `Integer.toString(n)` / `Int.toString()`: a minus sign for negative values, then the digits. */
  function Decimal(n: int): (s: string)
    ensures |s| > 0
    ensures s[0] == '-' <==> n < 0
    ensures n < 0 ==> AllDigits(s[1..])
    ensures n >= 0 ==> AllDigits(s)
  {
    if n < 0 then "-" + NaturalDecimal(-n) else NaturalDecimal(n)
  }

  /** Reads back a string of digits; the left inverse of NaturalDecimal. */
  function ParseNatural(s: string): nat
    requires AllDigits(s)
  {
    if s == [] then 0 else 10 * ParseNatural(s[..|s| - 1]) + DigitValue(s[|s| - 1])
  }

  /** Reads back an optional minus sign and digits; the left inverse of Decimal. */
  function ParseDecimal(s: string): int
    requires |s| > 0
    requires if s[0] == '-' then AllDigits(s[1..]) else AllDigits(s)
  {
    if s[0] == '-' then -(ParseNatural(s[1..]) as int) else ParseNatural(s)
  }

  lemma {:induction false} ParseNaturalDecimal(n: nat)
    ensures ParseNatural(NaturalDecimal(n)) == n
  {
    var s := NaturalDecimal(n);
    if n >= 10 {
      ParseNaturalDecimal(n / 10);
      assert s[..|s| - 1] == NaturalDecimal(n / 10);
    }
  }

  lemma ParseDecimalDecimal(n: int)
    ensures ParseDecimal(Decimal(n)) == n
  {
    if n < 0 {
      assert Decimal(n)[1..] == NaturalDecimal(-n);
      ParseNaturalDecimal(-n);
    } else {
      ParseNaturalDecimal(n);
    }
  }

  /** Two integers have the same decimal text only when they are equal. */
  lemma DecimalInjective(a: int, b: int)
    ensures Decimal(a) == Decimal(b) <==> a == b
  {
    if Decimal(a) == Decimal(b) {
      ParseDecimalDecimal(a);
      ParseDecimalDecimal(b);
    }
  }

  /** Java's `String.valueOf(Object)` applied to a boxed `Integer`: "null" for a null box. */
  function ValueOf(v: Option<Int32>): (s: string)
    ensures s == "null" <==> v.None?
  {
    match v
    case None => "null"
    case Some(n) => Decimal(n)
  }

  /** `String.valueOf` tells Integer values apart, null included. */
  lemma ValueOfInjective(a: Option<Int32>, b: Option<Int32>)
    ensures ValueOf(a) == ValueOf(b) <==> a == b
  {
    if a.Some? && b.Some? {
      DecimalInjective(a.value, b.value);
    }
  }

  /** The index of the first element equal to t, if there is one. */
  function FirstIndexOf(s: seq<string>, t: string): (r: Option<nat>)
    ensures r.Some? ==> r.value < |s| && s[r.value] == t && forall j :: 0 <= j < r.value ==> s[j] != t
    ensures r.None? <==> forall j :: 0 <= j < |s| ==> s[j] != t
  {
    if s == [] then None
    else if s[0] == t then Some(0)
    else match FirstIndexOf(s[1..], t)
      case None => None
      case Some(i) => Some(i + 1)
  }

  /** If s[i] is t and no earlier element is, the first match is i. */
  lemma FirstMatchAt(s: seq<string>, t: string, i: nat)
    requires i < |s| && s[i] == t
    requires forall j :: 0 <= j < i ==> s[j] != t
    ensures FirstIndexOf(s, t) == Some(i)
  {
  }
}
