/** The few pieces of Python's `str` behaviour the core relies on. */
module Strings {

  /** `str.isspace()`: the characters `str.split()`, `str.strip()` and the regular expression
      class `\s` treat as whitespace. */
  predicate IsSpace(c: char)
  {
    var k := c as int;
    (9 <= k <= 13) || k == 32 || (28 <= k <= 31) || k == 0x85 || k == 0xA0 || k == 0x1680
    || (0x2000 <= k <= 0x200A) || k == 0x2028 || k == 0x2029 || k == 0x202F || k == 0x205F
    || k == 0x3000
  }

  predicate IsDigit(c: char)
  {
    '0' <= c <= '9'
  }

  function DigitChar(d: nat): (c: char)
    requires d < 10
    ensures IsDigit(c)
  {
    ('0' as int + d) as char
  }

  /** Decimal digits of a natural number, most significant first, no leading zeros. */
  function NatDecimal(n: nat): (r: string)
    ensures |r| >= 1
    ensures n >= 10 <==> |r| >= 2
    ensures forall i :: 0 <= i < |r| ==> IsDigit(r[i])
    decreases n
  {
    if n < 10 then [DigitChar(n)] else NatDecimal(n / 10) + [DigitChar(n % 10)]
  }

  /** `str(n)` for a Python `int`. */
  function Decimal(n: int): string
  {
    if n < 0 then "-" + NatDecimal(-n) else NatDecimal(n)
  }

  /** Distinct naturals print differently. */
  lemma {:induction false} NatDecimalInjective(a: nat, b: nat)
    requires NatDecimal(a) == NatDecimal(b)
    ensures a == b
    decreases a
  {
    var ra, rb := NatDecimal(a), NatDecimal(b);
    if a >= 10 && b >= 10 {
      assert NatDecimal(a / 10) == ra[..|ra| - 1] == rb[..|rb| - 1] == NatDecimal(b / 10);
      NatDecimalInjective(a / 10, b / 10);
      assert a % 10 == ra[|ra| - 1] as int - '0' as int == b % 10;
    }
  }

  /** `str(n)` never contains a colon, and distinct integers print differently. */
  lemma DecimalInjective(a: int, b: int)
    ensures ':' !in Decimal(a)
    ensures Decimal(a) == Decimal(b) ==> a == b
  {
    var ra := Decimal(a);
    assert forall i :: 0 <= i < |ra| ==> ra[i] == '-' || IsDigit(ra[i]);
    if ra == Decimal(b) {
      var rb := Decimal(b);
      assert (a < 0) == (ra[0] == '-');
      assert (b < 0) == (rb[0] == '-');
      if a < 0 {
        assert NatDecimal(-a) == ra[1..] == NatDecimal(-b);
        NatDecimalInjective(-a, -b);
      } else {
        NatDecimalInjective(a, b);
      }
    }
  }

  /** `sep.join(items)`. */
  function Join(items: seq<string>, sep: string): (r: string)
    ensures items == [] ==> r == ""
    ensures |items| == 1 ==> r == items[0]
  {
    if items == [] then ""
    else if |items| == 1 then items[0]
    else items[0] + sep + Join(items[1..], sep)
  }

  /** Every character is whitespace (vacuously so for the empty string). */
  predicate AllSpace(s: string)
  {
    forall i :: 0 <= i < |s| ==> IsSpace(s[i])
  }

  function TrimStart(s: string): (r: string)
    ensures |r| <= |s| && r == s[|s| - |r|..]
    ensures r == "" <==> AllSpace(s)
    ensures r != "" ==> !IsSpace(r[0])
  {
    if s != "" && IsSpace(s[0]) then TrimStart(s[1..]) else s
  }

  function TrimEnd(s: string): (r: string)
    ensures |r| <= |s| && r == s[..|r|]
    ensures r == "" <==> AllSpace(s)
    ensures r != "" ==> !IsSpace(r[|r| - 1])
  {
    if s != "" && IsSpace(s[|s| - 1]) then TrimEnd(s[..|s| - 1]) else s
  }

  /** `s.strip()`: `s` without its leading and trailing whitespace. It is empty exactly when `s`
      is all whitespace. */
  function Strip(s: string): (r: string)
    ensures r == "" <==> AllSpace(s)
    ensures r != "" ==> !IsSpace(r[0]) && !IsSpace(r[|r| - 1])
  {
    TrimEnd(TrimStart(s))
  }
}
