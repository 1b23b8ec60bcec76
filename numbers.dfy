/** Python's `int()` on a run of ASCII digits and `str()` on an integer, the
    two conversions the transcoder applies to raster sizes and repeat counts. */
module Numbers {
  import opened Scan

  function DigitValue(c: char): nat
    requires IsDigit(c)
  {
    c as int - '0' as int
  }

  function DigitChar(d: nat): (c: char)
    requires d < 10
    ensures IsDigit(c) && DigitValue(c) == d
  {
    ('0' as int + d) as char
  }

  /** `int(s)` for a string of ASCII digits; leading zeros are allowed. */
  function Decimal(s: string): nat
    requires AllDigits(s)
    decreases |s|
  {
    if s == [] then 0 else Decimal(s[..|s| - 1]) * 10 + DigitValue(s[|s| - 1])
  }

  /** `str(n)` for a natural number: decimal digits, most significant
      first. */
  function NatToString(n: nat): (s: string)
    ensures |s| >= 1 && AllDigits(s)
    decreases n
  {
    if n < 10 then [DigitChar(n)] else NatToString(n / 10) + [DigitChar(n % 10)]
  }

  /** `int()` reads `str(n)` back as `n`, and `str(n)` has no leading zero. */
  lemma {:induction false} NatToStringReadsBack(n: nat)
    ensures Decimal(NatToString(n)) == n
    ensures NatToString(n)[0] == '0' ==> n == 0
    decreases n
  {
    if n >= 10 {
      NatToStringReadsBack(n / 10);
      var s := NatToString(n);
      assert s[..|s| - 1] == NatToString(n / 10);
    }
  }

  /** `str(n)` for any integer: a minus sign before the digits of `-n` when
      `n` is negative. It never contains ';', so it is always one field. */
  function IntToString(n: int): (s: string)
    ensures |s| >= 1 && ';' !in s
    ensures s[0] == '-' <==> n < 0
  {
    if n >= 0 then NatToString(n) else "-" + NatToString(-n)
  }

  /** `int()` reads `str(n)` back: the digits after any minus sign are
      those of `|n|`. */
  lemma IntToStringReadsBack(n: int)
    ensures n >= 0 ==> AllDigits(IntToString(n)) && Decimal(IntToString(n)) == n
    ensures n < 0 ==> AllDigits(IntToString(n)[1..]) && Decimal(IntToString(n)[1..]) == -n
  {
    if n >= 0 {
      NatToStringReadsBack(n);
    } else {
      NatToStringReadsBack(-n);
      assert IntToString(n)[1..] == NatToString(-n);
    }
  }
}
