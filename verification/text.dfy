/** String helpers shared by the report formatting, the date formatting and the client's
    error messages: Python's `s * n`, `sep.join(parts)` and `str()` of an integer. */
module Text {

  /** Python's `s * n`: `n` copies of `s`, and the empty string when `n` is not positive. */
  function Repeat(s: string, n: int): (r: string)
    ensures |r| == if n <= 0 then 0 else n * |s|
    decreases if n <= 0 then 0 else n
  {
    if n <= 0 then "" else s + Repeat(s, n - 1)
  }

  /** A repeated single character is that character at every position. */
  lemma {:induction false} RepeatChar(c: char, n: int)
    ensures |Repeat([c], n)| == if n <= 0 then 0 else n
    ensures forall i :: 0 <= i < |Repeat([c], n)| ==> Repeat([c], n)[i] == c
    decreases if n <= 0 then 0 else n
  {
    if n > 0 {
      RepeatChar(c, n - 1);
    }
  }

  /** Python's `sep.join(parts)`. */
  function Join(parts: seq<string>, sep: string): string
  {
    if parts == [] then ""
    else if |parts| == 1 then parts[0]
    else Join(parts[..|parts| - 1], sep) + sep + parts[|parts| - 1]
  }

  predicate IsDigit(c: char) { '0' <= c <= '9' }

  function DigitChar(d: int): (c: char)
    requires 0 <= d < 10
    ensures IsDigit(c) && c as int - '0' as int == d
  {
    ('0' as int + d) as char
  }

  /** `str(n)` for a non-negative integer: its decimal digits, most significant first. */
  function NatDecimal(n: nat): (s: string)
    ensures 1 <= |s|
    ensures forall i :: 0 <= i < |s| ==> IsDigit(s[i])
  {
    if n < 10 then [DigitChar(n)] else NatDecimal(n / 10) + [DigitChar(n % 10)]
  }

  /** `str(n)` for any integer. */
  function IntDecimal(n: int): (s: string)
    ensures 1 <= |s|
  {
    if n < 0 then "-" + NatDecimal(-n) else NatDecimal(n)
  }

  /** The number a string of decimal digits denotes (leading zeros allowed). */
  function DecimalValue(s: string): nat
    requires forall i :: 0 <= i < |s| ==> IsDigit(s[i])
  {
    if s == [] then 0
    else
      assert IsDigit(s[|s| - 1]);
      DecimalValue(s[..|s| - 1]) * 10 + (s[|s| - 1] as int - '0' as int)
  }

  /** Reading back the digits `str` wrote gives the number. */
  lemma {:induction false} NatDecimalRoundTrip(n: nat)
    ensures DecimalValue(NatDecimal(n)) == n
  {
    if n >= 10 {
      NatDecimalRoundTrip(n / 10);
      var s := NatDecimal(n);
      assert s[..|s| - 1] == NatDecimal(n / 10);
    }
  }

  /** A number written with at least `width` digits, padded on the left with zeros, as the
      date formatter's `DD`, `MM` and `YYYY` tokens write it. */
  function ZeroPad(n: nat, width: nat): (s: string)
    ensures |s| == if |NatDecimal(n)| < width then width else |NatDecimal(n)|
    ensures forall i :: 0 <= i < |s| ==> IsDigit(s[i])
    ensures DecimalValue(s) == n
  {
    var digits := NatDecimal(n);
    RepeatChar('0', width - |digits|);
    NatDecimalRoundTrip(n);
    LeadingZeros(Repeat("0", width - |digits|), digits);
    Repeat("0", width - |digits|) + digits
  }

  /** Leading zeros do not change the number a string of digits denotes. */
  lemma {:induction false} LeadingZeros(z: string, t: string)
    requires forall i :: 0 <= i < |z| ==> z[i] == '0'
    requires forall i :: 0 <= i < |t| ==> IsDigit(t[i])
    ensures forall i :: 0 <= i < |z + t| ==> IsDigit((z + t)[i])
    ensures DecimalValue(z + t) == DecimalValue(t)
    decreases |z| + |t|
  {
    if t == [] {
      assert z + t == z;
      if z != [] {
        var p := z[..|z| - 1];
        LeadingZeros(p, []);
        assert p + [] == p;
      }
    } else {
      var u := z + t;
      assert u[..|u| - 1] == z + t[..|t| - 1];
      LeadingZeros(z, t[..|t| - 1]);
    }
  }

  /** `str(n)` has at most two digits below 100 and at most four below 10000, the widths of
      the date formatter's tokens. */
  lemma {:induction false} NatDecimalShort(n: nat)
    ensures n < 10 ==> |NatDecimal(n)| == 1
    ensures n < 100 ==> |NatDecimal(n)| <= 2
    ensures n < 1000 ==> |NatDecimal(n)| <= 3
    ensures n < 10000 ==> |NatDecimal(n)| <= 4
  {
    if n >= 10 {
      NatDecimalShort(n / 10);
    }
  }
}
