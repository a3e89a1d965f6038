/**
 * The few pieces of Python's text behaviour the call manager relies on:
 * `str(n)` of an integer, the 32-digit lower-case hex of a UUID
 * (`'%032x' % uuid.int`), and `str.lower` restricted to ASCII letters.
 */
module Text {

  predicate IsDigit(c: char) { '0' <= c <= '9' }

  predicate IsLowerHex(c: char) { IsDigit(c) || 'a' <= c <= 'f' }

  predicate AllDigits(s: string) { forall i :: 0 <= i < |s| ==> IsDigit(s[i]) }

  predicate AllLowerHex(s: string) { forall i :: 0 <= i < |s| ==> IsLowerHex(s[i]) }

  function DigitChar(d: nat): (c: char)
    requires d < 10
    ensures IsDigit(c) && c as int - '0' as int == d
  {
    ('0' as int + d) as char
  }

  function DigitValue(c: char): (d: nat)
    requires IsDigit(c)
    ensures d < 10 && DigitChar(d) == c
  {
    c as int - '0' as int
  }

  // ---------------------------------------------------------------- decimals

  /** `str(n)` for a non-negative integer: its decimal digits, without leading zeros. */
  function NatToDecimal(n: nat): (s: string)
    ensures 0 < |s| && AllDigits(s)
    ensures s[0] == '0' ==> n == 0
    decreases n
  {
    if n < 10 then [DigitChar(n)] else NatToDecimal(n / 10) + [DigitChar(n % 10)]
  }

  /** The value of a string of decimal digits (the inverse of `NatToDecimal`). */
  function DecimalValue(s: string): nat
    requires AllDigits(s)
  {
    if s == [] then 0 else DecimalValue(s[..|s| - 1]) * 10 + DigitValue(s[|s| - 1])
  }

  lemma {:induction false} DecimalRoundTrip(n: nat)
    ensures DecimalValue(NatToDecimal(n)) == n
    decreases n
  {
    if n >= 10 {
      var s := NatToDecimal(n);
      assert s[..|s| - 1] == NatToDecimal(n / 10);
      DecimalRoundTrip(n / 10);
    }
  }

  /** Python's `str(i)` for any integer: a `-` before the digits of a negative value. */
  function IntToDecimal(i: int): string
  {
    if i < 0 then "-" + NatToDecimal(-i) else NatToDecimal(i)
  }

  predicate IsIntText(s: string)
  {
    if 0 < |s| && s[0] == '-' then 1 < |s| && AllDigits(s[1..]) else AllDigits(s)
  }

  /** Python's `int(s)` on the texts `IntToDecimal` produces. */
  function ParseInt(s: string): int
    requires IsIntText(s)
  {
    if 0 < |s| && s[0] == '-' then -(DecimalValue(s[1..]) as int) else DecimalValue(s)
  }

  lemma IntToDecimalRoundTrip(i: int)
    ensures IsIntText(IntToDecimal(i)) && ParseInt(IntToDecimal(i)) == i
  {
    var s := IntToDecimal(i);
    if i < 0 {
      assert s[1..] == NatToDecimal(-i);
      DecimalRoundTrip(-i);
    } else {
      DecimalRoundTrip(i);
    }
  }

  lemma IntToDecimalInjective(i: int, j: int)
    ensures IntToDecimal(i) == IntToDecimal(j) ==> i == j
  {
    IntToDecimalRoundTrip(i);
    IntToDecimalRoundTrip(j);
  }

  // --------------------------------------------------------------------- hex

  function Pow16(n: nat): (p: nat)
    ensures 1 <= p
  {
    if n == 0 then 1 else 16 * Pow16(n - 1)
  }

  lemma {:induction false} Pow16Add(a: nat, b: nat)
    ensures Pow16(a + b) == Pow16(a) * Pow16(b)
    decreases a
  {
    if a > 0 {
      Pow16Add(a - 1, b);
    }
  }

  function HexDigitChar(d: nat): (c: char)
    requires d < 16
    ensures IsLowerHex(c)
  {
    if d < 10 then DigitChar(d) else ('a' as int + d - 10) as char
  }

  function HexDigitValue(c: char): (d: nat)
    requires IsLowerHex(c)
    ensures d < 16 && HexDigitChar(d) == c
  {
    if IsDigit(c) then DigitValue(c) else c as int - 'a' as int + 10
  }

  /**
   * The `width` lowest hex digits of `u`, most significant first, padded with
   * zeros (Python's `'%0*x' % (width, u)` when `u` fits in `width` digits).
   */
  function HexFixed(u: nat, width: nat): (s: string)
    ensures |s| == width && AllLowerHex(s)
    decreases width
  {
    if width == 0 then [] else HexFixed(u / 16, width - 1) + [HexDigitChar(u % 16)]
  }

  /** The value of a string of lower-case hex digits (the inverse of `HexFixed`). */
  function HexValue(s: string): nat
    requires AllLowerHex(s)
  {
    if s == [] then 0 else HexValue(s[..|s| - 1]) * 16 + HexDigitValue(s[|s| - 1])
  }

  lemma {:induction false} HexRoundTrip(u: nat, width: nat)
    requires u < Pow16(width)
    ensures HexValue(HexFixed(u, width)) == u
    decreases width
  {
    if width > 0 {
      var s := HexFixed(u, width);
      assert s[..|s| - 1] == HexFixed(u / 16, width - 1);
      assert u / 16 < Pow16(width - 1);
      HexRoundTrip(u / 16, width - 1);
    }
  }

  // --------------------------------------------------------------- lowercase

  /** `str.lower` on one character, for the ASCII letters. */
  function LowerChar(c: char): char
  {
    if 'A' <= c <= 'Z' then (c as int - 'A' as int + 'a' as int) as char else c
  }

  function Lower(s: string): string
  {
    if s == [] then [] else [LowerChar(s[0])] + Lower(s[1..])
  }

  /** `s` spells "true" in any mix of upper and lower case. */
  predicate SpellsTrueIgnoringCase(s: string)
  {
    |s| == 4 && s[0] in "tT" && s[1] in "rR" && s[2] in "uU" && s[3] in "eE"
  }

  lemma {:induction false} LowerLength(s: string)
    ensures |Lower(s)| == |s| && forall i :: 0 <= i < |s| ==> Lower(s)[i] == LowerChar(s[i])
  {
    if s != [] {
      LowerLength(s[1..]);
    }
  }

  /** `s.lower() == "true"` holds exactly for the case variants of "true". */
  lemma LowerIsTrue(s: string)
    ensures Lower(s) == "true" <==> SpellsTrueIgnoringCase(s)
  {
    LowerLength(s);
    if SpellsTrueIgnoringCase(s) {
      assert Lower(s) == "true";
    }
    if Lower(s) == "true" {
      assert LowerChar(s[0]) == 't' && LowerChar(s[1]) == 'r';
      assert LowerChar(s[2]) == 'u' && LowerChar(s[3]) == 'e';
    }
  }
}
