/** The string form of a store-assigned identifier. A MongoDB ObjectId is
    twelve bytes and `str()` prints it as 24 lower-case hexadecimal digits;
    the model keeps identifiers as natural numbers and prints them the same
    way (padded to 24 digits, and wider only for numbers that do not fit in
    twelve bytes). */
module ObjectIds {

  /** Hexadecimal digits in `str(ObjectId)`: two per byte of a 12-byte id. */
  const Width: nat := 24

  function Pow16(k: nat): (p: nat)
    ensures p >= 1
  {
    if k == 0 then 1 else 16 * Pow16(k - 1)
  }

  predicate IsHexDigit(c: char)
  {
    '0' <= c <= '9' || 'a' <= c <= 'f'
  }

  function HexDigit(d: nat): (c: char)
    requires d < 16
    ensures IsHexDigit(c)
  {
    if d < 10 then ('0' as int + d) as char else ('a' as int + d - 10) as char
  }

  function DigitValue(c: char): (d: nat)
    requires IsHexDigit(c)
    ensures d < 16
    ensures HexDigit(d) == c
  {
    if c <= '9' then c as int - '0' as int else c as int - 'a' as int + 10
  }

  /** `n` in lower-case hexadecimal, padded with leading zeros to at least
      `width` digits. */
  function ToHex(n: nat, width: nat): (s: string)
    ensures |s| >= width
    ensures forall i | 0 <= i < |s| :: IsHexDigit(s[i])
    decreases n + width
  {
    if n == 0 && width == 0 then []
    else ToHex(n / 16, if width == 0 then 0 else width - 1) + [HexDigit(n % 16)]
  }

  /** The number a string of hexadecimal digits denotes. */
  function FromHex(s: string): nat
    requires forall i | 0 <= i < |s| :: IsHexDigit(s[i])
  {
    if s == [] then 0 else FromHex(s[..|s| - 1]) * 16 + DigitValue(s[|s| - 1])
  }

  /** Reading the printed digits back gives the number that was printed. */
  lemma {:induction false} HexRoundTrip(n: nat, width: nat)
    ensures FromHex(ToHex(n, width)) == n
    decreases n + width
  {
    if n == 0 && width == 0 {
    } else {
      var w := if width == 0 then 0 else width - 1;
      var s := ToHex(n, width);
      assert s[..|s| - 1] == ToHex(n / 16, w);
      assert DigitValue(HexDigit(n % 16)) == n % 16 by {
        assert HexDigit(DigitValue(HexDigit(n % 16))) == HexDigit(n % 16);
      }
      HexRoundTrip(n / 16, w);
    }
  }

  /** A number below 16^width prints in exactly `width` digits. */
  lemma {:induction false} HexWidth(n: nat, width: nat)
    requires n < Pow16(width)
    ensures |ToHex(n, width)| == width
    decreases width
  {
    if width > 0 {
      assert n / 16 < Pow16(width - 1);
      HexWidth(n / 16, width - 1);
    }
  }

  /** `str(ObjectId)`: the identifier as it is returned to clients. */
  function Text(id: nat): (s: string)
    ensures |s| >= Width
    ensures forall i | 0 <= i < |s| :: IsHexDigit(s[i])
  {
    ToHex(id, Width)
  }

  /** Identifiers of twelve bytes print as exactly 24 hexadecimal digits. */
  lemma TextLength(id: nat)
    requires id < Pow16(Width)
    ensures |Text(id)| == Width
  {
    HexWidth(id, Width);
  }

  /** Distinct identifiers never print the same: the string form is as
      good a key as the identifier itself. */
  lemma TextInjective(a: nat, b: nat)
    requires Text(a) == Text(b)
    ensures a == b
  {
    HexRoundTrip(a, Width);
    HexRoundTrip(b, Width);
  }
}
