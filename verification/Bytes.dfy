/** Byte strings and their hexadecimal rendering. */
module Bytes {

  type Byte = x: int | 0 <= x < 256
  type Octets = seq<Byte>

  const DIGITS := "0123456789abcdef"

  function Hex(s: Octets): string {
    if |s| == 0 then "" else Hex(s[..|s| - 1]) + [DIGITS[s[|s| - 1] / 16], DIGITS[s[|s| - 1] % 16]]
  }

  lemma {:induction false} HexInjective(a: Octets, b: Octets)
    requires Hex(a) == Hex(b)
    ensures a == b
  {
    HexLength(a);
    HexLength(b);
    if |a| > 0 {
      var m, n := |a| - 1, Hex(a);
      assert n[..|n| - 2] == Hex(a[..m]) && n[..|n| - 2] == Hex(b[..m]);
      HexInjective(a[..m], b[..m]);
      assert n[|n| - 2..] == [DIGITS[a[m] / 16], DIGITS[a[m] % 16]] == [DIGITS[b[m] / 16], DIGITS[b[m] % 16]];
      DigitInjective(a[m] / 16, b[m] / 16);
      DigitInjective(a[m] % 16, b[m] % 16);
      assert a == a[..m] + [a[m]] && b == b[..m] + [b[m]];
    }
  }

  lemma DigitInjective(i: nat, j: nat)
    requires i < 16 && j < 16 && DIGITS[i] == DIGITS[j]
    ensures i == j
  {
  }

  lemma {:induction false} HexLength(s: Octets)
    ensures |Hex(s)| == 2 * |s|
  {
    if |s| > 0 { HexLength(s[..|s| - 1]); }
  }
}
