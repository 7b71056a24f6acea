/** Big-endian integers: minimal unsigned, fixed width, and minimal two's complement. */
module Integers {
  import opened Bytes
  import opened Options
  import opened Sums

  function Pow256(k: nat): (p: nat)
    ensures p > 0
  {
    if k == 0 then 1 else 256 * Pow256(k - 1)
  }

  function Value(b: Octets): nat {
    if |b| == 0 then 0 else 256 * Value(b[..|b| - 1]) + b[|b| - 1]
  }

  /** The shortest big-endian form of a positive number; nothing for zero. */
  function Digits(n: nat): Octets {
    if n == 0 then [] else Digits(n / 256) + [n % 256]
  }

  lemma {:induction false} ValueOfDigits(n: nat)
    ensures Value(Digits(n)) == n && (n > 0 ==> |Digits(n)| > 0 && Digits(n)[0] != 0)
  {
    if n > 0 {
      ValueOfDigits(n / 256);
      var d := Digits(n / 256);
      assert (d + [n % 256])[..|d|] == d;
    }
  }

  lemma {:induction false} ValueRange(b: Octets)
    ensures Value(b) < Pow256(|b|)
  {
    if |b| > 0 { ValueRange(b[..|b| - 1]); }
  }

  /** A number's value by its leading byte. */
  lemma {:induction false} ValueLead(b: Octets)
    requires |b| > 0
    ensures Value(b) == b[0] as int * Pow256(|b| - 1) + Value(b[1..])
    ensures b[0] as int * Pow256(|b| - 1) <= Value(b) < (b[0] as int + 1) * Pow256(|b| - 1)
  {
    var n := |b| - 1;
    if n == 0 {
      assert b[..0] == [] && b[1..] == [];
    } else {
      ValueLead(b[..n]);
      assert b[1..][..n - 1] == b[..n][1..] && b[1..][n - 1] == b[n];
      LeadStep(b[0], Pow256(n - 1), Value(b[..n][1..]), b[n]);
    }
    ValueRange(b[1..]);
    assert (b[0] as int + 1) * Pow256(n) == b[0] as int * Pow256(n) + Pow256(n);
  }

  lemma LeadStep(x: nat, p: nat, v: nat, d: nat)
    ensures 256 * (x * p + v) + d == x * (256 * p) + (256 * v + d)
  {
    assert x * (256 * p) == 256 * (x * p);
  }

  lemma {:induction false} DigitsOfValue(b: Octets)
    requires |b| == 0 || b[0] != 0
    ensures Digits(Value(b)) == b
  {
    if |b| > 0 {
      var n := |b| - 1;
      DigitsOfValue(b[..n]);
      ValueLead(b);
      MulPos(b[0], Pow256(n));
      assert b == b[..n] + [b[n]];
    }
  }

  lemma LeadingZero(b: Octets)
    ensures Value([0] + b) == Value(b)
  {
    ValueLead([0] + b);
    assert ([0] + b)[1..] == b;
  }

  // ---- minimal unsigned -------------------------------------------------------------------------

  function EncodeUint(n: nat): Octets { if n == 0 then [0] else Digits(n) }

  predicate MinimalUint(b: Octets) { |b| > 0 && (b[0] == 0 ==> |b| == 1) }

  function DecodeUint(b: Octets): Option<nat> { if MinimalUint(b) then Some(Value(b)) else None }

  /** Minimal unsigned integers: every number has one form and nothing else decodes. */
  lemma UintBijection(n: nat, b: Octets)
    ensures DecodeUint(EncodeUint(n)) == Some(n)
    ensures DecodeUint(b).Some? ==> EncodeUint(DecodeUint(b).value) == b
  {
    ValueOfDigits(n);
    assert Value([0]) == 0;
    if MinimalUint(b) {
      ValueLead(b);
      if b[0] == 0 {
        assert b[1..] == [];
      } else {
        DigitsOfValue(b);
        MulPos(b[0], Pow256(|b| - 1));
      }
    }
  }

  // ---- fixed width --------------------------------------------------------------------------------

  /** `k` big-endian bytes, as a machine word is written. */
  function Fixed(k: nat, n: nat): (b: Octets)
    ensures |b| == k
  {
    if k == 0 then [] else Fixed(k - 1, n / 256) + [n % 256]
  }

  lemma {:induction false} FixedValue(k: nat, n: nat)
    requires n < Pow256(k)
    ensures Value(Fixed(k, n)) == n
  {
    if k > 0 {
      assert n / 256 < Pow256(k - 1);
      FixedValue(k - 1, n / 256);
      var f := Fixed(k - 1, n / 256);
      assert (f + [n % 256])[..|f|] == f;
    }
  }

  /** Fixed-width bytes are the bytes of their value. */
  lemma {:induction false} FixedBack(b: Octets)
    ensures Fixed(|b|, Value(b)) == b
  {
    if |b| > 0 {
      var q, d := Value(b[..|b| - 1]), b[|b| - 1];
      assert (256 * q + d) / 256 == q && (256 * q + d) % 256 == d;
      FixedBack(b[..|b| - 1]);
      assert b == b[..|b| - 1] + [b[|b| - 1]];
    }
  }

  lemma FixedInjective(k: nat, a: nat, b: nat)
    requires a < Pow256(k) && b < Pow256(k) && Fixed(k, a) == Fixed(k, b)
    ensures a == b
  {
    FixedValue(k, a);
    FixedValue(k, b);
  }

  // ---- minimal two's complement --------------------------------------------------------------------

  /** 2^(8k - 1): a `k`-byte number is negative from here on. */
  function Half(k: nat): nat
    requires k > 0
  {
    128 * Pow256(k - 1)
  }

  lemma HalfDoubles(k: nat)
    requires k > 0
    ensures 2 * Half(k) == Pow256(k) && (k > 1 ==> Half(k) == 256 * Half(k - 1) && Half(k - 1) < Half(k))
  {
  }

  /** The least width at or above `k` that holds the negative number `n`. */
  function WidthFrom(n: int, k: nat): (w: nat)
    requires n < 0 && k > 0
    ensures w >= k && -(Half(w) as int) <= n
    ensures w > k ==> n < -(Half(w - 1) as int)
    decreases -n - Half(k)
  {
    HalfDoubles(k + 1);
    if -(Half(k) as int) <= n then k else WidthFrom(n, k + 1)
  }

  function EncodeSint(n: int): Octets {
    if n == 0 then [0]
    else if n > 0 then
      ValueOfDigits(n);
      if Digits(n)[0] >= 128 then [0] + Digits(n) else Digits(n)
    else
      var k := WidthFrom(n, 1);
      HalfDoubles(k);
      Digits(Pow256(k) + n)
  }

  function DecodeSint(b: Octets): Option<int> {
    if |b| == 0 then None
    else if |b| >= 2 && ((b[0] == 0 && b[1] < 128) || (b[0] == 255 && b[1] >= 128)) then None
    else if b[0] >= 128 then Some(Value(b) - Pow256(|b|))
    else Some(Value(b))
  }

  /** The leading bit says which half of the range a value is in. */
  lemma TopBit(b: Octets)
    requires |b| > 0
    ensures b[0] >= 128 <==> Value(b) >= Half(|b|)
  {
    ValueLead(b);
    var p := Pow256(|b| - 1);
    if b[0] >= 128 { MulLe(128, b[0], p); } else { MulLe(b[0] as int + 1, 128, p); }
  }

  lemma {:induction false} DigitsLength(n: nat, k: nat)
    requires k > 0 && Pow256(k - 1) <= n < Pow256(k)
    ensures |Digits(n)| == k
  {
    if k > 1 {
      assert Pow256(k - 1) == 256 * Pow256(k - 2) && Pow256(k) == 256 * Pow256(k - 1);
      DigitsLength(n / 256, k - 1);
    } else {
      assert Pow256(1) == 256 * Pow256(0);
      assert Digits(n / 256) == [];
    }
  }

  /** The bytes of a negative number: exactly the searched width, with the top bit set. */
  lemma NegativeBytes(n: int)
    requires n < 0
    ensures var k, b := WidthFrom(n, 1), EncodeSint(n);
            |b| == k && Value(b) == Pow256(k) + n && b[0] >= 128
  {
    var k := WidthFrom(n, 1);
    HalfDoubles(k);
    var m := Pow256(k) + n;
    assert Pow256(k - 1) <= Half(k) <= m < Pow256(k);
    DigitsLength(m, k);
    ValueOfDigits(m);
    TopBit(Digits(m));
  }

  lemma TwoLead(b: Octets)
    requires |b| >= 2
    ensures Value(b) == b[0] as int * Pow256(|b| - 1) + Value(b[1..])
    ensures b[1] >= 128 <==> Value(b[1..]) >= Half(|b| - 1)
    ensures Value(b[1..]) < Pow256(|b| - 1)
  {
    ValueLead(b);
    TopBit(b[1..]);
    ValueRange(b[1..]);
  }

  lemma DecodeEncoded(n: int)
    ensures DecodeSint(EncodeSint(n)) == Some(n)
  {
    var b := EncodeSint(n);
    if n == 0 {
      assert Value([0]) == 0;
    } else if n > 0 {
      ValueOfDigits(n);
      var d := Digits(n);
      LeadingZero(d);
      if d[0] >= 128 { assert b[1] == d[0]; }
    } else {
      NegativeBytes(n);
      if |b| >= 2 {
        TwoLead(b);
        HalfDoubles(|b|);
        NotRedundant(b[0], Pow256(|b| - 1), Value(b[1..]), Half(|b| - 1), n, Pow256(|b|));
      }
    }
  }

  /** A number too small for one byte less does not start with a redundant sign byte. */
  lemma NotRedundant(x: nat, p: nat, v: nat, h: nat, n: int, w: nat)
    requires x * p + v == w + n && w == 256 * p && p == 2 * h && n < -(h as int)
    ensures x == 255 ==> v < h
  {
  }

  lemma EncodeDecoded(b: Octets)
    requires DecodeSint(b).Some?
    ensures EncodeSint(DecodeSint(b).value) == b
  {
    TopBit(b);
    ValueLead(b);
    if b[0] < 128 {
      PositiveBack(b);
    } else {
      var n, k := Value(b) - Pow256(|b|), |b|;
      ValueRange(b);
      HalfDoubles(k);
      if k >= 2 {
        TwoLead(b);
        HalfDoubles(k - 1);
        TooWide(b[0], Pow256(k - 1), Value(b[1..]), Half(k - 1), n, Pow256(k), b[1] as int);
      }
      WidthIs(n, 1, k);
      DigitsOfValue(b);
    }
  }

  lemma PositiveBack(b: Octets)
    requires DecodeSint(b) == Some(Value(b)) && |b| > 0 && b[0] < 128
    ensures EncodeSint(Value(b)) == b
  {
    ValueLead(b);
    if b[0] != 0 {
      DigitsOfValue(b);
      MulPos(b[0], Pow256(|b| - 1));
    } else if |b| == 1 {
      assert b[1..] == [];
    } else {
      assert b == [0] + b[1..];
      LeadingZero(b[1..]);
      DigitsOfValue(b[1..]);
      ValueLead(b[1..]);
      MulPos(b[1], Pow256(|b| - 2));
    }
  }

  lemma TooWide(x: nat, p: nat, v: nat, h: nat, n: int, w: nat, second: int)
    requires x < 256 && x * p + v == w + n && w == 256 * p && p == 2 * h && v < p
    requires x == 255 ==> second < 128
    requires second >= 128 <==> v >= h
    ensures n < -(h as int)
  {
    if x < 255 {
      MulLe(x, 254, p);
    }
  }

  /** The width search stops at `k` exactly when `k` holds the number and `k - 1` does not. */
  lemma {:induction false} WidthIs(n: int, j: nat, k: nat)
    requires n < 0 && 0 < j <= k && -(Half(k) as int) <= n && (k > 1 ==> n < -(Half(k - 1) as int))
    ensures WidthFrom(n, j) == k
    decreases k - j
  {
    if j < k {
      HalfGrows(j, k - 1);
      HalfDoubles(j + 1);
      WidthIs(n, j + 1, k);
    }
  }

  lemma {:induction false} HalfGrows(j: nat, k: nat)
    requires 0 < j <= k
    ensures Half(j) <= Half(k)
    decreases k
  {
    if j < k {
      HalfDoubles(k);
      HalfGrows(j, k - 1);
    }
  }

  /** Minimal signed integers are a bijection between the integers and the accepted byte strings, and
      the width search ends at the unique minimal width. */
  lemma SintBijection(n: int, b: Octets)
    ensures DecodeSint(EncodeSint(n)) == Some(n)
    ensures DecodeSint(b).Some? ==> EncodeSint(DecodeSint(b).value) == b
    ensures n < 0 ==> forall k: nat :: k > 0 ==>
              (-(Half(k) as int) <= n && (k > 1 ==> n < -(Half(k - 1) as int)) <==> k == |EncodeSint(n)|)
  {
    DecodeEncoded(n);
    if DecodeSint(b).Some? { EncodeDecoded(b); }
    if n < 0 {
      NegativeBytes(n);
      forall k: nat | k > 0 && -(Half(k) as int) <= n && (k > 1 ==> n < -(Half(k - 1) as int)) ensures k == |EncodeSint(n)| {
        WidthIs(n, 1, k);
      }
    }
  }

  /** The negative branch's search. The padding to `k` bytes that follows it never runs: the bytes are
      already that many. */
  method EncodeNegative(n: int) returns (out: Octets)
    requires n < 0
    ensures out == EncodeSint(n) && DecodeSint(out) == Some(n)
  {
    var k := 1;
    NegativeBytes(n);
    DecodeEncoded(n);
    while n < -(Half(k) as int)
      invariant 0 < k <= WidthFrom(n, 1) == WidthFrom(n, k)
      decreases WidthFrom(n, 1) - k
    {
      k := k + 1;
    }
    HalfDoubles(k);
    out := Digits(Pow256(k) + n);
    assert |out| == k;
  }
}
