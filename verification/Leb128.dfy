/** Canonical unsigned LEB128 (DWARF 5, section 7.6), restricted to minimal encodings of values up to
    2^32 - 1. */
module Leb128 {
  import opened Bytes

  const MAX: nat := 0xFFFF_FFFF

  datatype LebError = TooLarge | Overlong | Truncated
  datatype Result<+T> = Ok(value: T) | Err(error: LebError)

  function Encode(n: nat): (b: Octets)
    ensures |b| > 0
  {
    if n < 128 then [n] else [n % 128 + 128] + Encode(n / 128)
  }

  /** Decode the groups from the `d`-th on. */
  function Groups(b: Octets, d: nat): (r: Result<(nat, nat)>)
    ensures r.Ok? ==> 0 < r.value.1 <= |b|
  {
    if |b| == 0 then Err(Truncated)
    else if d >= 5 then Err(TooLarge)
    else if b[0] < 128 then
      if d > 0 && b[0] == 0 then Err(Overlong) else Ok((b[0], 1))
    else
      match Groups(b[1..], d + 1)
      case Ok((v, k)) => Ok((b[0] as int - 128 + 128 * v, k + 1))
      case Err(e) => Err(e)
  }

  /** The value and the number of bytes taken from the front of `b`. */
  function Decode(b: Octets): (r: Result<(nat, nat)>)
    ensures r.Ok? ==> 0 < r.value.1 <= |b|
  {
    match Groups(b, 0)
    case Ok((v, k)) => if v > MAX then Err(TooLarge) else Ok((v, k))
    case Err(e) => Err(e)
  }

  function Pow128(k: nat): nat { if k == 0 then 1 else 128 * Pow128(k - 1) }

  lemma {:induction false} EncodedLength(n: nat, k: nat)
    requires k > 0 && n < Pow128(k)
    ensures |Encode(n)| <= k
    decreases k
  {
    assert Pow128(1) == 128 * Pow128(0);
    if n >= 128 {
      assert n / 128 < Pow128(k - 1);
      EncodedLength(n / 128, k - 1);
    }
  }

  lemma {:induction false} GroupsOfEncoded(n: nat, rest: Octets, d: nat)
    requires d + |Encode(n)| <= 5 && (d > 0 ==> n > 0)
    ensures Groups(Encode(n) + rest, d) == Ok((n, |Encode(n)|))
  {
    var b := Encode(n) + rest;
    if n >= 128 {
      assert b[1..] == Encode(n / 128) + rest;
      GroupsOfEncoded(n / 128, rest, d + 1);
    }
  }

  lemma {:induction false} EncodedGroups(b: Octets, d: nat)
    requires Groups(b, d).Ok?
    ensures var (v, k) := Groups(b, d).value;
            Encode(v) == b[..k] && (d > 0 ==> v > 0) && d + k <= 5
  {
    if b[0] >= 128 {
      EncodedGroups(b[1..], d + 1);
      var (v, k) := Groups(b[1..], d + 1).value;
      assert b[..k + 1] == [b[0]] + b[1..][..k];
    } else {
      assert b[..1] == [b[0]];
    }
  }

  /** Encoding and decoding are mutual inverses on the domain, whatever follows in the buffer. */
  lemma RoundTrip(n: nat, rest: Octets)
    ensures n <= MAX <==> Decode(Encode(n) + rest) == Ok((n, |Encode(n)|))
    ensures n <= MAX ==> |Encode(n)| <= 5
  {
    if n <= MAX {
      assert Pow128(5) == 128 * (128 * (128 * (128 * (128 * 1)))) by { Powers(); }
      EncodedLength(n, 5);
      GroupsOfEncoded(n, rest, 0);
    }
  }

  lemma Powers()
    ensures Pow128(5) == 34_359_738_368
  {
    assert Pow128(1) == 128 && Pow128(2) == 16_384 && Pow128(3) == 2_097_152 && Pow128(4) == 268_435_456;
  }

  /** Every accepted byte string is the encoding of its value: no second form is accepted. */
  lemma Canonical(b: Octets)
    requires Decode(b).Ok?
    ensures var (n, k) := Decode(b).value; n <= MAX && Encode(n) == b[..k]
  {
    EncodedGroups(b, 0);
  }

  // ---- the loops ------------------------------------------------------------------------------

  /** Push the groups low first, each but the last with its continuation bit. */
  method EncodeInto(n: nat, out: Octets) returns (out': Octets)
    ensures out' == out + Encode(n)
  {
    var v := n;
    out' := out;
    while v >= 128
      invariant out + Encode(n) == out' + Encode(v)
    {
      assert out' + Encode(v) == (out' + [v % 128 + 128]) + Encode(v / 128);
      out' := out' + [v % 128 + 128];
      v := v / 128;
    }
    out' := out' + [v];
  }

  /** Accumulate seven bits a byte, low group first. */
  method DecodeLoop(b: Octets) returns (r: Result<(nat, nat)>)
    ensures r == Decode(b)
  {
    var result, i := 0, 0;
    assert b[0..] == b;
    while i < |b|
      invariant i <= |b| && i <= 5
      invariant var rest := Groups(b[i..], i);
                Groups(b, 0) == if rest.Ok? then Ok((result + Pow128(i) * rest.value.0, i + rest.value.1)) else Err(rest.error)
    {
      if i >= 5 { return Err(TooLarge); }
      var low := b[i] % 128;
      assert b[i..][1..] == b[i + 1..];
      if b[i] < 128 {
        if i > 0 && low == 0 { return Err(Overlong); }
        result := result + Pow128(i) * low;
        if result > MAX { return Err(TooLarge); }
        return Ok((result, i + 1));
      }
      Weighted(Pow128(i), low, b, i);
      result := result + Pow128(i) * low;
      i := i + 1;
    }
    return Err(Truncated);
  }

  lemma Weighted(p: nat, low: nat, b: Octets, i: nat)
    requires i < |b| && b[i] >= 128 && low == b[i] as int - 128 && p == Pow128(i)
    ensures Groups(b[i + 1..], i + 1).Ok? ==>
              var v := Groups(b[i + 1..], i + 1).value.0;
              p * (low + 128 * v) == p * low + Pow128(i + 1) * v
  {
    if Groups(b[i + 1..], i + 1).Ok? {
      var v := Groups(b[i + 1..], i + 1).value.0;
      assert Pow128(i + 1) == 128 * p;
      Distribute(p, low, v);
    }
  }

  lemma Distribute(p: nat, low: nat, v: nat)
    ensures p * (low + 128 * v) == p * low + (128 * p) * v
  {
    assert p * (128 * v) == (128 * p) * v;
  }
}
