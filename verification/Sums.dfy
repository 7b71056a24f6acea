/** Finite sums over sequences and maps, and floor division, as the other modules use them. */
module Sums {

  function Sum(s: seq<nat>): (t: nat) {
    if |s| == 0 then 0 else Sum(s[..|s| - 1]) + s[|s| - 1]
  }

  lemma {:induction false} SumPrefix(s: seq<nat>, k: nat)
    requires k < |s|
    ensures Sum(s[..k + 1]) == Sum(s[..k]) + s[k]
  {
    assert s[..k + 1][..k] == s[..k];
  }

  lemma SumWhole(s: seq<nat>)
    ensures Sum(s[..|s|]) == Sum(s)
  {
    assert s[..|s|] == s;
  }

  lemma {:induction false} SumConcat(a: seq<nat>, b: seq<nat>)
    ensures Sum(a + b) == Sum(a) + Sum(b)
  {
    if |b| == 0 {
      assert a + b == a;
    } else {
      var b' := b[..|b| - 1];
      assert (a + b)[..|a + b| - 1] == a + b';
      SumConcat(a, b');
    }
  }

  lemma {:induction false} SumLe(a: seq<nat>, b: seq<nat>)
    requires |a| == |b|
    requires forall i :: 0 <= i < |a| ==> a[i] <= b[i]
    ensures Sum(a) <= Sum(b)
  {
    if |a| > 0 {
      SumLe(a[..|a| - 1], b[..|b| - 1]);
    }
  }

  lemma {:induction false} SumMember(s: seq<nat>, k: nat)
    requires k < |s|
    ensures s[k] <= Sum(s)
  {
    if k < |s| - 1 {
      SumMember(s[..|s| - 1], k);
    }
  }

  /** Summing position by position. */
  lemma {:induction false} SumAdd(a: seq<nat>, b: seq<nat>, c: seq<nat>)
    requires |a| == |b| == |c|
    requires forall i :: 0 <= i < |a| ==> c[i] == a[i] + b[i]
    ensures Sum(c) == Sum(a) + Sum(b)
  {
    if |a| > 0 {
      var n := |a| - 1;
      SumAdd(a[..n], b[..n], c[..n]);
    }
  }

  lemma {:induction false} SumZero(s: seq<nat>)
    requires forall i :: 0 <= i < |s| ==> s[i] == 0
    ensures Sum(s) == 0
  {
    if |s| > 0 {
      SumZero(s[..|s| - 1]);
    }
  }

  lemma {:induction false} SumBounded(s: seq<nat>, b: nat)
    requires forall i :: 0 <= i < |s| ==> s[i] < b
    ensures Sum(s) <= |s| * b
    ensures |s| > 0 ==> Sum(s) < |s| * b
  {
    if |s| > 0 {
      SumBounded(s[..|s| - 1], b);
      assert (|s| - 1) * b + b == |s| * b;
    }
  }

  lemma {:induction false} SumScaled(s: seq<nat>, x: nat, t: seq<nat>)
    requires |s| == |t|
    requires forall i :: 0 <= i < |s| ==> t[i] == x * s[i]
    ensures Sum(t) == x * Sum(s)
  {
    if |s| > 0 {
      var n := |s| - 1;
      SumScaled(s[..n], x, t[..n]);
      assert x * (Sum(s[..n]) + s[n]) == x * Sum(s[..n]) + x * s[n];
    }
  }

  // ---- sums over finite maps -------------------------------------------------

  ghost function MapSum<K(!new)>(m: map<K, nat>): (t: nat)
    decreases |m|
  {
    if |m| == 0 then 0 else
      var k :| k in m;
      m[k] + MapSum(m - {k})
  }

  lemma MapSumEmpty<K(!new)>()
    ensures MapSum<K>(map[]) == 0
  {
  }

  lemma MapSumUnfold<K(!new)>(m: map<K, nat>) returns (k: K)
    requires |m| > 0
    ensures k in m && MapSum(m) == m[k] + MapSum(m - {k})
  {
    k :| k in m && MapSum(m) == m[k] + MapSum(m - {k});
  }

  lemma RemoveSwap<K(!new)>(m: map<K, nat>, j: K, k: K)
    ensures m - {j} - {k} == m - {k} - {j}
  {
  }

  /** Which key is taken out first does not matter. */
  lemma {:induction false} MapSumRemove<K(!new)>(m: map<K, nat>, k: K)
    requires k in m
    ensures MapSum(m) == m[k] + MapSum(m - {k})
    decreases |m|
  {
    var j := MapSumUnfold(m);
    if j != k {
      assert k in m - {j} && (m - {j})[k] == m[k];
      assert j in m - {k} && (m - {k})[j] == m[j];
      MapSumRemove(m - {j}, k);
      MapSumRemove(m - {k}, j);
      RemoveSwap(m, j, k);
    }
  }

  lemma MapSumPut<K(!new)>(m: map<K, nat>, k: K, x: nat)
    ensures MapSum(m[k := x]) == MapSum(m) - (if k in m then m[k] else 0) + x
  {
    var m' := m[k := x];
    MapSumRemove(m', k);
    if k in m {
      MapSumRemove(m, k);
      assert m' - {k} == m - {k};
    } else {
      assert m' - {k} == m;
    }
  }

  lemma MapSumMember<K(!new)>(m: map<K, nat>, k: K)
    requires k in m
    ensures m[k] <= MapSum(m)
  {
    MapSumRemove(m, k);
  }

  lemma {:induction false} MapSumLe<K(!new)>(a: map<K, nat>, b: map<K, nat>)
    requires forall k :: k in a ==> k in b && a[k] <= b[k]
    ensures MapSum(a) <= MapSum(b)
    decreases |a|
  {
    if |a| > 0 {
      var k :| k in a;
      MapSumRemove(a, k);
      MapSumRemove(b, k);
      MapSumLe(a - {k}, b - {k});
    }
  }

  lemma {:induction false} MapSumZero<K(!new)>(m: map<K, nat>)
    requires forall k :: k in m ==> m[k] == 0
    ensures MapSum(m) == 0
    decreases |m|
  {
    if |m| > 0 {
      var k :| k in m;
      MapSumRemove(m, k);
      MapSumZero(m - {k});
    }
  }

  // ---- floor division --------------------------------------------------------

  lemma DivBounds(a: int, d: int)
    requires d > 0
    ensures d * (a / d) <= a < d * (a / d) + d
  {
  }

  lemma MulLe(a: int, b: int, d: int)
    requires a <= b && 0 <= d
    ensures d * a <= d * b
    ensures a * d <= b * d
  {
    assert 0 <= (b - a) * d;
    assert (b - a) * d == b * d - a * d;
  }

  lemma MulLt(a: int, b: int, d: int)
    requires a < b && 0 < d
    ensures d * a < d * b
    ensures a * d < b * d
  {
    MulLe(a + 1, b, d);
    assert d * (a + 1) == d * a + d;
    assert (a + 1) * d == a * d + d;
  }

  lemma MulCancel(d: int, x: int, y: int)
    requires 0 < d && d * x < d * y
    ensures x < y
  {
    if y <= x {
      MulLe(y, x, d);
    }
  }

  lemma DivUnique(a: int, d: int, q: int)
    requires d > 0
    requires d * q <= a < d * q + d
    ensures a / d == q
  {
    var e := a / d;
    DivBounds(a, d);
    assert d * (e + 1) == d * e + d && d * (q + 1) == d * q + d;
    MulCancel(d, q, e + 1);
    MulCancel(d, e, q + 1);
  }

  /** Division is monotone in the dividend. */
  lemma DivLe(a: int, b: int, d: int)
    requires a <= b && 0 < d
    ensures a / d <= b / d
  {
    DivBounds(a, d);
    DivBounds(b, d);
    assert d * (b / d + 1) == d * (b / d) + d;
    MulCancel(d, a / d, b / d + 1);
  }

  /** Cancelling a bound through a multiplication: d*q <= a gives q <= a / d. */
  lemma DivGe(a: int, d: int, q: int)
    requires 0 < d && d * q <= a
    ensures q <= a / d
  {
    DivBounds(a, d);
    assert d * (a / d + 1) == d * (a / d) + d;
    MulCancel(d, q, a / d + 1);
  }

  lemma DivLtFromMul(a: int, d: int, q: int)
    requires 0 < d && a < d * q
    ensures a / d < q
  {
    DivBounds(a, d);
    MulCancel(d, a / d, q);
  }

  /** Whole multiples pass through the floor. */
  lemma DivShift(a: int, k: int, d: int)
    requires 0 < d
    ensures (a + d * k) / d == a / d + k
  {
    DivBounds(a, d);
    assert d * (a / d + k) == d * (a / d) + d * k;
    DivUnique(a + d * k, d, a / d + k);
  }

  lemma MulPos(a: int, b: int)
    requires 0 < a && 0 < b
    ensures 0 < a * b
  {
    MulLt(0, a, b);
  }

  lemma MulNonNeg(a: int, b: int)
    requires 0 <= a && 0 <= b
    ensures 0 <= a * b
  {
    MulLe(0, a, b);
  }

  function Quot(a: nat, d: nat): nat
    requires 0 < d
  {
    DivGe(a, d, 0);
    a / d
  }

  /** floor(a * b / d): the product is exact, only the quotient is floored. */
  function MulDiv(a: nat, b: nat, d: nat): nat
    requires 0 < d
  {
    MulNonNeg(a, b);
    a * b / d
  }

  lemma MulDivBounds(a: nat, b: nat, d: nat)
    requires 0 < d
    ensures d * MulDiv(a, b, d) <= a * b < d * MulDiv(a, b, d) + d
  {
    DivBounds(a * b, d);
  }

  /** A part times a share of at most the whole stays at most the part. */
  lemma ShareLe(v: nat, b: nat, t: nat)
    requires 0 < t && b <= t
    ensures MulDiv(v, b, t) <= v
  {
    MulLe(b, t, v);
    DivLe(v * b, v * t, t);
    DivUnique(v * t, t, v);
  }

  lemma ShareMono(v: nat, w: nat, b: nat, t: nat)
    requires 0 < t && v <= w
    ensures MulDiv(v, b, t) <= MulDiv(w, b, t)
  {
    MulLe(v, w, b);
    DivLe(v * b, w * b, t);
  }
}
