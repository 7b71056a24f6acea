/** F7 settlement arithmetic: the fixed-width division of one round and its attribution to roles.

    A 256-bit or 512-bit machine word is a subset type of `nat`, so every conversion into one is a
    proof obligation: the width analysis the code relies on is discharged by the verifier. */
module F7 {
  import opened Options
  import opened Sums

  const TWO_64: nat := 0x1_0000_0000_0000_0000
  const TWO_128: nat := 0x1_0000_0000_0000_0000_0000_0000_0000_0000
  const TWO_256: nat := TWO_128 * TWO_128
  const TWO_512: nat := TWO_256 * TWO_256
  const BP_DENOM: nat := 10_000
  const MAX_ROLES: nat := 64

  type U128 = x: nat | x < TWO_128
  type U256 = x: nat | x < TWO_256
  type U512 = x: nat | x < TWO_512

  datatype F7Error = ArithmeticDomain | InconsistentProposal
  datatype Result<+T> = Ok(value: T) | Err(error: F7Error)
  datatype RawRate = RawRate(p: nat, q: nat)
  type Rate = r: RawRate | 1 <= r.p < TWO_64 && 1 <= r.q < TWO_64 witness RawRate(1, 1)
  const UNITY: Rate := RawRate(1, 1)

  // ---- word operations ---------------------------------------------------------

  function SatAdd(a: U256, b: U256): U256 {
    if a + b < TWO_256 then a + b else TWO_256 - 1
  }

  function SatSub(a: nat, b: nat): nat {
    if b <= a then a - b else 0
  }

  function SatMul(a: U256, b: U256): U256 {
    if a * b < TWO_256 then a * b else TWO_256 - 1
  }

  function CheckedMul(a: U256, b: U256): Option<U256> {
    if a * b < TWO_256 then Some(a * b) else None
  }

  /** Keep the low 256 bits. The code asserts that the dropped limbs are zero; here that assertion
      is the precondition, so no caller can reach it. */
  function Narrow(big: U512): (r: U256)
    requires big < TWO_256
    ensures r == big
  {
    big % TWO_256
  }

  lemma WideProduct(a: U256, b: U256)
    ensures a * b < TWO_512
  {
    MulLe(a, TWO_256 - 1, b);
    MulLt(b, TWO_256, TWO_256);
    assert (TWO_256 - 1) * b <= TWO_256 * b by { MulLe(TWO_256 - 1, TWO_256, b); }
  }

  /** The left fold with saturating addition. */
  function SatSum(s: seq<U256>): U256 {
    if |s| == 0 then 0 else SatAdd(SatSum(s[..|s| - 1]), s[|s| - 1])
  }

  predicate InDomain(nR: seq<U256>) {
    |nR| <= MAX_ROLES && forall i :: 0 <= i < |nR| ==> nR[i] < TWO_128
  }

  lemma {:induction false} SatSumExact(s: seq<U256>)
    requires Sum(s) < TWO_256
    ensures SatSum(s) == Sum(s)
  {
    if |s| > 0 {
      SatSumExact(s[..|s| - 1]);
    }
  }

  /** In domain the sum of the numerators stays below 2^134, so it never saturates. */
  lemma DomainSum(nR: seq<U256>)
    requires InDomain(nR)
    ensures Sum(nR) <= 64 * TWO_128
    ensures SatSum(nR) == Sum(nR)
  {
    SumBounded(nR, TWO_128);
    MulLe(|nR|, 64, TWO_128);
    SatSumExact(nR);
  }

  // ---- F7.2 division -----------------------------------------------------------

  /** q * 10000, the divisor of F7.2. */
  function Denominator(rate: Rate): (d: nat)
    ensures 0 < d
  {
    MulPos(rate.q, BP_DENOM);
    rate.q * BP_DENOM
  }

  function ComputeP(n: U256, rate: Rate): Result<U256> {
    match CheckedMul(n, rate.p)
    case None => Err(ArithmeticDomain)
    case Some(numer) =>
      var p := Quot(numer, Denominator(rate));
      if p >= TWO_128 then Err(ArithmeticDomain) else Ok(p)
  }

  function ComputeE(pPaid: U256, rate: Rate): Result<U256> {
    match CheckedMul(pPaid, rate.q)
    case None => Err(ArithmeticDomain)
    case Some(x) =>
      match CheckedMul(x, BP_DENOM)
      case None => Err(ArithmeticDomain)
      case Some(numer) =>
        ShareBound(numer, rate.p);
        Ok(numer / rate.p)
  }

  lemma ShareBound(a: nat, d: nat)
    requires d > 0
    ensures a / d <= a
  {
    MulLe(1, d, a);
    DivLe(a, a * d, d);
    DivUnique(a * d, d, a);
  }

  /** The exact quotients P = floor(N*p / (q*10000)) and E = floor(P*q*10000 / p). */
  function Payment(n: nat, rate: Rate): nat { MulDiv(n, rate.p, Denominator(rate)) }

  function Extinguished(p: nat, rate: Rate): nat { MulDiv(p, Denominator(rate), rate.p) }

  /** What a payment covers never exceeds what was outstanding. */
  lemma ExtinguishedLe(n: nat, rate: Rate)
    ensures Extinguished(Payment(n, rate), rate) <= n
  {
    var d, p := Denominator(rate), Payment(n, rate);
    MulDivBounds(n, rate.p, d);
    DivLe(p * d, n * rate.p, rate.p);
    DivUnique(n * rate.p, rate.p, n);
  }

  /** For in-domain numerators the checked product never overflows: the only way the aggregate can
      be refused is the output bound P < 2^128. */
  lemma ComputePExact(n: U256, rate: Rate)
    requires n <= 64 * TWO_128
    ensures ComputeP(n, rate) == if Payment(n, rate) < TWO_128 then Ok(Payment(n, rate)) else Err(ArithmeticDomain)
  {
    MulLe(n, 64 * TWO_128, rate.p);
    MulLe(rate.p, TWO_64, 64 * TWO_128);
  }

  /** Once P < 2^128 is known, no checked product on the way to E can overflow. */
  lemma ComputeEExact(p: U256, rate: Rate)
    requires p < TWO_128
    ensures ComputeE(p, rate) == Ok(Extinguished(p, rate))
  {
    MulLe(p, TWO_128, rate.q);
    MulLe(rate.q, TWO_64, TWO_128);
    assert p * rate.q * BP_DENOM == p * Denominator(rate);
  }

  // ---- F7-c attribution in closed form ------------------------------------------

  function Floors(e: nat, nR: seq<nat>, n: nat): seq<nat>
    requires n > 0
  {
    seq(|nR|, i requires 0 <= i < |nR| => MulDiv(e, nR[i], n))
  }

  /** How many of the first `k` roles have something outstanding. */
  function Positives(nR: seq<nat>, k: nat): (c: nat)
    requires k <= |nR|
    ensures c <= k
  {
    if k == 0 then 0 else Positives(nR, k - 1) + (if nR[k - 1] > 0 then 1 else 0)
  }

  lemma {:induction false} PositivesMono(nR: seq<nat>, j: nat, k: nat)
    requires j <= k <= |nR|
    ensures Positives(nR, j) <= Positives(nR, k)
    decreases k
  {
    if j < k {
      PositivesMono(nR, j, k - 1);
    }
  }

  function Shortfall(e: nat, nR: seq<nat>): int
    requires Sum(nR) > 0
  {
    e - Sum(Floors(e, nR, Sum(nR)))
  }

  /** E_r = floor(E*N_r/N), plus one unit for exactly the first `Shortfall` roles with N_r > 0. */
  function Attribution(e: nat, nR: seq<nat>): (eR: seq<nat>)
    ensures |eR| == |nR|
  {
    var n := Sum(nR);
    if n == 0 then seq(|nR|, i => 0)
    else
      seq(|nR|, i requires 0 <= i < |nR| =>
        MulDiv(e, nR[i], n) + (if nR[i] > 0 && Positives(nR, i) < Shortfall(e, nR) then 1 else 0))
  }

  lemma {:induction false} FloorsPrefix(e: nat, nR: seq<nat>, n: nat, k: nat)
    requires n > 0 && k <= |nR|
    ensures n * Sum(Floors(e, nR, n)[..k]) <= e * Sum(nR[..k])
    ensures e * Sum(nR[..k]) <= n * Sum(Floors(e, nR, n)[..k]) + (n - 1) * Positives(nR, k)
  {
    var f := Floors(e, nR, n);
    if k == 0 {
      assert f[..0] == [] && nR[..0] == [];
    } else {
      FloorsPrefix(e, nR, n, k - 1);
      SumPrefix(f, k - 1);
      SumPrefix(nR, k - 1);
      MulDivBounds(e, nR[k - 1], n);
      FloorStep(n, e, Sum(f[..k - 1]), Sum(nR[..k - 1]), f[k - 1], nR[k - 1], Positives(nR, k - 1));
    }
  }

  lemma FloorStep(n: nat, e: nat, a: nat, b: nat, x: nat, y: nat, p: nat)
    requires n > 0
    requires n * a <= e * b <= n * a + (n - 1) * p
    requires n * x <= e * y < n * x + n
    ensures n * (a + x) <= e * (b + y) <= n * (a + x) + (n - 1) * (p + (if y > 0 then 1 else 0))
  {
    assert n * (a + x) == n * a + n * x;
    assert e * (b + y) == e * b + e * y;
    assert (n - 1) * (p + 1) == (n - 1) * p + (n - 1);
    if y == 0 {
      assert e * y == 0;
    }
  }

  lemma ShortfallArithmetic(n: nat, e: nat, sf: nat, pos: nat)
    requires n > 0 && n * sf <= e * n <= n * sf + (n - 1) * pos
    ensures sf <= e
    ensures e > sf ==> e - sf < pos
  {
    assert n * e == e * n && n * (e + 1) == n * e + n;
    MulCancel(n, sf, e + 1);
    var s := e - sf;
    assert n * s == n * e - n * sf && n * s == (n - 1) * s + s;
    if 0 < s && pos <= s {
      MulLe(pos, s, n - 1);
    }
  }

  /** The floors never overshoot, and what they leave is less than one unit per positive role:
      a single ascending sweep places the whole shortfall. */
  lemma ShortfallBound(e: nat, nR: seq<nat>)
    requires Sum(nR) > 0 && e <= Sum(nR)
    ensures 0 <= Shortfall(e, nR)
    ensures Shortfall(e, nR) > 0 ==> Shortfall(e, nR) < Positives(nR, |nR|) && e < Sum(nR)
  {
    var n := Sum(nR);
    var f := Floors(e, nR, n);
    FloorsPrefix(e, nR, n, |nR|);
    SumWhole(nR);
    SumWhole(f);
    ShortfallArithmetic(n, e, Sum(f), Positives(nR, |nR|));
    if e == n {
      forall i | 0 <= i < |nR| ensures f[i] == nR[i] {
        DivUnique(e * nR[i], n, nR[i]);
      }
      assert f == nR;
    }
  }

  /** A role is below its cap after flooring exactly when it has something outstanding. */
  lemma FloorBelowCap(e: nat, nR: seq<nat>, i: nat)
    requires i < |nR| && Sum(nR) > 0 && e <= Sum(nR)
    ensures MulDiv(e, nR[i], Sum(nR)) <= nR[i]
    ensures e < Sum(nR) ==> (MulDiv(e, nR[i], Sum(nR)) < nR[i] <==> nR[i] > 0)
  {
    var n := Sum(nR);
    MulLe(e, n, nR[i]);
    DivLe(e * nR[i], n * nR[i], n);
    DivUnique(n * nR[i], n, nR[i]);
    if e < n && nR[i] > 0 {
      MulLt(e, n, nR[i]);
      DivLtFromMul(e * nR[i], n, nR[i]);
    }
  }

  lemma {:induction false} AttributionPrefix(e: nat, nR: seq<nat>, k: nat)
    requires k <= |nR| && Sum(nR) > 0 && e <= Sum(nR)
    ensures var s := Shortfall(e, nR);
            var p := Positives(nR, k);
            Sum(Attribution(e, nR)[..k]) == Sum(Floors(e, nR, Sum(nR))[..k]) + (if p < s then p else s)
  {
    ShortfallBound(e, nR);
    var a, f := Attribution(e, nR), Floors(e, nR, Sum(nR));
    if k == 0 {
      assert a[..0] == [] && f[..0] == [];
    } else {
      AttributionPrefix(e, nR, k - 1);
      SumPrefix(a, k - 1);
      SumPrefix(f, k - 1);
    }
  }

  /** Attribution conserves the round total and never exceeds a role's outstanding numerator. */
  lemma AttributionConserves(e: nat, nR: seq<nat>)
    requires e <= Sum(nR)
    ensures Sum(Attribution(e, nR)) == e
    ensures forall i :: 0 <= i < |nR| ==> Attribution(e, nR)[i] <= nR[i]
  {
    var a := Attribution(e, nR);
    if Sum(nR) == 0 {
      SumZero(a);
    } else {
      ShortfallBound(e, nR);
      AttributionPrefix(e, nR, |nR|);
      SumWhole(a);
      SumWhole(Floors(e, nR, Sum(nR)));
      forall i | 0 <= i < |nR| ensures a[i] <= nR[i] {
        FloorBelowCap(e, nR, i);
      }
    }
  }

  /** E*N_r / N per role: the product needs 512 bits, the quotient narrows losslessly. */
  method FloorShares(e: U256, nR: seq<U256>, n: U256) returns (eR: seq<U256>)
    requires n > 0 && e <= n == Sum(nR)
    ensures eR == Floors(e, nR, n)
  {
    eR := [];
    for i := 0 to |nR|
      invariant |eR| == i && forall j :: 0 <= j < i ==> eR[j] == MulDiv(e, nR[j], n)
    {
      WideProduct(e, nR[i]);
      MulNonNeg(e, nR[i]);
      var prod: U512 := e * nR[i];
      FloorBelowCap(e, nR, i);
      ShareBound(prod, n);
      eR := eR + [Narrow(Quot(prod, n))];
    }
  }

  /** How a role ends up: its floor, plus one unit for the first `s` roles with N_r > 0. */
  ghost predicate Placed(floors: seq<nat>, nR: seq<nat>, s: nat, done: seq<nat>) {
    && |floors| == |nR| == |done|
    && (forall i {:trigger done[i]} :: 0 <= i < |nR| ==> done[i] == floors[i] + if nR[i] > 0 && Positives(nR, i) < s then 1 else 0)
    && (s > 0 ==> s < Positives(nR, |nR|))
    && (s > 0 ==> forall i {:trigger floors[i]} :: 0 <= i < |nR| ==> (floors[i] < nR[i] <==> nR[i] > 0))
  }

  /** One ascending sweep: a unit for each role below its cap until the shortfall is placed. */
  method Sweep(floors: seq<nat>, nR: seq<U256>, s: nat, ghost done: seq<nat>)
    returns (eR: seq<nat>, shortfall: nat, progressed: bool)
    requires Placed(floors, nR, s, done) && s > 0
    ensures eR == done && shortfall == 0 && progressed
  {
    eR, shortfall, progressed := floors, s, false;
    var i := 0;
    while i < |eR| && shortfall != 0
      invariant 0 <= i <= |eR| == |nR|
      invariant forall j {:trigger eR[j]} :: 0 <= j < |nR| ==> eR[j] == if j < i then done[j] else floors[j]
      invariant shortfall == if Positives(nR, i) < s then s - Positives(nR, i) else 0
      invariant progressed <==> Positives(nR, i) > 0
    {
      if eR[i] < nR[i] {
        eR := eR[i := eR[i] + 1];
        shortfall := shortfall - 1;
        progressed := true;
      }
      i := i + 1;
    }
    SweepDone(floors, nR, s, done, i);
    assert eR == done;
  }

  lemma SweepDone(floors: seq<nat>, nR: seq<nat>, s: nat, done: seq<nat>, i: nat)
    requires Placed(floors, nR, s, done) && i <= |nR|
    requires s <= Positives(nR, i)
    ensures forall j :: i <= j < |nR| ==> floors[j] == done[j]
  {
    forall j | i <= j < |nR| ensures floors[j] == done[j] {
      PositivesMono(nR, i, j);
    }
  }

  /** The shortfall after flooring, swept until it is placed. */
  method PlaceShortfall(floors: seq<nat>, nR: seq<U256>, s: nat, ghost done: seq<nat>) returns (r: Result<seq<nat>>)
    requires Placed(floors, nR, s, done)
    ensures r == Ok(done)
  {
    var eR, shortfall := floors, s;
    if s == 0 { assert floors == done; }
    while shortfall != 0
      invariant (0 < shortfall == s && eR == floors) || (shortfall == 0 && eR == done)
      decreases shortfall
    {
      var progressed;
      eR, shortfall, progressed := Sweep(eR, nR, shortfall, done);
      if !progressed { return Err(InconsistentProposal); }
    }
    return Ok(eR);
  }

  /** The per-role attribution as the code runs it. The sweep that makes no progress is unreachable,
      so the only refusals are the domain check and E > N. */
  method ExtinguishPerRole(e: U256, nR: seq<U256>) returns (r: Result<seq<nat>>)
    ensures r == if !InDomain(nR) then Err(ArithmeticDomain)
                 else if e > Sum(nR) then Err(InconsistentProposal)
                 else Ok(Attribution(e, nR))
  {
    if !InDomain(nR) { return Err(ArithmeticDomain); }
    DomainSum(nR);
    var n := SatSum(nR);
    if n == 0 {
      if e != 0 { return Err(InconsistentProposal); }
      return Ok(seq(|nR|, i => 0));
    }
    if e > n { return Err(InconsistentProposal); }
    var eR := FloorShares(e, nR, n);
    ShortfallBound(e, nR);
    SatSumExact(eR);
    forall i | 0 <= i < |nR| ensures e < n ==> (eR[i] < nR[i] <==> nR[i] > 0) {
      FloorBelowCap(e, nR, i);
    }
    r := PlaceShortfall(eR, nR, SatSub(e, SatSum(eR)), Attribution(e, nR));
  }

  // ---- one round -----------------------------------------------------------------

  datatype RoundDivision = RoundDivision(p: nat, e: nat, eR: seq<nat>, leg: bool)

  /** The meaning of one division: refused only outside the input domain or when P >= 2^128. */
  function Division(nR: seq<nat>, rate: Rate): Result<RoundDivision> {
    if !(|nR| <= MAX_ROLES && forall i :: 0 <= i < |nR| ==> nR[i] < TWO_128) then Err(ArithmeticDomain)
    else
      var p := Payment(Sum(nR), rate);
      if p >= TWO_128 then Err(ArithmeticDomain)
      else
        var e := Extinguished(p, rate);
        Ok(RoundDivision(p, e, Attribution(e, nR), e != 0))
  }

  /** The code's division, with every check it makes; only the domain errors can occur. */
  method DivideRound(nR: seq<U256>, rate: Rate) returns (r: Result<RoundDivision>)
    ensures r == Division(nR, rate)
  {
    if !InDomain(nR) { return Err(ArithmeticDomain); }
    DomainSum(nR);
    var n := SatSum(nR);
    ComputePExact(n, rate);
    match ComputeP(n, rate) {
      case Err(x) => return Err(x);
      case Ok(p) =>
        ComputeEExact(p, rate);
        ExtinguishedLe(n, rate);
        match ComputeE(p, rate) {
          case Err(x) => return Err(x);
          case Ok(e) =>
            if e > n { return Err(InconsistentProposal); }
            var eR := ExtinguishPerRole(e, nR);
            match eR {
              case Err(x) => return Err(x);
              case Ok(v) => return Ok(RoundDivision(p, e, v, e != 0));
            }
        }
    }
  }

  /** What a completed division guarantees, at any rate. */
  lemma DivisionConserves(nR: seq<nat>, rate: Rate)
    requires Division(nR, rate).Ok?
    ensures var d := Division(nR, rate).value;
            && Sum(d.eR) == d.e <= Sum(nR)
            && |d.eR| == |nR|
            && (forall i :: 0 <= i < |nR| ==> d.eR[i] <= nR[i])
            && d.p < TWO_128
            && (d.leg <==> d.e >= 1)
  {
    ExtinguishedLe(Sum(nR), rate);
    AttributionConserves(Division(nR, rate).value.e, nR);
  }

  /** At unity the payment covers exactly ten thousand numerator units each: E = 10000 * P. */
  lemma UnityDivision(nR: seq<nat>)
    requires Division(nR, UNITY).Ok?
    ensures var d := Division(nR, UNITY).value;
            d.p == Sum(nR) / BP_DENOM && d.e == BP_DENOM * d.p && (d.leg <==> d.p >= 1)
  {
    var n := Sum(nR);
    assert n * 1 == n;
    var p := n / BP_DENOM;
    assert Payment(n, UNITY) == p;
    assert p * 1 * BP_DENOM == BP_DENOM * p;
  }

  /** Outstanding numerators after a round. */
  function Remaining(nR: seq<nat>, eR: seq<nat>): (o: seq<nat>)
    requires |nR| == |eR| && forall i :: 0 <= i < |nR| ==> eR[i] <= nR[i]
    ensures |o| == |nR|
  {
    seq(|nR|, i requires 0 <= i < |nR| => nR[i] - eR[i])
  }

  lemma RemainingSum(nR: seq<nat>, eR: seq<nat>)
    requires |nR| == |eR| && forall i :: 0 <= i < |nR| ==> eR[i] <= nR[i]
    ensures Sum(Remaining(nR, eR)) + Sum(eR) == Sum(nR)
  {
    SumAdd(Remaining(nR, eR), eR, nR);
  }

  lemma RoundStaysInDomain(nR: seq<nat>, rate: Rate)
    requires Division(nR, rate).Ok?
    ensures var d := Division(nR, rate).value;
            && |d.eR| == |nR| && (forall i :: 0 <= i < |nR| ==> d.eR[i] <= nR[i])
            && Division(Remaining(nR, d.eR), rate).Ok?
            && Sum(Remaining(nR, d.eR)) == Sum(nR) - d.e
  {
    DivisionConserves(nR, rate);
    var d := Division(nR, rate).value;
    var o := Remaining(nR, d.eR);
    RemainingSum(nR, d.eR);
    ShareMono(Sum(o), Sum(nR), rate.p, Denominator(rate));
  }

  /** Settling round after round with no new accrual, until a round carries no leg. */
  ghost function SettleOut(nR: seq<nat>, rate: Rate): (res: (seq<nat>, nat))
    requires Division(nR, rate).Ok?
    decreases Sum(nR)
  {
    var d := Division(nR, rate).value;
    RoundStaysInDomain(nR, rate);
    if !d.leg then (nR, 0)
    else
      var rest := SettleOut(Remaining(nR, d.eR), rate);
      (rest.0, rest.1 + d.p)
  }

  /** Repeated rounds end: each leg strictly shrinks N, and the last state has E = 0 with no role
      ever driven below zero. */
  lemma {:induction false} RepeatedRoundsEnd(nR: seq<nat>, rate: Rate)
    requires Division(nR, rate).Ok?
    ensures var (last, paid) := SettleOut(nR, rate);
            && Division(last, rate).Ok? && Division(last, rate).value.e == 0
            && |last| == |nR| && (forall i :: 0 <= i < |nR| ==> last[i] <= nR[i])
            && (Division(nR, rate).value.leg ==> Sum(last) < Sum(nR))
    decreases Sum(nR)
  {
    var d := Division(nR, rate).value;
    RoundStaysInDomain(nR, rate);
    if d.leg {
      RepeatedRoundsEnd(Remaining(nR, d.eR), rate);
    }
  }

  /** At unity one round already settles everything settleable: the total paid is floor(N/10000)
      and less than one payable unit stays outstanding. */
  lemma UnityNeedsOneRound(nR: seq<nat>)
    requires Division(nR, UNITY).Ok?
    ensures var (last, paid) := SettleOut(nR, UNITY);
            paid == Sum(nR) / BP_DENOM && Sum(last) == Sum(nR) % BP_DENOM
  {
    var d := Division(nR, UNITY).value;
    UnityDivision(nR);
    RoundStaysInDomain(nR, UNITY);
    if d.leg {
      var o := Remaining(nR, d.eR);
      UnityDivision(o);
      assert Sum(o) == Sum(nR) % BP_DENOM;
      assert Division(o, UNITY).value.p == 0;
      assert SettleOut(o, UNITY) == (o, 0);
    }
  }

  // ---- F7.1 accrual --------------------------------------------------------------

  /** Accrue one amount into every role's numerator, in place. */
  method Accrue(accrued: array<U256>, bp: seq<nat>, amount: U128)
    requires accrued.Length == |bp|
    requires forall i :: 0 <= i < |bp| ==> bp[i] < 0x1_0000
    modifies accrued
    ensures forall i :: 0 <= i < |bp| ==> accrued[i] == SatAdd(old(accrued[i]), SatMul(amount, bp[i]))
  {
    for k := 0 to accrued.Length
      invariant forall i :: 0 <= i < k ==> accrued[i] == SatAdd(old(accrued[i]), SatMul(amount, bp[i]))
      invariant forall i :: k <= i < |bp| ==> accrued[i] == old(accrued[i])
    {
      accrued[k] := SatAdd(accrued[k], SatMul(amount, bp[k]));
    }
  }

  /** One role's numerator after a run of accepted amounts. */
  function AccrueAll(start: U256, bp: nat, amounts: seq<U128>): U256
    requires bp < 0x1_0000
  {
    if |amounts| == 0 then start
    else SatAdd(AccrueAll(start, bp, amounts[..|amounts| - 1]), SatMul(amounts[|amounts| - 1], bp))
  }

  /** While the exact numerator fits, accrual is exact and depends only on the total metered. */
  lemma {:induction false} AccrualIsLinear(start: U256, bp: nat, amounts: seq<U128>)
    requires bp < 0x1_0000
    requires start + bp * Sum(amounts) < TWO_256
    ensures AccrueAll(start, bp, amounts) == start + bp * Sum(amounts)
  {
    if |amounts| > 0 {
      var init, x := amounts[..|amounts| - 1], amounts[|amounts| - 1];
      LinearStep(start, bp, Sum(init), x);
      AccrualIsLinear(start, bp, init);
    }
  }

  lemma LinearStep(start: nat, bp: nat, a: nat, x: nat)
    ensures start + bp * (a + x) == (start + bp * a) + x * bp
    ensures 0 <= bp * a && 0 <= x * bp
  {
    MulNonNeg(bp, a);
    MulNonNeg(x, bp);
  }

  // ---- F7-d claimable --------------------------------------------------------------

  /** A destination's withdrawable amount. The narrowing is always in range, also for malformed shares. */
  function Claimable(v: U256, bpD: nat, bpTotal: nat, paid: U256): (c: nat)
    requires bpD < 0x1_0000_0000 && bpTotal < 0x1_0000_0000
    ensures c <= v
    ensures bpTotal > 0 && bpD <= bpTotal && paid <= MulDiv(v, bpD, bpTotal) ==> paid + c == MulDiv(v, bpD, bpTotal)
    ensures bpTotal == 0 || bpD > bpTotal ==> c == 0
  {
    if bpTotal == 0 || bpD > bpTotal then 0
    else
      WideProduct(v, bpD);
      ShareLe(v, bpD, bpTotal);
      SatSub(Narrow(MulDiv(v, bpD, bpTotal)), paid)
  }

  // ---- F6-f reconciliation ---------------------------------------------------------

  function MeedCarve(accruals: seq<nat>): nat { Sum(accruals) / BP_DENOM }

  function OutstandingMeedPerRole(accrued: seq<nat>, settled: seq<nat>): (r: Result<seq<nat>>)
    ensures r.Ok? <==> |accrued| == |settled| && forall i :: 0 <= i < |accrued| ==> settled[i] <= accrued[i]
    ensures r.Ok? ==> |r.value| == |accrued| && forall i :: 0 <= i < |accrued| ==> r.value[i] + settled[i] == accrued[i]
  {
    if |accrued| != |settled| then Err(InconsistentProposal)
    else if exists i :: 0 <= i < |accrued| && settled[i] > accrued[i] then Err(InconsistentProposal)
    else Ok(Remaining(accrued, settled))
  }

  function OutstandingMerchantNet(cum: nat, accruals: seq<nat>, netLegs: nat, funding: nat): nat {
    SatSub(SatSub(SatSub(cum, MeedCarve(accruals)), netLegs), funding)
  }

  function PrepayUnconsumedDeposit(funding: nat, cum: nat): Result<nat> {
    if cum > funding then Err(InconsistentProposal) else Ok(funding - cum)
  }

  /** A saturating sum is the sum, capped at the width. */
  lemma {:induction false} SatSumCapped(s: seq<U256>)
    ensures SatSum(s) == if Sum(s) < TWO_256 then Sum(s) else TWO_256 - 1
  {
    if |s| > 0 { SatSumCapped(s[..|s| - 1]); }
  }

  /** The carve as the code computes it, over a saturating sum; the carve of the true sum while that fits. */
  function CarveOf(accruals: seq<U256>): (c: U256)
    ensures Sum(accruals) < TWO_256 ==> c == MeedCarve(accruals)
  {
    SatSumCapped(accruals);
    DivLe(SatSum(accruals), TWO_256 - 1, BP_DENOM);
    ShareBound(SatSum(accruals), BP_DENOM);
    SatSum(accruals) / BP_DENOM
  }

  /** Refused exactly when more was extinguished than the capped sum of the accruals. */
  function CloseReversionCredit(accruals: seq<U256>, extinguishedSum: U256): (r: Result<U256>)
    ensures r.Ok? <==> extinguishedSum <= Sum(accruals)
    ensures r.Ok? ==> r.value + extinguishedSum / BP_DENOM == CarveOf(accruals)
  {
    SatSumCapped(accruals);
    if extinguishedSum > SatSum(accruals) then Err(InconsistentProposal)
    else
      DivLe(extinguishedSum, SatSum(accruals), BP_DENOM);
      Ok(CarveOf(accruals) - extinguishedSum / BP_DENOM)
  }

  const MAX_CARVE: nat := (TWO_256 - 1) / BP_DENOM

  /** Carving once on the cumulative takes at most one unit more than carving two segments apart, and never
      less if and only if the two carves together are still a carve that fits. */
  lemma CarveOnceDominates(a: seq<U256>, b: seq<U256>)
    ensures CarveOf(a + b) <= CarveOf(a) + CarveOf(b) + 1
    ensures CarveOf(a) + CarveOf(b) <= CarveOf(a + b) <==> CarveOf(a) + CarveOf(b) <= MAX_CARVE
    ensures Sum(a) + Sum(b) < TWO_256 ==> CarveOf(a) + CarveOf(b) <= MAX_CARVE
  {
    SumConcat(a, b);
    SatSumCapped(a);
    SatSumCapped(b);
    SatSumCapped(a + b);
    CarvesApart(SatSum(a), SatSum(b), TWO_256 - 1);
  }

  lemma CarvesApart(x: nat, y: nat, most: nat)
    ensures var z := if x + y <= most then x + y else most;
            && z / BP_DENOM <= x / BP_DENOM + y / BP_DENOM + 1
            && (x / BP_DENOM + y / BP_DENOM <= z / BP_DENOM <==> x / BP_DENOM + y / BP_DENOM <= most / BP_DENOM)
            && (x + y <= most ==> x / BP_DENOM + y / BP_DENOM <= most / BP_DENOM)
  {
  }

  /** Past the width the one carve is the smaller: two full sums carve twice what their sum does. */
  lemma FullCarves()
    ensures var full: seq<U256> := [TWO_256 - 1]; CarveOf(full) + CarveOf(full) == 2 * MAX_CARVE > CarveOf(full + full) == MAX_CARVE
  {
    var full: seq<U256> := [TWO_256 - 1];
    assert full[..0] == [] && Sum(full) == TWO_256 - 1;
    SumConcat(full, full);
    SatSumCapped(full);
    SatSumCapped(full + full);
  }
}
