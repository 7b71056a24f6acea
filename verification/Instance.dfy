/** The meed instance: purchase entries, claim records, running-V distribution and the per-channel
    watermarks (F4.2, F4.3, F6-o).

    A record id stands for the hash of its preimage, taken as injective, so it is the tuple of
    committed fields; module Derive proves that the byte preimages determine exactly those fields. */
module Instance {
  import opened Bytes
  import opened Sums

  const U16_MAX: nat := 0xFFFF
  const U64_MAX: nat := 0xFFFF_FFFF_FFFF_FFFF
  const U128_MAX: nat := 0xFFFF_FFFF_FFFF_FFFF_FFFF_FFFF_FFFF_FFFF

  type Address = string
  type Key = nat
  type Seed = Octets
  type Nonce = Octets
  datatype ChannelId = Cid(raw: nat)
  type CkptRef = nat

  datatype MeedShare = MeedShare(dest: Address, bp: nat)
  datatype Payout = Payout(dest: Address, amount: nat)

  datatype RecordId =
    | Purchase(seed: Seed, nonce: Nonce, amount: nat, tOpen: nat, tLapse: nat, contest: nat)
    | Claim(seed: Seed, channel: ChannelId, ckpt: CkptRef, p: nat)

  datatype EntryState = Funded | Attested | Cancelled | ReclaimOpen(openedAt: nat) | Reclaimed | Lapsed
  datatype Entry = Entry(nonce: Nonce, amount: nat, refundPtr: Address, tOpen: nat, tLapse: nat, contest: nat, state: EntryState)
  datatype EntryError = Duplicate | AlreadyLapsed | ZeroAmount | NotFound | Terminal | BadSignature | Window
  datatype Outcome<+T> = Success(value: T) | Failure(error: EntryError)

  datatype Kind = Attestation | Cancellation
  /** A signed message; it verifies under exactly the key that made it. */
  datatype Signed = Signed(kind: Kind, nonce: Nonce, entryId: RecordId, signer: Key)

  datatype Watermark = Watermark(funded: nat, paid: seq<nat>, residue: nat)

  datatype State = State(
    merchantKey: Key, seed: Seed, meed: seq<MeedShare>,
    entries: map<RecordId, Entry>, claims: set<RecordId>,
    v: nat, paid: seq<nat>, channels: map<ChannelId, Watermark>)

  // ---- aggregation by destination (F7.3) ------------------------------------------

  function SatAdd16(a: nat, b: nat): nat {
    if a + b <= U16_MAX then a + b else U16_MAX
  }

  function IndexOf(agg: seq<MeedShare>, d: Address): (i: int)
    ensures -1 <= i < |agg|
    ensures i >= 0 ==> agg[i].dest == d && forall j :: 0 <= j < i ==> agg[j].dest != d
    ensures i == -1 ==> forall j :: 0 <= j < |agg| ==> agg[j].dest != d
  {
    if |agg| == 0 then -1
    else if agg[0].dest == d then 0
    else
      var i := IndexOf(agg[1..], d);
      if i == -1 then -1 else i + 1
  }

  function AddShare(agg: seq<MeedShare>, r: MeedShare): seq<MeedShare> {
    var i := IndexOf(agg, r.dest);
    if i == -1 then agg + [r] else agg[i := MeedShare(r.dest, SatAdd16(agg[i].bp, r.bp))]
  }

  function Aggregate(meed: seq<MeedShare>): seq<MeedShare> {
    if |meed| == 0 then [] else AddShare(Aggregate(meed[..|meed| - 1]), meed[|meed| - 1])
  }

  predicate Distinct(meed: seq<MeedShare>) {
    forall i, j :: 0 <= i < j < |meed| ==> meed[i].dest != meed[j].dest
  }

  /** The basis points of all roles naming `d`. */
  function RoleBp(meed: seq<MeedShare>, d: Address): nat {
    if |meed| == 0 then 0
    else RoleBp(meed[..|meed| - 1], d) + if meed[|meed| - 1].dest == d then meed[|meed| - 1].bp else 0
  }

  predicate Names(meed: seq<MeedShare>, d: Address) {
    exists i :: 0 <= i < |meed| && meed[i].dest == d
  }

  /** Aggregation keeps every destination once, at the (capped) sum of its roles' basis points. */
  lemma {:induction false} AggregateMeaning(meed: seq<MeedShare>)
    requires forall i :: 0 <= i < |meed| ==> meed[i].bp <= U16_MAX
    ensures var agg := Aggregate(meed);
            && Distinct(agg) && |agg| <= |meed|
            && (forall d :: Names(agg, d) <==> Names(meed, d))
            && (forall i :: 0 <= i < |agg| ==>
                agg[i].bp == (if RoleBp(meed, agg[i].dest) <= U16_MAX then RoleBp(meed, agg[i].dest) else U16_MAX))
  {
    if |meed| > 0 {
      var init, r := meed[..|meed| - 1], meed[|meed| - 1];
      AggregateMeaning(init);
      var agg := Aggregate(init);
      var i := IndexOf(agg, r.dest);
      if i == -1 {
        assert !Names(agg, r.dest);
        RoleBpAbsent(init, r.dest);
      }
      forall d ensures Names(AddShare(agg, r), d) <==> Names(meed, d) {
        AddShareNames(agg, r, d);
        SnocNames(init, r, d);
        assert init + [r] == meed;
      }
    }
  }

  lemma SnocNames(meed: seq<MeedShare>, r: MeedShare, d: Address)
    ensures Names(meed + [r], d) <==> Names(meed, d) || r.dest == d
  {
    if Names(meed, d) {
      var i :| 0 <= i < |meed| && meed[i].dest == d;
      assert (meed + [r])[i].dest == d;
    }
    assert (meed + [r])[|meed|] == r;
  }

  lemma AddShareNames(agg: seq<MeedShare>, r: MeedShare, d: Address)
    ensures Names(AddShare(agg, r), d) <==> Names(agg, d) || r.dest == d
  {
    var i := IndexOf(agg, r.dest);
    if i == -1 {
      SnocNames(agg, r, d);
    } else {
      var out := AddShare(agg, r);
      assert forall j :: 0 <= j < |agg| ==> out[j].dest == agg[j].dest;
      assert out[i].dest == r.dest;
    }
  }

  lemma {:induction false} RoleBpAbsent(meed: seq<MeedShare>, d: Address)
    requires !Names(meed, d)
    ensures RoleBp(meed, d) == 0
  {
    if |meed| > 0 {
      assert meed[|meed| - 1].dest != d;
      var init := meed[..|meed| - 1];
      assert forall k :: 0 <= k < |init| ==> init[k] == meed[k];
      assert !Names(init, d);
      RoleBpAbsent(meed[..|meed| - 1], d);
    }
  }

  // ---- entitlements -----------------------------------------------------------------

  function Bps(meed: seq<MeedShare>): (b: seq<nat>)
    ensures |b| == |meed|
  {
    seq(|meed|, i requires 0 <= i < |meed| => meed[i].bp)
  }

  function BpTotal(meed: seq<MeedShare>): nat { Sum(Bps(meed)) }

  /** floor(v * bp_d / sum bp) for every destination. */
  function Entitlements(meed: seq<MeedShare>, v: nat): (e: seq<nat>)
    requires BpTotal(meed) > 0
    ensures |e| == |meed|
  {
    seq(|meed|, i requires 0 <= i < |meed| => MulDiv(v, meed[i].bp, BpTotal(meed)))
  }

  lemma EntitlementsMono(meed: seq<MeedShare>, v: nat, w: nat)
    requires BpTotal(meed) > 0 && v <= w
    ensures forall i :: 0 <= i < |meed| ==> Entitlements(meed, v)[i] <= Entitlements(meed, w)[i]
  {
    forall i | 0 <= i < |meed| ensures Entitlements(meed, v)[i] <= Entitlements(meed, w)[i] {
      ShareMono(v, w, meed[i].bp, BpTotal(meed));
    }
  }

  lemma EntitlementsZero(meed: seq<MeedShare>)
    requires BpTotal(meed) > 0
    ensures Entitlements(meed, 0) == seq(|meed|, i => 0)
  {
    forall i | 0 <= i < |meed| ensures Entitlements(meed, 0)[i] == 0 {
      DivUnique(0 * meed[i].bp, BpTotal(meed), 0);
    }
  }

  lemma {:induction false} EntitlementsPrefix(meed: seq<MeedShare>, v: nat, k: nat)
    requires BpTotal(meed) > 0 && k <= |meed|
    ensures var t := BpTotal(meed);
            var e := Entitlements(meed, v);
            && t * Sum(e[..k]) <= v * Sum(Bps(meed)[..k]) <= t * Sum(e[..k]) + (t - 1) * k
  {
    var t, e, b := BpTotal(meed), Entitlements(meed, v), Bps(meed);
    if k == 0 {
      assert e[..0] == [] && b[..0] == [];
    } else {
      EntitlementsPrefix(meed, v, k - 1);
      SumPrefix(e, k - 1);
      SumPrefix(b, k - 1);
      MulDivBounds(v, meed[k - 1].bp, t);
      FloorRow(t, v, Sum(e[..k - 1]), Sum(b[..k - 1]), e[k - 1], b[k - 1], k - 1);
    }
  }

  lemma FloorRow(t: nat, v: nat, a: nat, b: nat, x: nat, y: nat, k: nat)
    requires t > 0 && t * a <= v * b <= t * a + (t - 1) * k && t * x <= v * y < t * x + t
    ensures t * (a + x) <= v * (b + y) <= t * (a + x) + (t - 1) * (k + 1)
  {
    assert t * (a + x) == t * a + t * x && v * (b + y) == v * b + v * y;
    assert (t - 1) * (k + 1) == (t - 1) * k + (t - 1);
  }

  /** Flooring never over-distributes, and strands less than one unit per destination. */
  lemma ResidueBound(meed: seq<MeedShare>, v: nat)
    requires BpTotal(meed) > 0
    ensures Sum(Entitlements(meed, v)) <= v
    ensures v - Sum(Entitlements(meed, v)) < |meed|
  {
    var t, e := BpTotal(meed), Entitlements(meed, v);
    EntitlementsPrefix(meed, v, |meed|);
    SumWhole(e);
    SumWhole(Bps(meed));
    ResidueArithmetic(t, v, Sum(e), |meed|);
    assert |meed| > 0;
  }

  lemma ResidueArithmetic(t: nat, v: nat, e: nat, n: nat)
    requires t > 0 && n > 0 && t * e <= v * t <= t * e + (t - 1) * n
    ensures e <= v && v - e < n
  {
    assert t * (v + 1) == v * t + t;
    MulCancel(t, e, v + 1);
    assert t * (v - e) == v * t - t * e && t * n == (t - 1) * n + n;
    MulCancel(t, v - e, n);
  }

  // ---- payouts -----------------------------------------------------------------------

  predicate Leq(a: seq<nat>, b: seq<nat>) {
    |a| == |b| && forall i :: 0 <= i < |a| ==> a[i] <= b[i]
  }

  /** The credits that move the first `k` paid counters from `a` to `b`, skipping destinations owed nothing. */
  function PayoutsUpTo(meed: seq<MeedShare>, a: seq<nat>, b: seq<nat>, k: nat): seq<Payout>
    requires |a| == |meed| && Leq(a, b) && k <= |meed|
  {
    if k == 0 then []
    else
      PayoutsUpTo(meed, a, b, k - 1)
      + (if b[k - 1] > a[k - 1] then [Payout(meed[k - 1].dest, b[k - 1] - a[k - 1])] else [])
  }

  function Payouts(meed: seq<MeedShare>, a: seq<nat>, b: seq<nat>): seq<Payout>
    requires |a| == |meed| && Leq(a, b)
  {
    PayoutsUpTo(meed, a, b, |meed|)
  }

  function PayoutTotal(ps: seq<Payout>): nat {
    if |ps| == 0 then 0 else PayoutTotal(ps[..|ps| - 1]) + ps[|ps| - 1].amount
  }

  function PayoutTo(ps: seq<Payout>, d: Address): nat {
    if |ps| == 0 then 0
    else PayoutTo(ps[..|ps| - 1], d) + if ps[|ps| - 1].dest == d then ps[|ps| - 1].amount else 0
  }

  lemma PayoutsSnoc(ps: seq<Payout>, p: Payout, d: Address)
    ensures PayoutTotal(ps + [p]) == PayoutTotal(ps) + p.amount
    ensures PayoutTo(ps + [p], d) == PayoutTo(ps, d) + if p.dest == d then p.amount else 0
  {
    assert (ps + [p])[..|ps|] == ps;
  }

  lemma {:induction false} PrefixTotal(meed: seq<MeedShare>, a: seq<nat>, b: seq<nat>, k: nat)
    requires |a| == |meed| && Leq(a, b) && k <= |meed|
    ensures PayoutTotal(PayoutsUpTo(meed, a, b, k)) + Sum(a[..k]) == Sum(b[..k])
  {
    if k > 0 {
      PrefixTotal(meed, a, b, k - 1);
      SumPrefix(a, k - 1);
      SumPrefix(b, k - 1);
      var init := PayoutsUpTo(meed, a, b, k - 1);
      if b[k - 1] > a[k - 1] {
        PayoutsSnoc(init, Payout(meed[k - 1].dest, b[k - 1] - a[k - 1]), "");
      } else {
        assert init + [] == init;
      }
    }
  }

  lemma PayoutsTotal(meed: seq<MeedShare>, a: seq<nat>, b: seq<nat>)
    requires |a| == |meed| && Leq(a, b)
    ensures PayoutTotal(Payouts(meed, a, b)) + Sum(a) == Sum(b)
  {
    PrefixTotal(meed, a, b, |meed|);
    SumWhole(a);
    SumWhole(b);
  }

  lemma {:induction false} PrefixReach(meed: seq<MeedShare>, a: seq<nat>, b: seq<nat>, k: nat, d: Address)
    requires |a| == |meed| && Leq(a, b) && Distinct(meed) && k <= |meed|
    ensures forall i :: 0 <= i < k && meed[i].dest == d ==> PayoutTo(PayoutsUpTo(meed, a, b, k), d) == b[i] - a[i]
    ensures (forall i :: 0 <= i < k ==> meed[i].dest != d) ==> PayoutTo(PayoutsUpTo(meed, a, b, k), d) == 0
  {
    hide PayoutsUpTo, PayoutTo, Leq;
    if k == 0 {
      NothingUpTo(meed, a, b, d);
    } else {
      PrefixReach(meed, a, b, k - 1, d);
      UpToSnoc(meed, a, b, k - 1, d);
      if meed[k - 1].dest == d {
        assert forall i :: 0 <= i < k - 1 ==> meed[i].dest != d;
      }
    }
  }

  lemma NothingUpTo(meed: seq<MeedShare>, a: seq<nat>, b: seq<nat>, d: Address)
    requires |a| == |meed| && Leq(a, b)
    ensures PayoutTo(PayoutsUpTo(meed, a, b, 0), d) == 0
  {
  }

  /** One more destination adds its own rise and nothing else. */
  lemma UpToSnoc(meed: seq<MeedShare>, a: seq<nat>, b: seq<nat>, k: nat, d: Address)
    requires |a| == |meed| && Leq(a, b) && k < |meed|
    ensures PayoutTo(PayoutsUpTo(meed, a, b, k + 1), d)
            == PayoutTo(PayoutsUpTo(meed, a, b, k), d) + if meed[k].dest == d then b[k] - a[k] else 0
  {
    var init := PayoutsUpTo(meed, a, b, k);
    if b[k] > a[k] {
      PayoutsSnoc(init, Payout(meed[k].dest, b[k] - a[k]), d);
    } else {
      assert init + [] == init;
    }
  }

  /** A destination receives exactly the rise of its own paid counter, and no one else is paid. */
  lemma PayoutsReach(meed: seq<MeedShare>, a: seq<nat>, b: seq<nat>, d: Address)
    requires |a| == |meed| && Leq(a, b) && Distinct(meed)
    ensures forall i :: 0 <= i < |meed| && meed[i].dest == d ==> PayoutTo(Payouts(meed, a, b), d) == b[i] - a[i]
    ensures !Names(meed, d) ==> PayoutTo(Payouts(meed, a, b), d) == 0
  {
    PrefixReach(meed, a, b, |meed|, d);
  }

  // ---- invariant ----------------------------------------------------------------------

  predicate Live(e: Entry) { e.state.Funded? || e.state.ReclaimOpen? }

  function WatermarkAt(meed: seq<MeedShare>, target: nat): Watermark
    requires BpTotal(meed) > 0
  {
    ResidueBound(meed, target);
    Watermark(target, Entitlements(meed, target), target - Sum(Entitlements(meed, target)))
  }

  predicate ValidEntry(s: State, id: RecordId)
    requires id in s.entries
  {
    var e := s.entries[id];
    && id == Purchase(s.seed, e.nonce, e.amount, e.tOpen, e.tLapse, e.contest)
    && 0 < e.amount <= U128_MAX && e.tOpen <= e.tLapse <= U64_MAX
    && (e.state.ReclaimOpen? ==> e.tOpen <= e.state.openedAt <= e.tLapse)
  }

  predicate Valid(s: State) {
    && Distinct(s.meed) && |s.paid| == |s.meed| && s.v <= U128_MAX
    && (if BpTotal(s.meed) > 0 then s.paid == Entitlements(s.meed, s.v)
        else s.v == 0 && s.paid == seq(|s.meed|, i => 0) && s.channels == map[])
    && (forall id <- s.entries :: ValidEntry(s, id))
    && (forall c <- s.channels :: BpTotal(s.meed) > 0 && 0 < s.channels[c].funded <= U128_MAX
                                  && s.channels[c] == WatermarkAt(s.meed, s.channels[c].funded))
  }

  function Fresh(merchantKey: Key, meed: seq<MeedShare>, seed: Seed): (s: State)
    requires forall i :: 0 <= i < |meed| ==> meed[i].bp <= U16_MAX
    ensures Valid(s)
  {
    var agg := Aggregate(meed);
    AggregateMeaning(meed);
    if BpTotal(agg) > 0 then
      EntitlementsZero(agg);
      State(merchantKey, seed, agg, map[], {}, 0, seq(|agg|, i => 0), map[])
    else State(merchantKey, seed, agg, map[], {}, 0, seq(|agg|, i => 0), map[])
  }

  // ---- operations -----------------------------------------------------------------------

  function SatAdd128(a: nat, b: nat): nat {
    if a + b <= U128_MAX then a + b else U128_MAX
  }

  function SatAdd64(a: nat, b: nat): nat {
    if a + b <= U64_MAX then a + b else U64_MAX
  }

  /** F7-d running-V distribution. */
  function Distribute(s: State, amount: nat): (r: (State, seq<Payout>))
    requires Valid(s)
    ensures Valid(r.0) && r.0.(v := s.v, paid := s.paid) == s
  {
    if BpTotal(s.meed) == 0 then (s, [])
    else
      var v' := SatAdd128(s.v, amount);
      EntitlementsMono(s.meed, s.v, v');
      var s' := s.(v := v', paid := Entitlements(s.meed, v'));
      assert forall id <- s'.entries :: ValidEntry(s', id) by { assert forall id <- s.entries :: ValidEntry(s, id); }
      (s', Payouts(s.meed, s.paid, s'.paid))
  }

  function FundEntry(s: State, nonce: Nonce, amount: nat, refundPtr: Address, tOpen: nat, tLapse: nat, contest: nat, now: nat)
    : (r: (State, Outcome<RecordId>))
    requires Valid(s) && amount <= U128_MAX && tLapse <= U64_MAX
    ensures Valid(r.0)
  {
    var id := Purchase(s.seed, nonce, amount, tOpen, tLapse, contest);
    if amount == 0 then (s, Failure(ZeroAmount))
    else if tLapse < now then (s, Failure(AlreadyLapsed))
    else if tOpen > tLapse then (s, Failure(Window))
    else if id in s.entries then (s, Failure(Duplicate))
    else
      var s' := s.(entries := s.entries[id := Entry(nonce, amount, refundPtr, tOpen, tLapse, contest, Funded)]);
      assert forall i <- s'.entries :: ValidEntry(s', i) by { assert forall i <- s.entries :: ValidEntry(s, i); }
      (s', Success(id))
  }

  predicate SigOk(s: State, id: RecordId, signed: Signed, kind: Kind)
    requires id in s.entries
  {
    signed.kind == kind && signed.entryId == id && signed.nonce == s.entries[id].nonce && signed.signer == s.merchantKey
  }

  function Enter(s: State, id: RecordId, st: EntryState): (s': State)
    requires Valid(s) && id in s.entries
    requires st.ReclaimOpen? ==> s.entries[id].tOpen <= st.openedAt <= s.entries[id].tLapse
    ensures Valid(s')
  {
    var s' := s.(entries := s.entries[id := s.entries[id].(state := st)]);
    assert forall i <- s'.entries :: ValidEntry(s', i) by { assert forall i <- s.entries :: ValidEntry(s, i); }
    s'
  }

  function Attest(s: State, id: RecordId, signed: Signed): (r: (State, Outcome<seq<Payout>>))
    requires Valid(s)
    ensures Valid(r.0)
  {
    if id !in s.entries then (s, Failure(NotFound))
    else if !Live(s.entries[id]) then (s, Failure(Terminal))
    else if !SigOk(s, id, signed, Attestation) then (s, Failure(BadSignature))
    else
      var (s', ps) := Distribute(Enter(s, id, Attested), s.entries[id].amount);
      (s', Success(ps))
  }

  function Refund(e: Entry): seq<Payout> { [Payout(e.refundPtr, e.amount)] }

  function Cancel(s: State, id: RecordId, signed: Signed): (r: (State, Outcome<seq<Payout>>))
    requires Valid(s)
    ensures Valid(r.0)
  {
    if id !in s.entries then (s, Failure(NotFound))
    else if !Live(s.entries[id]) then (s, Failure(Terminal))
    else if !SigOk(s, id, signed, Cancellation) then (s, Failure(BadSignature))
    else (Enter(s, id, Cancelled), Success(Refund(s.entries[id])))
  }

  function OpenReclaim(s: State, id: RecordId, now: nat): (r: (State, Outcome<()>))
    requires Valid(s)
    ensures Valid(r.0)
  {
    if id !in s.entries then (s, Failure(NotFound))
    else if !s.entries[id].state.Funded? then (s, Failure(Terminal))
    else if now < s.entries[id].tOpen || now > s.entries[id].tLapse then (s, Failure(Window))
    else (Enter(s, id, ReclaimOpen(now)), Success(()))
  }

  function ExecuteReclaim(s: State, id: RecordId, now: nat): (r: (State, Outcome<seq<Payout>>))
    requires Valid(s)
    ensures Valid(r.0)
  {
    if id !in s.entries then (s, Failure(NotFound))
    else match s.entries[id].state
      case Funded => (s, Failure(Window))
      case ReclaimOpen(openedAt) =>
        if now <= SatAdd64(openedAt, s.entries[id].contest) then (s, Failure(Window))
        else (Enter(s, id, Reclaimed), Success(Refund(s.entries[id])))
      case _ => (s, Failure(Terminal))
  }

  function ClaimLapsed(s: State, id: RecordId, now: nat): (r: (State, Outcome<seq<Payout>>))
    requires Valid(s)
    ensures Valid(r.0)
  {
    if id !in s.entries then (s, Failure(NotFound))
    else if !s.entries[id].state.Funded? then (s, Failure(Terminal))
    else if now <= s.entries[id].tLapse then (s, Failure(Window))
    else
      var (s', ps) := Distribute(Enter(s, id, Lapsed), s.entries[id].amount);
      (s', Success(ps))
  }

  function FundClaimRecord(s: State, c: ChannelId, ckpt: CkptRef, amount: nat): (r: (State, Outcome<(RecordId, seq<Payout>)>))
    requires Valid(s)
    ensures Valid(r.0)
  {
    var key := Claim(s.seed, c, ckpt, amount);
    if amount == 0 then (s, Failure(ZeroAmount))
    else if key in s.claims then (s, Failure(Duplicate))
    else
      var s1 := s.(claims := s.claims + {key});
      assert forall i <- s1.entries :: ValidEntry(s1, i) by { assert forall i <- s.entries :: ValidEntry(s, i); }
      var (s', ps) := Distribute(s1, amount);
      (s', Success((key, ps)))
  }

  function FundedP(s: State, c: ChannelId): nat {
    if c in s.channels then s.channels[c].funded else 0
  }

  function PaidOf(s: State, c: ChannelId): seq<nat> {
    if c in s.channels then s.channels[c].paid else seq(|s.meed|, i => 0)
  }

  datatype Advanced = Advanced(funded: nat, delta: nat, payouts: seq<Payout>)

  lemma PaidBelow(s: State, c: ChannelId, target: nat)
    requires Valid(s) && BpTotal(s.meed) > 0 && FundedP(s, c) <= target
    ensures PaidOf(s, c) == Entitlements(s.meed, FundedP(s, c))
    ensures Leq(PaidOf(s, c), Entitlements(s.meed, target))
  {
    EntitlementsZero(s.meed);
    EntitlementsMono(s.meed, FundedP(s, c), target);
  }

  /** Move a channel's watermark to `target`: nothing happens at or below the current position. */
  function Advance(s: State, c: ChannelId, target: nat): (r: (State, Advanced))
    requires Valid(s) && target <= U128_MAX
    ensures Valid(r.0)
  {
    if target <= FundedP(s, c) || BpTotal(s.meed) == 0 then (s, Advanced(FundedP(s, c), 0, []))
    else
      PaidBelow(s, c, target);
      var s' := s.(channels := s.channels[c := WatermarkAt(s.meed, target)]);
      assert forall i <- s'.entries :: ValidEntry(s', i) by { assert forall i <- s.entries :: ValidEntry(s, i); }
      (s', Advanced(target, target - FundedP(s, c), Payouts(s.meed, PaidOf(s, c), Entitlements(s.meed, target))))
  }

  datatype Snapshot = NoRecord | Record(w: Watermark)

  function TakeSnapshot(s: State, c: ChannelId): Snapshot {
    if c in s.channels then Record(s.channels[c]) else NoRecord
  }

  function Restore(s: State, c: ChannelId, snap: Snapshot): State {
    match snap
    case Record(w) => s.(channels := s.channels[c := w])
    case NoRecord => s.(channels := s.channels - {c})
  }

  // ---- watermark convergence -------------------------------------------------------------

  datatype Call = Call(channel: ChannelId, target: nat)

  predicate InRange(calls: seq<Call>) { forall i :: 0 <= i < |calls| ==> calls[i].target <= U128_MAX }

  function AdvanceAll(s: State, calls: seq<Call>): (s': State)
    requires Valid(s) && InRange(calls)
    ensures Valid(s')
  {
    if |calls| == 0 then s
    else
      var n := |calls| - 1;
      Advance(AdvanceAll(s, calls[..n]), calls[n].channel, calls[n].target).0
  }

  /** Everything one destination was paid by the calls on one channel. */
  function PaidBy(s: State, calls: seq<Call>, c: ChannelId, d: Address): nat
    requires Valid(s) && InRange(calls)
  {
    if |calls| == 0 then 0
    else
      var n := |calls| - 1;
      PaidBy(s, calls[..n], c, d)
      + if calls[n].channel == c
        then PayoutTo(Advance(AdvanceAll(s, calls[..n]), c, calls[n].target).1.payouts, d) else 0
  }

  function MaxTarget(calls: seq<Call>, c: ChannelId): nat {
    if |calls| == 0 then 0
    else
      var n := |calls| - 1;
      var m := MaxTarget(calls[..n], c);
      if calls[n].channel == c && calls[n].target > m then calls[n].target else m
  }

  function Others(calls: seq<Call>, c: ChannelId): (r: seq<Call>)
    ensures InRange(calls) ==> InRange(r)
  {
    if |calls| == 0 then []
    else
      var n := |calls| - 1;
      Others(calls[..n], c) + if calls[n].channel == c then [] else [calls[n]]
  }

  predicate SameBut(s: State, s': State, c: ChannelId) {
    s' == s.(channels := s'.channels) && s'.channels - {c} == s.channels - {c}
  }

  lemma AdvanceFrame(s: State, c: ChannelId, target: nat)
    requires Valid(s) && target <= U128_MAX
    ensures SameBut(s, Advance(s, c, target).0, c)
  {
  }

  /** The record a channel holds when `target` is the largest position it was moved to from `old`. */
  function MovedTo(meed: seq<MeedShare>, was: Snapshot, target: nat): Snapshot {
    var funded := if was.Record? then was.w.funded else 0;
    if target <= funded || BpTotal(meed) == 0 then was else Record(WatermarkAt(meed, target))
  }

  lemma AdvanceRecord(s: State, x: Call, c: ChannelId)
    requires Valid(s) && x.target <= U128_MAX
    ensures var s' := Advance(s, x.channel, x.target).0;
            && s' == s.(channels := s'.channels)
            && TakeSnapshot(s', c) == if x.channel == c then MovedTo(s.meed, TakeSnapshot(s, c), x.target) else TakeSnapshot(s, c)
  {
  }

  /** Any calls, in any order and with any repetitions, leave each channel where one call to its
      largest target would, and every other field of the instance alone. */
  lemma {:induction false} WatermarkConvergence(s: State, calls: seq<Call>, c: ChannelId)
    requires Valid(s) && InRange(calls)
    ensures MaxTarget(calls, c) <= U128_MAX
    ensures var s' := AdvanceAll(s, calls);
            && s' == s.(channels := s'.channels)
            && TakeSnapshot(s', c) == MovedTo(s.meed, TakeSnapshot(s, c), MaxTarget(calls, c))
            && TakeSnapshot(s', c) == TakeSnapshot(Advance(s, c, MaxTarget(calls, c)).0, c)
  {
    MaxInRange(calls, c);
    ConvergenceByRecord(s, calls, c);
    AdvanceRecord(s, Call(c, MaxTarget(calls, c)), c);
  }

  lemma {:induction false} MaxInRange(calls: seq<Call>, c: ChannelId)
    requires InRange(calls)
    ensures MaxTarget(calls, c) <= U128_MAX
  {
    if |calls| > 0 {
      MaxInRange(calls[..|calls| - 1], c);
    }
  }

  lemma {:induction false} ConvergenceByRecord(s: State, calls: seq<Call>, c: ChannelId)
    requires Valid(s) && InRange(calls)
    ensures var s' := AdvanceAll(s, calls);
            && s' == s.(channels := s'.channels)
            && TakeSnapshot(s', c) == MovedTo(s.meed, TakeSnapshot(s, c), MaxTarget(calls, c))
  {
    if |calls| > 0 {
      var n := |calls| - 1;
      ConvergenceByRecord(s, calls[..n], c);
      AdvanceRecord(AdvanceAll(s, calls[..n]), calls[n], c);
    }
  }

  /** The payouts of a channel telescope: what a destination received through it is the rise of its
      share of the watermark, whatever the number and the size of the steps. */
  lemma {:induction false} PayoutsTelescope(s: State, calls: seq<Call>, c: ChannelId, j: nat)
    requires Valid(s) && InRange(calls) && BpTotal(s.meed) > 0 && j < |s.meed|
    ensures var f := FundedP(AdvanceAll(s, calls), c);
            && AdvanceAll(s, calls).meed == s.meed
            && f >= FundedP(s, c)
            && PaidBy(s, calls, c, s.meed[j].dest) + MulDiv(FundedP(s, c), s.meed[j].bp, BpTotal(s.meed))
               == MulDiv(f, s.meed[j].bp, BpTotal(s.meed))
  {
    if |calls| > 0 {
      var n := |calls| - 1;
      var mid := AdvanceAll(s, calls[..n]);
      PayoutsTelescope(s, calls[..n], c, j);
      AdvanceFrame(mid, calls[n].channel, calls[n].target);
      if calls[n].channel == c && calls[n].target > FundedP(mid, c) {
        PaidBelow(mid, c, calls[n].target);
        PayoutsReach(s.meed, PaidOf(mid, c), Entitlements(s.meed, calls[n].target), s.meed[j].dest);
      }
    }
  }

  /** Every watermark splits exactly into what was paid and a residue smaller than the number of
      destinations. */
  lemma WatermarkConserves(s: State, c: ChannelId)
    requires Valid(s) && c in s.channels
    ensures var w := s.channels[c];
            && Sum(w.paid) + w.residue == w.funded && w.residue < |s.meed|
            && forall j :: 0 <= j < |s.meed| ==> w.paid[j] == MulDiv(w.funded, s.meed[j].bp, BpTotal(s.meed))
  {
    ResidueBound(s.meed, s.channels[c].funded);
  }

  /** Channels are isolated: restoring channel `c` to a snapshot undoes exactly the calls on `c`
      made since, however many calls on other channels were interleaved. */
  lemma {:induction false} RestoreUndoesChannel(s: State, calls: seq<Call>, c: ChannelId)
    requires Valid(s) && InRange(calls)
    ensures InRange(Others(calls, c))
    ensures Restore(AdvanceAll(s, calls), c, TakeSnapshot(s, c)) == AdvanceAll(s, Others(calls, c))
  {
    if |calls| == 0 {
      assert c !in s.channels ==> s.channels - {c} == s.channels;
    } else {
      var n := |calls| - 1;
      RestoreUndoesChannel(s, calls[..n], c);
      var mid, x := AdvanceAll(s, calls[..n]), calls[n];
      var rest := Others(calls[..n], c);
      if x.channel == c {
        AdvanceFrame(mid, c, x.target);
        RestoreForgets(mid, Advance(mid, c, x.target).0, c, TakeSnapshot(s, c));
        assert rest + [] == rest;
      } else {
        assert (rest + [x])[..|rest|] == rest;
        RestoreCommutes(mid, c, TakeSnapshot(s, c), x);
      }
    }
  }

  lemma RestoreForgets(s: State, s': State, c: ChannelId, snap: Snapshot)
    requires SameBut(s, s', c)
    ensures Restore(s', c, snap) == Restore(s, c, snap)
  {
    match snap
    case NoRecord =>
    case Record(w) =>
      assert s'.channels[c := w] == s.channels[c := w] by {
        assert s'.channels[c := w] == (s'.channels - {c})[c := w];
        assert s.channels[c := w] == (s.channels - {c})[c := w];
      }
  }

  lemma RestoreCommutes(s: State, c: ChannelId, snap: Snapshot, x: Call)
    requires Valid(s) && x.channel != c && x.target <= U128_MAX
    requires Valid(Restore(s, c, snap))
    ensures Restore(Advance(s, x.channel, x.target).0, c, snap) == Advance(Restore(s, c, snap), x.channel, x.target).0
  {
    var r := Restore(s, c, snap);
    assert r.meed == s.meed && (x.channel in r.channels <==> x.channel in s.channels) && FundedP(r, x.channel) == FundedP(s, x.channel);
    if x.target > FundedP(s, x.channel) && BpTotal(s.meed) > 0 {
      var w := WatermarkAt(s.meed, x.target);
      if snap.NoRecord? {
        assert s.channels[x.channel := w] - {c} == (s.channels - {c})[x.channel := w];
      } else {
        assert s.channels[x.channel := w][c := snap.w] == s.channels[c := snap.w][x.channel := w];
      }
    }
  }

  // ---- the entry machine over runs --------------------------------------------------------

  datatype Event =
    | FundEv(nonce: Nonce, amount: nat, refundPtr: Address, tOpen: nat, tLapse: nat, contest: nat)
    | AttestEv(id: RecordId, signed: Signed)
    | CancelEv(id: RecordId, signed: Signed)
    | OpenEv(id: RecordId)
    | ExecuteEv(id: RecordId)
    | LapseEv(id: RecordId)
    | ClaimEv(channel: ChannelId, ckpt: CkptRef, p: nat)
    | AdvanceEv(channel: ChannelId, target: nat)

  datatype Timed = Timed(ev: Event, now: nat)

  predicate EventOk(e: Event) {
    match e
    case FundEv(_, amount, _, _, tLapse, _) => amount <= U128_MAX && tLapse <= U64_MAX
    case AdvanceEv(_, target) => target <= U128_MAX
    case _ => true
  }

  function PaidOut(r: Outcome<seq<Payout>>): seq<Payout> { if r.Success? then r.value else [] }

  /** One call at rail time `now`: the next state and the credits handed to the ledger. */
  function Step(s: State, t: Timed): (r: (State, seq<Payout>))
    requires Valid(s) && EventOk(t.ev)
    ensures Valid(r.0)
  {
    match t.ev
    case FundEv(nonce, amount, refundPtr, tOpen, tLapse, contest) =>
      (FundEntry(s, nonce, amount, refundPtr, tOpen, tLapse, contest, t.now).0, [])
    case AttestEv(id, signed) => var (s', r) := Attest(s, id, signed); (s', PaidOut(r))
    case CancelEv(id, signed) => var (s', r) := Cancel(s, id, signed); (s', PaidOut(r))
    case OpenEv(id) => (OpenReclaim(s, id, t.now).0, [])
    case ExecuteEv(id) => var (s', r) := ExecuteReclaim(s, id, t.now); (s', PaidOut(r))
    case LapseEv(id) => var (s', r) := ClaimLapsed(s, id, t.now); (s', PaidOut(r))
    case ClaimEv(c, ckpt, p) => var (s', r) := FundClaimRecord(s, c, ckpt, p); (s', if r.Success? then r.value.1 else [])
    case AdvanceEv(c, target) => var (s', r) := Advance(s, c, target); (s', r.payouts)
  }

  predicate RunOk(run: seq<Timed>) { forall i :: 0 <= i < |run| ==> EventOk(run[i].ev) }

  predicate Clocked(run: seq<Timed>) {
    && (forall i :: 0 <= i < |run| ==> run[i].now <= U64_MAX)
    && (forall i, j :: 0 <= i <= j < |run| ==> run[i].now <= run[j].now)
  }

  function After(s: State, run: seq<Timed>): (s': State)
    requires Valid(s) && RunOk(run)
    ensures Valid(s')
  {
    if |run| == 0 then s else Step(After(s, run[..|run| - 1]), run[|run| - 1]).0
  }

  /** The step takes entry `id` out of FUNDED / RECLAIM_OPEN. */
  predicate Leaves(s: State, t: Timed, id: RecordId)
    requires Valid(s) && EventOk(t.ev)
  {
    id in s.entries && Live(s.entries[id]) && id in Step(s, t).0.entries && !Live(Step(s, t).0.entries[id])
  }

  function Exits(s: State, run: seq<Timed>, id: RecordId): nat
    requires Valid(s) && RunOk(run)
  {
    if |run| == 0 then 0
    else Exits(s, run[..|run| - 1], id) + if Leaves(After(s, run[..|run| - 1]), run[|run| - 1], id) then 1 else 0
  }

  /** Where a leaving entry's money goes: all of it to the pool and none to the payer, or all of it
      to the recorded refund pointer and none to the pool. */
  lemma ExitIsWhole(s: State, t: Timed, id: RecordId)
    requires Valid(s) && EventOk(t.ev) && Leaves(s, t, id)
    ensures var (s', ps) := Step(s, t);
            var e := s.entries[id];
            && s'.entries == s.entries[id := s'.entries[id]] && s'.entries[id] == e.(state := s'.entries[id].state)
            && (if s'.entries[id].state.Attested? || s'.entries[id].state.Lapsed? then
                  && (s', ps) == Distribute(s.(entries := s'.entries), e.amount)
                  && (BpTotal(s.meed) > 0 && s.v + e.amount <= U128_MAX ==> s'.v == s.v + e.amount)
                else
                  && (s'.entries[id].state.Cancelled? || s'.entries[id].state.Reclaimed?)
                  && s' == s.(entries := s'.entries) && ps == [Payout(e.refundPtr, e.amount)])
  {
    hide Valid, SigOk, Payouts, Entitlements, BpTotal, ValidEntry;
    match t.ev
    case AttestEv(x, _) => assert x == id;
    case CancelEv(x, _) => assert x == id;
    case ExecuteEv(x) => assert x == id;
    case LapseEv(x) => assert x == id;
    case _ =>
  }

  /** Without an exit, and without a claim record or a watermark step, no value moves. */
  lemma NoExitNoValue(s: State, t: Timed)
    requires Valid(s) && EventOk(t.ev) && !t.ev.ClaimEv? && !t.ev.AdvanceEv?
    requires forall id <- s.entries :: !Leaves(s, t, id)
    ensures Step(s, t).1 == [] && Step(s, t).0 == s.(entries := Step(s, t).0.entries)
    ensures t.ev.FundEv? || Step(s, t).0.entries.Keys == s.entries.Keys
  {
    hide Valid, SigOk, Distribute, Payouts, Entitlements, BpTotal, ValidEntry;
    match t.ev
    case AttestEv(id, _) => assert id in s.entries ==> !Leaves(s, t, id);
    case CancelEv(id, _) => assert id in s.entries ==> !Leaves(s, t, id);
    case ExecuteEv(id) => assert id in s.entries ==> !Leaves(s, t, id);
    case LapseEv(id) => assert id in s.entries ==> !Leaves(s, t, id);
    case _ =>
  }

  /** What one call can do to one existing entry. */
  predicate EntryMove(a: Entry, b: Entry, id: RecordId, t: Timed) {
    && b == a.(state := b.state)
    && (!Live(a) ==> b == a)
    && (b.state.ReclaimOpen? && b != a ==> a.state.Funded? && t.ev == OpenEv(id) && a.tOpen <= t.now <= a.tLapse && b.state.openedAt == t.now)
    && (b.state.Reclaimed? && b != a ==> a.state.ReclaimOpen? && t.ev == ExecuteEv(id) && t.now > SatAdd64(a.state.openedAt, a.contest))
    && (b.state.Funded? ==> b == a)
  }

  lemma EntryStep(s: State, t: Timed, id: RecordId)
    requires Valid(s) && EventOk(t.ev) && id in s.entries
    ensures id in Step(s, t).0.entries && EntryMove(s.entries[id], Step(s, t).0.entries[id], id, t)
  {
    hide Valid, SigOk, Distribute, Advance, ValidEntry;
    if t.ev.AdvanceEv? { AdvanceFrame(s, t.ev.channel, t.ev.target); }
  }

  /** A funded entry keeps its committed terms and leaves the live states at most once: exactly once
      when it is terminal at the end. Terminal states are never left. */
  lemma {:induction false} EntryFate(s: State, run: seq<Timed>, id: RecordId)
    requires Valid(s) && RunOk(run) && id in s.entries
    ensures id in After(s, run).entries
    ensures var e := After(s, run).entries[id];
            && e == s.entries[id].(state := e.state)
            && (Live(s.entries[id]) ==> Exits(s, run, id) == if Live(e) then 0 else 1)
            && (!Live(s.entries[id]) ==> e == s.entries[id] && Exits(s, run, id) == 0)
  {
    if |run| > 0 {
      EntryFate(s, run[..|run| - 1], id);
      EntryStep(After(s, run[..|run| - 1]), run[|run| - 1], id);
    }
  }

  /** A reclaimed entry was opened inside its window and executed strictly after the contest time,
      in real (unsaturated) time. */
  lemma {:induction false} ReclaimHistory(s: State, run: seq<Timed>, id: RecordId) returns (i: nat, j: nat)
    requires Valid(s) && RunOk(run) && Clocked(run) && id in s.entries && s.entries[id].state.Funded?
    requires id in After(s, run).entries
    requires After(s, run).entries[id].state.ReclaimOpen? || After(s, run).entries[id].state.Reclaimed?
    ensures i <= j < |run| && run[i].ev == OpenEv(id)
    ensures s.entries[id].tOpen <= run[i].now <= s.entries[id].tLapse
    ensures var e := After(s, run).entries[id];
            && (e.state.ReclaimOpen? ==> e.state.openedAt == run[i].now)
            && (e.state.Reclaimed? ==> i < j && run[j].ev == ExecuteEv(id) && run[j].now > run[i].now + s.entries[id].contest)
  {
    var n := |run| - 1;
    EntryFate(s, run[..n], id);
    EntryStep(After(s, run[..n]), run[n], id);
    var st := After(s, run[..n]).entries[id].state;
    if st.Funded? {
      i, j := n, n;
    } else {
      i, j := ReclaimHistory(s, run[..n], id);
      if st.ReclaimOpen? && After(s, run).entries[id].state.Reclaimed? {
        j := n;
      }
    }
  }

  /** Past T_lapse an entry still FUNDED can be claimed by anyone, and a reclaim can no longer be
      opened on it, now or later. */
  lemma {:induction false} LapsedIsClaimable(s: State, run: seq<Timed>, id: RecordId, now: nat)
    requires Valid(s) && RunOk(run) && Clocked(run) && id in s.entries && s.entries[id].state.Funded?
    requires |run| > 0 ==> run[0].now > s.entries[id].tLapse
    requires now > s.entries[id].tLapse
    ensures id in After(s, run).entries
    ensures var st := After(s, run).entries[id].state;
            && !st.ReclaimOpen? && !st.Reclaimed?
            && (st.Funded? ==> Claimed(After(s, run), id, now))
  {
    EntryFate(s, run, id);
    if |run| > 0 {
      LapsedIsClaimable(s, run[..|run| - 1], id, now);
      EntryStep(After(s, run[..|run| - 1]), run[|run| - 1], id);
    }
  }

  predicate Claimed(s: State, id: RecordId, now: nat)
    requires Valid(s)
  {
    var (s', r) := ClaimLapsed(s, id, now);
    r.Success? && id in s'.entries && s'.entries[id].state.Lapsed?
  }

  /** A funding with any differing term lands on a different record, so it can neither occupy nor
      block the honest funder's record. */
  lemma FundingCannotSquat(s: State, t: Timed, id: RecordId)
    requires Valid(s) && t.ev.FundEv? && EventOk(t.ev) && id !in s.entries && id in Step(s, t).0.entries
    ensures id == Purchase(s.seed, t.ev.nonce, t.ev.amount, t.ev.tOpen, t.ev.tLapse, t.ev.contest)
    ensures Step(s, t).0.entries == s.entries[id := Entry(t.ev.nonce, t.ev.amount, t.ev.refundPtr, t.ev.tOpen, t.ev.tLapse, t.ev.contest, Funded)]
  {
  }
}
