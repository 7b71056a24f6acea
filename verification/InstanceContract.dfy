/** The instance as the rail holds it: one object whose fields its calls update in place. */
module InstanceContract {
  import opened Sums
  import opened Instance

  /** A deployed instance. Every method moves `State()` exactly as the function of the same name. */
  class MeedInstance {
    const merchantKey: Key
    const seed: Seed
    const meed: seq<MeedShare>
    const bpTotal: nat
    var entries: map<RecordId, Entry>
    var claims: set<RecordId>
    var v: nat
    var paid: seq<nat>
    var channels: map<ChannelId, Watermark>

    ghost function Abs(): State
      reads this
    {
      State(merchantKey, seed, meed, entries, claims, v, paid, channels)
    }

    ghost predicate Ok()
      reads this
    {
      Valid(Abs()) && bpTotal == BpTotal(meed)
    }

    predicate CheckSig(e: Entry, id: RecordId, signed: Signed, kind: Kind) {
      signed.kind == kind && signed.entryId == id && signed.nonce == e.nonce && signed.signer == merchantKey
    }

    constructor (merchantKey: Key, roles: seq<MeedShare>, seed: Seed)
      requires forall i :: 0 <= i < |roles| ==> roles[i].bp <= U16_MAX
      ensures Ok() && Abs() == Instance.Fresh(merchantKey, roles, seed)
    {
      var agg := FoldRoles(roles);
      this.merchantKey, this.seed, meed := merchantKey, seed, agg;
      var total := TotalBp(agg);
      bpTotal := total;
      entries, claims, v, channels := map[], {}, 0, map[];
      paid := seq(|agg|, i => 0);
      new;
      assert Abs() == Instance.Fresh(merchantKey, roles, seed);
    }

    /** One entry per destination; a later role naming the same destination adds to it. */
    static method FoldRoles(roles: seq<MeedShare>) returns (agg: seq<MeedShare>)
      ensures agg == Aggregate(roles)
    {
      agg := [];
      for k := 0 to |roles|
        invariant agg == Aggregate(roles[..k])
      {
        var r := roles[k];
        var i := 0;
        while i < |agg| && agg[i].dest != r.dest
          invariant i <= |agg| && forall j :: 0 <= j < i ==> agg[j].dest != r.dest
        {
          i := i + 1;
        }
        assert roles[..k + 1][..k] == roles[..k];
        if i < |agg| {
          agg := agg[i := MeedShare(r.dest, SatAdd16(agg[i].bp, r.bp))];
        } else {
          agg := agg + [r];
        }
      }
      assert roles[..|roles|] == roles;
    }

    static method TotalBp(agg: seq<MeedShare>) returns (total: nat)
      ensures total == BpTotal(agg)
    {
      total := 0;
      for k := 0 to |agg|
        invariant total == Sum(Bps(agg)[..k])
      {
        SumPrefix(Bps(agg), k);
        total := total + agg[k].bp;
      }
      SumWhole(Bps(agg));
    }

    /** Pay every destination up to its share of V; no subtraction underflows. */
    method PayShares() returns (out: seq<Payout>)
      requires bpTotal == BpTotal(meed) > 0 && v <= U128_MAX
      requires |paid| == |meed| && Leq(paid, Entitlements(meed, v))
      modifies `paid
      ensures paid == Entitlements(meed, v) && out == Payouts(meed, old(paid), paid)
    {
      ghost var was, target := paid, Entitlements(meed, v);
      out := [];
      for i := 0 to |meed|
        invariant |paid| == |meed| && out == PayoutsUpTo(meed, was, target, i)
        invariant forall j :: 0 <= j < |meed| ==> paid[j] == if j < i then target[j] else was[j]
      {
        ShareBelow(meed, v, i);
        var entitlement := MulDiv(v, meed[i].bp, bpTotal);
        assert paid[i] == was[i] <= target[i] == entitlement;
        var claimable: nat := entitlement - paid[i];
        if claimable > 0 {
          out := out + [Payout(meed[i].dest, claimable)];
          paid := paid[i := entitlement];
        }
      }
      assert paid == target;
    }

    /** Running-V distribution. */
    method Distribute(amount: nat) returns (out: seq<Payout>)
      requires Ok() && amount <= U128_MAX
      modifies `v, `paid
      ensures Ok() && (Abs(), out) == Instance.Distribute(old(Abs()), amount)
    {
      if bpTotal == 0 { return []; }
      v := SatAdd128(v, amount);
      EntitlementsMono(meed, old(v), v);
      out := PayShares();
      assert Abs() == Instance.Distribute(old(Abs()), amount).0;
    }

    method FundEntry(nonce: Nonce, amount: nat, refundPtr: Address, tOpen: nat, tLapse: nat, contest: nat, now: nat)
      returns (r: Outcome<RecordId>)
      requires Ok() && amount <= U128_MAX && tLapse <= U64_MAX
      modifies `entries
      ensures Ok() && (Abs(), r) == Instance.FundEntry(old(Abs()), nonce, amount, refundPtr, tOpen, tLapse, contest, now)
    {
      if amount == 0 { return Failure(ZeroAmount); }
      if tLapse < now { return Failure(AlreadyLapsed); }
      if tOpen > tLapse { return Failure(Window); }
      var id := Purchase(seed, nonce, amount, tOpen, tLapse, contest);
      if id in entries { return Failure(Duplicate); }
      entries := entries[id := Entry(nonce, amount, refundPtr, tOpen, tLapse, contest, Funded)];
      r := Success(id);
      assert (Abs(), r) == Instance.FundEntry(old(Abs()), nonce, amount, refundPtr, tOpen, tLapse, contest, now);
    }

    method Attest(id: RecordId, signed: Signed) returns (r: Outcome<seq<Payout>>)
      requires Ok()
      modifies `entries, `v, `paid
      ensures Ok() && (Abs(), r) == Instance.Attest(old(Abs()), id, signed)
    {
      if id !in entries { return Failure(NotFound); }
      var e := entries[id];
      if !e.state.Funded? && !e.state.ReclaimOpen? { return Failure(Terminal); }
      if !CheckSig(e, id, signed, Attestation) { return Failure(BadSignature); }
      entries := entries[id := e.(state := Attested)];
      assert Abs() == Enter(old(Abs()), id, Attested);
      assert ValidEntry(old(Abs()), id);
      var out := Distribute(e.amount);
      r := Success(out);
    }

    method Cancel(id: RecordId, signed: Signed) returns (r: Outcome<seq<Payout>>)
      requires Ok()
      modifies `entries
      ensures Ok() && (Abs(), r) == Instance.Cancel(old(Abs()), id, signed)
    {
      if id !in entries { return Failure(NotFound); }
      var e := entries[id];
      if !e.state.Funded? && !e.state.ReclaimOpen? { return Failure(Terminal); }
      if !CheckSig(e, id, signed, Cancellation) { return Failure(BadSignature); }
      entries := entries[id := e.(state := Cancelled)];
      assert Abs() == Enter(old(Abs()), id, Cancelled);
      r := Success([Payout(e.refundPtr, e.amount)]);
    }

    method OpenReclaim(id: RecordId, now: nat) returns (r: Outcome<()>)
      requires Ok()
      modifies `entries
      ensures Ok() && (Abs(), r) == Instance.OpenReclaim(old(Abs()), id, now)
    {
      if id !in entries { return Failure(NotFound); }
      var e := entries[id];
      if !e.state.Funded? { return Failure(Terminal); }
      if now < e.tOpen || now > e.tLapse { return Failure(Window); }
      entries := entries[id := e.(state := ReclaimOpen(now))];
      assert Abs() == Enter(old(Abs()), id, ReclaimOpen(now));
      r := Success(());
    }

    method ExecuteReclaim(id: RecordId, now: nat) returns (r: Outcome<seq<Payout>>)
      requires Ok()
      modifies `entries
      ensures Ok() && (Abs(), r) == Instance.ExecuteReclaim(old(Abs()), id, now)
    {
      if id !in entries { return Failure(NotFound); }
      var e := entries[id];
      if e.state.Funded? { return Failure(Window); }
      if !e.state.ReclaimOpen? { return Failure(Terminal); }
      if now <= SatAdd64(e.state.openedAt, e.contest) { return Failure(Window); }
      entries := entries[id := e.(state := Reclaimed)];
      assert Abs() == Enter(old(Abs()), id, Reclaimed);
      r := Success([Payout(e.refundPtr, e.amount)]);
    }

    method ClaimLapsed(id: RecordId, now: nat) returns (r: Outcome<seq<Payout>>)
      requires Ok()
      modifies `entries, `v, `paid
      ensures Ok() && (Abs(), r) == Instance.ClaimLapsed(old(Abs()), id, now)
    {
      if id !in entries { return Failure(NotFound); }
      var e := entries[id];
      if !e.state.Funded? { return Failure(Terminal); }
      if now <= e.tLapse { return Failure(Window); }
      entries := entries[id := e.(state := Lapsed)];
      assert Abs() == Enter(old(Abs()), id, Lapsed);
      assert ValidEntry(old(Abs()), id);
      var out := Distribute(e.amount);
      r := Success(out);
    }

    method FundClaimRecord(c: ChannelId, ckpt: CkptRef, amount: nat) returns (r: Outcome<(RecordId, seq<Payout>)>)
      requires Ok() && amount <= U128_MAX
      modifies `claims, `v, `paid
      ensures Ok() && (Abs(), r) == Instance.FundClaimRecord(old(Abs()), c, ckpt, amount)
    {
      if amount == 0 { return Failure(ZeroAmount); }
      var key := Claim(seed, c, ckpt, amount);
      if key in claims { return Failure(Duplicate); }
      claims := claims + {key};
      assert forall i <- Abs().entries :: ValidEntry(Abs(), i) by { assert forall i <- old(Abs()).entries :: ValidEntry(old(Abs()), i); }
      var out := Distribute(amount);
      r := Success((key, out));
    }

    /** Raise every destination of one channel to its share of `target`. */
    method RaisePaid(was: seq<nat>, target: nat) returns (mine: seq<nat>, out: seq<Payout>, distributed: nat)
      requires bpTotal == BpTotal(meed) > 0 && target <= U128_MAX
      requires |was| == |meed| && Leq(was, Entitlements(meed, target))
      ensures mine == Entitlements(meed, target) && out == Payouts(meed, was, mine) && distributed == Sum(mine)
    {
      ghost var goal := Entitlements(meed, target);
      ResidueBound(meed, target);
      mine, out, distributed := was, [], 0;
      for i := 0 to |meed|
        invariant |mine| == |meed| && out == PayoutsUpTo(meed, was, goal, i)
        invariant forall j :: 0 <= j < |meed| ==> mine[j] == if j < i then goal[j] else was[j]
        invariant distributed == Sum(goal[..i])
      {
        SumPrefix(goal, i);
        PrefixBelow(goal, i + 1);
        var entitlement := MulDiv(target, meed[i].bp, bpTotal);
        if entitlement > mine[i] {
          out := out + [Payout(meed[i].dest, entitlement - mine[i])];
          mine := mine[i := entitlement];
        }
        distributed := SatAdd128(distributed, mine[i]);
      }
      SumWhole(goal);
      assert mine == goal;
    }

    /** The per-channel watermark moves to an absolute position, one floor per destination. */
    method AdvanceChannelMeed(c: ChannelId, target: nat) returns (r: Advanced)
      requires Ok() && target <= U128_MAX
      modifies `channels
      ensures Ok() && (Abs(), r) == Advance(old(Abs()), c, target)
    {
      var funded, mine := 0, seq(|meed|, i => 0);
      if c in channels {
        funded, mine := channels[c].funded, channels[c].paid;
      }
      if target <= funded || bpTotal == 0 { return Advanced(funded, 0, []); }
      PaidBelow(Abs(), c, target);
      ResidueBound(meed, target);
      var out, distributed;
      mine, out, distributed := RaisePaid(mine, target);
      channels := channels[c := Watermark(target, mine, target - distributed)];
      r := Advanced(target, target - funded, out);
      assert Abs() == Advance(old(Abs()), c, target).0;
    }

    /** The reorg inverse: put back a record captured before an advance, or remove the channel's
        first one. */
    method RestoreChannelWatermark(c: ChannelId, snap: Snapshot)
      requires Ok() && Valid(Restore(Abs(), c, snap))
      modifies `channels
      ensures Ok() && Abs() == Restore(old(Abs()), c, snap)
    {
      match snap
      case Record(w) => channels := channels[c := w];
      case NoRecord => channels := channels - {c};
    }
  }

  lemma ShareBelow(meed: seq<MeedShare>, v: nat, i: nat)
    requires BpTotal(meed) > 0 && i < |meed|
    ensures Entitlements(meed, v)[i] <= v
  {
    SumMember(Bps(meed), i);
    ShareLe(v, meed[i].bp, BpTotal(meed));
  }

  lemma {:induction false} PrefixBelow(s: seq<nat>, k: nat)
    requires k <= |s|
    ensures Sum(s[..k]) <= Sum(s)
  {
    SumConcat(s[..k], s[k..]);
    assert s[..k] + s[k..] == s;
  }
}
