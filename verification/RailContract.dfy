/** The synchronous rail as one locked object: each call runs to completion under the lock and moves
    `Abs()` exactly as the function of the same name. An arithmetic panic is reported as a reply;
    module RailConservation shows that it is never the reply while the money offered fits 128 bits. */
module RailContract {
  import opened Sums
  import opened Instance
  import opened Ledger
  import opened Options
  import opened RailTypes
  import Spec = VirtualRail
  import opened VirtualRail

  class VirtualRailNode {
    var clock: nat
    var outage: bool
    const delay: nat
    var ledger: Book
    var splits: map<Address, Split>
    var instances: map<Address, State>
    var refs: seq<(nat, RefInfo)>
    var settleIds: map<Word, nat>
    var releaseKeys: map<(ChannelId, CkptRef), nat>

    ghost function Abs(): Rail
      reads this
    {
      Rail(clock, outage, delay, ledger, splits, instances, refs, settleIds, releaseKeys)
    }

    ghost predicate Ok()
      reads this
    {
      ValidRail(Abs())
    }

    constructor (delay: nat)
      ensures Ok() && Abs() == Spec.Empty(delay)
    {
      clock, outage, this.delay := 1_000_000_000, false, delay;
      ledger, splits, instances, refs, settleIds, releaseKeys := map[], map[], map[], [], map[], map[];
    }

    /** A consistent read of the whole rail, as one lock acquisition gives it. */
    method View() returns (r: Rail)
      ensures r == Abs()
    {
      r := Rail(clock, outage, delay, ledger, splits, instances, refs, settleIds, releaseKeys);
    }

    method RecordRef(info: RefInfo) returns (r: nat)
      requires Ok()
      modifies `refs
      ensures Ok() && (Abs(), Ref(r)) == Spec.RecordRef(old(Abs()), info)
    {
      r := |refs|;
      refs := refs + [(clock, info.(canonical := r))];
      assert Abs() == Spec.RecordRef(old(Abs()), info).0;
    }

    method ApplyPayouts(ps: seq<Payout>)
      modifies `ledger
      ensures ledger == CreditAll(old(ledger), ps)
    {
      for i := 0 to |ps|
        invariant ledger == CreditAll(old(ledger), ps[..i])
      {
        assert ps[..i + 1][..i] == ps[..i];
        ledger := ledger[ps[i].dest := SatAdd128(Bal(ledger, ps[i].dest), ps[i].amount)];
      }
      assert ps[..|ps|] == ps;
    }

    /** Pay each recipient of a split up to its share of V; `ok` is false when a checked credit overflows. */
    static method DistributeSplit(rs: seq<MeedShare>, v: nat, was: seq<nat>, book: Book, ghost goal: seq<nat>)
      returns (paid: seq<nat>, book': Book, ok: bool)
      requires |was| == |rs| && Leq(was, goal)
      requires forall j :: 0 <= j < |rs| ==> goal[j] == MulDiv(v, rs[j].bp, BP_BASE)
      ensures ok == Fits(book, Payouts(rs, was, goal))
      ensures ok ==> book' == CreditAll(book, Payouts(rs, was, goal)) && paid == goal
    {
      hide Fits, CreditAll, MulDiv;
      NoneFit(book);
      paid, book' := was, book;
      for i := 0 to |rs|
        invariant |paid| == |rs| && forall j :: 0 <= j < |rs| ==> paid[j] == if j < i then goal[j] else was[j]
        invariant Fits(book, PayoutsUpTo(rs, was, goal, i)) && book' == CreditAll(book, PayoutsUpTo(rs, was, goal, i))
      {
        var entitlement := MulDiv(v, rs[i].bp, BP_BASE);
        assert was[i] <= goal[i];
        var claimable: nat := entitlement - paid[i];
        CreditStep(rs, was, goal, i, book);
        if claimable > 0 {
          if Bal(book', rs[i].dest) + claimable > U128_MAX {
            UnfitStays(rs, was, goal, i + 1, book);
            return paid, book', false;
          }
          book' := book'[rs[i].dest := Bal(book', rs[i].dest) + claimable];
          paid := paid[i := entitlement];
        }
      }
      assert paid == goal;
      ok := true;
    }

    method RecordPayment(t: Transfer) returns (reply: Reply)
      requires Ok()
      modifies `ledger, `splits, `refs
      ensures Ok() && (Abs(), reply) == Spec.RecordPayment(old(Abs()), t)
    {
      if t.to in splits {
        var sp := splits[t.to];
        if sp.v + t.amount > U128_MAX { return Failed(SplitOverflow); }
        EntitlementsMono(sp.recipients, sp.v, sp.v + t.amount);
        var paid, book, ok := DistributeSplit(sp.recipients, sp.v + t.amount, sp.paid, ledger,
                                              Entitlements(sp.recipients, sp.v + t.amount));
        if !ok { return Failed(Panic); }
        splits := splits[t.to := sp.(v := sp.v + t.amount, paid := paid)];
        ledger := book;
        assert splits[t.to] == FundSplit(sp, t.amount).0;
      } else {
        if Bal(ledger, t.to) + t.amount > U128_MAX { return Failed(Panic); }
        ledger := ledger[t.to := Bal(ledger, t.to) + t.amount];
      }
      var r := RecordRef(Info(t.to, t.asset, t.amount).(memo := t.memo));
      reply := Ref(r);
    }

    method Submit(t: Transfer) returns (reply: Reply)
      requires Ok()
      modifies `ledger, `splits, `refs
      ensures Ok() && (Abs(), reply) == Spec.Submit(old(Abs()), t)
    {
      if outage { return Failed(Outage); }
      reply := RecordPayment(t);
    }

    method Settle(t: Transfer, id: Word) returns (reply: Reply)
      requires Ok()
      modifies `ledger, `splits, `refs, `settleIds
      ensures Ok() && (Abs(), reply) == Spec.Settle(old(Abs()), t, id)
    {
      if id in settleIds { return Ref(settleIds[id]); }
      if outage { return Failed(Outage); }
      reply := RecordPayment(t);
      if reply.Ref? { settleIds := settleIds[id := reply.r]; }
      assert (Abs(), reply) == Spec.Settle(old(Abs()), t, id);
    }

    method Release(src: Address, to: Address, asset: Asset, amount: nat) returns (reply: Reply)
      requires Ok()
      modifies `ledger, `refs
      ensures Ok() && (Abs(), reply) == Spec.Release(old(Abs()), src, to, asset, amount)
    {
      if outage { return Failed(Outage); }
      if amount == 0 || amount > Bal(ledger, src) { return Failed(InsufficientEscrow); }
      ledger := ledger[src := ledger[src] - amount];
      ledger := ledger[to := SatAdd128(Bal(ledger, to), amount)];
      var r := RecordRef(Info(to, asset, amount));
      reply := Ref(r);
    }

    method ReleaseKeyed(c: ChannelId, ckpt: CkptRef, src: Address, to: Address, asset: Asset, amount: nat) returns (reply: Reply)
      requires Ok()
      modifies `ledger, `refs, `releaseKeys
      ensures Ok() && (Abs(), reply) == Spec.ReleaseKeyed(old(Abs()), c, ckpt, src, to, asset, amount)
    {
      if (c, ckpt) in releaseKeys { return Ref(releaseKeys[(c, ckpt)]); }
      reply := Release(src, to, asset, amount);
      if reply.Ref? { releaseKeys := releaseKeys[(c, ckpt) := reply.r]; }
      assert (Abs(), reply) == Spec.ReleaseKeyed(old(Abs()), c, ckpt, src, to, asset, amount);
    }

    method CallEntry(addr: Address, ev: Event) returns (reply: Reply)
      requires Ok() && EntryCall(ev)
      modifies `ledger, `instances
      ensures Ok() && (Abs(), reply) == Spec.CallEntry(old(Abs()), addr, ev)
    {
      if addr !in instances { return Failed(NoSuchAccount); }
      var s, t := instances[addr], Timed(ev, clock);
      var refusal := Refusal(s, t);
      if refusal.Some? { return Failed(MapEntryError(refusal.value)); }
      var (s', ps) := Step(s, t);
      instances := instances[addr := s'];
      ApplyPayouts(ps);
      reply := Done;
      assert (Abs(), reply) == Spec.CallEntry(old(Abs()), addr, ev);
    }

    /** The duplicate check comes first, then the escrow check, then the commit: no fallible step sits
        between the debit and the distribution. */
    method FundClaim(src: Option<Address>, addr: Address, c: ChannelId, ckpt: CkptRef, amount: nat, asset: Asset)
      returns (reply: Reply)
      requires Ok()
      modifies `ledger, `instances, `refs
      ensures Ok() && (Abs(), reply) == Spec.FundClaim(old(Abs()), src, addr, c, ckpt, amount, asset)
    {
      hide Valid, ValidSplit, CreditAll, Distribute;
      if outage { return Failed(Outage); }
      if addr in instances && Claim(instances[addr].seed, c, ckpt, amount) in instances[addr].claims { return Failed(AlreadyFunded); }
      if src.Some? && (amount == 0 || amount > Bal(ledger, src.value)) { return Failed(InsufficientEscrow); }
      if addr !in instances { return Failed(NoSuchAccount); }
      var (s', out) := FundClaimRecord(instances[addr], c, ckpt, amount);
      match out {
        case Failure(e) => return Failed(MapEntryError(e));
        case Success(kp) =>
          instances := instances[addr := s'];
          if src.Some? { ledger := ledger[src.value := ledger[src.value] - amount]; }
          ApplyPayouts(kp.1);
          assert Abs() == PutInstance(if src.Some? then old(Abs()).(ledger := Debit(old(ledger), src.value, amount)) else old(Abs()), addr, s', kp.1);
          var r := RecordRef(Info(addr, asset, amount).(memo := Some(OfRecord(kp.0)), fundsClaim := Some(kp.0)));
          reply := Keyed(r, kp.0);
      }
    }

    method AdvanceMeed(src: Option<Address>, addr: Address, c: ChannelId, target: nat, asset: Asset) returns (reply: Reply)
      requires Ok() && target <= U128_MAX
      modifies `ledger, `instances, `refs
      ensures Ok() && (Abs(), reply) == Spec.AdvanceMeed(old(Abs()), src, addr, c, target, asset)
    {
      hide Valid, ValidSplit, CreditAll, Advance;
      if outage { return Failed(Outage); }
      if addr !in instances { return Failed(NoSuchAccount); }
      var s := instances[addr];
      AdvanceDelta(s, c, target);
      var need := if target > FundedP(s, c) then target - FundedP(s, c) else 0;
      if src.Some? && need > 0 && need > Bal(ledger, src.value) { return Failed(InsufficientEscrow); }
      var (s', adv) := Advance(s, c, target);
      instances := instances[addr := s'];
      if src.Some? && adv.delta > 0 { ledger := ledger[src.value := ledger[src.value] - adv.delta]; }
      ApplyPayouts(adv.payouts);
      assert Abs() == PutInstance(if src.Some? && adv.delta > 0 then old(Abs()).(ledger := Debit(old(ledger), src.value, adv.delta)) else old(Abs()),
                                  addr, s', adv.payouts);
      var r := RecordRef(Info(addr, asset, adv.delta).(advanced := Some(AdvancedFact(c, s.seed, adv.funded, adv.delta, asset))));
      reply := Ref(r);
    }
  }

  /** One more recipient: either it is owed nothing, or its credit extends the sequence. */
  lemma CreditStep(rs: seq<MeedShare>, a: seq<nat>, b: seq<nat>, i: nat, l: Book)
    requires |a| == |rs| && Leq(a, b) && i < |rs|
    ensures var ps, ps' := PayoutsUpTo(rs, a, b, i), PayoutsUpTo(rs, a, b, i + 1);
            if b[i] == a[i] then ps' == ps
            else
              && (Fits(l, ps') <==> Fits(l, ps) && Bal(CreditAll(l, ps), rs[i].dest) + (b[i] - a[i]) <= U128_MAX)
              && CreditAll(l, ps') == Credit(CreditAll(l, ps), rs[i].dest, b[i] - a[i])
  {
    var ps := PayoutsUpTo(rs, a, b, i);
    assert (ps + [Payout(rs[i].dest, b[i] - a[i])])[..|ps|] == ps;
    assert ps + [] == ps;
  }

  lemma {:induction false} UnfitStays(rs: seq<MeedShare>, a: seq<nat>, b: seq<nat>, i: nat, l: Book)
    requires |a| == |rs| && Leq(a, b) && i <= |rs| && !Fits(l, PayoutsUpTo(rs, a, b, i))
    ensures !Fits(l, Payouts(rs, a, b))
    decreases |rs| - i
  {
    if i < |rs| {
      CreditStep(rs, a, b, i, l);
      UnfitStays(rs, a, b, i + 1, l);
    }
  }

  lemma AdvanceDelta(s: State, c: ChannelId, target: nat)
    requires Valid(s) && target <= U128_MAX
    ensures Advance(s, c, target).1.delta <= if target > FundedP(s, c) then target - FundedP(s, c) else 0
  {
  }

  lemma NoneFit(l: Book)
    ensures Fits(l, []) && CreditAll(l, []) == l
  {
  }
}
