/** The reorg-capable rail as one locked object; its calls move `Abs()` as the functions do. */
module AsyncContract {
  import opened Instance
  import opened Ledger
  import opened Options
  import opened RailTypes
  import Spec = AsyncRail
  import opened AsyncRail

  class AsyncRailNode {
    var clock: nat
    var outage: bool
    var ledger: Book
    var instances: map<Address, State>
    var refs: seq<TxRecord>
    var settleIds: map<Word, nat>
    var releaseKeys: map<(ChannelId, CkptRef), nat>

    ghost function Abs(): Chain
      reads this
    {
      Chain(clock, outage, World(ledger, instances), refs, settleIds, releaseKeys)
    }

    ghost predicate Ok()
      reads this
    {
      ValidChain(Abs())
    }

    constructor ()
      ensures Ok() && Abs() == Chain(1_000_000_000, false, World(map[], map[]), [], map[], map[])
    {
      clock, outage, ledger, instances := 1_000_000_000, false, map[], map[];
      refs, settleIds, releaseKeys := [], map[], map[];
    }

    /** Debit the payouts of a reorged advance, each saturating at zero. */
    method TakeBack(ps: seq<Payout>)
      modifies `ledger
      ensures ledger == SatDebitAll(old(ledger), ps)
    {
      for i := 0 to |ps|
        invariant ledger == SatDebitAll(old(ledger), ps[..i])
      {
        assert ps[..i + 1][..i] == ps[..i];
        var d := ps[i].dest;
        if d in ledger {
          ledger := ledger[d := if ledger[d] >= ps[i].amount then ledger[d] - ps[i].amount else 0];
        }
      }
      assert ps[..|ps|] == ps;
    }

    method GiveOut(ps: seq<Payout>)
      modifies `ledger
      ensures ledger == AddAll(old(ledger), ps)
    {
      for i := 0 to |ps|
        invariant ledger == AddAll(old(ledger), ps[..i])
      {
        assert ps[..i + 1][..i] == ps[..i];
        ledger := ledger[ps[i].dest := Bal(ledger, ps[i].dest) + ps[i].amount];
      }
      assert ps[..|ps|] == ps;
    }

    /** The deferred movement of a submitted operation. */
    method ApplyOp(op: Transaction) returns (ap: Applied, info: RefInfo)
      requires ValidWorld(World(ledger, instances)) && OpValid(World(ledger, instances), op)
      modifies `ledger, `instances
      ensures (World(ledger, instances), ap, info) == Perform(old(World(ledger, instances)), op)
    {
      hide Valid, Advance;
      match op {
        case Plain(to, asset, amount, memo) =>
          ledger := ledger[to := Bal(ledger, to) + amount];
          ap, info := PlainApplied(to, amount), BareInfo(to, asset, amount).(memo := memo);
        case Release(src, to, asset, amount) =>
          if src in ledger { ledger := ledger[src := if ledger[src] >= amount then ledger[src] - amount else 0]; }
          ledger := ledger[to := SatAdd128(Bal(ledger, to), amount)];
          ap, info := ReleaseApplied(src, to, amount), BareInfo(to, asset, amount);
        case Advancing(from, addr, c, target, asset) =>
          var s := instances[addr];
          var snapshot := TakeSnapshot(s, c);
          var (s', adv) := Advance(s, c, target);
          instances := instances[addr := s'];
          if from.Some? && adv.delta > 0 && from.value in ledger {
            ledger := ledger[from.value := if ledger[from.value] >= adv.delta then ledger[from.value] - adv.delta else 0];
          }
          GiveOut(adv.payouts);
          ap := AdvanceApplied(from, addr, c, adv.delta, adv.payouts, snapshot);
          info := BareInfo(addr, asset, adv.delta).(advanced := Some(AdvancedFact(c, s.seed, adv.funded, adv.delta, asset)));
      }
    }

    /** Undistribute, restore the watermark, refund the source. */
    method RevertOp(ap: Applied)
      modifies `ledger, `instances
      ensures World(ledger, instances) == Revert(old(World(ledger, instances)), ap)
    {
      match ap {
        case PlainApplied(to, amount) =>
          if to in ledger { ledger := ledger[to := if ledger[to] >= amount then ledger[to] - amount else 0]; }
        case ReleaseApplied(src, to, amount) =>
          if to in ledger { ledger := ledger[to := if ledger[to] >= amount then ledger[to] - amount else 0]; }
          ledger := ledger[src := Bal(ledger, src) + amount];
        case AdvanceApplied(from, addr, c, delta, payouts, snapshot) =>
          TakeBack(payouts);
          if addr in instances { instances := instances[addr := Restore(instances[addr], c, snapshot)]; }
          if from.Some? && delta > 0 { ledger := ledger[from.value := Bal(ledger, from.value) + delta]; }
      }
    }

    method Confirm(r: nat) returns (reply: Reply)
      requires Ok()
      modifies `ledger, `instances, `refs
      ensures Ok() && (Abs(), reply) == Spec.Confirm(old(Abs()), r)
    {
      if r >= |refs| || refs[r].level != Submitted { return Done; }
      var op := refs[r].op;
      if !CreditsFit(World(ledger, instances), op) { return Failed(Panic); }
      var ap, info := ApplyOp(op);
      refs := refs[r := TxRecord(Confirmed, op, Some(ap), Some(info.(canonical := r)))];
      reply := Done;
      assert Abs() == Spec.Confirm(old(Abs()), r).0;
    }

    method Finalize(r: nat) returns (reply: Reply)
      requires Ok()
      modifies `ledger, `instances, `refs
      ensures Ok() && (Abs(), reply) == Spec.Finalize(old(Abs()), r)
    {
      if r >= |refs| { return Done; }
      if refs[r].level == Confirmed {
        refs := refs[r := refs[r].(level := Finalized)];
        reply := Done;
      } else if refs[r].level == Submitted {
        reply := Confirm(r);
        if refs[r].level == Confirmed { refs := refs[r := refs[r].(level := Finalized)]; }
      } else {
        reply := Done;
      }
      assert Abs() == Spec.Finalize(old(Abs()), r).0;
    }

    method Reorg(r: nat) returns (dropped: bool)
      requires Ok()
      modifies `ledger, `instances, `refs
      ensures Ok() && (Abs(), dropped) == Spec.Reorg(old(Abs()), r)
    {
      if r >= |refs| { return false; }
      match refs[r].level {
        case Submitted =>
          refs := refs[r := refs[r].(level := Dropped)];
          dropped := true;
        case Confirmed =>
          var applied := refs[r].applied;
          if applied.Some? { RevertOp(applied.value); }
          refs := refs[r := TxRecord(Dropped, refs[r].op, None, None)];
          dropped := true;
        case _ => dropped := false;
      }
      assert Abs() == Spec.Reorg(old(Abs()), r).0;
    }

    method DropTx(r: nat)
      requires Ok()
      modifies `refs
      ensures Ok() && Abs() == Spec.Drop(old(Abs()), r)
    {
      if r < |refs| && refs[r].level == Submitted { refs := refs[r := refs[r].(level := Dropped)]; }
      assert Abs() == Spec.Drop(old(Abs()), r);
    }

    method Record(op: Transaction) returns (r: nat)
      requires Ok() && OpValid(World(ledger, instances), op)
      modifies `refs
      ensures Ok() && (Abs(), Ref(r)) == Spec.Enter(old(Abs()), op)
    {
      r := |refs|;
      refs := refs + [TxRecord(Submitted, op, None, None)];
      assert Abs() == Spec.Enter(old(Abs()), op).0;
    }

    method Settle(t: Transfer, id: Word) returns (reply: Reply)
      requires Ok()
      modifies `refs, `settleIds
      ensures Ok() && (Abs(), reply) == Spec.Settle(old(Abs()), t, id)
    {
      if id in settleIds { return Ref(settleIds[id]); }
      if outage { return Failed(Outage); }
      var r := Record(Plain(t.to, t.asset, t.amount, t.memo));
      settleIds := settleIds[id := r];
      reply := Ref(r);
      assert Abs() == Spec.Settle(old(Abs()), t, id).0;
    }

    method ReleaseKeyed(c: ChannelId, ckpt: CkptRef, src: Address, to: Address, asset: Asset, amount: nat) returns (reply: Reply)
      requires Ok()
      modifies `refs, `releaseKeys
      ensures Ok() && (Abs(), reply) == Spec.ReleaseKeyed(old(Abs()), c, ckpt, src, to, asset, amount)
    {
      if (c, ckpt) in releaseKeys { return Ref(releaseKeys[(c, ckpt)]); }
      if outage { return Failed(Outage); }
      if amount == 0 || amount > Bal(ledger, src) { return Failed(InsufficientEscrow); }
      var r := Record(Release(src, to, asset, amount));
      releaseKeys := releaseKeys[(c, ckpt) := r];
      reply := Ref(r);
      assert Abs() == Spec.ReleaseKeyed(old(Abs()), c, ckpt, src, to, asset, amount).0;
    }

    method AdvanceChannelMeed(from: Option<Address>, addr: Address, c: ChannelId, target: nat, asset: Asset) returns (reply: Reply)
      requires Ok() && target <= U128_MAX
      modifies `refs
      ensures Ok() && (Abs(), reply) == Spec.SubmitAdvance(old(Abs()), from, addr, c, target, asset)
    {
      if outage { return Failed(Outage); }
      if addr !in instances { return Failed(NoSuchAccount); }
      var funded := FundedP(instances[addr], c);
      var delta := if target > funded then target - funded else 0;
      if from.Some? && delta > 0 && delta > Bal(ledger, from.value) { return Failed(InsufficientEscrow); }
      var r := Record(Advancing(from, addr, c, target, asset));
      reply := Ref(r);
    }
  }
}
