/** One account's balance on the synchronous rail: who may lower it, and which payments into it can still
    be claimed as funding. */
module EscrowRail {
  import opened Options
  import opened Instance
  import opened Ledger
  import opened RailTypes
  import opened VirtualRail
  import opened RailHistory
  import opened Carriage
  import opened CarriageBooks

  /** A plain account: no seed renders to it. */
  ghost predicate PlainAccount(p: Address) { forall seed :: AddressOf(seed) != p }

  predicate Apart(r: Rail, p: Address) { p !in r.splits && p !in r.instances }

  predicate Within(l: Book) { forall a <- l :: l[a] <= U128_MAX }

  /** The call takes value out of the account. */
  predicate Debits(op: Op, p: Address) {
    match op
    case ReleaseOp(src, _, _, _) => src == p
    case KeyedOp(_, _, src, _, _, _) => src == p
    case ClaimOp(src, _, _, _, _, _) => src == Some(p)
    case AdvanceOp(src, _, _, _, _) => src == Some(p)
    case _ => false
  }

  // ---- payments not yet consumed -----------------------------------------------------------------------

  /** A payment into `p` that names a purpose, and that no decision has consumed. */
  function Item(info: RefInfo, ref: nat, dec: map<DecKey, DecValue>, p: Address): nat {
    if info.to == p && info.memo.Some? && FundKey(ref) !in dec then info.amount else 0
  }

  function Pool(refs: seq<(nat, RefInfo)>, dec: map<DecKey, DecValue>, p: Address): nat {
    if |refs| == 0 then 0
    else Pool(refs[..|refs| - 1], dec, p) + Item(refs[|refs| - 1].1, |refs| - 1, dec, p)
  }

  /** Decisions only take payments out of the pool. */
  lemma {:induction false} PoolShrinks(refs: seq<(nat, RefInfo)>, dec: map<DecKey, DecValue>, dec2: map<DecKey, DecValue>, p: Address)
    requires dec.Keys <= dec2.Keys
    ensures Pool(refs, dec2, p) <= Pool(refs, dec, p)
  {
    if |refs| > 0 {
      PoolShrinks(refs[..|refs| - 1], dec, dec2, p);
      assert FundKey(|refs| - 1) in dec.Keys ==> FundKey(|refs| - 1) in dec2.Keys;
    }
  }

  lemma {:induction false} PoolTakes(refs: seq<(nat, RefInfo)>, dec: map<DecKey, DecValue>, ref: nat, v: DecValue, p: Address)
    requires ref < |refs|
    ensures Pool(refs, dec[FundKey(ref) := v], p) + Item(refs[ref].1, ref, dec, p) == Pool(refs, dec, p)
  {
    var n := |refs| - 1;
    if ref < n {
      PoolTakes(refs[..n], dec, ref, v, p);
    } else {
      PoolBeyond(refs[..n], dec, ref, v, p);
    }
  }

  lemma {:induction false} PoolBeyond(refs: seq<(nat, RefInfo)>, dec: map<DecKey, DecValue>, ref: nat, v: DecValue, p: Address)
    requires |refs| <= ref
    ensures Pool(refs, dec[FundKey(ref) := v], p) == Pool(refs, dec, p)
  {
    if |refs| > 0 { PoolBeyond(refs[..|refs| - 1], dec, ref, v, p); }
  }

  lemma PoolAdds(refs: seq<(nat, RefInfo)>, x: (nat, RefInfo), dec: map<DecKey, DecValue>, p: Address)
    ensures Pool(refs + [x], dec, p) == Pool(refs, dec, p) + Item(x.1, |refs|, dec, p)
  {
    assert (refs + [x])[..|refs|] == refs;
  }

  // ---- the ledger -------------------------------------------------------------------------------------------

  lemma CreditKeeps(l: Book, a: Address, x: nat, p: Address)
    requires Within(l)
    ensures Within(Credit(l, a, x)) && Bal(Credit(l, a, x), p) >= Bal(l, p)
  {
  }

  lemma DebitKeeps(l: Book, a: Address, x: nat, p: Address)
    requires Within(l) && x <= Bal(l, a)
    ensures Within(Debit(l, a, x)) && Bal(Debit(l, a, x), p) == Bal(l, p) - if a == p then x else 0
  {
  }

  lemma {:induction false} CreditAllKeeps(l: Book, ps: seq<Payout>, p: Address)
    requires Within(l)
    ensures Within(CreditAll(l, ps)) && Bal(CreditAll(l, ps), p) >= Bal(l, p)
  {
    hide Within, Bal;
    if |ps| > 0 {
      CreditAllKeeps(l, ps[..|ps| - 1], p);
      CreditKeeps(CreditAll(l, ps[..|ps| - 1]), ps[|ps| - 1].dest, ps[|ps| - 1].amount, p);
    }
  }

  // ---- what each call does to the account -----------------------------------------------------------------------

  /** The balance may fall by `x`; what joins the pool has joined the balance. */
  predicate Serves(r: Rail, r': Rail, p: Address, x: nat) {
    && Within(r'.ledger) && Apart(r', p)
    && ((r'.refs == r.refs && Bal(r'.ledger, p) + x >= Bal(r.ledger, p))
        || (|r'.refs| == |r.refs| + 1 && r'.refs[..|r.refs|] == r.refs
              && var n := r'.refs[|r.refs|].1;
                 Bal(r'.ledger, p) + x >= Bal(r.ledger, p) + if n.to == p && n.memo.Some? then n.amount else 0))
  }

  lemma ServesPool(r: Rail, r': Rail, p: Address, x: nat, dec: map<DecKey, DecValue>)
    requires Serves(r, r', p, x)
    ensures Bal(r'.ledger, p) + x + Pool(r.refs, dec, p) >= Bal(r.ledger, p) + Pool(r'.refs, dec, p)
  {
    if r'.refs != r.refs {
      assert r'.refs == r.refs + [r'.refs[|r.refs|]];
      PoolAdds(r.refs, r'.refs[|r.refs|], dec, p);
    }
  }

  lemma PaymentServes(r: Rail, t: Transfer, p: Address)
    requires ValidRail(r) && Within(r.ledger) && Apart(r, p)
    ensures Serves(r, RecordPayment(r, t).0, p, 0)
    ensures forall ids :: Serves(r, RecordPayment(r, t).0.(settleIds := ids), p, 0)
  {
    hide ValidRail, Fits, CreditAll, FundSplit, Within;
    var r' := RecordPayment(r, t).0;
    if t.to in r.splits {
      SplitValid(r, t.to);
      if r.splits[t.to].v + t.amount <= U128_MAX {
        var (sp, ps) := FundSplit(r.splits[t.to], t.amount);
        CreditAllKeeps(r.ledger, ps, p);
      }
    } else {
      CreditKeeps(r.ledger, t.to, t.amount, p);
    }
  }

  lemma ReleaseServes(r: Rail, src: Address, to: Address, asset: Asset, amount: nat, p: Address)
    requires ValidRail(r) && Within(r.ledger) && Apart(r, p)
    ensures var (r', reply) := Release(r, src, to, asset, amount);
            && Serves(r, r', p, if src == p && reply.Ref? then amount else 0)
            && forall keys :: Serves(r, r'.(releaseKeys := keys), p, if src == p && reply.Ref? then amount else 0)
  {
    hide ValidRail, Within, Bal;
    if !r.outage && amount != 0 && amount <= Bal(r.ledger, src) {
      DebitKeeps(r.ledger, src, amount, p);
      CreditKeeps(Debit(r.ledger, src, amount), to, amount, p);
    }
  }

  lemma EntryServes(r: Rail, addr: Address, ev: Instance.Event, asset: Asset, p: Address)
    requires ValidRail(r) && Within(r.ledger) && Apart(r, p) && ev.FundEv? && EventOk(ev)
    ensures Serves(r, FundEntryAt(r, addr, ev, asset).0, p, 0)
  {
    hide ValidRail, Within, Bal, FundEntry;
  }

  lemma CallServes(r: Rail, addr: Address, ev: Instance.Event, p: Address)
    requires ValidRail(r) && Within(r.ledger) && Apart(r, p) && EntryCall(ev)
    ensures Serves(r, CallEntry(r, addr, ev).0, p, 0)
  {
    hide Valid, ValidSplit, Within, Bal, CreditAll, Refusal, Step;
    if addr in r.instances {
      var ps := Step(r.instances[addr], Timed(ev, r.clock)).1;
      CreditAllKeeps(r.ledger, ps, p);
    }
  }

  lemma ClaimServes(r: Rail, src: Option<Address>, addr: Address, c: ChannelId, ckpt: CkptRef, amount: nat, asset: Asset, p: Address)
    requires ValidRail(r) && Within(r.ledger) && Apart(r, p) && src != Some(p)
    ensures Serves(r, FundClaim(r, src, addr, c, ckpt, amount, asset).0, p, 0)
  {
    hide Valid, ValidSplit, Within, Bal, CreditAll, FundClaimRecord;
    var r' := FundClaim(r, src, addr, c, ckpt, amount, asset).0;
    if r' != r {
      var r1 := if src.Some? then Debit(r.ledger, src.value, amount) else r.ledger;
      if src.Some? { DebitKeeps(r.ledger, src.value, amount, p); }
      CreditAllKeeps(r1, FundClaimRecord(r.instances[addr], c, ckpt, amount).1.value.1, p);
    }
  }

  lemma AdvanceExact(s: State, c: ChannelId, target: nat)
    requires Valid(s) && target <= U128_MAX
    ensures var (s', adv) := Advance(s, c, target);
            && FundedP(s', c) == FundedP(s, c) + adv.delta
            && adv.delta <= if target > FundedP(s, c) then target - FundedP(s, c) else 0
  {
    hide Valid, Payouts, Entitlements, BpTotal;
  }

  /** An advance charged to `p` takes out exactly what the watermark rises by, and is refused for want of
      escrow only when the balance is below what is missing to the target. */
  lemma AdvanceServes(r: Rail, src: Option<Address>, seed: Seed, c: ChannelId, target: nat, asset: Asset, p: Address)
    requires ValidRail(r) && Within(r.ledger) && Apart(r, p) && target <= U128_MAX
    ensures var (r', reply) := AdvanceMeed(r, src, AddressOf(seed), c, target, asset);
            && FundedAt(r, seed, c) <= FundedAt(r', seed, c) <= Most(target, FundedAt(r, seed, c))
            && Serves(r, r', p, if src == Some(p) then FundedAt(r', seed, c) - FundedAt(r, seed, c) else 0)
            && (src == Some(p) && target <= FundedAt(r, seed, c) + Bal(r.ledger, p) ==> reply != Failed(InsufficientEscrow))
  {
    hide Valid, ValidSplit, Within, CreditAll, Advance, AddressOf, Bal;
    var addr := AddressOf(seed);
    if addr in r.instances {
      AdvanceExact(r.instances[addr], c, target);
      var (s', adv) := Advance(r.instances[addr], c, target);
      if src.Some? && adv.delta > 0 && adv.delta <= Bal(r.ledger, src.value) {
        DebitKeeps(r.ledger, src.value, adv.delta, p);
        CreditAllKeeps(Debit(r.ledger, src.value, adv.delta), adv.payouts, p);
      } else {
        CreditAllKeeps(r.ledger, adv.payouts, p);
      }
    }
  }

  function Most(a: nat, b: nat): nat { if a >= b then a else b }

  lemma AdvanceOtherwise(r: Rail, src: Option<Address>, addr: Address, c: ChannelId, target: nat, asset: Asset, p: Address)
    requires ValidRail(r) && Within(r.ledger) && Apart(r, p) && target <= U128_MAX && src != Some(p)
    ensures Serves(r, AdvanceMeed(r, src, addr, c, target, asset).0, p, 0)
  {
    hide Valid, ValidSplit, Within, CreditAll, Advance, Bal;
    if addr in r.instances {
      AdvanceExact(r.instances[addr], c, target);
      var (s', adv) := Advance(r.instances[addr], c, target);
      if src.Some? && adv.delta > 0 && adv.delta <= Bal(r.ledger, src.value) {
        DebitKeeps(r.ledger, src.value, adv.delta, p);
        CreditAllKeeps(Debit(r.ledger, src.value, adv.delta), adv.payouts, p);
      } else {
        CreditAllKeeps(r.ledger, adv.payouts, p);
      }
    }
  }

  /** Any call that does not debit the account leaves its balance ahead of the payments waiting in it. */
  lemma OthersServe(r: Rail, op: Op, p: Address)
    requires ValidRail(r) && OpOk(op) && Within(r.ledger) && Apart(r, p) && PlainAccount(p) && !Debits(op, p)
    ensures Serves(r, Apply(r, op).0, p, 0)
  {
    hide ValidRail, Within, AdvanceMeed, FundClaim, CallEntry, FundEntryAt, Release, RecordPayment, AddressOf;
    match op
    case EntryOp(addr, ev, asset) => EntryServes(r, addr, ev, asset, p);
    case CallOp(addr, ev) => CallServes(r, addr, ev, p);
    case ClaimOp(src, addr, c, ckpt, amount, asset) => ClaimServes(r, src, addr, c, ckpt, amount, asset, p);
    case AdvanceOp(src, addr, c, target, asset) => AdvanceOtherwise(r, src, addr, c, target, asset, p);
    case SubmitOp(t) => PaymentServes(r, t, p);
    case SettleOp(t, id) => PaymentServes(r, t, p);
    case ReleaseOp(src, to, asset, amount) => ReleaseServes(r, src, to, asset, amount, p);
    case KeyedOp(c, ckpt, src, to, asset, amount) => ReleaseServes(r, src, to, asset, amount, p);
    case _ =>
  }

  /** A keyed release out of the account takes at most its amount. */
  lemma KeyedServes(r: Rail, c: ChannelId, ckpt: CkptRef, to: Address, asset: Asset, amount: nat, p: Address)
    requires ValidRail(r) && Within(r.ledger) && Apart(r, p)
    ensures Serves(r, ReleaseKeyed(r, c, ckpt, p, to, asset, amount).0, p, amount)
    ensures 0 < amount <= Bal(r.ledger, p) ==> ReleaseKeyed(r, c, ckpt, p, to, asset, amount).1 != Failed(InsufficientEscrow)
  {
    hide ValidRail, Within;
    ReleaseServes(r, p, to, asset, amount, p);
  }
}
