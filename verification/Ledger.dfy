/** The rail's balances, and the value an instance holds on behalf of others. */
module Ledger {
  import opened Sums
  import opened Instance

  /** Balances by address; an absent address reads as zero. */
  type Book = map<Address, nat>

  function Bal(l: Book, a: Address): nat { if a in l then l[a] else 0 }

  function Credit(l: Book, a: Address, x: nat): Book { l[a := SatAdd128(Bal(l, a), x)] }

  function Debit(l: Book, a: Address, x: nat): Book
    requires x <= Bal(l, a)
  {
    l[a := Bal(l, a) - x]
  }

  /** Payouts credited in order. */
  function CreditAll(l: Book, ps: seq<Payout>): Book {
    if |ps| == 0 then l
    else Credit(CreditAll(l, ps[..|ps| - 1]), ps[|ps| - 1].dest, ps[|ps| - 1].amount)
  }

  ghost function Total(l: Book): nat { MapSum(l) }

  lemma BalLe(l: Book, a: Address)
    ensures Bal(l, a) <= Total(l)
  {
    if a in l { MapSumMember(l, a); }
  }

  /** While everything on the ledger fits 128 bits no credit saturates. */
  lemma CreditTotal(l: Book, a: Address, x: nat)
    requires Total(l) + x <= U128_MAX
    ensures Total(Credit(l, a, x)) == Total(l) + x && Bal(Credit(l, a, x), a) == Bal(l, a) + x
  {
    hide MapSum;
    BalLe(l, a);
    var b := Bal(l, a) + x;
    assert Credit(l, a, x) == l[a := b];
    MapSumPut(l, a, b);
  }

  lemma DebitTotal(l: Book, a: Address, x: nat)
    requires x <= Bal(l, a)
    ensures Total(Debit(l, a, x)) + x == Total(l)
  {
    hide MapSum;
    var b: nat := Bal(l, a) - x;
    assert Debit(l, a, x) == l[a := b];
    MapSumPut(l, a, b);
  }

  lemma {:induction false} CreditAllTotal(l: Book, ps: seq<Payout>)
    requires Total(l) + PayoutTotal(ps) <= U128_MAX
    ensures Total(CreditAll(l, ps)) == Total(l) + PayoutTotal(ps)
    ensures forall d :: Bal(CreditAll(l, ps), d) == Bal(l, d) + PayoutTo(ps, d)
  {
    if |ps| > 0 {
      var init, p := ps[..|ps| - 1], ps[|ps| - 1];
      CreditAllTotal(l, init);
      CreditTotal(CreditAll(l, init), p.dest, p.amount);
    }
  }

  // ---- what an instance holds ------------------------------------------------------------

  function LiveAmount(e: Entry): nat { if Live(e) then e.amount else 0 }

  function LiveAmounts(entries: map<RecordId, Entry>): map<RecordId, nat> {
    map id | id in entries :: LiveAmount(entries[id])
  }

  function Residues(channels: map<ChannelId, Watermark>): map<ChannelId, nat> {
    map c | c in channels :: channels[c].residue
  }

  ghost function PoolDust(s: State): nat
    requires Valid(s)
  {
    if BpTotal(s.meed) > 0 then
      ResidueBound(s.meed, s.v);
      s.v - Sum(s.paid)
    else 0
  }

  /** Live entries, undistributed pool dust and every channel's residue. */
  ghost function Held(s: State): nat
    requires Valid(s)
  {
    MapSum(LiveAmounts(s.entries)) + PoolDust(s) + MapSum<ChannelId>(Residues(s.channels))
  }

  /** Value a distribution cannot carry: all of it without recipients, else what the 128-bit running
      total drops by saturating. */
  function Burned(s: State, amount: nat): (b: nat)
    requires Valid(s)
    ensures b == 0 <==> amount == 0 || (BpTotal(s.meed) > 0 && s.v + amount <= U128_MAX)
  {
    if BpTotal(s.meed) == 0 then amount else s.v + amount - SatAdd128(s.v, amount)
  }

  lemma DistributeHeld(s: State, amount: nat)
    requires Valid(s)
    ensures var (s', ps) := Distribute(s, amount);
            Held(s') + PayoutTotal(ps) + Burned(s, amount) == Held(s) + amount
  {
    if BpTotal(s.meed) > 0 {
      var v' := SatAdd128(s.v, amount);
      EntitlementsMono(s.meed, s.v, v');
      PayoutsTotal(s.meed, s.paid, Entitlements(s.meed, v'));
      ResidueBound(s.meed, s.v);
      ResidueBound(s.meed, v');
    }
  }

  lemma PutEntry(entries: map<RecordId, Entry>, id: RecordId, e: Entry)
    ensures MapSum(LiveAmounts(entries[id := e]))
            == MapSum(LiveAmounts(entries)) - (if id in entries then LiveAmount(entries[id]) else 0) + LiveAmount(e)
  {
    assert LiveAmounts(entries[id := e]) == LiveAmounts(entries)[id := LiveAmount(e)];
    MapSumPut(LiveAmounts(entries), id, LiveAmount(e));
  }

  lemma EnterHeld(s: State, id: RecordId, st: EntryState)
    requires Valid(s) && id in s.entries
    requires st.ReclaimOpen? ==> s.entries[id].tOpen <= st.openedAt <= s.entries[id].tLapse
    ensures Held(Enter(s, id, st)) + LiveAmount(s.entries[id]) == Held(s) + LiveAmount(s.entries[id].(state := st))
  {
    PutEntry(s.entries, id, s.entries[id].(state := st));
  }

  lemma AdvanceHeld(s: State, c: ChannelId, target: nat)
    requires Valid(s) && target <= U128_MAX
    ensures var (s', r) := Advance(s, c, target);
            Held(s') + PayoutTotal(r.payouts) == Held(s) + r.delta
  {
    if target > FundedP(s, c) && BpTotal(s.meed) > 0 {
      PaidBelow(s, c, target);
      PayoutsTotal(s.meed, PaidOf(s, c), Entitlements(s.meed, target));
      ResidueBound(s.meed, target);
      ResidueBound(s.meed, FundedP(s, c));
      ResidueMoves(s.channels, c, WatermarkAt(s.meed, target));
      ResidueZero(s.meed);
    }
  }

  lemma ResidueZero(meed: seq<MeedShare>)
    requires BpTotal(meed) > 0
    ensures Sum(Entitlements(meed, 0)) == 0
  {
    ResidueBound(meed, 0);
  }

  lemma ResidueMoves(channels: map<ChannelId, Watermark>, c: ChannelId, w: Watermark)
    ensures MapSum<ChannelId>(Residues(channels[c := w]))
            == MapSum<ChannelId>(Residues(channels)) - (if c in channels then channels[c].residue else 0) + w.residue
  {
    hide MapSum;
    assert Residues(channels[c := w]) == Residues(channels)[c := w.residue];
    MapSumPut<ChannelId>(Residues(channels), c, w.residue);
  }

  /** What one call on the instance takes in from outside it. */
  function TakenIn(s: State, t: Timed): nat
    requires Valid(s) && EventOk(t.ev)
  {
    match t.ev
    case FundEv(nonce, amount, refundPtr, tOpen, tLapse, contest) =>
      if FundEntry(s, nonce, amount, refundPtr, tOpen, tLapse, contest, t.now).1.Success? then amount else 0
    case ClaimEv(c, ckpt, p) => if FundClaimRecord(s, c, ckpt, p).1.Success? then p else 0
    case AdvanceEv(c, target) => Advance(s, c, target).1.delta
    case _ => 0
  }

  /** What one call on the instance destroys. */
  function Lost(s: State, t: Timed): nat
    requires Valid(s) && EventOk(t.ev)
  {
    match t.ev
    case AttestEv(id, signed) => if Attest(s, id, signed).1.Success? then Burned(s, s.entries[id].amount) else 0
    case LapseEv(id) => if ClaimLapsed(s, id, t.now).1.Success? then Burned(s, s.entries[id].amount) else 0
    case ClaimEv(c, ckpt, p) => if FundClaimRecord(s, c, ckpt, p).1.Success? then Burned(s, p) else 0
    case _ => 0
  }

  /** Exact conservation for every instance call: held + paid out + burned == held before + taken in. */
  lemma StepHeld(s: State, t: Timed)
    requires Valid(s) && EventOk(t.ev)
    ensures var (s', ps) := Step(s, t);
            Held(s') + PayoutTotal(ps) + Lost(s, t) == Held(s) + TakenIn(s, t)
  {
    hide Held, Valid, Burned, PayoutTotal, SigOk;
    NoPayouts();
    match t.ev
    case FundEv(nonce, amount, refundPtr, tOpen, tLapse, contest) =>
      FundHeld(s, nonce, amount, refundPtr, tOpen, tLapse, contest, t.now);
    case AttestEv(id, signed) => if Attest(s, id, signed).1.Success? { PoolHeld(s, id, Attested); }
    case LapseEv(id) => if ClaimLapsed(s, id, t.now).1.Success? { PoolHeld(s, id, Lapsed); }
    case CancelEv(id, signed) => if Cancel(s, id, signed).1.Success? { RefundHeld(s, id, Cancelled); }
    case ExecuteEv(id) => if ExecuteReclaim(s, id, t.now).1.Success? { RefundHeld(s, id, Reclaimed); }
    case OpenEv(id) => if OpenReclaim(s, id, t.now).1.Success? { EnterHeld(s, id, ReclaimOpen(t.now)); }
    case ClaimEv(c, ckpt, p) => if FundClaimRecord(s, c, ckpt, p).1.Success? { ClaimHeld(s, c, ckpt, p); }
    case AdvanceEv(c, target) => AdvanceHeld(s, c, target);
  }

  lemma PoolHeld(s: State, id: RecordId, st: EntryState)
    requires Valid(s) && id in s.entries && Live(s.entries[id]) && (st.Attested? || st.Lapsed?)
    ensures var (s', ps) := Distribute(Enter(s, id, st), s.entries[id].amount);
            Held(s') + PayoutTotal(ps) + Burned(s, s.entries[id].amount) == Held(s) + 0
  {
    EnterHeld(s, id, st);
    DistributeHeld(Enter(s, id, st), s.entries[id].amount);
  }

  lemma RefundHeld(s: State, id: RecordId, st: EntryState)
    requires Valid(s) && id in s.entries && Live(s.entries[id]) && (st.Cancelled? || st.Reclaimed?)
    ensures Held(Enter(s, id, st)) + PayoutTotal(Refund(s.entries[id])) == Held(s)
  {
    EnterHeld(s, id, st);
    RefundTotal(s.entries[id]);
  }

  lemma FundHeld(s: State, nonce: Nonce, amount: nat, refundPtr: Address, tOpen: nat, tLapse: nat, contest: nat, now: nat)
    requires Valid(s) && amount <= U128_MAX && tLapse <= U64_MAX
    ensures var (s', r) := FundEntry(s, nonce, amount, refundPtr, tOpen, tLapse, contest, now);
            Held(s') == Held(s) + if r.Success? then amount else 0
  {
    PutEntry(s.entries, Purchase(s.seed, nonce, amount, tOpen, tLapse, contest),
             Entry(nonce, amount, refundPtr, tOpen, tLapse, contest, Funded));
  }

  lemma NoPayouts()
    ensures PayoutTotal([]) == 0
  {
  }

  lemma RefundTotal(e: Entry)
    ensures PayoutTotal(Refund(e)) == e.amount
  {
    assert Refund(e)[..0] == [];
  }

  lemma ClaimHeld(s: State, c: ChannelId, ckpt: CkptRef, p: nat)
    requires Valid(s) && FundClaimRecord(s, c, ckpt, p).1.Success?
    ensures var (s', r) := FundClaimRecord(s, c, ckpt, p);
            Held(s') + PayoutTotal(r.value.1) + Burned(s, p) == Held(s) + p
  {
    var s1 := s.(claims := s.claims + {Claim(s.seed, c, ckpt, p)});
    assert Valid(s1) by {
      assert forall id <- s1.entries :: ValidEntry(s1, id) by { assert forall id <- s.entries :: ValidEntry(s, id); }
    }
    DistributeHeld(s1, p);
  }
}
