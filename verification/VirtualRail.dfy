/** The synchronous rail: one ledger, running-V splits, meed instances, and references that move
    value when they are submitted. */
module VirtualRail {
  import opened Sums
  import opened Instance
  import opened Ledger
  import opened Options
  import opened RailTypes

  const BP_BASE: nat := 10_000

  datatype Split = Split(recipients: seq<MeedShare>, v: nat, paid: seq<nat>)

  datatype Rail = Rail(
    clock: nat, outage: bool, delay: nat,
    ledger: Book, splits: map<Address, Split>, instances: map<Address, State>,
    refs: seq<(nat, RefInfo)>,
    settleIds: map<Word, nat>, releaseKeys: map<(ChannelId, CkptRef), nat>)

  predicate ValidSplit(sp: Split) {
    && BpTotal(sp.recipients) == BP_BASE && sp.v <= U128_MAX
    && sp.paid == Entitlements(sp.recipients, sp.v)
  }

  predicate ValidRail(r: Rail) {
    && (forall a <- r.splits :: ValidSplit(r.splits[a]))
    && (forall a <- r.instances :: Valid(r.instances[a]))
    && (forall i :: 0 <= i < |r.refs| ==> r.refs[i].1.canonical == i)
    && (forall k <- r.settleIds :: r.settleIds[k] < |r.refs|)
    && (forall k <- r.releaseKeys :: r.releaseKeys[k] < |r.refs|)
  }

  function Empty(delay: nat): (r: Rail)
    ensures ValidRail(r)
  {
    Rail(1_000_000_000, false, delay, map[], map[], map[], [], map[], map[])
  }

  // ---- deployment ----------------------------------------------------------------------------

  /** The meed destinations, aggregated, plus the merchant at what is left of the base. */
  function SplitRecipients(meed: seq<MeedShare>, net: Address): Option<seq<MeedShare>> {
    if BpTotal(meed) > BP_BASE then None
    else Some(Aggregate(meed) + [MeedShare(net, BP_BASE - BpTotal(meed))])
  }

  lemma BpTotalAppend(a: seq<MeedShare>, r: MeedShare)
    ensures BpTotal(a + [r]) == BpTotal(a) + r.bp
  {
    assert Bps(a + [r]) == Bps(a) + [r.bp];
    assert (Bps(a) + [r.bp])[..|a|] == Bps(a);
  }

  lemma {:induction false} SumReplace(s: seq<nat>, i: nat, x: nat)
    requires i < |s|
    ensures Sum(s[i := x]) + s[i] == Sum(s) + x
  {
    var n := |s| - 1;
    if i < n {
      SumReplace(s[..n], i, x);
      assert s[i := x][..n] == s[..n][i := x];
    } else {
      assert s[i := x][..n] == s[..n];
    }
  }

  /** Folding roles into destinations keeps the total, as long as it fits 16 bits. */
  lemma {:induction false} AggregateTotal(meed: seq<MeedShare>)
    requires BpTotal(meed) <= U16_MAX
    ensures BpTotal(Aggregate(meed)) == BpTotal(meed)
  {
    if |meed| > 0 {
      var init, x := meed[..|meed| - 1], meed[|meed| - 1];
      assert init + [x] == meed;
      BpTotalAppend(init, x);
      AggregateTotal(init);
      var agg := Aggregate(init);
      var i := IndexOf(agg, x.dest);
      if i == -1 {
        BpTotalAppend(agg, x);
      } else {
        SumMember(Bps(agg), i);
        SumReplace(Bps(agg), i, agg[i].bp + x.bp);
        assert Bps(AddShare(agg, x)) == Bps(agg)[i := agg[i].bp + x.bp];
      }
    }
  }

  /** A split's shares always add up to the whole base: nothing is stranded and nothing over-committed;
      the vector is refused exactly when its meed alone exceeds the base. */
  lemma SplitSharesAreWhole(meed: seq<MeedShare>, net: Address)
    ensures SplitRecipients(meed, net).Some? <==> BpTotal(meed) <= BP_BASE
    ensures SplitRecipients(meed, net).Some? ==>
              var rs := SplitRecipients(meed, net).value;
              BpTotal(rs) == BP_BASE && rs[|rs| - 1].dest == net
  {
    if BpTotal(meed) <= BP_BASE {
      AggregateTotal(meed);
      BpTotalAppend(Aggregate(meed), MeedShare(net, BP_BASE - BpTotal(meed)));
    }
  }

  function FreshSplit(rs: seq<MeedShare>): (sp: Split)
    requires BpTotal(rs) == BP_BASE
    ensures ValidSplit(sp)
  {
    EntitlementsZero(rs);
    Split(rs, 0, seq(|rs|, i => 0))
  }

  /** `derived` is the seed the inputs recompute to; a different claimed seed is refused, and the first
      deployment at an address wins. */
  function DeploySplit(r: Rail, seed: Seed, derived: Option<Seed>, meed: seq<MeedShare>, net: Address): (x: (Rail, Reply))
    requires ValidRail(r)
    ensures ValidRail(x.0)
  {
    SplitSharesAreWhole(meed, net);
    if derived != Some(seed) then (r, Failed(UnboundSeed))
    else match SplitRecipients(meed, net)
      case None => (r, Failed(MeedOverBase))
      case Some(rs) =>
        var a := AddressOf(seed);
        (if a in r.splits then r else r.(splits := r.splits[a := FreshSplit(rs)]), At(a))
  }

  function DeployInstance(r: Rail, seed: Seed, derived: Option<Seed>, key: Key, meed: seq<MeedShare>): (x: (Rail, Reply))
    requires ValidRail(r) && forall i :: 0 <= i < |meed| ==> meed[i].bp <= U16_MAX
    ensures ValidRail(x.0)
  {
    if derived != Some(seed) then (r, Failed(UnboundSeed))
    else
      var a := AddressOf(seed);
      (if a in r.instances then r else r.(instances := r.instances[a := Fresh(key, meed, seed)]), At(a))
  }

  // ---- value movements -------------------------------------------------------------------------

  function Info(to: Address, asset: Asset, amount: nat): RefInfo {
    RefInfo(to, asset, amount, None, None, None, None, 0)
  }

  function RecordRef(r: Rail, info: RefInfo): (x: (Rail, Reply))
    requires ValidRail(r)
    ensures ValidRail(x.0)
  {
    (r.(refs := r.refs + [(r.clock, info.(canonical := |r.refs|))]), Ref(|r.refs|))
  }

  /** Every credit of an overflow-checked sequence stays in range. */
  predicate Fits(l: Book, ps: seq<Payout>) {
    |ps| == 0 || (Fits(l, ps[..|ps| - 1])
                  && Bal(CreditAll(l, ps[..|ps| - 1]), ps[|ps| - 1].dest) + ps[|ps| - 1].amount <= U128_MAX)
  }

  lemma {:induction false} TotalFits(l: Book, ps: seq<Payout>)
    requires Total(l) + PayoutTotal(ps) <= U128_MAX
    ensures Fits(l, ps)
  {
    if |ps| > 0 {
      TotalFits(l, ps[..|ps| - 1]);
      CreditAllTotal(l, ps[..|ps| - 1]);
      BalLe(CreditAll(l, ps[..|ps| - 1]), ps[|ps| - 1].dest);
    }
  }

  /** A payment into a split moves its running V and pays every recipient up to its share. */
  function FundSplit(sp: Split, amount: nat): (x: (Split, seq<Payout>))
    requires ValidSplit(sp) && sp.v + amount <= U128_MAX
    ensures ValidSplit(x.0)
  {
    var v' := sp.v + amount;
    EntitlementsMono(sp.recipients, sp.v, v');
    var paid' := Entitlements(sp.recipients, v');
    (sp.(v := v', paid := paid'), Payouts(sp.recipients, sp.paid, paid'))
  }

  function RecordPayment(r: Rail, t: Transfer): (x: (Rail, Reply))
    requires ValidRail(r)
    ensures ValidRail(x.0)
  {
    if t.to in r.splits then
      if r.splits[t.to].v + t.amount > U128_MAX then (r, Failed(SplitOverflow))
      else
        var (sp, ps) := FundSplit(r.splits[t.to], t.amount);
        if !Fits(r.ledger, ps) then (r, Failed(Panic))
        else RecordRef(r.(splits := r.splits[t.to := sp], ledger := CreditAll(r.ledger, ps)),
                       Info(t.to, t.asset, t.amount).(memo := t.memo))
    else if Bal(r.ledger, t.to) + t.amount > U128_MAX then (r, Failed(Panic))
    else RecordRef(r.(ledger := Credit(r.ledger, t.to, t.amount)), Info(t.to, t.asset, t.amount).(memo := t.memo))
  }

  function Submit(r: Rail, t: Transfer): (x: (Rail, Reply))
    requires ValidRail(r)
    ensures ValidRail(x.0)
  {
    if r.outage then (r, Failed(Outage)) else RecordPayment(r, t)
  }

  function Settle(r: Rail, t: Transfer, id: Word): (x: (Rail, Reply))
    requires ValidRail(r)
    ensures ValidRail(x.0)
  {
    if id in r.settleIds then (r, Ref(r.settleIds[id]))
    else if r.outage then (r, Failed(Outage))
    else
      var (r', reply) := RecordPayment(r, t);
      if reply.Ref? then (r'.(settleIds := r'.settleIds[id := reply.r]), reply) else (r', reply)
  }

  function Release(r: Rail, src: Address, to: Address, asset: Asset, amount: nat): (x: (Rail, Reply))
    requires ValidRail(r)
    ensures ValidRail(x.0)
  {
    if r.outage then (r, Failed(Outage))
    else if amount == 0 || amount > Bal(r.ledger, src) then (r, Failed(InsufficientEscrow))
    else RecordRef(r.(ledger := Credit(Debit(r.ledger, src, amount), to, amount)), Info(to, asset, amount))
  }

  function ReleaseKeyed(r: Rail, c: ChannelId, ckpt: CkptRef, src: Address, to: Address, asset: Asset, amount: nat)
    : (x: (Rail, Reply))
    requires ValidRail(r)
    ensures ValidRail(x.0)
  {
    if (c, ckpt) in r.releaseKeys then (r, Ref(r.releaseKeys[(c, ckpt)]))
    else
      var (r', reply) := Release(r, src, to, asset, amount);
      if reply.Ref? then (r'.(releaseKeys := r'.releaseKeys[(c, ckpt) := reply.r]), reply) else (r', reply)
  }

  function FundEntryAt(r: Rail, addr: Address, ev: Event, asset: Asset): (x: (Rail, Reply))
    requires ValidRail(r) && ev.FundEv? && EventOk(ev)
    ensures ValidRail(x.0)
  {
    if r.outage then (r, Failed(Outage))
    else if addr !in r.instances then (r, Failed(NoSuchAccount))
    else
      var (i', out) := FundEntry(r.instances[addr], ev.nonce, ev.amount, ev.refundPtr, ev.tOpen, ev.tLapse, ev.contest, r.clock);
      match out
      case Failure(e) => (r, Failed(MapEntryError(e)))
      case Success(id) =>
        var (r', reply) := RecordRef(r.(instances := r.instances[addr := i']),
          Info(addr, asset, ev.amount).(memo := Some(Chosen(ev.nonce)), fundsEntry := Some(id)));
        (r', Keyed(reply.r, id))
  }

  /** An instance call's refusal, if it is refused. */
  function Refusal(s: State, t: Timed): Option<EntryError>
    requires Valid(s)
  {
    var out := match t.ev
      case AttestEv(id, signed) => (var x := Attest(s, id, signed).1; if x.Failure? then Some(x.error) else None)
      case CancelEv(id, signed) => (var x := Cancel(s, id, signed).1; if x.Failure? then Some(x.error) else None)
      case OpenEv(id) => (var x := OpenReclaim(s, id, t.now).1; if x.Failure? then Some(x.error) else None)
      case ExecuteEv(id) => (var x := ExecuteReclaim(s, id, t.now).1; if x.Failure? then Some(x.error) else None)
      case LapseEv(id) => (var x := ClaimLapsed(s, id, t.now).1; if x.Failure? then Some(x.error) else None)
      case _ => None;
    out
  }

  predicate EntryCall(ev: Event) { ev.AttestEv? || ev.CancelEv? || ev.OpenEv? || ev.ExecuteEv? || ev.LapseEv? }

  function PutInstance(r: Rail, addr: Address, s: State, ps: seq<Payout>): (r': Rail)
    requires ValidRail(r) && addr in r.instances && Valid(s)
    ensures ValidRail(r')
  {
    r.(instances := r.instances[addr := s], ledger := CreditAll(r.ledger, ps))
  }

  /** Attest, cancel, open, execute or claim an entry: available during an outage, on the rail's clock. */
  function CallEntry(r: Rail, addr: Address, ev: Event): (x: (Rail, Reply))
    requires ValidRail(r) && EntryCall(ev)
    ensures ValidRail(x.0)
  {
    if addr !in r.instances then (r, Failed(NoSuchAccount))
    else
      var s, t := r.instances[addr], Timed(ev, r.clock);
      match Refusal(s, t)
      case Some(e) => (r, Failed(MapEntryError(e)))
      case None => (PutInstance(r, addr, Step(s, t).0, Step(s, t).1), Done)
  }

  /** `src` is the escrow a prepay draw debits; None is a fresh credit by the payer. */
  function FundClaim(r: Rail, src: Option<Address>, addr: Address, c: ChannelId, ckpt: CkptRef, amount: nat, asset: Asset)
    : (x: (Rail, Reply))
    requires ValidRail(r)
    ensures ValidRail(x.0)
  {
    if r.outage then (r, Failed(Outage))
    else if addr in r.instances && Claim(r.instances[addr].seed, c, ckpt, amount) in r.instances[addr].claims then (r, Failed(AlreadyFunded))
    else if src.Some? && (amount == 0 || amount > Bal(r.ledger, src.value)) then (r, Failed(InsufficientEscrow))
    else if addr !in r.instances then (r, Failed(NoSuchAccount))
    else
      var (s', out) := FundClaimRecord(r.instances[addr], c, ckpt, amount);
      match out
      case Failure(e) => (r, Failed(MapEntryError(e)))
      case Success(kp) =>
        var r1 := if src.Some? then r.(ledger := Debit(r.ledger, src.value, amount)) else r;
        var (r', reply) := RecordRef(PutInstance(r1, addr, s', kp.1),
          Info(addr, asset, amount).(memo := Some(OfRecord(kp.0)), fundsClaim := Some(kp.0)));
        (r', Keyed(reply.r, kp.0))
  }

  function AdvanceMeed(r: Rail, src: Option<Address>, addr: Address, c: ChannelId, target: nat, asset: Asset): (x: (Rail, Reply))
    requires ValidRail(r) && target <= U128_MAX
    ensures ValidRail(x.0)
  {
    if r.outage then (r, Failed(Outage))
    else if addr !in r.instances then (r, Failed(NoSuchAccount))
    else
      var s := r.instances[addr];
      var need := if target > FundedP(s, c) then target - FundedP(s, c) else 0;
      if src.Some? && need > 0 && need > Bal(r.ledger, src.value) then (r, Failed(InsufficientEscrow))
      else
        var (s', adv) := Advance(s, c, target);
        var r1 := if src.Some? && adv.delta > 0 then r.(ledger := Debit(r.ledger, src.value, adv.delta)) else r;
        RecordRef(PutInstance(r1, addr, s', adv.payouts),
          Info(addr, asset, adv.delta).(advanced := Some(AdvancedFact(c, s.seed, adv.funded, adv.delta, asset))))
  }

  datatype Level = Pending | Final

  function FinalityOf(r: Rail, ref: nat): Option<(Level, nat)> {
    if ref >= |r.refs| then None
    else
      var reached := r.refs[ref].0 + r.delay;
      if r.clock >= reached then Some((Final, reached)) else Some((Pending, r.refs[ref].0))
  }

  function RefTarget(r: Rail, ref: nat): Option<RefInfo> {
    if ref < |r.refs| then Some(r.refs[ref].1) else None
  }

  // ---- runs -----------------------------------------------------------------------------------

  datatype Op =
    | Tick(secs: nat)
    | SetOutage(on: bool)
    | SplitOp(seed: Seed, derived: Option<Seed>, meed: seq<MeedShare>, net: Address)
    | InstanceOp(seed: Seed, derived: Option<Seed>, key: Key, meed: seq<MeedShare>)
    | SubmitOp(t: Transfer)
    | SettleOp(t: Transfer, id: Word)
    | ReleaseOp(src: Address, to: Address, asset: Asset, amount: nat)
    | KeyedOp(c: ChannelId, ckpt: CkptRef, src: Address, to: Address, asset: Asset, amount: nat)
    | EntryOp(addr: Address, ev: Event, asset: Asset)
    | CallOp(addr: Address, ev: Event)
    | ClaimOp(from: Option<Address>, addr: Address, c: ChannelId, ckpt: CkptRef, amount: nat, asset: Asset)
    | AdvanceOp(from: Option<Address>, addr: Address, c: ChannelId, target: nat, asset: Asset)

  predicate OpOk(op: Op) {
    match op
    case InstanceOp(_, _, _, meed) => forall i :: 0 <= i < |meed| ==> meed[i].bp <= U16_MAX
    case EntryOp(_, ev, _) => ev.FundEv? && EventOk(ev)
    case CallOp(_, ev) => EntryCall(ev)
    case AdvanceOp(_, _, _, target, _) => target <= U128_MAX
    case _ => true
  }

  function Apply(r: Rail, op: Op): (x: (Rail, Reply))
    requires ValidRail(r) && OpOk(op)
    ensures ValidRail(x.0)
  {
    match op
    case Tick(secs) => (r.(clock := r.clock + secs), Done)
    case SetOutage(on) => (r.(outage := on), Done)
    case SplitOp(seed, derived, meed, net) => DeploySplit(r, seed, derived, meed, net)
    case InstanceOp(seed, derived, key, meed) => DeployInstance(r, seed, derived, key, meed)
    case SubmitOp(t) => Submit(r, t)
    case SettleOp(t, id) => Settle(r, t, id)
    case ReleaseOp(src, to, asset, amount) => Release(r, src, to, asset, amount)
    case KeyedOp(c, ckpt, src, to, asset, amount) => ReleaseKeyed(r, c, ckpt, src, to, asset, amount)
    case EntryOp(addr, ev, asset) => FundEntryAt(r, addr, ev, asset)
    case CallOp(addr, ev) => CallEntry(r, addr, ev)
    case ClaimOp(src, addr, c, ckpt, amount, asset) => FundClaim(r, src, addr, c, ckpt, amount, asset)
    case AdvanceOp(src, addr, c, target, asset) => AdvanceMeed(r, src, addr, c, target, asset)
  }

  predicate OpsOk(run: seq<Op>) { forall i :: 0 <= i < |run| ==> OpOk(run[i]) }

  function Run(r: Rail, run: seq<Op>): (r': Rail)
    requires ValidRail(r) && OpsOk(run)
    ensures ValidRail(r')
  {
    if |run| == 0 then r else Apply(Run(r, run[..|run| - 1]), run[|run| - 1]).0
  }
}
