/** Value on the synchronous rail: what is on the ledger, in the splits and in the instances adds up
    to what came in from outside, less what a distribution destroyed. */
module RailConservation {
  import opened Sums
  import opened Instance
  import opened Ledger
  import opened Options
  import opened RailTypes
  import opened VirtualRail

  ghost function SplitHeld(sp: Split): nat
    requires ValidSplit(sp)
  {
    ResidueBound(sp.recipients, sp.v);
    sp.v - Sum(sp.paid)
  }

  ghost function SplitsHeld(m: map<Address, Split>): map<Address, nat>
    requires forall a <- m :: ValidSplit(m[a])
  {
    map a | a in m :: SplitHeld(m[a])
  }

  ghost function InstancesHeld(m: map<Address, State>): map<Address, nat>
    requires forall a <- m :: Valid(m[a])
  {
    map a | a in m :: Held(m[a])
  }

  /** Everything the rail holds for anyone. */
  ghost function Value(r: Rail): nat
    requires ValidRail(r)
  {
    Total(r.ledger) + MapSum(SplitsHeld(r.splits)) + MapSum(InstancesHeld(r.instances))
  }

  // ---- one movement at a time --------------------------------------------------------------

  lemma PutSplit(m: map<Address, Split>, a: Address, sp: Split)
    requires (forall x <- m :: ValidSplit(m[x])) && ValidSplit(sp)
    ensures MapSum(SplitsHeld(m[a := sp])) == MapSum(SplitsHeld(m)) - (if a in m then SplitHeld(m[a]) else 0) + SplitHeld(sp)
  {
    hide MapSum, SplitHeld, ValidSplit;
    assert SplitsHeld(m[a := sp]) == SplitsHeld(m)[a := SplitHeld(sp)];
    MapSumPut(SplitsHeld(m), a, SplitHeld(sp));
  }

  lemma PutInst(m: map<Address, State>, a: Address, s: State)
    requires (forall x <- m :: Valid(m[x])) && Valid(s)
    ensures MapSum(InstancesHeld(m[a := s])) == MapSum(InstancesHeld(m)) - (if a in m then Held(m[a]) else 0) + Held(s)
  {
    hide MapSum, Held, Valid;
    assert InstancesHeld(m[a := s]) == InstancesHeld(m)[a := Held(s)];
    MapSumPut(InstancesHeld(m), a, Held(s));
  }

  lemma HeldLe(m: map<Address, State>, a: Address)
    requires (forall x <- m :: Valid(m[x])) && a in m
    ensures Held(m[a]) <= MapSum(InstancesHeld(m))
  {
    hide MapSum, Held, Valid;
    MapSumMember(InstancesHeld(m), a);
  }

  /** An instance moves value only between itself and the ledger. */
  lemma PutInstanceValue(r: Rail, addr: Address, s: State, ps: seq<Payout>)
    requires ValidRail(r) && addr in r.instances && Valid(s)
    requires Total(r.ledger) + PayoutTotal(ps) <= U128_MAX
    ensures Value(PutInstance(r, addr, s, ps)) + Held(r.instances[addr]) == Value(r) + Held(s) + PayoutTotal(ps)
  {
    hide MapSum, Held, Valid, ValidSplit, CreditAll, PayoutTotal;
    CreditAllTotal(r.ledger, ps);
    PutInst(r.instances, addr, s);
  }

  lemma FundSplitHeld(sp: Split, amount: nat)
    requires ValidSplit(sp) && sp.v + amount <= U128_MAX
    ensures var (sp', ps) := FundSplit(sp, amount);
            SplitHeld(sp') + PayoutTotal(ps) == SplitHeld(sp) + amount
  {
    var v' := sp.v + amount;
    EntitlementsMono(sp.recipients, sp.v, v');
    PayoutsTotal(sp.recipients, sp.paid, Entitlements(sp.recipients, v'));
    ResidueBound(sp.recipients, sp.v);
    ResidueBound(sp.recipients, v');
  }

  // ---- what a call brings in, and what it destroys -------------------------------------------

  /** Value a call accepts from outside the rail. */
  function Inflow(r: Rail, op: Op): nat
    requires ValidRail(r) && OpOk(op)
  {
    var reply := Apply(r, op).1;
    if reply.Failed? then 0
    else match op
      case SubmitOp(t) => t.amount
      case SettleOp(t, id) => if id in r.settleIds then 0 else t.amount
      case EntryOp(_, ev, _) => ev.amount
      case ClaimOp(src, _, _, _, amount, _) => if src.None? then amount else 0
      case AdvanceOp(src, addr, c, target, _) =>
        if src.None? && addr in r.instances then Advance(r.instances[addr], c, target).1.delta else 0
      case _ => 0
  }

  /** Value a call destroys: a pool distribution with no recipients, or past the running total's width. */
  function Destroyed(r: Rail, op: Op): nat
    requires ValidRail(r) && OpOk(op)
  {
    var reply := Apply(r, op).1;
    if reply.Failed? then 0
    else match op
      case CallOp(addr, ev) => if addr in r.instances then Lost(r.instances[addr], Timed(ev, r.clock)) else 0
      case ClaimOp(_, addr, _, _, amount, _) => if addr in r.instances then Burned(r.instances[addr], amount) else 0
      case _ => 0
  }

  /** The rail is down, or the payment would carry a split past its running total's width. */
  predicate PaymentRefused(r: Rail, t: Transfer) {
    r.outage || (t.to in r.splits && r.splits[t.to].v + t.amount > U128_MAX)
  }

  /** What a call would bring in if the rail had room: for a payment it does not refuse, its amount. */
  function Offered(r: Rail, op: Op): nat
    requires ValidRail(r) && OpOk(op)
  {
    match op
    case SubmitOp(t) => if PaymentRefused(r, t) then 0 else t.amount
    case SettleOp(t, id) => if id in r.settleIds || PaymentRefused(r, t) then 0 else t.amount
    case _ => Inflow(r, op)
  }

  lemma PaymentValue(r: Rail, t: Transfer)
    requires ValidRail(r) && Value(r) + t.amount <= U128_MAX
    ensures var (r', reply) := RecordPayment(r, t);
            && reply != Failed(Panic)
            && Value(r') == Value(r) + if reply.Ref? then t.amount else 0
  {
    hide MapSum, ValidSplit, Valid, Held, SplitHeld, Fits, CreditAll, FundSplit, PayoutTotal;
    if t.to in r.splits {
      if r.splits[t.to].v + t.amount <= U128_MAX {
        var (sp, ps) := FundSplit(r.splits[t.to], t.amount);
        FundSplitHeld(r.splits[t.to], t.amount);
        PutSplit(r.splits, t.to, sp);
        MapSumMember(SplitsHeld(r.splits), t.to);
        TotalFits(r.ledger, ps);
        CreditAllTotal(r.ledger, ps);
      }
    } else {
      BalLe(r.ledger, t.to);
      CreditTotal(r.ledger, t.to, t.amount);
    }
  }

  lemma ReleaseValue(r: Rail, src: Address, to: Address, asset: Asset, amount: nat)
    requires ValidRail(r) && Value(r) <= U128_MAX
    ensures var (r', reply) := Release(r, src, to, asset, amount);
            reply != Failed(Panic) && Value(r') == Value(r)
  {
    hide MapSum, ValidSplit, Valid, Held, SplitHeld;
    if !r.outage && 0 < amount <= Bal(r.ledger, src) {
      DebitTotal(r.ledger, src, amount);
      CreditTotal(Debit(r.ledger, src, amount), to, amount);
    }
  }

  lemma EntryValue(r: Rail, addr: Address, ev: Event, asset: Asset)
    requires ValidRail(r) && ev.FundEv? && EventOk(ev)
    ensures var (r', reply) := FundEntryAt(r, addr, ev, asset);
            reply != Failed(Panic) && Value(r') == Value(r) + if reply.Failed? then 0 else ev.amount
  {
    hide MapSum, ValidSplit, Valid, Held, SplitHeld;
    if !r.outage && addr in r.instances {
      var s := r.instances[addr];
      FundHeld(s, ev.nonce, ev.amount, ev.refundPtr, ev.tOpen, ev.tLapse, ev.contest, r.clock);
      PutInst(r.instances, addr, FundEntry(s, ev.nonce, ev.amount, ev.refundPtr, ev.tOpen, ev.tLapse, ev.contest, r.clock).0);
    }
  }

  lemma CallValue(r: Rail, addr: Address, ev: Event)
    requires ValidRail(r) && EntryCall(ev) && Value(r) <= U128_MAX
    ensures var (r', reply) := CallEntry(r, addr, ev);
            && reply != Failed(Panic)
            && Value(r') + (if reply.Failed? || addr !in r.instances then 0 else Lost(r.instances[addr], Timed(ev, r.clock))) == Value(r)
  {
    hide MapSum, ValidSplit, Valid, Held, SplitHeld, Step, PayoutTotal, Lost, TakenIn, Refusal;
    if addr in r.instances {
      var s, t := r.instances[addr], Timed(ev, r.clock);
      NothingTaken(s, t);
      StepHeld(s, t);
      HeldLe(r.instances, addr);
      PutInstanceValue(r, addr, Step(s, t).0, Step(s, t).1);
    }
  }

  lemma NothingTaken(s: State, t: Timed)
    requires Valid(s) && EntryCall(t.ev)
    ensures EventOk(t.ev) && TakenIn(s, t) == 0
  {
  }

  lemma ClaimValue(r: Rail, src: Option<Address>, addr: Address, c: ChannelId, ckpt: CkptRef, amount: nat, asset: Asset)
    requires ValidRail(r) && Value(r) + (if src.None? then amount else 0) <= U128_MAX
    ensures var (r', reply) := FundClaim(r, src, addr, c, ckpt, amount, asset);
            && reply != Failed(Panic)
            && (reply.Failed? ==> r' == r)
            && (!reply.Failed? ==>
                  && addr in r.instances
                  && Value(r') + Burned(r.instances[addr], amount) == Value(r) + if src.None? then amount else 0)
  {
    hide MapSum, ValidSplit, Valid, Held, SplitHeld, PayoutTotal, Burned, CreditAll, Distribute;
    var (r', reply) := FundClaim(r, src, addr, c, ckpt, amount, asset);
    if !reply.Failed? {
      var s := r.instances[addr];
      ClaimHeld(s, c, ckpt, amount);
      HeldLe(r.instances, addr);
      var (s', out) := FundClaimRecord(s, c, ckpt, amount);
      var r1 := if src.Some? then r.(ledger := Debit(r.ledger, src.value, amount)) else r;
      if src.Some? { DebitTotal(r.ledger, src.value, amount); }
      PutInstanceValue(r1, addr, s', out.value.1);
    }
  }

  lemma AdvanceValue(r: Rail, src: Option<Address>, addr: Address, c: ChannelId, target: nat, asset: Asset)
    requires ValidRail(r) && target <= U128_MAX
    requires Value(r) + (if src.None? && addr in r.instances then Advance(r.instances[addr], c, target).1.delta else 0) <= U128_MAX
    ensures var (r', reply) := AdvanceMeed(r, src, addr, c, target, asset);
            && reply != Failed(Panic)
            && (reply.Failed? ==> r' == r)
            && (!reply.Failed? ==>
                  && addr in r.instances
                  && Value(r') == Value(r) + if src.None? then Advance(r.instances[addr], c, target).1.delta else 0)
  {
    hide MapSum, ValidSplit, Valid, Held, SplitHeld, PayoutTotal, CreditAll;
    var (r', reply) := AdvanceMeed(r, src, addr, c, target, asset);
    if !reply.Failed? {
      var s := r.instances[addr];
      var (s', adv) := Advance(s, c, target);
      AdvanceHeld(s, c, target);
      HeldLe(r.instances, addr);
      var r1 := if src.Some? && adv.delta > 0 then r.(ledger := Debit(r.ledger, src.value, adv.delta)) else r;
      if src.Some? && adv.delta > 0 { DebitTotal(r.ledger, src.value, adv.delta); }
      PutInstanceValue(r1, addr, s', adv.payouts);
    }
  }

  lemma DeploySplitValue(r: Rail, seed: Seed, derived: Option<Seed>, meed: seq<MeedShare>, net: Address)
    requires ValidRail(r)
    ensures var (r', reply) := DeploySplit(r, seed, derived, meed, net);
            reply != Failed(Panic) && Value(r') == Value(r)
  {
    hide MapSum, ValidSplit, Valid, Held, SplitHeld, SplitRecipients, FreshSplit, AddressOf, BpTotal;
    SplitSharesAreWhole(meed, net);
    if derived == Some(seed) && SplitRecipients(meed, net).Some? && AddressOf(seed) !in r.splits {
      FreshSplitHeld(SplitRecipients(meed, net).value);
      PutSplit(r.splits, AddressOf(seed), FreshSplit(SplitRecipients(meed, net).value));
    }
  }

  lemma DeployInstanceValue(r: Rail, seed: Seed, derived: Option<Seed>, key: Key, meed: seq<MeedShare>)
    requires ValidRail(r) && forall i :: 0 <= i < |meed| ==> meed[i].bp <= U16_MAX
    ensures var (r', reply) := DeployInstance(r, seed, derived, key, meed);
            reply != Failed(Panic) && Value(r') == Value(r)
  {
    hide MapSum, ValidSplit, Valid, Held, Fresh, AddressOf;
    if derived == Some(seed) && AddressOf(seed) !in r.instances {
      FreshHeld(key, meed, seed);
      PutInst(r.instances, AddressOf(seed), Fresh(key, meed, seed));
    }
  }

  lemma FreshSplitHeld(rs: seq<MeedShare>)
    requires BpTotal(rs) == BP_BASE
    ensures SplitHeld(FreshSplit(rs)) == 0
  {
    ResidueBound(rs, 0);
  }

  lemma FreshHeld(key: Key, meed: seq<MeedShare>, seed: Seed)
    requires forall i :: 0 <= i < |meed| ==> meed[i].bp <= U16_MAX
    ensures Held(Fresh(key, meed, seed)) == 0
  {
    var s := Fresh(key, meed, seed);
    MapSumZero(LiveAmounts(s.entries));
    MapSumZero(Residues(s.channels));
    if BpTotal(s.meed) > 0 { ResidueBound(s.meed, 0); }
  }

  /** One call conserves value exactly, and none of the rail's overflow panics is reachable, as long
      as everything that ever came in fits 128 bits. */
  lemma StepConserves(r: Rail, op: Op)
    requires ValidRail(r) && OpOk(op)
    requires Value(r) + Offered(r, op) <= U128_MAX
    ensures Apply(r, op).1 != Failed(Panic)
    ensures Value(Apply(r, op).0) + Destroyed(r, op) == Value(r) + Inflow(r, op)
  {
    hide ValidRail, Value, Apply, Destroyed, Inflow, Offered;
    match op
    case SubmitOp(_) => PaymentOpValue(r, op);
    case SettleOp(_, _) => PaymentOpValue(r, op);
    case ReleaseOp(_, _, _, _) => ReleaseOpValue(r, op);
    case KeyedOp(_, _, _, _, _, _) => ReleaseOpValue(r, op);
    case EntryOp(_, _, _) => EntryOpValue(r, op);
    case CallOp(_, _) => EntryOpValue(r, op);
    case ClaimOp(_, _, _, _, _, _) => InflowOffered(r, op); ClaimOpValue(r, op);
    case AdvanceOp(_, _, _, _, _) => InflowOffered(r, op); AdvanceOpValue(r, op);
    case _ => OtherOpValue(r, op);
  }

  lemma PaymentOpValue(r: Rail, op: Op)
    requires ValidRail(r) && OpOk(op) && (op.SubmitOp? || op.SettleOp?) && Value(r) + Offered(r, op) <= U128_MAX
    ensures Apply(r, op).1 != Failed(Panic)
    ensures Value(Apply(r, op).0) + Destroyed(r, op) == Value(r) + Inflow(r, op)
  {
    hide MapSum, ValidSplit, Valid, Held, SplitHeld, Step, Lost, Burned, PayoutTotal, Refusal, Advance, Distribute;
    if !PaymentRefused(r, op.t) && (op.SubmitOp? || op.id !in r.settleIds) { PaymentValue(r, op.t); }
  }

  lemma ReleaseOpValue(r: Rail, op: Op)
    requires ValidRail(r) && OpOk(op) && (op.ReleaseOp? || op.KeyedOp?) && Value(r) + Offered(r, op) <= U128_MAX
    ensures Apply(r, op).1 != Failed(Panic)
    ensures Value(Apply(r, op).0) + Destroyed(r, op) == Value(r) + Inflow(r, op)
  {
    hide MapSum, ValidSplit, Valid, Held, SplitHeld, Step, Lost, Burned, PayoutTotal, Refusal, Advance, Distribute;
    ReleaseValue(r, op.src, op.to, op.asset, op.amount);
  }

  lemma EntryOpValue(r: Rail, op: Op)
    requires ValidRail(r) && OpOk(op) && (op.EntryOp? || op.CallOp?) && Value(r) + Offered(r, op) <= U128_MAX
    ensures Apply(r, op).1 != Failed(Panic)
    ensures Value(Apply(r, op).0) + Destroyed(r, op) == Value(r) + Inflow(r, op)
  {
    hide MapSum, ValidSplit, Valid, Held, SplitHeld, Step, Lost, Burned, PayoutTotal, Refusal, Advance, Distribute;
    if op.EntryOp? { EntryValue(r, op.addr, op.ev, op.asset); } else { CallValue(r, op.addr, op.ev); }
  }

  lemma OtherOpValue(r: Rail, op: Op)
    requires ValidRail(r) && OpOk(op) && (op.Tick? || op.SetOutage? || op.SplitOp? || op.InstanceOp?) && Value(r) + Offered(r, op) <= U128_MAX
    ensures Apply(r, op).1 != Failed(Panic)
    ensures Value(Apply(r, op).0) + Destroyed(r, op) == Value(r) + Inflow(r, op)
  {
    hide MapSum, ValidSplit, Valid, Held, SplitHeld, Step, Lost, Burned, PayoutTotal, Refusal, Advance, Distribute;
    if op.SplitOp? { DeploySplitValue(r, op.seed, op.derived, op.meed, op.net); }
    if op.InstanceOp? { DeployInstanceValue(r, op.seed, op.derived, op.key, op.meed); }
  }

  lemma ClaimOpValue(r: Rail, op: Op)
    requires ValidRail(r) && OpOk(op) && op.ClaimOp? && Value(r) + Inflow(r, op) <= U128_MAX
    ensures Apply(r, op).1 != Failed(Panic)
    ensures Value(Apply(r, op).0) + Destroyed(r, op) == Value(r) + Inflow(r, op)
  {
    hide MapSum, ValidSplit, Valid, Held, SplitHeld, Burned, PayoutTotal, Distribute;
    if !Apply(r, op).1.Failed? {
      ClaimValue(r, op.from, op.addr, op.c, op.ckpt, op.amount, op.asset);
    }
  }

  lemma AdvanceOpValue(r: Rail, op: Op)
    requires ValidRail(r) && OpOk(op) && op.AdvanceOp? && Value(r) + Inflow(r, op) <= U128_MAX
    ensures Apply(r, op).1 != Failed(Panic)
    ensures Value(Apply(r, op).0) + Destroyed(r, op) == Value(r) + Inflow(r, op)
  {
    hide MapSum, ValidSplit, Valid, Held, SplitHeld, Burned, PayoutTotal, Advance;
    if !Apply(r, op).1.Failed? {
      AdvanceValue(r, op.from, op.addr, op.c, op.target, op.asset);
    }
  }

  // ---- whole runs -----------------------------------------------------------------------------

  function OfferedBy(r: Rail, run: seq<Op>): nat
    requires ValidRail(r) && OpsOk(run)
  {
    if |run| == 0 then 0
    else OfferedBy(r, run[..|run| - 1]) + Offered(Run(r, run[..|run| - 1]), run[|run| - 1])
  }

  function InflowBy(r: Rail, run: seq<Op>): nat
    requires ValidRail(r) && OpsOk(run)
  {
    if |run| == 0 then 0
    else InflowBy(r, run[..|run| - 1]) + Inflow(Run(r, run[..|run| - 1]), run[|run| - 1])
  }

  function DestroyedBy(r: Rail, run: seq<Op>): nat
    requires ValidRail(r) && OpsOk(run)
  {
    if |run| == 0 then 0
    else DestroyedBy(r, run[..|run| - 1]) + Destroyed(Run(r, run[..|run| - 1]), run[|run| - 1])
  }

  lemma InflowOffered(r: Rail, op: Op)
    requires ValidRail(r) && OpOk(op)
    ensures Inflow(r, op) <= Offered(r, op)
  {
  }

  /** Any sequence of calls: what the rail holds plus what distributions destroyed is what it held
      plus what came in. No panic is ever reached. */
  lemma {:induction false} RunConserves(r: Rail, run: seq<Op>)
    requires ValidRail(r) && OpsOk(run) && Value(r) + OfferedBy(r, run) <= U128_MAX
    ensures Value(Run(r, run)) + DestroyedBy(r, run) == Value(r) + InflowBy(r, run)
    ensures InflowBy(r, run) <= OfferedBy(r, run)
    ensures |run| > 0 ==> Apply(Run(r, run[..|run| - 1]), run[|run| - 1]).1 != Failed(Panic)
  {
    hide Value, Apply, ValidRail, Inflow, Destroyed, Offered;
    if |run| > 0 {
      var mid := Run(r, run[..|run| - 1]);
      RunConserves(r, run[..|run| - 1]);
      InflowOffered(mid, run[|run| - 1]);
      StepConserves(mid, run[|run| - 1]);
    }
  }

  // ---- when nothing is destroyed ----------------------------------------------------------------

  /** What a call pours into an instance's running total. */
  function Poured(r: Rail, op: Op): nat
    requires ValidRail(r) && OpOk(op)
  {
    if Apply(r, op).1.Failed? then 0
    else match op
      case CallOp(addr, ev) =>
        if addr in r.instances && (ev.AttestEv? || ev.LapseEv?) && ev.id in r.instances[addr].entries
        then r.instances[addr].entries[ev.id].amount else 0
      case ClaimOp(_, _, _, _, amount, _) => amount
      case _ => 0
  }

  /** A call destroys value exactly when it pours some into an instance without recipients, or past
      the width of that instance's running total. */
  lemma DestroysIff(r: Rail, op: Op)
    requires ValidRail(r) && OpOk(op)
    ensures Destroyed(r, op) == 0 <==>
              (Poured(r, op) == 0
               || (PouredInto(r, op).Some?
                   && BpTotal(PouredInto(r, op).value.meed) > 0
                   && PouredInto(r, op).value.v + Poured(r, op) <= U128_MAX))
  {
    hide Valid, ValidSplit, SigOk;
  }

  function PouredInto(r: Rail, op: Op): Option<State> {
    match op
    case CallOp(addr, _) => if addr in r.instances then Some(r.instances[addr]) else None
    case ClaimOp(_, addr, _, _, _, _) => if addr in r.instances then Some(r.instances[addr]) else None
    case _ => None
  }

  /** What a call pours into the instance at `a`. */
  function PouredOn(r: Rail, op: Op, a: Address): nat
    requires ValidRail(r) && OpOk(op)
  {
    if (op.CallOp? || op.ClaimOp?) && op.addr == a then Poured(r, op) else 0
  }

  /** What a run pours into the instance at `a`. */
  function PouredTo(r: Rail, run: seq<Op>, a: Address): nat
    requires ValidRail(r) && OpsOk(run)
  {
    if |run| == 0 then 0
    else PouredTo(r, run[..|run| - 1], a) + PouredOn(Run(r, run[..|run| - 1]), run[|run| - 1], a)
  }

  /** What one call pours into the instance it names. */
  function PouredAt(s: State, t: Timed): nat
    requires Valid(s) && EventOk(t.ev)
  {
    match t.ev
    case AttestEv(id, signed) => if Attest(s, id, signed).1.Success? then s.entries[id].amount else 0
    case LapseEv(id) => if ClaimLapsed(s, id, t.now).1.Success? then s.entries[id].amount else 0
    case ClaimEv(c, ckpt, p) => if FundClaimRecord(s, c, ckpt, p).1.Success? then p else 0
    case _ => 0
  }

  function Raised(s: State, amount: nat): nat { if BpTotal(s.meed) > 0 then SatAdd128(s.v, amount) else s.v }

  lemma StepRaises(s: State, t: Timed)
    requires Valid(s) && EventOk(t.ev)
    ensures Step(s, t).0.meed == s.meed && Step(s, t).0.v == Raised(s, PouredAt(s, t))
  {
    hide Valid, SigOk, Payouts, Entitlements, BpTotal;
    WithinWidth(s);
  }

  lemma WithinWidth(s: State)
    requires Valid(s)
    ensures s.v <= U128_MAX
  {
  }

  /** Every running total rises by what is poured into its instance, up to its width; a new instance
      starts at zero. */
  predicate Topped(r: Rail, op: Op)
    requires ValidRail(r) && OpOk(op)
  {
    var r' := Apply(r, op).0;
    && (forall a <- r.instances ::
          a in r'.instances && r'.instances[a].meed == r.instances[a].meed
          && r'.instances[a].v == Raised(r.instances[a], PouredOn(r, op, a)))
    && forall a <- r'.instances :: a !in r.instances ==> r'.instances[a].v == 0
  }

  predicate Reaches(op: Op) { op.CallOp? || op.ClaimOp? || op.AdvanceOp? || op.EntryOp? }

  /** The instance event a call stands for. */
  function EventOf(op: Op): Event
    requires Reaches(op)
  {
    match op
    case ClaimOp(_, _, c, ckpt, amount, _) => ClaimEv(c, ckpt, amount)
    case AdvanceOp(_, _, c, target, _) => AdvanceEv(c, target)
    case _ => op.ev
  }

  /** A call that reaches an instance moves that one as the instance's own step does, or nothing. */
  predicate MovesOne(r: Rail, op: Op)
    requires ValidRail(r) && OpOk(op) && Reaches(op) && EventOk(EventOf(op))
  {
    var (r', reply) := Apply(r, op);
    if reply.Failed? then r'.instances == r.instances && Poured(r, op) == 0
    else
      && op.addr in r.instances
      && var s, t := r.instances[op.addr], Timed(EventOf(op), r.clock);
         r'.instances == r.instances[op.addr := Step(s, t).0] && PouredAt(s, t) == if op.CallOp? || op.ClaimOp? then Poured(r, op) else 0
  }

  lemma CallMoves(r: Rail, op: Op)
    requires ValidRail(r) && OpOk(op) && op.CallOp?
    ensures EventOk(EventOf(op)) && MovesOne(r, op)
  {
    hide Valid, ValidSplit, CreditAll, Step, SigOk, BpTotal;
  }

  lemma ClaimMoves(r: Rail, op: Op)
    requires ValidRail(r) && op.ClaimOp?
    ensures EventOk(EventOf(op)) && MovesOne(r, op)
  {
    hide Valid, ValidSplit, CreditAll, BpTotal, FundClaimRecord;
  }

  lemma AdvanceMoves(r: Rail, op: Op)
    requires ValidRail(r) && op.AdvanceOp? && OpOk(op)
    ensures EventOk(EventOf(op)) && MovesOne(r, op)
  {
    hide Valid, ValidSplit, CreditAll, BpTotal, Advance;
  }

  lemma EntryMoves(r: Rail, op: Op)
    requires ValidRail(r) && op.EntryOp? && OpOk(op)
    ensures EventOk(EventOf(op)) && MovesOne(r, op)
  {
    hide Valid, ValidSplit, BpTotal, FundEntry;
  }

  lemma ReplacedTops(r: Rail, op: Op, s: State)
    requires ValidRail(r) && OpOk(op) && Reaches(op) && op.addr in r.instances && Apply(r, op).0.instances == r.instances[op.addr := s]
    requires s.meed == r.instances[op.addr].meed && s.v == Raised(r.instances[op.addr], PouredOn(r, op, op.addr))
    ensures Topped(r, op)
  {
    hide Apply, ValidRail, Raised, Poured;
    NothingRaised(r);
  }

  lemma ReachingTops(r: Rail, op: Op)
    requires ValidRail(r) && OpOk(op) && Reaches(op) && EventOk(EventOf(op)) && MovesOne(r, op)
    ensures Topped(r, op) && Apply(r, op).0.instances.Keys == r.instances.Keys
    ensures Poured(r, op) > 0 && (op.CallOp? || op.ClaimOp?) ==> op.addr in r.instances
  {
    hide Apply, ValidRail, Step, PouredAt, Poured, Raised, EventOf, Topped;
    if Apply(r, op).1.Failed? {
      StillTops(r, op);
    } else {
      RailValid(r, op.addr);
      StepRaises(r.instances[op.addr], Timed(EventOf(op), r.clock));
      ReplacedTops(r, op, Step(r.instances[op.addr], Timed(EventOf(op), r.clock)).0);
    }
  }

  lemma NothingRaised(r: Rail)
    requires ValidRail(r)
    ensures forall a <- r.instances :: Raised(r.instances[a], 0) == r.instances[a].v
  {
    hide ValidRail;
    forall a <- r.instances ensures r.instances[a].v <= U128_MAX { RailWidth(r, a); }
  }

  lemma StillTops(r: Rail, op: Op)
    requires ValidRail(r) && OpOk(op) && Apply(r, op).0.instances == r.instances && forall a :: PouredOn(r, op, a) == 0
    ensures Topped(r, op)
  {
    hide Apply, ValidRail, PouredOn, Raised;
    NothingRaised(r);
  }

  lemma RailValid(r: Rail, a: Address)
    requires ValidRail(r) && a in r.instances
    ensures Valid(r.instances[a])
  {
  }

  lemma RailWidth(r: Rail, a: Address)
    requires ValidRail(r) && a in r.instances
    ensures r.instances[a].v <= U128_MAX
  {
    RailValid(r, a);
    WithinWidth(r.instances[a]);
  }

  lemma Deployed(r: Rail, op: Op)
    requires ValidRail(r) && op.InstanceOp? && OpOk(op)
    ensures var m := Apply(r, op).0.instances;
            && (forall a <- r.instances :: a in m && m[a] == r.instances[a])
            && forall a <- m :: a !in r.instances ==> m[a].v == 0 && m[a].meed == Aggregate(op.meed)
  {
    hide Valid, ValidSplit, BpTotal, Aggregate, AddressOf;
  }

  lemma DeployTops(r: Rail, op: Op)
    requires ValidRail(r) && op.InstanceOp? && OpOk(op)
    ensures Topped(r, op)
  {
    hide ValidRail, Apply, Raised, Aggregate;
    Deployed(r, op);
    NothingRaised(r);
  }

  lemma OtherTops(r: Rail, op: Op)
    requires ValidRail(r) && OpOk(op) && !Reaches(op) && !op.InstanceOp?
    ensures Topped(r, op)
  {
    hide Apply, ValidRail, Topped, Poured;
    InstancesUntouched(r, op);
    StillTops(r, op);
  }

  lemma InstancesUntouched(r: Rail, op: Op)
    requires ValidRail(r) && OpOk(op)
    requires !Reaches(op) && !op.InstanceOp?
    ensures Apply(r, op).0.instances == r.instances
  {
    hide ValidRail, RecordPayment, BpTotal, Aggregate, AddressOf;
    if op.SubmitOp? || op.SettleOp? { PaymentInstances(r, op.t); }
  }

  lemma PaymentInstances(r: Rail, t: Transfer)
    requires ValidRail(r)
    ensures RecordPayment(r, t).0.instances == r.instances
  {
    hide Valid, ValidSplit, CreditAll, FundSplit, BpTotal, Fits;
  }

  lemma StepTops(r: Rail, op: Op)
    requires ValidRail(r) && OpOk(op)
    ensures Topped(r, op)
    ensures Poured(r, op) > 0 ==> (op.CallOp? || op.ClaimOp?) && op.addr in r.instances
    ensures !op.InstanceOp? ==> Apply(r, op).0.instances.Keys == r.instances.Keys
  {
    hide Apply, Topped, ValidRail, MovesOne, EventOf;
    match op
    case CallOp(_, _) => CallMoves(r, op); ReachingTops(r, op);
    case ClaimOp(_, _, _, _, _, _) => ClaimMoves(r, op); ReachingTops(r, op);
    case AdvanceOp(_, _, _, _, _) => AdvanceMoves(r, op); ReachingTops(r, op);
    case EntryOp(_, _, _) => EntryMoves(r, op); ReachingTops(r, op);
    case InstanceOp(_, _, _, _) => DeployTops(r, op);
    case _ => OtherTops(r, op); InstancesUntouched(r, op);
  }

  /** The instance takes a total of `n`: nothing, or within the width of its running total with someone to
      share it. */
  predicate Absorbs(s: State, n: nat) { n == 0 || (BpTotal(s.meed) > 0 && n <= U128_MAX) }

  function Capped(n: nat): nat { if n <= U128_MAX then n else U128_MAX }

  /** Running totals are what was poured in, up to their width. */
  ghost predicate Tallied(delay: nat, run: seq<Op>)
    requires OpsOk(run)
  {
    var r := Run(Empty(delay), run);
    && (forall a <- r.instances :: r.instances[a].v == if BpTotal(r.instances[a].meed) > 0 then Capped(PouredTo(Empty(delay), run, a)) else 0)
    && forall a :: a !in r.instances ==> PouredTo(Empty(delay), run, a) == 0
  }

  ghost predicate AllAbsorb(delay: nat, run: seq<Op>)
    requires OpsOk(run)
  {
    var r := Run(Empty(delay), run);
    forall a <- r.instances :: Absorbs(r.instances[a], PouredTo(Empty(delay), run, a))
  }

  lemma TalliedStep(delay: nat, run: seq<Op>)
    requires OpsOk(run) && |run| > 0 && Tallied(delay, run[..|run| - 1])
    ensures Tallied(delay, run)
  {
    hide Apply, ValidRail, Poured, BpTotal, Empty;
    var mid, op := Run(Empty(delay), run[..|run| - 1]), run[|run| - 1];
    StepTops(mid, op);
  }

  lemma AbsorbedStep(delay: nat, run: seq<Op>)
    requires OpsOk(run) && |run| > 0 && Tallied(delay, run[..|run| - 1])
    ensures var mid, op := Run(Empty(delay), run[..|run| - 1]), run[|run| - 1];
            AllAbsorb(delay, run) <==> AllAbsorb(delay, run[..|run| - 1]) && Destroyed(mid, op) == 0
  {
    hide Apply, ValidRail, Poured, Destroyed, BpTotal, Empty;
    var mid, op := Run(Empty(delay), run[..|run| - 1]), run[|run| - 1];
    StepTops(mid, op);
    DestroysIff(mid, op);
  }

  /** From a new rail a run destroys nothing if and only if every instance it pours anything into has someone
      to share it with, and all that was ever poured into it fits its running total. */
  lemma {:induction false} NothingDestroyed(delay: nat, run: seq<Op>)
    requires OpsOk(run)
    ensures DestroyedBy(Empty(delay), run) == 0 <==> AllAbsorb(delay, run)
    ensures Tallied(delay, run)
  {
    hide Apply, ValidRail, Destroyed, Poured, Tallied, AllAbsorb, Empty;
    if |run| > 0 {
      NothingDestroyed(delay, run[..|run| - 1]);
      TalliedStep(delay, run);
      AbsorbedStep(delay, run);
    } else {
      NothingDeployed(delay, run);
    }
  }

  lemma NothingDeployed(delay: nat, run: seq<Op>)
    requires |run| == 0
    ensures Tallied(delay, run) && AllAbsorb(delay, run)
  {
  }

  /** Every deployed instance names a recipient with a positive share. */
  predicate Sharing(run: seq<Op>) {
    forall i :: 0 <= i < |run| && run[i].InstanceOp? ==> BpTotal(Aggregate(run[i].meed)) > 0
  }

  predicate Shared(r: Rail) { forall a <- r.instances :: BpTotal(r.instances[a].meed) > 0 }

  lemma SharedStep(r: Rail, op: Op)
    requires ValidRail(r) && OpOk(op) && Shared(r) && (op.InstanceOp? ==> BpTotal(Aggregate(op.meed)) > 0)
    ensures Shared(Apply(r, op).0)
  {
    hide Apply, ValidRail, BpTotal, Aggregate;
    StepTops(r, op);
    if op.InstanceOp? { Deployed(r, op); }
    forall a <- Apply(r, op).0.instances ensures BpTotal(Apply(r, op).0.instances[a].meed) > 0 { assert a in Apply(r, op).0.instances.Keys; }
  }

  lemma {:induction false} AllShare(delay: nat, run: seq<Op>)
    requires OpsOk(run) && Sharing(run)
    ensures Shared(Run(Empty(delay), run))
  {
    hide Apply, ValidRail, BpTotal, Aggregate, Shared;
    if |run| > 0 {
      AllShare(delay, run[..|run| - 1]);
      SharedStep(Run(Empty(delay), run[..|run| - 1]), run[|run| - 1]);
    } else {
      NoneDeployed(delay);
    }
  }

  lemma NoneDeployed(delay: nat)
    ensures Shared(Empty(delay))
  {
  }

  /** Where every instance shares and what was ever poured into each one fits 128 bits, what the rail holds
      is exactly what came in. */
  lemma ExactlyHeld(delay: nat, run: seq<Op>)
    requires OpsOk(run) && Sharing(run) && OfferedBy(Empty(delay), run) <= U128_MAX
    requires forall a :: PouredTo(Empty(delay), run, a) <= U128_MAX
    ensures Value(Run(Empty(delay), run)) == InflowBy(Empty(delay), run)
  {
    hide Apply, ValidRail, Destroyed, Poured, Inflow, Offered, Value, BpTotal, Empty, Run;
    NothingHeld(delay);
    AllShare(delay, run);
    NothingDestroyed(delay, run);
    RunConserves(Empty(delay), run);
  }

  lemma NothingHeld(delay: nat)
    ensures Value(Empty(delay)) == 0
  {
  }

  // ---- the limit of "inflow fits" -----------------------------------------------------------------

  const HALF: nat := 0x8000_0000_0000_0000_0000_0000_0000_0000

  const SOLE: seq<MeedShare> := [MeedShare("a", 1)]

  lemma SoleShare(v: nat)
    ensures BpTotal(SOLE) == 1 && Entitlements(SOLE, v) == [v]
  {
    assert Bps(SOLE) == [1] && [1][..0] == [];
    assert v * 1 / 1 == v;
  }

  /** The whole balance of the only recipient, drawn into the instance that pays it back. */
  function Draw(addr: Address, ckpt: CkptRef): Op { ClaimOp(Some("a"), addr, Cid(0), ckpt, HALF, "usd") }

  predicate Loop(r: Rail, addr: Address, v: nat, claims: set<RecordId>) {
    && ValidRail(r) && !r.outage && addr in r.instances && Bal(r.ledger, "a") == HALF
    && r.instances[addr].meed == SOLE && r.instances[addr].v == v && r.instances[addr].claims == claims
  }

  lemma DrawOnce(r: Rail, addr: Address, ckpt: CkptRef)
    requires Loop(r, addr, 0, {})
    ensures Inflow(r, Draw(addr, ckpt)) == Destroyed(r, Draw(addr, ckpt)) == 0
    ensures Loop(Apply(r, Draw(addr, ckpt)).0, addr, HALF, {Claim(r.instances[addr].seed, Cid(0), ckpt, HALF)})
    ensures Apply(r, Draw(addr, ckpt)).0.instances[addr].seed == r.instances[addr].seed
  {
    hide Valid, ValidSplit, Payouts, CreditAll, Entitlements, BpTotal;
    SoleShare(0);
    SoleShare(HALF);
    var s := r.instances[addr];
    assert Valid(s);
    assert s.paid == [0] by { hide *; SoleShare(0); ValidPaid(s); }
    OnePayout(SOLE, [0], [HALF]);
    OneCredit(Debit(r.ledger, "a", HALF), Payout("a", HALF));
  }

  lemma OnePayout(meed: seq<MeedShare>, a: seq<nat>, b: seq<nat>)
    requires |meed| == |a| == |b| == 1 && Leq(a, b) && a[0] < b[0]
    ensures Payouts(meed, a, b) == [Payout(meed[0].dest, b[0] - a[0])]
  {
    var none := PayoutsUpTo(meed, a, b, 0);
    assert PayoutsUpTo(meed, a, b, 1) == none + [Payout(meed[0].dest, b[0] - a[0])];
  }

  lemma OneCredit(l: Book, p: Payout)
    ensures CreditAll(l, [p]) == Credit(l, p.dest, p.amount)
  {
    var ps := [p];
    assert ps[..0] == [];
  }

  lemma ValidPaid(s: State)
    requires Valid(s) && BpTotal(s.meed) > 0
    ensures s.paid == Entitlements(s.meed, s.v)
  {
  }

  lemma DrawTwice(r: Rail, addr: Address)
    requires Loop(r, addr, 0, {})
    ensures var r1 := Apply(r, Draw(addr, 0)).0;
            && Offered(r, Draw(addr, 0)) == Inflow(r, Draw(addr, 0)) == 0 && Offered(r1, Draw(addr, 1)) == Inflow(r1, Draw(addr, 1)) == 0
            && Destroyed(r, Draw(addr, 0)) == 0 && Destroyed(r1, Draw(addr, 1)) == 1
  {
    hide Valid, ValidSplit;
    DrawOnce(r, addr, 0);
    SoleShare(0);
    var r1 := Apply(r, Draw(addr, 0)).0;
    var s := r1.instances[addr];
    assert Claim(s.seed, Cid(0), 1, HALF) !in s.claims;
    assert Burned(s, HALF) == 1;
    assert !Apply(r1, Draw(addr, 1)).1.Failed?;
  }

  /** One instance that shares with "a" alone, one payment to "a", and that money drawn into the instance
      twice. */
  function Circulation(): seq<Op> {
    [InstanceOp([], Some([]), 0, SOLE), SubmitOp(Transfer("a", "usd", HALF, None)), Draw(AddressOf([]), 0), Draw(AddressOf([]), 1)]
  }

  lemma SoleAggregate()
    ensures Aggregate(SOLE) == SOLE
  {
    assert SOLE[..0] == [];
    assert Aggregate(SOLE[..0]) == [];
  }

  lemma LoopReached()
    ensures var deploy, pay := Circulation()[0], Circulation()[1];
            var r1 := Apply(Empty(0), deploy).0;
            && Loop(Apply(r1, pay).0, AddressOf([]), 0, {})
            && Inflow(Empty(0), deploy) == Offered(Empty(0), deploy) == 0 && Inflow(r1, pay) == Offered(r1, pay) == HALF
            && Destroyed(Empty(0), deploy) == 0 && Destroyed(r1, pay) == 0
  {
    hide AddressOf, Aggregate, BpTotal, Entitlements;
    SoleAggregate();
  }

  lemma RunNext(r: Rail, run: seq<Op>, n: nat)
    requires ValidRail(r) && OpsOk(run) && n < |run|
    ensures var mid := Run(r, run[..n]);
            && Run(r, run[..n + 1]) == Apply(mid, run[n]).0
            && InflowBy(r, run[..n + 1]) == InflowBy(r, run[..n]) + Inflow(mid, run[n])
            && OfferedBy(r, run[..n + 1]) == OfferedBy(r, run[..n]) + Offered(mid, run[n])
            && DestroyedBy(r, run[..n + 1]) == DestroyedBy(r, run[..n]) + Destroyed(mid, run[n])
  {
    hide Apply, ValidRail, Inflow, Offered, Destroyed;
    assert run[..n + 1][..n] == run[..n];
  }

  lemma RunNone(r: Rail, none: seq<Op>)
    requires ValidRail(r) && |none| == 0
    ensures Run(r, none) == r && InflowBy(r, none) == OfferedBy(r, none) == DestroyedBy(r, none) == 0
  {
  }

  /** An inflow that fits is not enough for exact conservation: from a new rail, the same money drawn into
      an instance a second time saturates its running total, and one unit of what came in is destroyed. */
  lemma CirculationDestroys()
    ensures var run := Circulation();
            && OpsOk(run) && OfferedBy(Empty(0), run) == InflowBy(Empty(0), run) == HALF <= U128_MAX
            && DestroyedBy(Empty(0), run) == 1
  {
    hide Apply, ValidRail, Inflow, Offered, Destroyed, Empty, AddressOf, Run, InflowBy, OfferedBy, DestroyedBy;
    var run, r := Circulation(), Empty(0);
    RunNone(r, run[..0]);
    RunNext(r, run, 0); RunNext(r, run, 1); RunNext(r, run, 2); RunNext(r, run, 3);
    assert run[..4] == run;
    LoopReached();
    DrawTwice(Run(r, run[..2]), AddressOf([]));
  }
}
