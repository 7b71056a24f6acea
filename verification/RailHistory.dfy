/** What the synchronous rail never takes back: references, idempotency records, terminal entries,
    watermarks and the distribution facts that report them. */
module RailHistory {
  import opened Instance
  import opened Ledger
  import opened RailTypes
  import opened VirtualRail

  /** `s'` may follow `s` at the same address. */
  predicate InstanceGrows(s: State, s': State) {
    && s'.merchantKey == s.merchantKey && s'.seed == s.seed && s'.meed == s.meed
    && s.claims <= s'.claims
    && (forall id <- s.entries :: id in s'.entries && (!Live(s.entries[id]) ==> s'.entries[id] == s.entries[id]))
    && forall c <- s.channels :: c in s'.channels && s.channels[c].funded <= s'.channels[c].funded
  }

  predicate Grows(r: Rail, r': Rail) {
    && r'.delay == r.delay && r.clock <= r'.clock
    && r.refs <= r'.refs
    && (forall k <- r.settleIds :: k in r'.settleIds && r'.settleIds[k] == r.settleIds[k])
    && (forall k <- r.releaseKeys :: k in r'.releaseKeys && r'.releaseKeys[k] == r.releaseKeys[k])
    && (forall a <- r.splits :: a in r'.splits && r'.splits[a].recipients == r.splits[a].recipients && r.splits[a].v <= r'.splits[a].v)
    && (forall a <- r.instances :: a in r'.instances && InstanceGrows(r.instances[a], r'.instances[a]))
  }

  lemma StepInstanceGrows(s: State, t: Timed)
    requires Valid(s) && EventOk(t.ev)
    ensures InstanceGrows(s, Step(s, t).0)
  {
    StepEntriesKept(s, t);
    StepRecordsKept(s, t);
  }

  lemma StepEntriesKept(s: State, t: Timed)
    requires Valid(s) && EventOk(t.ev)
    ensures forall id <- s.entries :: id in Step(s, t).0.entries && (!Live(s.entries[id]) ==> Step(s, t).0.entries[id] == s.entries[id])
  {
    hide Valid, Step;
    forall id <- s.entries ensures id in Step(s, t).0.entries && (!Live(s.entries[id]) ==> Step(s, t).0.entries[id] == s.entries[id]) {
      EntryStep(s, t, id);
    }
  }

  lemma StepRecordsKept(s: State, t: Timed)
    requires Valid(s) && EventOk(t.ev)
    ensures var s' := Step(s, t).0;
            && s'.merchantKey == s.merchantKey && s'.seed == s.seed && s'.meed == s.meed && s.claims <= s'.claims
            && forall c <- s.channels :: c in s'.channels && s.channels[c].funded <= s'.channels[c].funded
  {
    hide Valid, SigOk, Payouts, Entitlements, BpTotal, ValidEntry;
  }

  predicate FactHolds(r: Rail, info: RefInfo) {
    info.advanced.Some? ==>
      var f := info.advanced.value;
      && info.to in r.instances && r.instances[info.to].seed == f.seed
      && f.funded <= FundedP(r.instances[info.to], f.channel)
  }

  lemma FundStep(s: State, ev: Event, now: nat)
    requires Valid(s) && ev.FundEv? && EventOk(ev)
    ensures Step(s, Timed(ev, now)).0 == FundEntry(s, ev.nonce, ev.amount, ev.refundPtr, ev.tOpen, ev.tLapse, ev.contest, now).0
  {
  }

  lemma AdvanceGrows(s: State, c: ChannelId, target: nat)
    requires Valid(s) && target <= U128_MAX
    ensures InstanceGrows(s, Advance(s, c, target).0)
    ensures Advance(s, c, target).1.funded == FundedP(Advance(s, c, target).0, c) && Advance(s, c, target).0.seed == s.seed
  {
    hide Valid, Payouts, Entitlements, BpTotal;
  }

  lemma ClaimGrows(s: State, c: ChannelId, ckpt: CkptRef, amount: nat)
    requires Valid(s)
    ensures InstanceGrows(s, FundClaimRecord(s, c, ckpt, amount).0)
  {
    hide Valid, Payouts, Entitlements, BpTotal;
  }

  /** At most one reference is added, and only an advance sets an advance fact: the watermark it left. */
  predicate NewRef(r: Rail, r': Rail, op: Op) {
    || r'.refs == r.refs
    || (|r'.refs| == |r.refs| + 1 && FactHolds(r', r'.refs[|r.refs|].1)
        && (r'.refs[|r.refs|].1.advanced.Some? ==> op.AdvanceOp?))
  }

  lemma EntryFollows(r: Rail, op: Op)
    requires ValidRail(r) && OpOk(op) && op.EntryOp?
    ensures Grows(r, Apply(r, op).0) && NewRef(r, Apply(r, op).0, op)
  {
    hide Valid, ValidSplit, CreditAll, Step, FundEntry, Grows, InstanceGrows;
    if op.addr in r.instances {
      FundStep(r.instances[op.addr], op.ev, r.clock);
      StepInstanceGrows(r.instances[op.addr], Timed(op.ev, r.clock));
      InstanceFrame(r, Apply(r, op).0, op.addr);
    } else {
      GrowsRefl(r);
    }
  }

  lemma CallFollows(r: Rail, op: Op)
    requires ValidRail(r) && OpOk(op) && op.CallOp?
    ensures Grows(r, Apply(r, op).0) && NewRef(r, Apply(r, op).0, op)
  {
    hide Valid, ValidSplit, CreditAll, Step, Refusal;
    if op.addr in r.instances {
      StepInstanceGrows(r.instances[op.addr], Timed(op.ev, r.clock));
    }
  }

  lemma AdvanceFollows(r: Rail, op: Op)
    requires ValidRail(r) && OpOk(op) && op.AdvanceOp?
    ensures Grows(r, Apply(r, op).0) && NewRef(r, Apply(r, op).0, op)
  {
    hide Valid, ValidSplit, CreditAll, Advance, Grows, InstanceGrows;
    if op.addr in r.instances {
      AdvanceGrows(r.instances[op.addr], op.c, op.target);
      InstanceFrame(r, Apply(r, op).0, op.addr);
    } else {
      GrowsRefl(r);
    }
  }

  lemma ClaimFollows(r: Rail, op: Op)
    requires ValidRail(r) && OpOk(op) && op.ClaimOp?
    ensures Grows(r, Apply(r, op).0) && NewRef(r, Apply(r, op).0, op)
  {
    hide Valid, ValidSplit, CreditAll, FundClaimRecord, Grows, InstanceGrows;
    var r' := Apply(r, op).0;
    if op.addr in r.instances {
      ClaimGrows(r.instances[op.addr], op.c, op.ckpt, op.amount);
      InstanceFrame(r, r', op.addr);
    } else {
      GrowsRefl(r);
    }
  }

  /** A call that touches at most the ledger, the references and one instance. */
  lemma InstanceFrame(r: Rail, r': Rail, a: Address)
    requires r'.(ledger := r.ledger, refs := r.refs, instances := r.instances) == r && r.refs <= r'.refs
    requires r'.instances == r.instances || (a in r.instances && a in r'.instances && r'.instances == r.instances[a := r'.instances[a]]
                                             && InstanceGrows(r.instances[a], r'.instances[a]))
    ensures Grows(r, r')
  {
  }

  lemma SplitValid(r: Rail, a: Address)
    requires ValidRail(r) && a in r.splits
    ensures ValidSplit(r.splits[a])
  {
  }

  lemma PaymentShape(r: Rail, t: Transfer)
    requires ValidRail(r)
    ensures var r' := RecordPayment(r, t).0;
            && r'.(ledger := r.ledger, refs := r.refs, splits := r.splits) == r
            && (r'.refs == r.refs || (|r'.refs| == |r.refs| + 1 && r.refs <= r'.refs && r'.refs[|r.refs|].1.advanced.None?))
            && (r'.splits == r.splits
                || (t.to in r.splits && r.splits[t.to].v + t.amount <= U128_MAX
                    && r'.splits == r.splits[t.to := FundSplit(r.splits[t.to], t.amount).0]))
  {
    if t.to in r.splits { SplitValid(r, t.to); }
    hide ValidRail, ValidSplit, CreditAll, FundSplit, Fits, Credit;
  }

  lemma PaymentFollows(r: Rail, t: Transfer, op: Op)
    requires ValidRail(r)
    ensures Grows(r, RecordPayment(r, t).0) && NewRef(r, RecordPayment(r, t).0, op)
    ensures RecordPayment(r, t).0.settleIds == r.settleIds
  {
    hide RecordPayment, Valid, ValidSplit, FundSplit, Grows;
    PaymentShape(r, t);
    if t.to in r.splits && r.splits[t.to].v + t.amount <= U128_MAX { FundSplitShape(r.splits[t.to], t.amount); }
    SplitFrame(r, RecordPayment(r, t).0, t.to);
  }

  lemma FundSplitShape(sp: Split, amount: nat)
    requires ValidSplit(sp) && sp.v + amount <= U128_MAX
    ensures FundSplit(sp, amount).0.recipients == sp.recipients && FundSplit(sp, amount).0.v == sp.v + amount
  {
  }

  /** A call that touches at most the ledger, the references, the idempotency records and one split. */
  lemma SplitFrame(r: Rail, r': Rail, a: Address)
    requires r'.(ledger := r.ledger, refs := r.refs, splits := r.splits, settleIds := r.settleIds, releaseKeys := r.releaseKeys) == r
    requires r.refs <= r'.refs
    requires forall k <- r.settleIds :: k in r'.settleIds && r'.settleIds[k] == r.settleIds[k]
    requires forall k <- r.releaseKeys :: k in r'.releaseKeys && r'.releaseKeys[k] == r.releaseKeys[k]
    requires r'.splits == r.splits
             || (a in r'.splits && r'.splits == r.splits[a := r'.splits[a]]
                 && (a in r.splits ==> r'.splits[a].recipients == r.splits[a].recipients && r.splits[a].v <= r'.splits[a].v))
    ensures Grows(r, r')
  {
  }

  lemma SettleFollows(r: Rail, op: Op)
    requires ValidRail(r) && op.SettleOp?
    ensures Grows(r, Apply(r, op).0) && NewRef(r, Apply(r, op).0, op)
  {
    hide RecordPayment, ValidRail;
    GrowsRefl(r);
    PaymentFollows(r, op.t, op);
  }

  lemma SubmitFollows(r: Rail, op: Op)
    requires ValidRail(r) && op.SubmitOp?
    ensures Grows(r, Apply(r, op).0) && NewRef(r, Apply(r, op).0, op)
  {
    hide RecordPayment, ValidRail, Grows, NewRef;
    GrowsRefl(r);
    NoNewRef(r, op);
    PaymentFollows(r, op.t, op);
  }

  lemma NoNewRef(r: Rail, op: Op)
    ensures NewRef(r, r, op)
  {
  }

  lemma ReleaseFollows(r: Rail, op: Op)
    requires ValidRail(r) && (op.ReleaseOp? || op.KeyedOp?)
    ensures Grows(r, Apply(r, op).0) && NewRef(r, Apply(r, op).0, op)
  {
    hide Valid, ValidSplit, Grows;
    SplitFrame(r, Apply(r, op).0, op.to);
  }

  lemma DeploySplitFollows(r: Rail, op: Op)
    requires ValidRail(r) && op.SplitOp?
    ensures Grows(r, Apply(r, op).0) && NewRef(r, Apply(r, op).0, op)
  {
    hide Valid, ValidSplit, BpTotal, AddressOf, FreshSplit, SplitRecipients, Grows;
    SplitFrame(r, Apply(r, op).0, AddressOf(op.seed));
  }

  lemma DeployInstanceFollows(r: Rail, op: Op)
    requires ValidRail(r) && OpOk(op) && op.InstanceOp?
    ensures Grows(r, Apply(r, op).0) && NewRef(r, Apply(r, op).0, op)
  {
    hide Valid, ValidSplit, AddressOf, Fresh;
  }

  lemma OtherFollows(r: Rail, op: Op)
    requires ValidRail(r) && OpOk(op) && (op.Tick? || op.SetOutage?)
    ensures Grows(r, Apply(r, op).0) && NewRef(r, Apply(r, op).0, op)
  {
  }

  lemma StepFollows(r: Rail, op: Op)
    requires ValidRail(r) && OpOk(op)
    ensures Grows(r, Apply(r, op).0) && NewRef(r, Apply(r, op).0, op)
  {
    hide Apply, ValidRail, Grows, NewRef;
    match op
    case EntryOp(_, _, _) => EntryFollows(r, op);
    case CallOp(_, _) => CallFollows(r, op);
    case AdvanceOp(_, _, _, _, _) => AdvanceFollows(r, op);
    case ClaimOp(_, _, _, _, _, _) => ClaimFollows(r, op);
    case SubmitOp(t) => SubmitFollows(r, op);
    case SettleOp(_, _) => SettleFollows(r, op);
    case ReleaseOp(_, _, _, _) => ReleaseFollows(r, op);
    case KeyedOp(_, _, _, _, _, _) => ReleaseFollows(r, op);
    case SplitOp(_, _, _, _) => DeploySplitFollows(r, op);
    case InstanceOp(_, _, _, _) => DeployInstanceFollows(r, op);
    case _ => OtherFollows(r, op);
  }

  /** References, idempotency records and recipients are immutable; running totals and watermarks
      only rise, over any sequence of calls. */
  lemma {:induction false} RunGrows(r: Rail, run: seq<Op>)
    requires ValidRail(r) && OpsOk(run)
    ensures Grows(r, Run(r, run))
  {
    hide Apply, ValidRail, Grows, OpOk;
    if |run| == 0 {
      GrowsRefl(r);
    } else {
      var mid, op := Run(r, run[..|run| - 1]), run[|run| - 1];
      RunGrows(r, run[..|run| - 1]);
      StepFollows(mid, op);
      GrowsTrans(r, mid, Apply(mid, op).0);
    }
  }

  lemma GrowsRefl(r: Rail)
    ensures Grows(r, r)
  {
  }

  lemma GrowsTrans(a: Rail, b: Rail, c: Rail)
    requires Grows(a, b) && Grows(b, c)
    ensures Grows(a, c)
  {
    assert forall x <- a.instances :: InstanceGrows(a.instances[x], b.instances[x]) && InstanceGrows(b.instances[x], c.instances[x]);
  }

  /** Once settled, an authorization answers with the same reference and moves nothing, whatever
      happened in between and whatever transfer it is presented with. */
  lemma SettledOnce(r: Rail, t: Transfer, id: Word, run: seq<Op>, again: Transfer)
    requires ValidRail(r) && OpsOk(run) && Settle(r, t, id).1.Ref?
    ensures var (r1, reply) := Settle(r, t, id);
            Settle(Run(r1, run), again, id) == (Run(r1, run), reply)
  {
    hide RecordPayment;
    var r1 := Settle(r, t, id).0;
    assert id in r1.settleIds && r1.settleIds[id] == Settle(r, t, id).1.r;
    RunGrows(r1, run);
  }

  /** The same for keyed releases: the first call per key is the only one that can move value. */
  lemma ReleasedOnce(r: Rail, c: ChannelId, ckpt: CkptRef, src: Address, to: Address, asset: Asset, amount: nat,
                     run: seq<Op>, src': Address, to': Address, asset': Asset, amount': nat)
    requires ValidRail(r) && OpsOk(run) && ReleaseKeyed(r, c, ckpt, src, to, asset, amount).1.Ref?
    ensures var (r1, reply) := ReleaseKeyed(r, c, ckpt, src, to, asset, amount);
            ReleaseKeyed(Run(r1, run), c, ckpt, src', to', asset', amount') == (Run(r1, run), reply)
  {
    var r1 := ReleaseKeyed(r, c, ckpt, src, to, asset, amount).0;
    assert (c, ckpt) in r1.releaseKeys;
    RunGrows(r1, run);
  }

  /** A final observation is never withdrawn, and it always names the same time. */
  lemma FinalStays(r: Rail, run: seq<Op>, ref: nat)
    requires ValidRail(r) && OpsOk(run) && FinalityOf(r, ref).Some? && FinalityOf(r, ref).value.0.Final?
    ensures FinalityOf(Run(r, run), ref) == FinalityOf(r, ref)
    ensures RefTarget(Run(r, run), ref) == RefTarget(r, ref)
  {
    RunGrows(r, run);
  }

  // ---- distribution facts ------------------------------------------------------------------------

  predicate FactsHold(r: Rail) {
    forall i :: 0 <= i < |r.refs| ==> FactHolds(r, r.refs[i].1)
  }

  lemma FactKept(r: Rail, r': Rail, info: RefInfo)
    requires Grows(r, r') && FactHolds(r, info)
    ensures FactHolds(r', info)
  {
    if info.advanced.Some? {
      assert InstanceGrows(r.instances[info.to], r'.instances[info.to]);
    }
  }

  /** No reference ever overstates a watermark: what any advance fact reports has been funded at that
      instance, in every later state. */
  lemma {:induction false} FactsNeverOverstate(delay: nat, run: seq<Op>)
    requires OpsOk(run)
    ensures FactsHold(Run(Empty(delay), run))
  {
    if |run| > 0 {
      var mid := Run(Empty(delay), run[..|run| - 1]);
      FactsNeverOverstate(delay, run[..|run| - 1]);
      FactsStep(mid, run[|run| - 1]);
    }
  }

  lemma FactsStep(r: Rail, op: Op)
    requires ValidRail(r) && OpOk(op) && FactsHold(r)
    ensures FactsHold(Apply(r, op).0)
  {
    hide Apply, ValidRail, OpOk, Grows, FactHolds;
    StepFollows(r, op);
    var r' := Apply(r, op).0;
    forall i | 0 <= i < |r'.refs| ensures FactHolds(r', r'.refs[i].1) {
      if i < |r.refs| {
        GrownRefs(r, r', i);
        FactKept(r, r', r.refs[i].1);
      }
    }
  }

  lemma GrownRefs(r: Rail, r': Rail, i: nat)
    requires Grows(r, r') && i < |r.refs|
    ensures i < |r'.refs| && r'.refs[i] == r.refs[i]
  {
  }
}
