/** Every credit is backed: a transfer reference is credited at most once, and what a carriage credits
    itself never passes the on-rail amounts of the references it has consumed. */
module Credits {
  import opened Sums
  import opened Instance
  import opened VirtualRail
  import opened Books
  import opened BookMoves
  import opened Carriage
  import opened CarriageSteps
  import opened CarriageHistory
  import M = Metering

  /** What a channel has been credited with, as funding or as net legs. */
  function Worth(ch: Channel): nat { ch.ledger.funding + ch.ledger.net }

  function Gain(c: Carriage, c': Carriage, k: ChannelId): nat
    requires k in c.channels && k in c'.channels
  {
    if Worth(c'.channels[k]) > Worth(c.channels[k]) then Worth(c'.channels[k]) - Worth(c.channels[k]) else 0
  }

  function Gains(c: Carriage, c': Carriage): map<ChannelId, nat> {
    map k | k in c.channels && k in c'.channels :: Gain(c, c', k)
  }

  /** What a message credits to the channels, all told. */
  ghost function Credit(s: System, e: Message): nat
    requires ValidRail(s.r) && MessageOk(e)
  {
    MapSum<ChannelId>(Gains(s.c, Handle(s, e).0.c))
  }

  /** No channel's worth moves, except possibly `k`'s, by `x`. */
  predicate OnlyGains(c: Carriage, c': Carriage, k: ChannelId, x: nat) {
    forall j <- c.channels :: j in c'.channels ==> Worth(c'.channels[j]) == Worth(c.channels[j]) + (if j == k then x else 0)
  }

  lemma OneGain(c: Carriage, c': Carriage, k: ChannelId, x: nat)
    requires OnlyGains(c, c', k, x)
    ensures MapSum<ChannelId>(Gains(c, c')) <= x
  {
    hide MapSum;
    var g := Gains(c, c');
    if k in g {
      MapSumRemove<ChannelId>(g, k);
      MapSumZero<ChannelId>(g - {k});
    } else {
      MapSumZero<ChannelId>(g);
    }
  }

  // ---- where a credit comes from -----------------------------------------------------------------------

  /** A final payment to the merchant's pointer of at least `x`. */
  predicate Pays(c: Carriage, r: Rail, ref: nat, x: nat) {
    ref < |r.refs| && r.refs[ref].1.canonical == ref && r.refs[ref].1.to == c.cfg.settlePtr && IsFinal(r, ref) && x <= r.refs[ref].1.amount
  }

  /** The message records exactly one new funding decision, for `ref`. */
  predicate Consumes(c: Carriage, c': Carriage, ref: nat) {
    FundKey(ref) !in c.decisions && c'.decisions == c.decisions[FundKey(ref) := Bare]
  }

  ghost predicate PaidNow(s: System, c': Carriage, x: nat) {
    exists ref :: Consumes(s.c, c', ref) && Pays(s.c, s.r, ref, x)
  }

  /** Nothing is credited, or one channel is, from one payment consumed now. */
  ghost predicate Backed(s: System, c': Carriage) {
    exists k: ChannelId, x: nat :: OnlyGains(s.c, c', k, x) && (x == 0 || PaidNow(s, c', x))
  }

  lemma NothingGained(s: System, c': Carriage)
    requires forall j <- s.c.channels :: j in c'.channels ==> Worth(c'.channels[j]) == Worth(s.c.channels[j])
    ensures Backed(s, c')
  {
    assert OnlyGains(s.c, c', Cid(0), 0);
  }

  lemma GainedFrom(s: System, c': Carriage, k: ChannelId, ref: nat, x: nat)
    requires OnlyGains(s.c, c', k, x) && Consumes(s.c, c', ref) && Pays(s.c, s.r, ref, x)
    ensures Backed(s, c')
  {
    assert PaidNow(s, c', x);
  }

  lemma CanonicalIsItself(r: Rail, ref: nat)
    requires ValidRail(r) && RefTarget(r, ref).Some?
    ensures RefTarget(r, ref).value.canonical == ref && r.refs[ref].1 == RefTarget(r, ref).value
  {
    hide Valid, ValidSplit;
  }

  lemma FundingBacked(s: System, cid: ChannelId, f: Funding, ok: bool)
    requires ValidRail(s.r)
    ensures Backed(s, FundChannel(s, cid, f, ok).0.c)
  {
    hide ValidRail, FundingTarget, IsFinal, Backed;
    var c' := FundChannel(s, cid, f, ok).0.c;
    var target := FundingTarget(s.c, cid);
    if c'.channels == s.c.channels {
      NothingGained(s, c');
    } else {
      var info := RefTarget(s.r, f.ref).value;
      CanonicalIsItself(s.r, f.ref);
      var credited := Credited(s.c.channels[target], info.amount);
      GainedFrom(s, c', target, f.ref, credited);
    }
  }

  lemma {:induction false} ReadNetLeg(c: Carriage, r: Rail, cid: ChannelId, ch: Channel, ckpt: CkptRef, txs: seq<LegTx>)
    requires ValidRail(r) && ckpt in ch.rounds && ReadLegs(c, r, cid, ch, ckpt, txs).Some?
    ensures ReadLegs(c, r, cid, ch, ckpt, txs).value.netRef.Some? ==>
              Pays(c, r, ReadLegs(c, r, cid, ch, ckpt, txs).value.netRef.value, ch.rounds[ckpt].output)
  {
    hide FinalityOf, IsFinal, ValidRail, MeedLegOk;
    if |txs| > 0 {
      var n := |txs| - 1;
      ReadNetLeg(c, r, cid, ch, ckpt, txs[..n]);
      CanonicalIsItself(r, txs[n].ref);
    }
  }

  lemma FoldWorth(ch: Channel, ckpt: CkptRef, plan: Plan)
    requires ckpt in ch.rounds && |ch.rounds[ckpt].eR| == |ch.ledger.settled|
    ensures Worth(FoldProof(ch, ckpt, plan.meed, plan.net, plan.confirm, plan.time)) == Worth(ch) + if plan.net then ch.rounds[ckpt].output else 0
  {
    hide AddRoles, CarveDelta, M.ApplySettlementRound;
  }

  lemma ProofBacked(s: System, cid: ChannelId, ckpt: CkptRef, p: Proof, ok: bool)
    requires ValidRail(s.r) && cid in s.c.channels && ckpt in s.c.channels[cid].rounds
    ensures Backed(s, ProveRound(s, cid, ckpt, p, ok).0.c)
  {
    hide ValidRail, IsFinal, Pays, Backed, ReadLegs, PlanOf, FoldProof;
    var c' := ProveRound(s, cid, ckpt, p, ok).0.c;
    var ch := s.c.channels[cid];
    var read := ReadLegs(s.c, s.r, cid, ch, ckpt, p.txs);
    if c' == s.c {
      NothingGained(s, c');
      return;
    }
    var plan := PlanOf(ch.rounds[ckpt], read.value).value;
    FoldWorth(ch, ckpt, plan);
    if c'.decisions == s.c.decisions {
      NothingGained(s, c');
    } else {
      ReadNetLeg(s.c, s.r, cid, ch, ckpt, p.txs);
      PlanHasLeg(ch.rounds[ckpt], read.value);
      GainedFrom(s, c', cid, read.value.netRef.value, ch.rounds[ckpt].output);
    }
  }

  // ---- messages that credit nothing ----------------------------------------------------------------------

  predicate SameWorth(c: Carriage, c': Carriage) {
    forall j <- c.channels :: j in c'.channels ==> Worth(c'.channels[j]) == Worth(c.channels[j])
  }

  lemma BooksOnly(c: Carriage, e: Message)
    requires e.BatchMsg? || e.CheckpointMsg? || e.ProposeMsg?
    ensures e.BatchMsg? ==> SameWorth(c, Batch(c, e.cid, e.slices).0)
    ensures e.CheckpointMsg? ==> SameWorth(c, Checkpoint(c, e.cid, e.q).0)
    ensures e.ProposeMsg? ==> SameWorth(c, Propose(c, e.cid, e.p).0)
  {
    hide Verified, OtherInFlight, M.AcceptBatch, M.Recomputes;
  }

  lemma EstablishSame(c: Carriage, cid: ChannelId, o: OpenReq, openOk: bool, dispOk: bool)
    ensures SameWorth(c, Establish(c, cid, o, openOk, dispOk).0)
  {
    hide FreshChannel, ChainedChannel;
  }

  lemma RefreshSame(c: Carriage, pred: (ChannelId, CkptRef))
    requires pred.0 in c.disps && c.disps[pred.0].Intent?
    ensures RefreshSnapshot(c, pred).channels == c.channels
  {
    hide ComputeSnapshot;
  }

  lemma OpenCreditsNothing(c: Carriage, cid: ChannelId, o: OpenReq, openOk: bool, dispOk: bool)
    ensures SameWorth(c, Open(c, cid, o, openOk, dispOk).0)
  {
    hide Establish, RefreshSnapshot;
    EstablishSame(c, cid, o, openOk, dispOk);
    if o.predecessor.Some? && o.predecessor.value.0 in c.disps && c.disps[o.predecessor.value.0].Intent? {
      RefreshSame(c, o.predecessor.value);
      EstablishSame(RefreshSnapshot(c, o.predecessor.value), cid, o, openOk, dispOk);
    }
  }

  lemma DrawCreditsNothing(s: System, cid: ChannelId, ckpt: CkptRef)
    requires ValidRail(s.r) && cid in s.c.channels && ckpt in s.c.channels[cid].rounds
    ensures SameWorth(s.c, DrawLocked(s, cid, ckpt).0.c)
  {
    hide ValidRail, AdvanceMeed, IsFinal, FinalTime, AddRoles;
  }

  lemma InterimCreditsNothing(s: System, cid: ChannelId)
    requires ValidRail(s.r)
    ensures SameWorth(s.c, InterimDraw(s, cid).0.c)
  {
    hide DrawLocked, LockInterim, ValidRail;
    if cid in s.c.channels {
      var ch := s.c.channels[cid];
      if InFlightRef(ch).Some? { DrawCreditsNothing(s, cid, InFlightRef(ch).value); }
      if LockInterim(ch).Some? {
        var (k, locked) := LockInterim(ch).value;
        LockedSame(ch);
        DrawCreditsNothing(s.(c := PutChannel(s.c, cid, locked)), cid, k);
      }
    }
  }

  lemma LockedSame(ch: Channel)
    requires LockInterim(ch).Some?
    ensures LockInterim(ch).value.0 in LockInterim(ch).value.1.rounds && Worth(LockInterim(ch).value.1) == Worth(ch)
  {
  }

  lemma CloseCreditsNothing(s: System, cid: ChannelId, q: CloseReq, io: CloseIo)
    requires ValidRail(s.r)
    ensures SameWorth(s.c, Close(s, cid, q, io).0.c)
  {
    hide ValidRail, Reconcile, AttemptCloseDraw, PriorDisp, InFlightRef, Decide;
    if cid in s.c.channels {
      ReconcileLeaves(s, cid, q.ckpt, io);
      CloseDrawLeaves(Reconcile(s, cid, q.ckpt, io).0, cid);
      CloseDrawLeaves(s, cid);
    }
  }

  // ---- every message ---------------------------------------------------------------------------------------

  lemma HandleBacked(s: System, e: Message)
    requires ValidRail(s.r) && MessageOk(e)
    ensures Backed(s, Handle(s, e).0.c)
  {
    hide ValidRail, Backed, Open, Batch, Checkpoint, Propose, ProveRound, FundChannel, InterimDraw, Close, Apply, NamedBy, Decide;
    match e
    case ProofMsg(cid, ckpt, p, ok) =>
      if cid in s.c.channels && p.signed && NamedBy(s.c.channels[cid], ckpt, p.hash) {
        NamedHere(s.c.channels[cid], ckpt, p.hash);
        ProofBacked(s, cid, ckpt, p, ok);
      } else {
        NothingGained(s, s.c);
      }
    case FundingMsg(cid, f, ok) => FundingBacked(s, cid, f, ok);
    case OpenMsg(cid, o, openOk, dispOk) => OpenCreditsNothing(s.c, cid, o, openOk, dispOk); NothingGained(s, Handle(s, e).0.c);
    case InterimMsg(cid) => InterimCreditsNothing(s, cid); NothingGained(s, Handle(s, e).0.c);
    case CloseMsg(cid, q, io) => CloseCreditsNothing(s, cid, q, io); NothingGained(s, Handle(s, e).0.c);
    case RestartMsg => NothingGained(s, Handle(s, e).0.c);
    case ReplicaMsg(_, _) => NothingGained(s, Handle(s, e).0.c);
    case RailMsg(_) => NothingGained(s, Handle(s, e).0.c);
    case _ => BooksOnly(s.c, e); NothingGained(s, Handle(s, e).0.c);
  }

  /** A message that credits anything consumes, in a decision recorded for the first time, one final payment
      to the merchant's pointer of at least that amount. */
  lemma CreditNeedsPayment(s: System, e: Message)
    requires ValidRail(s.r) && MessageOk(e)
    ensures Credit(s, e) > 0 ==> PaidNow(s, Handle(s, e).0.c, Credit(s, e))
  {
    hide ValidRail, Handle, OnlyGains, MapSum;
    HandleBacked(s, e);
    var c' := Handle(s, e).0.c;
    var k: ChannelId, x: nat :| OnlyGains(s.c, c', k, x) && (x == 0 || PaidNow(s, c', x));
    OneGain(s.c, c', k, x);
  }

  /** The message credits from the reference `ref`. */
  ghost predicate CreditsFrom(s: System, e: Message, ref: nat)
    requires ValidRail(s.r) && MessageOk(e)
  {
    Credit(s, e) > 0 && Consumes(s.c, Handle(s, e).0.c, ref)
  }

  /** A reference is credited at most once, whatever channels, failed writes, restarts and other replicas'
      records come between. */
  lemma CreditedOnce(s: System, first: Message, mid: seq<Message>, second: Message, ref: nat)
    requires ValidRail(s.r) && MessageOk(first) && Sendable(mid) && MessageOk(second)
    ensures CreditsFrom(s, first, ref) ==> !CreditsFrom(Serve(Handle(s, first).0, mid), second, ref)
  {
    hide ValidRail, Handle, Serve, Credit;
    ServeHistory(Handle(s, first).0, mid);
  }

  // ---- the totals --------------------------------------------------------------------------------------------

  function AmountOf(r: Rail, ref: nat): nat { if ref < |r.refs| then r.refs[ref].1.amount else 0 }

  function Amounts(s: System): map<DecKey, nat> {
    map d | d in s.c.decisions && d.FundKey? :: AmountOf(s.r, d.ref)
  }

  /** The on-rail amounts of all references consumed. */
  ghost function Backing(s: System): nat { MapSum<DecKey>(Amounts(s)) }

  ghost function CreditOver(s: System, msgs: seq<Message>): nat
    requires ValidRail(s.r) && Sendable(msgs)
  {
    if |msgs| == 0 then 0
    else CreditOver(s, msgs[..|msgs| - 1]) + Credit(Serve(s, msgs[..|msgs| - 1]), msgs[|msgs| - 1])
  }

  lemma BackingStep(s: System, e: Message)
    requires ValidRail(s.r) && MessageOk(e)
    ensures Backing(s) + Credit(s, e) <= Backing(Handle(s, e).0)
  {
    hide ValidRail, Handle, Credit, MapSum, IsFinal;
    var s' := Handle(s, e).0;
    CreditNeedsPayment(s, e);
    HandleHistory(s, e);
    if Credit(s, e) > 0 {
      var ref :| Consumes(s.c, s'.c, ref) && Pays(s.c, s.r, ref, Credit(s, e));
      assert FundKey(ref) in Amounts(s');
      MapSumRemove<DecKey>(Amounts(s'), FundKey(ref));
      MapSumLe<DecKey>(Amounts(s), Amounts(s') - {FundKey(ref)});
    } else {
      MapSumLe<DecKey>(Amounts(s), Amounts(s'));
    }
  }

  /** Over any run, everything credited is covered by the on-rail amounts of references consumed in that
      run, each counted once. */
  lemma {:induction false} CreditsAreBacked(s: System, msgs: seq<Message>)
    requires ValidRail(s.r) && Sendable(msgs)
    ensures Backing(s) + CreditOver(s, msgs) <= Backing(Serve(s, msgs))
  {
    hide ValidRail, Handle, Credit, Backing;
    if |msgs| > 0 {
      CreditsAreBacked(s, msgs[..|msgs| - 1]);
      BackingStep(Serve(s, msgs[..|msgs| - 1]), msgs[|msgs| - 1]);
    }
  }
}
