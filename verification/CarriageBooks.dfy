/** The books never outrun the rail, and the round ledger invariant, in every state the carriage and the
    rail can reach together. */
module CarriageBooks {
  import opened Sums
  import opened Instance
  import opened RailTypes
  import opened VirtualRail
  import opened RailHistory
  import M = Metering
  import opened Books
  import opened BookMoves
  import opened Carriage
  import opened CarriageSteps
  import F7

  // ---- what holds of one channel ------------------------------------------------------------------

  /** How far the rail has funded a channel's watermark at the instance its terms derive. */
  function FundedAt(r: Rail, seed: Seed, cid: ChannelId): nat {
    if AddressOf(seed) in r.instances then FundedP(r.instances[AddressOf(seed)], cid) else 0
  }

  ghost predicate DrawnOk(r: Rail, cid: ChannelId, ch: Channel) {
    forall k <- ch.rounds :: !ch.rounds[k].confirmed && ch.rounds[k].drawRef.Some? ==>
      ch.rounds[k].target.Some? && ch.rounds[k].target.value <= FundedAt(r, ch.terms.seed, cid)
  }

  /** The instance a seed derives has shares to pay, if it is deployed. */
  predicate Shares(r: Rail, seed: Seed) {
    AddressOf(seed) in r.instances ==> BpTotal(r.instances[AddressOf(seed)].meed) > 0
  }

  ghost predicate ChannelOk(r: Rail, cid: ChannelId, ch: Channel) {
    BooksOk(ch) && (Shares(r, ch.terms.seed) ==> OwnUnits(ch) <= FundedAt(r, ch.terms.seed, cid) && DrawnOk(r, cid, ch))
  }

  predicate SnapshotOk(s: ChainSnapshot) {
    && |s.position.accruals| == |s.position.settled| && Sum(s.position.settled) % UNIT == 0
    && forall i :: 0 <= i < |s.position.settled| ==> s.position.settled[i] <= s.position.accruals[i]
  }

  ghost predicate Inv(s: System) {
    && ValidRail(s.r) && FactsHold(s.r)
    && (forall cid <- s.c.channels :: ChannelOk(s.r, cid, s.c.channels[cid]))
    && (forall k <- s.c.snapshots :: SnapshotOk(s.c.snapshots[k]))
  }

  // ---- frames ------------------------------------------------------------------------------------------

  lemma FundedMonotone(r: Rail, r': Rail, seed: Seed, cid: ChannelId)
    requires Grows(r, r')
    ensures FundedAt(r, seed, cid) <= FundedAt(r', seed, cid)
  {
    if AddressOf(seed) in r.instances {
      assert InstanceGrows(r.instances[AddressOf(seed)], r'.instances[AddressOf(seed)]);
    }
  }

  /** Instances are never removed and their vectors never change. */
  lemma SharesBefore(r: Rail, r': Rail, seed: Seed)
    requires Grows(r, r') && Shares(r', seed)
    ensures Shares(r, seed)
  {
    if AddressOf(seed) in r.instances {
      assert InstanceGrows(r.instances[AddressOf(seed)], r'.instances[AddressOf(seed)]);
    }
  }

  lemma ChannelOkGrows(r: Rail, r': Rail, cid: ChannelId, ch: Channel)
    requires Grows(r, r') && ChannelOk(r, cid, ch)
    ensures ChannelOk(r', cid, ch)
  {
    hide BooksOk, Grows, FundedAt, Shares;
    FundedMonotone(r, r', ch.terms.seed, cid);
    if Shares(r', ch.terms.seed) { SharesBefore(r, r', ch.terms.seed); }
  }

  /** Another party's call on the rail. */
  lemma RailKeeps(s: System, op: Op)
    requires Inv(s) && OpOk(op)
    ensures Inv(s.(r := Apply(s.r, op).0))
  {
    hide ChannelOk, Apply, FactsHold, ValidRail, OpOk;
    StepFollows(s.r, op);
    FactsStep(s.r, op);
    forall cid <- s.c.channels ensures ChannelOk(Apply(s.r, op).0, cid, s.c.channels[cid]) {
      ChannelOkGrows(s.r, Apply(s.r, op).0, cid, s.c.channels[cid]);
    }
  }

  lemma PutKeeps(s: System, cid: ChannelId, ch: Channel)
    requires Inv(s) && ChannelOk(s.r, cid, ch)
    ensures Inv(s.(c := PutChannel(s.c, cid, ch)))
  {
    hide ChannelOk, FactsHold, ValidRail, SnapshotOk;
  }

  // ---- opening -----------------------------------------------------------------------------------------------

  lemma ZeroLists(n: nat)
    ensures forall i :: 0 <= i < n ==> Zeros(n)[i] == 0
  {
  }

  lemma FreshChannelOk(r: Rail, cid: ChannelId, o: OpenReq)
    requires Sum(o.bp) <= UNIT && |o.bp| <= F7.MAX_ROLES
    ensures ChannelOk(r, cid, FreshChannel(o))
  {
    hide Sum;
    var ch := FreshChannel(o);
    M.NewOk(o.prepay, o.limitL, o.limitE, o.bp);
    ZeroLists(|o.bp|);
    assert MapSum<nat>(ch.meter.window) == 0;
    assert forall i :: 0 <= i < |o.bp| ==> FoldedOf(ch.rounds, i) == map[];
    assert NetOf(ch.rounds) == map[];
    MapSumEmpty<CkptRef>();
  }

  lemma ChainedChannelOk(r: Rail, cid: ChannelId, c: Carriage, o: OpenReq, pred: (ChannelId, CkptRef))
    requires Sum(o.bp) <= UNIT && |o.bp| <= F7.MAX_ROLES
    requires ChainedChannel(c, o, pred).Some? && SnapshotOk(c.snapshots[pred])
    ensures ChannelOk(r, cid, ChainedChannel(c, o, pred).value)
  {
    hide Sum;
    var s := c.snapshots[pred];
    var ch := ChainedChannel(c, o, pred).value;
    M.NewImportedOk(o.prepay, o.limitL, o.limitE, o.bp, s.position.cum, s.position.accruals, s.balance);
    assert ch.meter.window == map[] && MapSum<nat>(ch.meter.window) == 0;
    assert forall i :: 0 <= i < |o.bp| ==> FoldedOf(ch.rounds, i) == map[];
    assert NetOf(ch.rounds) == map[];
    MapSumEmpty<CkptRef>();
  }

  /** A position read from a channel with sound books can be imported. */
  lemma ComputedSnapshotOk(r: Rail, c: Carriage, p: ChannelId, ref: CkptRef)
    requires p in c.channels && ChannelOk(r, p, c.channels[p]) && ComputeSnapshot(c, p, ref).Some?
    ensures SnapshotOk(ComputeSnapshot(c, p, ref).value)
  {
    hide Sum, MapSum, Totals, Position, Serial, InFlight;
    var ch := c.channels[p];
    assert Whole(ch);
  }

  lemma RefreshKeeps(s: System, pred: (ChannelId, CkptRef))
    requires Inv(s) && pred.0 in s.c.disps && s.c.disps[pred.0].Intent?
    ensures Inv(s.(c := RefreshSnapshot(s.c, pred)))
  {
    hide ChannelOk, FactsHold, ValidRail, SnapshotOk;
    if ComputeSnapshot(s.c, pred.0, pred.1).Some? {
      assert pred.0 in s.c.channels;
      ComputedSnapshotOk(s.r, s.c, pred.0, pred.1);
    }
  }

  lemma EstablishKeeps(s: System, cid: ChannelId, o: OpenReq, openOk: bool, dispOk: bool)
    requires Inv(s)
    ensures Inv(s.(c := Establish(s.c, cid, o, openOk, dispOk).0))
  {
    hide ChannelOk, FactsHold, ValidRail, SnapshotOk, FreshChannel, ChainedChannel;
    if Conforms(o) {
      SchemaTotal();
      match o.predecessor
      case None => FreshChannelOk(s.r, cid, o);
      case Some(pred) =>
        if ChainedChannel(s.c, o, pred).Some? {
          ChainedHasSnapshot(s.c, o, pred);
          ChainedChannelOk(s.r, cid, s.c, o, pred);
        }
    }
  }

  lemma OpenKeeps(s: System, cid: ChannelId, o: OpenReq, openOk: bool, dispOk: bool)
    requires Inv(s)
    ensures Inv(s.(c := Open(s.c, cid, o, openOk, dispOk).0))
  {
    hide Inv, Establish;
    EstablishKeeps(s, cid, o, openOk, dispOk);
    if o.predecessor.Some? && o.predecessor.value.0 in s.c.disps && s.c.disps[o.predecessor.value.0].Intent? {
      RefreshKeeps(s, o.predecessor.value);
      EstablishKeeps(s.(c := RefreshSnapshot(s.c, o.predecessor.value)), cid, o, openOk, dispOk);
    }
  }

  // ---- metering, rounds and funding -----------------------------------------------------------------------------

  /** A move that keeps the books, the own settled units and the draw references. */
  lemma SameStanding(r: Rail, cid: ChannelId, ch: Channel, ch': Channel)
    requires ChannelOk(r, cid, ch) && BooksOk(ch') && OwnUnits(ch') == OwnUnits(ch) && ch'.terms == ch.terms
    requires forall k <- ch'.rounds :: !ch'.rounds[k].confirmed && ch'.rounds[k].drawRef.Some? ==>
               k in ch.rounds && !ch.rounds[k].confirmed && ch.rounds[k].drawRef.Some? && ch.rounds[k].target == ch'.rounds[k].target
    ensures ChannelOk(r, cid, ch')
  {
    hide BooksOk;
  }

  lemma BatchStep(s: System, cid: ChannelId, slices: seq<M.Slice>)
    requires Inv(s)
    ensures Inv(s.(c := Batch(s.c, cid, slices).0))
  {
    hide BooksOk, M.AcceptBatch, FactsHold, ValidRail, SnapshotOk, DrawnOk, OwnUnits;
    if cid in s.c.channels && |s.c.channels[cid].meter.accruals| == |s.c.channels[cid].meter.bp| {
      var ch := s.c.channels[cid];
      BatchKeeps(ch, slices);
      SameStanding(s.r, cid, ch, MeterBatch(ch, slices));
      PutKeeps(s, cid, MeterBatch(ch, slices));
    }
  }

  lemma CheckpointStep(s: System, cid: ChannelId, q: CkptReq)
    requires Inv(s)
    ensures Inv(s.(c := Checkpoint(s.c, cid, q).0))
  {
    hide BooksOk, M.Recomputes, M.CheckpointUpto, FactsHold, ValidRail, SnapshotOk, DrawnOk, OwnUnits;
    if cid in s.c.channels && |s.c.channels[cid].meter.accruals| == |s.c.channels[cid].meter.bp|
       && M.Recomputes(s.c.channels[cid].meter, q.lastSeq, q.cum, q.accruals) {
      var ch := s.c.channels[cid];
      CheckpointKeeps(ch, q.ref, q.lastSeq, q.cum, q.accruals);
      SameStanding(s.r, cid, ch, Checkpointed(ch, q.ref, q.lastSeq, q.cum, q.accruals));
      PutKeeps(s, cid, Checkpointed(ch, q.ref, q.lastSeq, q.cum, q.accruals));
    }
  }

  /** Nothing else is in flight, so all other rounds are confirmed. */
  lemma IdleBut(ch: Channel, ref: CkptRef)
    requires !OtherInFlight(ch, ref)
    ensures forall k <- ch.rounds :: k != ref ==> ch.rounds[k].confirmed
  {
  }

  lemma ProposeNewKeeps(r: Rail, cid: ChannelId, ch: Channel, p: Proposal)
    requires ChannelOk(r, cid, ch) && !ch.meter.prepay && !OtherInFlight(ch, p.ref) && p.ref !in ch.rounds
    requires ProposeNew(ch, p).Some?
    ensures ChannelOk(r, cid, ProposeNew(ch, p).value)
  {
    hide BooksOk, InFlight, Recompute, CumulativeTarget, DrawnOk, FundedAt;
    IdleBut(ch, p.ref);
    var (x, target) := Verified(ch).value;
    PostpayRoundInFlight(ch, x, target, p.hash);
    RecomputedBasis(ch);
    StartKeeps(ch, p.ref, PostpayRound(ch, x, target, p.hash));
    StartStanding(r, cid, ch, p.ref, PostpayRound(ch, x, target, p.hash));
  }

  lemma RecomputedBasis(ch: Channel)
    requires Recompute(ch).Some?
    ensures ch.operative.Some?
  {
  }

  lemma StartStanding(r: Rail, cid: ChannelId, ch: Channel, ref: CkptRef, d: Round)
    requires ChannelOk(r, cid, ch) && BooksOk(Start(ch, ref, d)) && d.drawRef.None?
    ensures ChannelOk(r, cid, Start(ch, ref, d))
  {
    hide BooksOk;
    SameUnits(ch, Start(ch, ref, d));
  }

  lemma SameUnits(ch: Channel, ch': Channel)
    requires BooksOk(ch) && BooksOk(ch') && ch'.ledger.settled == ch.ledger.settled && ch'.imported == ch.imported && ch'.meter.bp == ch.meter.bp
    ensures OwnUnits(ch') == OwnUnits(ch)
  {
    hide InFlight, MapSum, Position, Totals;
    SameOpening(ch, ch');
  }

  lemma ProposeRetryKeeps(r: Rail, cid: ChannelId, ch: Channel, p: Proposal)
    requires ChannelOk(r, cid, ch) && !ch.meter.prepay && p.ref in ch.rounds && ProposeRetry(ch, p).Some?
    ensures ChannelOk(r, cid, ProposeRetry(ch, p).value)
  {
    hide BooksOk;
    AddHashKeeps(ch, p.ref, p.hash);
    SameUnits(ch, ProposeRetry(ch, p).value);
  }

  lemma ProposeStep(s: System, cid: ChannelId, p: Proposal)
    requires Inv(s)
    ensures Inv(s.(c := Propose(s.c, cid, p).0))
  {
    hide ChannelOk, FactsHold, ValidRail, SnapshotOk, ProposeNew, ProposeRetry, OtherInFlight;
    if cid in s.c.channels && Propose(s.c, cid, p).1.Ok? {
      var ch := s.c.channels[cid];
      if p.ref in ch.rounds {
        ProposeRetryKeeps(s.r, cid, ch, p);
        PutKeeps(s, cid, ProposeRetry(ch, p).value);
      } else {
        ProposeNewKeeps(s.r, cid, ch, p);
        PutKeeps(s, cid, ProposeNew(ch, p).value);
      }
    }
  }

  lemma FundingStep(s: System, cid: ChannelId, f: Funding, ok: bool)
    requires Inv(s)
    ensures Inv(FundChannel(s, cid, f, ok).0)
  {
    hide BooksOk, FactsHold, ValidRail, SnapshotOk, DrawnOk, OwnUnits, FundingLegOk, Credited, ResolveTip, Fund, FundingTarget;
    var target := FundingTarget(s.c, cid);
    if target in s.c.channels {
      var ch := s.c.channels[target];
      forall credited: nat ensures ChannelOk(s.r, target, Fund(ch, credited)) {
        FundKeeps(ch, credited);
        FundStanding(s.r, target, ch, credited);
      }
    }
  }

  lemma FundStanding(r: Rail, cid: ChannelId, ch: Channel, credited: nat)
    requires ChannelOk(r, cid, ch) && BooksOk(Fund(ch, credited)) && OwnUnits(Fund(ch, credited)) == OwnUnits(ch)
    ensures ChannelOk(r, cid, Fund(ch, credited))
  {
    hide BooksOk, OwnUnits;
  }

  // ---- proofs ---------------------------------------------------------------------------------------------------------

  /** A meed leg read into a proof has reached the round's target on the rail. */
  lemma {:induction false} ReadMeedLeg(c: Carriage, r: Rail, cid: ChannelId, ch: Channel, ckpt: CkptRef, txs: seq<LegTx>)
    requires ckpt in ch.rounds && FactsHold(r) && ReadLegs(c, r, cid, ch, ckpt, txs).Some?
    ensures ReadLegs(c, r, cid, ch, ckpt, txs).value.meedTime.Some? ==>
              ch.rounds[ckpt].target.Some? && ch.rounds[ckpt].target.value <= FundedAt(r, ch.terms.seed, cid)
  {
    hide FinalityOf, IsFinal;
    if |txs| > 0 {
      var n := |txs| - 1;
      ReadMeedLeg(c, r, cid, ch, ckpt, txs[..n]);
      if txs[n].leg == 1 && MeedLegOk(r, cid, ch.terms, ch.rounds[ckpt].target.value, txs[n].ref) {
        assert FactHolds(r, r.refs[txs[n].ref].1);
      }
    }
  }

  lemma PlanFolds(d: Round, l: Legs)
    requires PlanOf(d, l).Some? && !d.confirmed && (d.meedTime.Some? ==> d.meedFolded)
    ensures MayFold(d, PlanOf(d, l).value.meed, PlanOf(d, l).value.net, PlanOf(d, l).value.confirm)
    ensures PlanOf(d, l).value.meed ==> l.meedTime.Some?
  {
  }

  /** The version a round captured is always the ledger's: the staleness rejection is unreachable. */
  lemma NeverStale(ch: Channel, ref: CkptRef)
    requires BooksOk(ch) && ref in ch.rounds && !ch.rounds[ref].confirmed
    ensures ch.rounds[ref].version == ch.ledger.version && |ch.rounds[ref].eR| == |ch.ledger.settled|
  {
    hide MapSum, Sum;
    assert InFlight(ch, ch.rounds[ref]);
  }

  lemma FoldStanding(r: Rail, cid: ChannelId, ch: Channel, ref: CkptRef, plan: Plan)
    requires ChannelOk(r, cid, ch) && ref in ch.rounds && MayFold(ch.rounds[ref], plan.meed, plan.net, plan.confirm)
    requires |ch.rounds[ref].eR| == |ch.ledger.settled| && !ch.meter.prepay
    requires plan.meed ==> ch.rounds[ref].target.Some? && ch.rounds[ref].target.value <= FundedAt(r, ch.terms.seed, cid)
    ensures ChannelOk(r, cid, FoldProof(ch, ref, plan.meed, plan.net, plan.confirm, plan.time))
  {
    hide BooksOk, OwnUnits, FundedAt, Shares;
    FoldProofKeeps(ch, ref, plan.meed, plan.net, plan.confirm, plan.time);
  }

  /** Interim rounds carry no hash, so a proof that would fold one can only name a postpay round. */
  lemma NamedIsPostpay(ch: Channel, ref: CkptRef, hash: nat)
    requires BooksOk(ch) && NamedBy(ch, ref, hash) && !ch.rounds[ref].confirmed
    ensures !ch.meter.prepay && (ch.rounds[ref].meedTime.Some? ==> ch.rounds[ref].meedFolded)
  {
    hide MapSum, Sum;
    assert InFlight(ch, ch.rounds[ref]);
  }

  lemma ProveStep(s: System, cid: ChannelId, ckpt: CkptRef, p: Proof, ok: bool)
    requires Inv(s) && cid in s.c.channels && NamedBy(s.c.channels[cid], ckpt, p.hash)
    ensures Inv(ProveRound(s, cid, ckpt, p, ok).0)
  {
    hide BooksOk, OwnUnits, DrawnOk, Shares, FactsHold, ValidRail, SnapshotOk, ReadLegs, PlanOf, FoldProof, MayFold, FundedAt;
    var ch := s.c.channels[cid];
    var d := ch.rounds[ckpt];
    assert BooksOk(ch);
    if !d.confirmed {
      NeverStale(ch, ckpt);
      NamedIsPostpay(ch, ckpt, p.hash);
      var read := ReadLegs(s.c, s.r, cid, ch, ckpt, p.txs);
      if read.Some? && PlanOf(d, read.value).Some? {
        var plan := PlanOf(d, read.value).value;
        PlanFolds(d, read.value);
        ReadMeedLeg(s.c, s.r, cid, ch, ckpt, p.txs);
        FoldStanding(s.r, cid, ch, ckpt, plan);
      }
    }
  }
}
