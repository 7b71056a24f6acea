/** A postpay channel's funding and its net legs taken together: exactly which messages, and which runs, keep
    their sum within the metered merchant-net, and exactly which keep the sum with the net leg in flight
    within it. */
module NetTogether {
  import opened Sums
  import opened Options
  import opened Instance
  import opened VirtualRail
  import M = Metering
  import opened Books
  import opened BookMoves
  import opened Carriage
  import opened CarriageSteps
  import opened CarriageBooks
  import opened CarriageRuns
  import opened NetBounds
  import F7

  /** A round whose net leg a proof may still fold. */
  predicate LegPending(d: Round) { !d.confirmed && !d.netFolded }

  /** What funding and net legs leave of the metered merchant-net. */
  function Left(ch: Channel): int { LiveNet(ch) - ch.ledger.funding - ch.ledger.net }

  /** What is counted against the merchant-net: what has been paid, or that and the net leg in flight. */
  datatype Count = PaidOnly | WithLegs

  predicate Fitting(ch: Channel, n: Count) {
    !ch.meter.prepay ==>
      0 <= Left(ch) && (n.WithLegs? ==> forall k <- ch.rounds :: LegPending(ch.rounds[k]) ==> ch.rounds[k].output <= Left(ch))
  }

  predicate SnapshotFits(s: ChainSnapshot) {
    !s.prepay ==> s.position.funding + s.position.net <= MerchantNet(s.position.cum, s.position.accruals)
  }

  predicate Bounded(c: Carriage, n: Count) {
    && (forall k <- c.channels :: Fitting(c.channels[k], n))
    && forall p <- c.snapshots :: SnapshotFits(c.snapshots[p])
  }

  // ---- what a credit does ----------------------------------------------------------------------------------

  /** The payment leaves room for the net leg in flight, if there is one. */
  predicate LeavesRoom(ch: Channel, amount: nat) {
    ch.meter.prepay || forall k <- ch.rounds :: LegPending(ch.rounds[k]) && ch.rounds[k].output > 0 ==> amount + ch.rounds[k].output <= Left(ch)
  }

  /** Crediting a transfer keeps funding, net legs and the leg in flight within the merchant-net exactly when
      what is credited fits in what they leave of it; and that is when the whole transfer does. */
  lemma CreditFitsIff(ch: Channel, amount: nat)
    requires Fitting(ch, WithLegs)
    ensures Fitting(Fund(ch, Credited(ch, amount)), WithLegs) <==> LeavesRoom(ch, amount)
    ensures !ch.meter.prepay ==>
              (LeavesRoom(ch, amount) <==>
                 forall k <- ch.rounds :: LegPending(ch.rounds[k]) ==> Credited(ch, amount) <= LiveNet(ch) - ch.ledger.funding - ch.ledger.net - ch.rounds[k].output)
  {
    hide MerchantNet;
    var ch' := Fund(ch, Credited(ch, amount));
    assert LiveNet(ch') == LiveNet(ch) && ch'.rounds == ch.rounds;
    if !ch.meter.prepay {
      CreditedLeft(ch, amount);
      assert Left(ch') == Left(ch) - Credited(ch, amount);
    }
  }

  /** A credit alone never passes the merchant-net: it is capped at what is left of it. */
  lemma CreditIsCapped(ch: Channel, amount: nat)
    requires Fitting(ch, PaidOnly)
    ensures Fitting(Fund(ch, Credited(ch, amount)), PaidOnly)
  {
    hide MerchantNet;
    if !ch.meter.prepay { CreditedLeft(ch, amount); }
  }

  lemma CreditedLeft(ch: Channel, amount: nat)
    requires !ch.meter.prepay && 0 <= Left(ch)
    ensures Credited(ch, amount) == if amount <= Left(ch) then amount else Left(ch)
  {
  }

  /** Folding a net leg leaves the sum within the merchant-net exactly when the leg fitted before. */
  lemma FoldFitsIff(ch: Channel, ref: CkptRef, meed: bool, confirm: bool, time: Option<nat>)
    requires ref in ch.rounds && |ch.rounds[ref].eR| == |ch.ledger.settled|
    ensures 0 <= Left(FoldProof(ch, ref, meed, true, confirm, time)) <==> ch.rounds[ref].output <= Left(ch)
  {
    hide MerchantNet, CarveDelta;
  }

  // ---- messages that never matter ------------------------------------------------------------------------------

  lemma PutFits(c: Carriage, k: ChannelId, ch: Channel, n: Count)
    requires Bounded(c, n) && k in c.channels
    ensures Bounded(PutChannel(c, k, ch), n) <==> Fitting(ch, n)
  {
    hide Fitting, SnapshotFits;
    var c' := PutChannel(c, k, ch);
    assert c'.channels[k] == ch;
  }

  lemma ChannelFits(c: Carriage, k: ChannelId, n: Count)
    requires Bounded(c, n) && k in c.channels
    ensures Fitting(c.channels[k], n)
  {
  }

  lemma SameParts(c: Carriage, c': Carriage, n: Count)
    requires c'.channels == c.channels && c'.snapshots == c.snapshots
    ensures Bounded(c', n) <==> Bounded(c, n)
  {
  }

  /** Metering only adds to the merchant-net. */
  lemma BatchFits(c: Carriage, cid: ChannelId, slices: seq<M.Slice>, n: Count)
    requires Bounded(c, n) && forall k <- c.channels :: BooksOk(c.channels[k])
    ensures Bounded(Batch(c, cid, slices).0, n)
  {
    hide Bounded, BooksOk, MerchantNet, M.AcceptBatch;
    if cid in c.channels && |c.channels[cid].meter.accruals| == |c.channels[cid].meter.bp| {
      ChannelFits(c, cid, n);
      LiveNetGrows(c.channels[cid], slices);
      BatchPrepay(c.channels[cid], slices);
      PutFits(c, cid, MeterBatch(c.channels[cid], slices), n);
    }
  }

  lemma BatchPrepay(ch: Channel, slices: seq<M.Slice>)
    requires BooksOk(ch) && |ch.meter.accruals| == |ch.meter.bp|
    ensures MeterBatch(ch, slices).meter.prepay == ch.meter.prepay
  {
    hide MapSum, Sum;
    BooksPosition(ch);
    BatchShape(ch.meter, slices);
  }

  lemma CheckpointFits(c: Carriage, cid: ChannelId, q: CkptReq, n: Count)
    requires Bounded(c, n)
    ensures Bounded(Checkpoint(c, cid, q).0, n)
  {
    hide Bounded, MerchantNet, M.AccrualsAt, MapSum;
    if cid in c.channels && |c.channels[cid].meter.accruals| == |c.channels[cid].meter.bp|
       && M.Recomputes(c.channels[cid].meter, q.lastSeq, q.cum, q.accruals) {
      ChannelFits(c, cid, n);
      PutFits(c, cid, Checkpointed(c.channels[cid], q.ref, q.lastSeq, q.cum, q.accruals), n);
    }
  }

  /** A new round asks for no more than the evidenced merchant-net leaves. */
  lemma NewRoundFits(ch: Channel, p: Proposal, n: Count)
    requires BooksOk(ch) && Fitting(ch, n) && ProposeNew(ch, p).Some?
    ensures Fitting(ProposeNew(ch, p).value, n)
  {
    hide MapSum, Sum, MerchantNet, F7.Division, F7.OutstandingMeedPerRole, CumulativeTarget, BooksOk;
    var ch' := ProposeNew(ch, p).value;
    var x := Verified(ch).value.0;
    BooksPosition(ch);
    BasisNet(ch);
    OutputLeft(ch);
    assert LiveNet(ch') == LiveNet(ch) && ch'.rounds == ch.rounds[p.ref := ch'.rounds[p.ref]] && ch'.rounds[p.ref].output == x.output;
  }

  lemma OutputLeft(ch: Channel)
    requires Recompute(ch).Some?
    ensures var net := MerchantNet(BasisCum(ch), BasisAccruals(ch)) - ch.ledger.net - ch.ledger.funding;
            Recompute(ch).value.output == if net > 0 then net else 0
  {
    hide F7.Division, F7.OutstandingMeedPerRole;
  }

  lemma RetryFits(ch: Channel, p: Proposal, n: Count)
    requires Fitting(ch, n) && p.ref in ch.rounds && ProposeRetry(ch, p).Some?
    ensures Fitting(ProposeRetry(ch, p).value, n)
  {
    hide MerchantNet;
  }

  lemma ProposeFits(c: Carriage, cid: ChannelId, p: Proposal, n: Count)
    requires Bounded(c, n) && forall k <- c.channels :: BooksOk(c.channels[k])
    ensures Bounded(Propose(c, cid, p).0, n)
  {
    hide Bounded, Fitting, BooksOk, ProposeNew, ProposeRetry, OtherInFlight;
    if cid in c.channels && Propose(c, cid, p).1.Ok? {
      var ch := c.channels[cid];
      ChannelFits(c, cid, n);
      if p.ref in ch.rounds { RetryFits(ch, p, n); } else { NewRoundFits(ch, p, n); }
      PutFits(c, cid, Propose(c, cid, p).0.channels[cid], n);
    }
  }

  /** A fold of a leg that was counted all along changes nothing; one that was not counted has to fit. No
      other round was in flight. */
  lemma ProofFolds(ch: Channel, ref: CkptRef, plan: Plan, n: Count)
    requires BooksOk(ch) && Fitting(ch, n) && ref in ch.rounds && |ch.rounds[ref].eR| == |ch.ledger.settled| && !ch.meter.prepay
    requires MayFold(ch.rounds[ref], plan.meed, plan.net, plan.confirm)
    ensures Fitting(FoldProof(ch, ref, plan.meed, plan.net, plan.confirm, plan.time), n)
            <==> n.WithLegs? || !plan.net || ch.rounds[ref].output <= Left(ch)
  {
    hide MapSum, Sum, MerchantNet, CarveDelta, AddRoles, OwnUnits, Totals, Whole, Position, InFlight;
    var ch' := FoldProof(ch, ref, plan.meed, plan.net, plan.confirm, plan.time);
    assert LiveNet(ch') == LiveNet(ch) && ch'.meter.prepay == ch.meter.prepay;
    assert Serial(ch);
    assert plan.net ==> LegPending(ch.rounds[ref]);
    assert Left(ch') == Left(ch) - if plan.net then ch.rounds[ref].output else 0;
  }

  /** The proof folds its round's net leg: everything the handler checks passes, the leg is read and not yet
      folded, and its consumption is recorded. */
  predicate FoldsLeg(s: System, cid: ChannelId, ckpt: CkptRef, p: Proof, ok: bool)
    requires cid in s.c.channels && ckpt in s.c.channels[cid].rounds
  {
    var ch := s.c.channels[cid];
    var d := ch.rounds[ckpt];
    var read := ReadLegs(s.c, s.r, cid, ch, ckpt, p.txs);
    && !d.confirmed && d.version == ch.ledger.version && |d.eR| == |ch.ledger.settled|
    && read.Some? && PlanOf(d, read.value).Some? && PlanOf(d, read.value).value.net && read.value.netRef.Some?
    && read.value.netRef.value !in s.c.consumed && ch.ledger.net + d.output <= U128_MAX
    && FundKey(read.value.netRef.value) !in s.c.decisions && ok
  }

  lemma ProofFits(s: System, cid: ChannelId, ckpt: CkptRef, p: Proof, ok: bool, n: Count)
    requires Bounded(s.c, n) && cid in s.c.channels && BooksOk(s.c.channels[cid]) && NamedBy(s.c.channels[cid], ckpt, p.hash)
    ensures Bounded(ProveRound(s, cid, ckpt, p, ok).0.c, n)
            <==> n.WithLegs? || !FoldsLeg(s, cid, ckpt, p, ok) || s.c.channels[cid].rounds[ckpt].output <= Left(s.c.channels[cid])
  {
    hide Bounded, Fitting, BooksOk, ReadLegs, PlanOf, FoldProof, MayFold, Left;
    var ch := s.c.channels[cid];
    var d := ch.rounds[ckpt];
    var read := ReadLegs(s.c, s.r, cid, ch, ckpt, p.txs);
    var c' := ProveRound(s, cid, ckpt, p, ok).0.c;
    if !d.confirmed && |d.eR| == |ch.ledger.settled| && read.Some? && PlanOf(d, read.value).Some? {
      var plan := PlanOf(d, read.value).value;
      NamedIsPostpay(ch, ckpt, p.hash);
      PlanFolds(d, read.value);
      ChannelFits(s.c, cid, n);
      ProofFolds(ch, ckpt, plan, n);
      if plan.net { PlanHasLeg(d, read.value); }
      var done := FoldProof(ch, ckpt, plan.meed, plan.net, plan.confirm, plan.time);
      PutFits(s.c, cid, done, n);
      if plan.net && !FoldsLeg(s, cid, ckpt, p, ok) {
        SameParts(s.c, c', n);
      } else if d.version == ch.ledger.version {
        SameParts(PutChannel(s.c, cid, done), c', n);
      }
    }
  }

  // ---- draws, closes, opens -----------------------------------------------------------------------------------------

  lemma PrepayFits(ch: Channel, n: Count)
    requires ch.meter.prepay
    ensures Fitting(ch, n)
  {
  }

  lemma DrawFits(s: System, cid: ChannelId, ckpt: CkptRef, n: Count)
    requires ValidRail(s.r) && Bounded(s.c, n) && cid in s.c.channels && ckpt in s.c.channels[cid].rounds && s.c.channels[cid].meter.prepay
    ensures Bounded(DrawLocked(s, cid, ckpt).0.c, n)
  {
    hide ValidRail, Bounded, AdvanceMeed, IsFinal, FinalTime, AddRoles, Fitting;
    var c' := DrawLocked(s, cid, ckpt).0.c;
    if c' != s.c {
      assert c' == PutChannel(s.c, cid, c'.channels[cid]) && c'.channels[cid].meter == s.c.channels[cid].meter;
      PrepayFits(c'.channels[cid], n);
      PutFits(s.c, cid, c'.channels[cid], n);
    }
  }

  lemma InterimFits(s: System, cid: ChannelId, n: Count)
    requires ValidRail(s.r) && Bounded(s.c, n)
    ensures Bounded(InterimDraw(s, cid).0.c, n)
  {
    hide ValidRail, Bounded, DrawLocked, LockInterim, Fitting;
    if cid in s.c.channels && s.c.channels[cid].meter.prepay {
      var ch := s.c.channels[cid];
      if InFlightRef(ch).Some? { DrawFits(s, cid, InFlightRef(ch).value, n); }
      if LockInterim(ch).Some? {
        var (k, locked) := LockInterim(ch).value;
        LockRedraws(ch);
        PrepayFits(locked, n);
        PutFits(s.c, cid, locked, n);
        DrawFits(s.(c := PutChannel(s.c, cid, locked)), cid, k, n);
      }
    }
  }

  lemma DrainFits(ch: Channel, r: Rail, cid: ChannelId, n: Count)
    requires Fitting(ch, n)
    ensures Fitting(Drain(ch, r, cid), n)
  {
    hide DrawnOnRail, AddRoles, MerchantNet;
    if ch.meter.prepay {
      DrainRedraws(ch, r, cid);
      PrepayFits(Drain(ch, r, cid), n);
    }
  }

  lemma ReconcileFits(s: System, cid: ChannelId, ckpt: CkptRef, io: CloseIo, n: Count)
    requires ValidRail(s.r) && Bounded(s.c, n) && cid in s.c.channels
    ensures Bounded(Reconcile(s, cid, ckpt, io).0.c, n)
  {
    hide ValidRail, Bounded, IssueRefund, Drain, PendingDraw;
    var s1 := IssueRefund(s, cid, ckpt, io.reserveOk, io.refOk);
    RefundLeaves(s, cid, ckpt, io.reserveOk, io.refOk);
    SameParts(s.c, s1.c, n);
    var drained := Drain(s1.c.channels[cid], s1.r, cid);
    ChannelFits(s1.c, cid, n);
    DrainFits(s1.c.channels[cid], s1.r, cid, n);
    PutFits(s1.c, cid, drained, n);
    SameParts(PutChannel(s1.c, cid, drained), Reconcile(s, cid, ckpt, io).0.c, n);
  }

  lemma TerminatedFits(c: Carriage, cid: ChannelId, n: Count)
    requires Bounded(c, n) && cid in c.channels
    ensures Bounded(Terminated(c, cid), n)
  {
    hide MerchantNet;
    ChannelFits(c, cid, n);
    PutFits(c, cid, c.channels[cid].(meter := M.BeginSettling(c.channels[cid].meter)), n);
  }

  lemma CloseFits(s: System, cid: ChannelId, q: CloseReq, io: CloseIo, n: Count)
    requires ValidRail(s.r) && Bounded(s.c, n)
    ensures Bounded(Close(s, cid, q, io).0.c, n)
  {
    hide ValidRail, Bounded, Reconcile, AttemptCloseDraw, Terminated, InFlightRef, PriorDisp;
    if cid in s.c.channels {
      forall c: Carriage | c.channels == s.c.channels && c.snapshots == s.c.snapshots ensures Bounded(Terminated(c, cid), n) {
        SameParts(s.c, c, n);
        TerminatedFits(c, cid, n);
      }
      ReconcileFits(s, cid, q.ckpt, io, n);
      var s1 := Reconcile(s, cid, q.ckpt, io).0;
      CloseDrawLeaves(s, cid);
      CloseDrawLeaves(s1, cid);
      SameParts(s1.c, AttemptCloseDraw(s1, cid).c, n);
      TerminatedFits(AttemptCloseDraw(s1, cid).c, cid, n);
    }
  }

  /** At rest the evidenced merchant-net is the live one. */
  lemma RestingFits(c: Carriage, p: ChannelId, ref: CkptRef, n: Count)
    requires p in c.channels && BooksOk(c.channels[p]) && Fitting(c.channels[p], n) && Rests(c.channels[p])
    requires ComputeSnapshot(c, p, ref).Some?
    ensures SnapshotFits(ComputeSnapshot(c, p, ref).value)
  {
    hide MapSum, Sum, MerchantNet, BooksOk, ImportedBalance;
    BooksPosition(c.channels[p]);
    BasisNet(c.channels[p]);
    if c.channels[p].operative.None? { NothingMetered(c.channels[p].meter.accruals); }
  }

  lemma RefreshFits(c: Carriage, pred: (ChannelId, CkptRef), n: Count)
    requires Bounded(c, n) && NetInv(c) && (forall k <- c.channels :: BooksOk(c.channels[k])) && pred.0 in c.disps && c.disps[pred.0].Intent?
    ensures Bounded(RefreshSnapshot(c, pred), n)
  {
    hide BooksOk, Fitting, NetOk, Rests, SnapshotFits, SnapshotNet, ComputeSnapshot;
    if ComputeSnapshot(c, pred.0, pred.1).Some? { RestingFits(c, pred.0, pred.1, n); }
  }

  lemma BuiltFits(c: Carriage, o: OpenReq, n: Count)
    requires Bounded(c, n)
    ensures Fitting(FreshChannel(o), n)
    ensures o.predecessor.Some? && ChainedChannel(c, o, o.predecessor.value).Some? ==> Fitting(ChainedChannel(c, o, o.predecessor.value).value, n)
  {
    if o.predecessor.Some? && o.predecessor.value in c.snapshots { assert SnapshotFits(c.snapshots[o.predecessor.value]); }
  }

  lemma EstablishFits(c: Carriage, cid: ChannelId, o: OpenReq, openOk: bool, dispOk: bool, n: Count)
    requires Bounded(c, n)
    ensures Bounded(Establish(c, cid, o, openOk, dispOk).0, n)
  {
    hide Fitting, SnapshotFits, FreshChannel, ChainedChannel, Conforms;
    BuiltFits(c, o, n);
  }

  lemma OpenFits(c: Carriage, cid: ChannelId, o: OpenReq, openOk: bool, dispOk: bool, n: Count)
    requires Bounded(c, n) && NetInv(c) && (forall k <- c.channels :: BooksOk(c.channels[k]))
    ensures Bounded(Open(c, cid, o, openOk, dispOk).0, n)
  {
    hide Bounded, NetInv, BooksOk, Establish, RefreshSnapshot;
    EstablishFits(c, cid, o, openOk, dispOk, n);
    if o.predecessor.Some? && o.predecessor.value.0 in c.disps && c.disps[o.predecessor.value.0].Intent? {
      RefreshFits(c, o.predecessor.value, n);
      EstablishFits(RefreshSnapshot(c, o.predecessor.value), cid, o, openOk, dispOk, n);
    }
  }

  lemma RestartFits(c: Carriage, n: Count)
    ensures Bounded(Restart(c), n)
  {
  }

  // ---- every message ---------------------------------------------------------------------------------------------

  /** The proof credits its target: everything the handler checks passes, and the consumption is recorded. */
  predicate Accepted(s: System, cid: ChannelId, f: Funding, ok: bool) {
    && cid in s.c.channels && f.signed && f.authHash == s.c.channels[cid].terms.authHash
    && FundingAdmissible(s.c, FundingTarget(s.c, cid)) && FundingLegOk(s.c, s.r, s.c.channels[cid], f)
    && var info := RefTarget(s.r, f.ref).value;
       var ch := s.c.channels[FundingTarget(s.c, cid)];
       && info.canonical !in s.c.consumed && ch.ledger.funding + Credited(ch, info.amount) <= U128_MAX
       && FundKey(info.canonical) !in s.c.decisions && ok
  }

  /** Can be checked before the message is handled: it credits no postpay channel whose net leg in flight
      needs the room. */
  predicate LegsFit(s: System, e: Message) {
    e.FundingMsg? && Accepted(s, e.cid, e.f, e.ok) ==>
      LeavesRoom(s.c.channels[FundingTarget(s.c, e.cid)], RefTarget(s.r, e.f.ref).value.amount)
  }

  /** Can be checked before the message is handled: it folds a net leg that what is left does not cover. */
  predicate Overruns(s: System, e: Message) {
    && e.ProofMsg? && e.cid in s.c.channels && e.proof.signed && NamedBy(s.c.channels[e.cid], e.ckpt, e.proof.hash)
    && FoldsLeg(s, e.cid, e.ckpt, e.proof, e.ok) && s.c.channels[e.cid].rounds[e.ckpt].output > Left(s.c.channels[e.cid])
  }

  predicate Harmless(s: System, e: Message, n: Count) { if n.WithLegs? then LegsFit(s, e) else !Overruns(s, e) }

  lemma FundingFits(s: System, cid: ChannelId, f: Funding, ok: bool, n: Count)
    requires Bounded(s.c, n)
    ensures Bounded(FundChannel(s, cid, f, ok).0.c, n) <==> n.PaidOnly? || LegsFit(s, FundingMsg(cid, f, ok))
  {
    hide Bounded, IsFinal, Credited, ResolveTip, Fund, FundingTarget, LeavesRoom, Fitting;
    var c' := FundChannel(s, cid, f, ok).0.c;
    var target := FundingTarget(s.c, cid);
    if Accepted(s, cid, f, ok) {
      var ch, amount := s.c.channels[target], RefTarget(s.r, f.ref).value.amount;
      ChannelFits(s.c, target, n);
      if n.WithLegs? { CreditFitsIff(ch, amount); } else { CreditIsCapped(ch, amount); }
      PutFits(s.c, target, Fund(ch, Credited(ch, amount)), n);
      SameParts(PutChannel(s.c, target, Fund(ch, Credited(ch, amount))), c', n);
    } else {
      SameParts(s.c, c', n);
    }
  }

  lemma HandleBound(s: System, e: Message, n: Count)
    requires Inv(s) && NetInv(s.c) && Bounded(s.c, n) && MessageOk(e)
    ensures Bounded(Handle(s, e).0.c, n) <==> Harmless(s, e, n)
  {
    hide Inv, NetInv, Bounded, BooksOk, ValidRail, Accepted, FoldsLeg, Left, Open, Batch, Checkpoint, Propose, ProveRound, FundChannel, InterimDraw, Close, Apply, NamedBy, Decide, Restart;
    AllBooks(s);
    match e
    case OpenMsg(cid, o, openOk, dispOk) => OpenFits(s.c, cid, o, openOk, dispOk, n);
    case BatchMsg(cid, slices) => BatchFits(s.c, cid, slices, n);
    case CheckpointMsg(cid, q) => CheckpointFits(s.c, cid, q, n);
    case ProposeMsg(cid, p) => ProposeFits(s.c, cid, p, n);
    case ProofMsg(cid, ckpt, p, ok) =>
      if cid in s.c.channels && p.signed && NamedBy(s.c.channels[cid], ckpt, p.hash) {
        NamedHere(s.c.channels[cid], ckpt, p.hash);
        ProofFits(s, cid, ckpt, p, ok, n);
      }
    case FundingMsg(cid, f, ok) => FundingFits(s, cid, f, ok, n);
    case InterimMsg(cid) => InterimFits(s, cid, n);
    case CloseMsg(cid, q, io) => CloseFits(s, cid, q, io, n);
    case RestartMsg => RestartFits(s.c, n);
    case ReplicaMsg(k, v) => SameParts(s.c, Handle(s, e).0.c, n);
    case RailMsg(_) =>
  }

  /** One message keeps funding and net legs together within the merchant-net if and only if it is not the
      proof of a net leg larger than what they leave of it. */
  lemma HandleSumIff(s: System, e: Message)
    requires Inv(s) && NetInv(s.c) && Bounded(s.c, PaidOnly) && MessageOk(e)
    ensures Bounded(Handle(s, e).0.c, PaidOnly) <==> !Overruns(s, e)
  {
    hide Inv, NetInv, Bounded, Handle, Overruns;
    HandleBound(s, e, PaidOnly);
  }

  /** One message keeps funding, net legs and the leg in flight within the merchant-net if and only if it is
      not a credit that takes the room of a leg in flight. */
  lemma HandleFitsIff(s: System, e: Message)
    requires Inv(s) && NetInv(s.c) && Bounded(s.c, WithLegs) && MessageOk(e)
    ensures Bounded(Handle(s, e).0.c, WithLegs) <==> LegsFit(s, e)
  {
    hide Inv, NetInv, Bounded, Handle, LegsFit;
    HandleBound(s, e, WithLegs);
  }

  // ---- whole runs --------------------------------------------------------------------------------------------------

  predicate Recordable(msgs: seq<Message>) { Sendable(msgs) && forall i :: 0 <= i < |msgs| ==> TerminalRecords(msgs[i]) }

  /** Every message of the run is harmless where it is handled. */
  ghost predicate RunHarmless(s: System, msgs: seq<Message>, n: Count)
    requires ValidRail(s.r) && Sendable(msgs)
  {
    |msgs| == 0 || (RunHarmless(s, msgs[..|msgs| - 1], n) && Harmless(Serve(s, msgs[..|msgs| - 1]), msgs[|msgs| - 1], n))
  }

  /** Every credit of the run leaves room for the net leg in flight when it is handled. */
  ghost predicate RunFits(s: System, msgs: seq<Message>)
    requires ValidRail(s.r) && Sendable(msgs)
  {
    RunHarmless(s, msgs, WithLegs)
  }

  /** Every net leg the run folds is covered by what is left when it is folded. */
  ghost predicate LegsCovered(s: System, msgs: seq<Message>)
    requires ValidRail(s.r) && Sendable(msgs)
  {
    RunHarmless(s, msgs, PaidOnly)
  }

  ghost predicate AlwaysBounded(s: System, msgs: seq<Message>, n: Count)
    requires ValidRail(s.r) && Sendable(msgs)
  {
    Bounded(Serve(s, msgs).c, n) && (|msgs| > 0 ==> AlwaysBounded(s, msgs[..|msgs| - 1], n))
  }

  lemma {:induction false} RunBound(cfg: Config, delay: nat, msgs: seq<Message>, n: Count)
    requires Recordable(msgs)
    ensures AlwaysBounded(Born(cfg, delay), msgs, n) <==> RunHarmless(Born(cfg, delay), msgs, n)
  {
    hide Handle, Inv, NetInv, Bounded, Harmless, Born;
    if |msgs| == 0 {
      BornFits(cfg, delay, n);
    } else {
      var init := msgs[..|msgs| - 1];
      RunBound(cfg, delay, init, n);
      if RunHarmless(Born(cfg, delay), init, n) {
        ServeKeeps(cfg, delay, init);
        ServeNet(cfg, delay, init);
        HandleBound(Serve(Born(cfg, delay), init), msgs[|msgs| - 1], n);
      }
    }
  }

  lemma BornFits(cfg: Config, delay: nat, n: Count)
    ensures Bounded(Born(cfg, delay).c, n)
  {
  }

  /** Over a whole run funding and net legs together stay within the merchant-net at every point exactly when
      every net leg folded was covered by what was left of it. */
  lemma SumIff(cfg: Config, delay: nat, msgs: seq<Message>)
    requires Recordable(msgs)
    ensures AlwaysBounded(Born(cfg, delay), msgs, PaidOnly) <==> LegsCovered(Born(cfg, delay), msgs)
  {
    hide AlwaysBounded, RunHarmless, Born;
    RunBound(cfg, delay, msgs, PaidOnly);
  }

  /** Over a whole run funding, net legs and the leg in flight together stay within the merchant-net at every
      point exactly when every credit left room for the leg in flight. */
  lemma TogetherIff(cfg: Config, delay: nat, msgs: seq<Message>)
    requires Recordable(msgs)
    ensures AlwaysBounded(Born(cfg, delay), msgs, WithLegs) <==> RunFits(Born(cfg, delay), msgs)
  {
    hide AlwaysBounded, RunHarmless, Born;
    RunBound(cfg, delay, msgs, WithLegs);
  }

  lemma {:induction false} FewerCounted(s: System, msgs: seq<Message>)
    requires ValidRail(s.r) && Sendable(msgs) && AlwaysBounded(s, msgs, WithLegs)
    ensures AlwaysBounded(s, msgs, PaidOnly)
  {
    hide Serve, ValidRail;
    if |msgs| > 0 { FewerCounted(s, msgs[..|msgs| - 1]); }
  }

  /** Where every credit leaves room, every leg folded later is covered. */
  lemma RoomCovers(cfg: Config, delay: nat, msgs: seq<Message>)
    requires Recordable(msgs) && RunFits(Born(cfg, delay), msgs)
    ensures LegsCovered(Born(cfg, delay), msgs)
  {
    hide AlwaysBounded, RunHarmless, Born;
    TogetherIff(cfg, delay, msgs);
    FewerCounted(Born(cfg, delay), msgs);
    SumIff(cfg, delay, msgs);
  }

  /** After a run in which every folded leg was covered, no postpay channel has been paid past what it
      metered, by the two kinds of payment together. */
  lemma BothWithinMetered(cfg: Config, delay: nat, msgs: seq<Message>, cid: ChannelId)
    requires Recordable(msgs) && LegsCovered(Born(cfg, delay), msgs)
    ensures var c := Serve(Born(cfg, delay), msgs).c;
            cid in c.channels && !c.channels[cid].meter.prepay ==>
              c.channels[cid].ledger.funding + c.channels[cid].ledger.net <= MerchantNet(c.channels[cid].meter.cum, c.channels[cid].meter.accruals)
  {
    hide Serve, Born, MerchantNet, Handle, RunHarmless;
    SumIff(cfg, delay, msgs);
  }

  /** Only a proof can take the sum past the merchant-net. */
  lemma {:induction false} NoProofNoOverrun(s: System, msgs: seq<Message>)
    requires ValidRail(s.r) && Sendable(msgs) && forall i :: 0 <= i < |msgs| ==> !msgs[i].ProofMsg?
    ensures LegsCovered(s, msgs)
  {
    hide Serve, ValidRail;
    if |msgs| > 0 { NoProofNoOverrun(s, msgs[..|msgs| - 1]); }
  }
}
