/** A postpay channel is never credited past what it metered: its funding, and its net legs, are each at
    most the merchant-net of the live metering. */
module NetBounds {
  import opened Sums
  import opened Options
  import opened Instance
  import opened VirtualRail
  import M = Metering
  import opened Books
  import opened BookMoves
  import opened Carriage
  import opened CarriageSteps
  import opened CarriageBooks
  import opened CarriageRuns

  function LiveNet(ch: Channel): nat { MerchantNet(ch.meter.cum, ch.meter.accruals) }

  predicate NetOk(ch: Channel) {
    !ch.meter.prepay ==> ch.ledger.funding <= LiveNet(ch) && ch.ledger.net <= LiveNet(ch)
  }

  /** Closed, with everything metered covered by the evidenced basis. */
  predicate Rests(ch: Channel) { !ch.meter.open && ch.meter.cum == BasisCum(ch) }

  predicate SnapshotNet(s: ChainSnapshot) {
    var net := MerchantNet(s.position.cum, s.position.accruals);
    !s.prepay ==> s.position.funding <= net && s.position.net <= net
  }

  predicate NetInv(c: Carriage) {
    && (forall k <- c.channels :: NetOk(c.channels[k]))
    && (forall k <- c.disps :: c.disps[k].Intent? ==> k in c.channels && Rests(c.channels[k]))
    && (forall p <- c.snapshots :: SnapshotNet(c.snapshots[p]))
    && (forall d <- c.decisions :: c.decisions[d].DispValue? ==> !c.decisions[d].d.Intent?)
  }

  // ---- merchant-net at the basis and live ---------------------------------------------------------------

  /** The evidenced merchant-net is at most the live one, and equal when nothing is unevidenced. */
  lemma BasisNet(ch: Channel)
    requires Shape(ch) && Position(ch)
    ensures MerchantNet(BasisCum(ch), BasisAccruals(ch)) <= LiveNet(ch)
    ensures ch.meter.cum == BasisCum(ch) ==> BasisAccruals(ch) == ch.meter.accruals
  {
    hide MapSum, Sum, MerchantNet;
    var w := MapSum<nat>(ch.meter.window);
    assert ch.meter.cum - BasisCum(ch) == w;
    MerchantNetGrows(BasisCum(ch), BasisAccruals(ch), ch.meter.cum, ch.meter.accruals, ch.meter.bp);
  }

  lemma BooksPosition(ch: Channel)
    requires BooksOk(ch)
    ensures Shape(ch) && Position(ch) && M.MeterOk(ch.meter) && |ch.meter.accruals| == |ch.meter.bp|
  {
    hide MapSum, Sum;
  }

  lemma PutNet(c: Carriage, k: ChannelId, ch: Channel)
    requires NetInv(c) && k in c.channels && NetOk(ch) && (Rests(c.channels[k]) ==> Rests(ch))
    ensures NetInv(PutChannel(c, k, ch))
  {
    hide NetOk, Rests, SnapshotNet;
  }

  // ---- metering -----------------------------------------------------------------------------------------

  lemma {:induction false} TentativeClosed(m: M.Meter, slices: seq<M.Slice>)
    requires |m.accruals| == |m.bp| && !m.open
    ensures M.Tentative(m, slices).0.cum == m.cum && !M.Tentative(m, slices).0.open
    decreases |slices|
  {
    if |slices| > 0 { TentativeClosed(M.AcceptSlice(m, slices[0]).0, slices[1..]); }
  }

  lemma LiveNetGrows(ch: Channel, slices: seq<M.Slice>)
    requires BooksOk(ch)
    ensures LiveNet(ch) <= LiveNet(MeterBatch(ch, slices))
  {
    hide MapSum, Sum, MerchantNet;
    BooksPosition(ch);
    var m := ch.meter;
    var m' := MeterBatch(ch, slices).meter;
    M.BatchLinear(m, slices, m.cum, m.accruals);
    BatchShape(m, slices);
    MerchantNetGrows(m.cum, m.accruals, m'.cum, m'.accruals, m.bp);
  }

  lemma BatchNet(ch: Channel, slices: seq<M.Slice>)
    requires BooksOk(ch) && NetOk(ch)
    ensures NetOk(MeterBatch(ch, slices)) && (Rests(ch) ==> Rests(MeterBatch(ch, slices)))
  {
    hide MapSum, Sum, MerchantNet;
    BooksPosition(ch);
    LiveNetGrows(ch, slices);
    BatchShape(ch.meter, slices);
    if Rests(ch) { TentativeClosed(ch.meter, slices); }
  }

  lemma BatchNetStep(c: Carriage, cid: ChannelId, slices: seq<M.Slice>)
    requires NetInv(c) && (forall k <- c.channels :: BooksOk(c.channels[k]))
    ensures NetInv(Batch(c, cid, slices).0)
  {
    hide NetInv, NetOk, Rests, BooksOk, M.AcceptBatch;
    if cid in c.channels && |c.channels[cid].meter.accruals| == |c.channels[cid].meter.bp| {
      ChannelNet(c, cid);
      BatchNet(c.channels[cid], slices);
      PutNet(c, cid, MeterBatch(c.channels[cid], slices));
    }
  }

  lemma ChannelNet(c: Carriage, k: ChannelId)
    requires NetInv(c) && k in c.channels
    ensures NetOk(c.channels[k])
  {
  }

  lemma CheckpointNetStep(c: Carriage, cid: ChannelId, q: CkptReq)
    requires NetInv(c) && (forall k <- c.channels :: BooksOk(c.channels[k]))
    ensures NetInv(Checkpoint(c, cid, q).0)
  {
    hide NetInv, BooksOk, MerchantNet, M.AccrualsAt, MapSum;
    if cid in c.channels && |c.channels[cid].meter.accruals| == |c.channels[cid].meter.bp|
       && M.Recomputes(c.channels[cid].meter, q.lastSeq, q.cum, q.accruals) {
      var ch := c.channels[cid];
      ChannelNet(c, cid);
      CheckpointKeeps(ch, q.ref, q.lastSeq, q.cum, q.accruals);
      BooksPosition(ch);
      M.CheckpointAdvances(ch.meter, q.lastSeq);
      PutNet(c, cid, Checkpointed(ch, q.ref, q.lastSeq, q.cum, q.accruals));
    }
  }

  // ---- rounds and funding ------------------------------------------------------------------------------------

  lemma ProposeNetStep(c: Carriage, cid: ChannelId, p: Proposal)
    requires NetInv(c)
    ensures NetInv(Propose(c, cid, p).0)
  {
    hide NetInv, Verified, OtherInFlight, MerchantNet;
    if cid in c.channels && Propose(c, cid, p).1.Ok? {
      ChannelNet(c, cid);
      PutNet(c, cid, Propose(c, cid, p).0.channels[cid]);
    }
  }

  lemma FundNet(ch: Channel, amount: nat)
    requires NetOk(ch)
    ensures NetOk(Fund(ch, Credited(ch, amount))) && (Rests(ch) ==> Rests(Fund(ch, Credited(ch, amount))))
  {
  }

  lemma ConsumedNet(c: Carriage, ref: nat, ok: bool)
    requires NetInv(c)
    ensures NetInv(c.(decisions := Decide(c.decisions, FundKey(ref), Bare, ok).0, consumed := c.consumed + {ref}))
  {
    hide NetOk, Rests, SnapshotNet;
  }

  lemma FundingNetStep(s: System, cid: ChannelId, f: Funding, ok: bool)
    requires NetInv(s.c)
    ensures NetInv(FundChannel(s, cid, f, ok).0.c)
  {
    hide NetInv, IsFinal, Credited, ResolveTip, Fund, FundingTarget;
    var target := FundingTarget(s.c, cid);
    if target in s.c.channels && RefTarget(s.r, f.ref).Some? {
      var info := RefTarget(s.r, f.ref).value;
      ChannelNet(s.c, target);
      FundNet(s.c.channels[target], info.amount);
      ConsumedNet(s.c, info.canonical, ok);
      var c1 := s.c.(decisions := Decide(s.c.decisions, FundKey(info.canonical), Bare, ok).0, consumed := s.c.consumed + {info.canonical});
      PutNet(c1, target, Fund(s.c.channels[target], Credited(s.c.channels[target], info.amount)));
    }
  }

  /** A net leg was verified against the evidenced merchant-net, so it stays within the live one. */
  lemma FoldNet(ch: Channel, ref: CkptRef, plan: Plan)
    requires BooksOk(ch) && NetOk(ch) && ref in ch.rounds && !ch.rounds[ref].confirmed && |ch.rounds[ref].eR| == |ch.ledger.settled|
    requires plan.net ==> ch.rounds[ref].output > 0 && !ch.rounds[ref].netFolded
    ensures var ch' := FoldProof(ch, ref, plan.meed, plan.net, plan.confirm, plan.time);
            NetOk(ch') && (Rests(ch) ==> Rests(ch'))
  {
    hide MapSum, Sum, MerchantNet, CarveDelta, AddRoles, OwnUnits, Totals, Whole;
    BasisNet(ch);
    var d := ch.rounds[ref];
    if plan.net { InFlightNet(ch, d, ref); }
  }

  lemma InFlightNet(ch: Channel, d: Round, ref: CkptRef)
    requires BooksOk(ch) && ref in ch.rounds && d == ch.rounds[ref] && !d.confirmed && d.output > 0 && !d.netFolded
    ensures ch.ledger.net + d.output <= MerchantNet(BasisCum(ch), BasisAccruals(ch))
  {
    hide MapSum, Sum, MerchantNet, OwnUnits, Totals, Position;
    assert InFlight(ch, d);
  }

  lemma {:induction false} NetLegOutput(c: Carriage, r: Rail, cid: ChannelId, ch: Channel, ckpt: CkptRef, txs: seq<LegTx>)
    requires ckpt in ch.rounds && ReadLegs(c, r, cid, ch, ckpt, txs).Some?
    ensures ReadLegs(c, r, cid, ch, ckpt, txs).value.netRef.Some? ==> ch.rounds[ckpt].output > 0
  {
    hide FinalityOf, IsFinal, MeedLegOk;
    if |txs| > 0 { NetLegOutput(c, r, cid, ch, ckpt, txs[..|txs| - 1]); }
  }

  lemma ProofNetStep(s: System, cid: ChannelId, ckpt: CkptRef, p: Proof, ok: bool)
    requires NetInv(s.c) && cid in s.c.channels && BooksOk(s.c.channels[cid]) && ckpt in s.c.channels[cid].rounds
    ensures NetInv(ProveRound(s, cid, ckpt, p, ok).0.c)
  {
    hide BooksOk, NetOk, Rests, SnapshotNet, ReadLegs, PlanOf, FoldProof;
    var ch := s.c.channels[cid];
    var d := ch.rounds[ckpt];
    var read := ReadLegs(s.c, s.r, cid, ch, ckpt, p.txs);
    if !d.confirmed && |d.eR| == |ch.ledger.settled| && read.Some? && PlanOf(d, read.value).Some? {
      NetLegOutput(s.c, s.r, cid, ch, ckpt, p.txs);
      var plan := PlanOf(d, read.value).value;
      if plan.net { PlanHasLeg(d, read.value); }
      FoldNet(ch, ckpt, plan);
    }
  }

  // ---- draws and closes -------------------------------------------------------------------------------------------

  lemma RedrawnNet(c: Carriage, k: ChannelId, ch: Channel)
    requires NetInv(c) && k in c.channels && Redrawn(c.channels[k], ch)
    ensures NetInv(PutChannel(c, k, ch))
  {
    hide MerchantNet, SnapshotNet;
    PutNet(c, k, ch);
  }

  lemma DrawNet(s: System, cid: ChannelId, ckpt: CkptRef)
    requires ValidRail(s.r) && NetInv(s.c) && cid in s.c.channels && ckpt in s.c.channels[cid].rounds
    ensures NetInv(DrawLocked(s, cid, ckpt).0.c)
  {
    hide ValidRail, NetInv, AdvanceMeed, IsFinal, FinalTime, AddRoles;
    forall ch | Redrawn(s.c.channels[cid], ch) ensures NetInv(PutChannel(s.c, cid, ch)) { RedrawnNet(s.c, cid, ch); }
    var c' := DrawLocked(s, cid, ckpt).0.c;
    assert c' == s.c || (c' == PutChannel(s.c, cid, c'.channels[cid]) && Redrawn(s.c.channels[cid], c'.channels[cid]));
  }

  lemma InterimNetStep(s: System, cid: ChannelId)
    requires ValidRail(s.r) && NetInv(s.c)
    ensures NetInv(InterimDraw(s, cid).0.c)
  {
    hide ValidRail, NetInv, DrawLocked, LockInterim;
    if cid in s.c.channels {
      var ch := s.c.channels[cid];
      if InFlightRef(ch).Some? { DrawNet(s, cid, InFlightRef(ch).value); }
      if LockInterim(ch).Some? {
        var (k, locked) := LockInterim(ch).value;
        LockRedraws(ch);
        RedrawnNet(s.c, cid, locked);
        DrawNet(s.(c := PutChannel(s.c, cid, locked)), cid, k);
      }
    }
  }

  lemma RefundNet(s: System, cid: ChannelId, ckpt: CkptRef, reserveOk: bool, refOk: bool)
    requires ValidRail(s.r) && NetInv(s.c) && cid in s.c.channels
    ensures var c' := IssueRefund(s, cid, ckpt, reserveOk, refOk).c;
            NetInv(c') && c'.channels == s.c.channels && c'.disps == s.c.disps
  {
    hide ValidRail, ReleaseKeyed, RefundOwed, NetOk, Rests, SnapshotNet;
  }

  lemma RecordNet(c: Carriage, cid: ChannelId, d: Disp, key: DecKey, ok: bool)
    requires NetInv(c) && !d.Intent?
    ensures NetInv(c.(decisions := Decide(c.decisions, key, DispValue(d), ok).0, disps := c.disps[cid := d]))
    ensures NetInv(c.(disps := c.disps[cid := d]))
  {
    hide NetOk, Rests, SnapshotNet;
  }

  lemma ReconcileNet(s: System, cid: ChannelId, ckpt: CkptRef, io: CloseIo)
    requires ValidRail(s.r) && NetInv(s.c) && cid in s.c.channels
    ensures NetInv(Reconcile(s, cid, ckpt, io).0.c)
  {
    hide ValidRail, NetInv, IssueRefund, Drain, PendingDraw;
    RefundNet(s, cid, ckpt, io.reserveOk, io.refOk);
    var s1 := IssueRefund(s, cid, ckpt, io.reserveOk, io.refOk);
    var drained := Drain(s1.c.channels[cid], s1.r, cid);
    DrainRedraws(s1.c.channels[cid], s1.r, cid);
    RedrawnNet(s1.c, cid, drained);
    RecordNet(PutChannel(s1.c, cid, drained), cid, Reconciled(PendingDraw(drained)), DispKey(cid), io.dispOk);
  }

  lemma CloseDrawNet(s: System, cid: ChannelId)
    requires ValidRail(s.r) && NetInv(s.c)
    ensures NetInv(AttemptCloseDraw(s, cid).c) && AttemptCloseDraw(s, cid).c.channels == s.c.channels
  {
    hide ValidRail, NetInv, AdvanceMeed;
    RecordNet(s.c, cid, Reconciled(None), DispKey(cid), false);
  }

  lemma TerminatedNet(c: Carriage, cid: ChannelId)
    requires NetInv(c) && cid in c.channels
    ensures NetInv(Terminated(c, cid))
  {
    hide MerchantNet, SnapshotNet;
    PutNet(c, cid, c.channels[cid].(meter := M.BeginSettling(c.channels[cid].meter)));
  }

  lemma IntentNet(c: Carriage, cid: ChannelId)
    requires NetInv(c) && cid in c.channels && c.channels[cid].meter.cum == BasisCum(c.channels[cid])
    ensures NetInv(Terminated(c.(disps := c.disps[cid := Intent]), cid))
  {
    hide MerchantNet, SnapshotNet;
    var x := Terminated(c.(disps := c.disps[cid := Intent]), cid);
    TerminatedNet(c, cid);
    assert x.channels == Terminated(c, cid).channels;
    assert Rests(x.channels[cid]);
  }

  lemma CloseNetStep(s: System, cid: ChannelId, q: CloseReq, io: CloseIo)
    requires ValidRail(s.r) && NetInv(s.c)
    ensures NetInv(Close(s, cid, q, io).0.c)
  {
    hide ValidRail, NetInv, Reconcile, AttemptCloseDraw, Terminated, InFlightRef, PriorDisp;
    if cid in s.c.channels {
      TerminatedNet(s.c, cid);
      if s.c.channels[cid].meter.cum == BasisCum(s.c.channels[cid]) { IntentNet(s.c, cid); }
      ReconcileNet(s, cid, q.ckpt, io);
      var s1 := Reconcile(s, cid, q.ckpt, io).0;
      CloseDrawNet(s1, cid);
      CloseDrawNet(s, cid);
      TerminatedNet(AttemptCloseDraw(s1, cid).c, cid);
      TerminatedNet(AttemptCloseDraw(s, cid).c, cid);
    }
  }

  // ---- opening ----------------------------------------------------------------------------------------------------------

  lemma RestingSnapshot(c: Carriage, p: ChannelId, ref: CkptRef)
    requires p in c.channels && BooksOk(c.channels[p]) && NetOk(c.channels[p]) && Rests(c.channels[p])
    requires ComputeSnapshot(c, p, ref).Some?
    ensures SnapshotNet(ComputeSnapshot(c, p, ref).value)
  {
    hide MapSum, Sum, MerchantNet, BooksOk, ImportedBalance;
    BooksPosition(c.channels[p]);
    BasisNet(c.channels[p]);
    if c.channels[p].operative.None? { NothingMetered(c.channels[p].meter.accruals); }
  }

  lemma NothingMetered(a: seq<nat>)
    ensures MerchantNet(0, a) == 0
  {
  }

  lemma RefreshNet(c: Carriage, pred: (ChannelId, CkptRef))
    requires NetInv(c) && (forall k <- c.channels :: BooksOk(c.channels[k])) && pred.0 in c.disps && c.disps[pred.0].Intent?
    ensures NetInv(RefreshSnapshot(c, pred)) && RefreshSnapshot(c, pred).channels == c.channels
  {
    hide BooksOk, NetOk, Rests, SnapshotNet, ComputeSnapshot;
    if ComputeSnapshot(c, pred.0, pred.1).Some? { RestingSnapshot(c, pred.0, pred.1); }
  }

  lemma BuiltNet(c: Carriage, o: OpenReq)
    requires NetInv(c)
    ensures NetOk(FreshChannel(o))
    ensures o.predecessor.Some? && ChainedChannel(c, o, o.predecessor.value).Some? ==> NetOk(ChainedChannel(c, o, o.predecessor.value).value)
  {
    hide Rests;
  }

  lemma EstablishNet(c: Carriage, cid: ChannelId, o: OpenReq, openOk: bool, dispOk: bool)
    requires NetInv(c)
    ensures NetInv(Establish(c, cid, o, openOk, dispOk).0)
  {
    hide NetOk, Rests, SnapshotNet, FreshChannel, ChainedChannel;
    BuiltNet(c, o);
  }

  lemma OpenNetStep(c: Carriage, cid: ChannelId, o: OpenReq, openOk: bool, dispOk: bool)
    requires NetInv(c) && (forall k <- c.channels :: BooksOk(c.channels[k]))
    ensures NetInv(Open(c, cid, o, openOk, dispOk).0)
  {
    hide NetInv, BooksOk, Establish, RefreshSnapshot;
    EstablishNet(c, cid, o, openOk, dispOk);
    if o.predecessor.Some? && o.predecessor.value.0 in c.disps && c.disps[o.predecessor.value.0].Intent? {
      RefreshNet(c, o.predecessor.value);
      EstablishNet(RefreshSnapshot(c, o.predecessor.value), cid, o, openOk, dispOk);
    }
  }

  lemma RestartNet(c: Carriage)
    requires NetInv(c)
    ensures NetInv(Restart(c))
  {
    hide NetOk, Rests, SnapshotNet;
  }

  // ---- every message -----------------------------------------------------------------------------------------------------

  /** No replica records a revocable intent: only terminal dispositions are ever written. */
  predicate TerminalRecords(e: Message) { e.ReplicaMsg? && e.value.DispValue? ==> !e.value.d.Intent? }

  lemma AllBooks(s: System)
    requires Inv(s)
    ensures ValidRail(s.r) && forall k <- s.c.channels :: BooksOk(s.c.channels[k])
  {
    hide BooksOk, ValidRail, ChannelOk;
    forall k <- s.c.channels ensures BooksOk(s.c.channels[k]) { InvBooks(s, k); }
  }

  lemma HandleNet(s: System, e: Message)
    requires Inv(s) && NetInv(s.c) && MessageOk(e) && TerminalRecords(e)
    ensures NetInv(Handle(s, e).0.c)
  {
    hide Inv, NetInv, BooksOk, ValidRail, Open, Batch, Checkpoint, Propose, ProveRound, FundChannel, InterimDraw, Close, Apply, NamedBy, Decide, Restart;
    AllBooks(s);
    match e
    case OpenMsg(cid, o, openOk, dispOk) => OpenNetStep(s.c, cid, o, openOk, dispOk);
    case BatchMsg(cid, slices) => BatchNetStep(s.c, cid, slices);
    case CheckpointMsg(cid, q) => CheckpointNetStep(s.c, cid, q);
    case ProposeMsg(cid, p) => ProposeNetStep(s.c, cid, p);
    case ProofMsg(cid, ckpt, p, ok) =>
      if cid in s.c.channels && p.signed && NamedBy(s.c.channels[cid], ckpt, p.hash) {
        NamedHere(s.c.channels[cid], ckpt, p.hash);
        ProofNetStep(s, cid, ckpt, p, ok);
      }
    case FundingMsg(cid, f, ok) => FundingNetStep(s, cid, f, ok);
    case InterimMsg(cid) => InterimNetStep(s, cid);
    case CloseMsg(cid, q, io) => CloseNetStep(s, cid, q, io);
    case RestartMsg => RestartNet(s.c);
    case ReplicaMsg(k, v) => ReplicaNet(s.c, k, v);
    case RailMsg(op) =>
  }

  lemma ReplicaNet(c: Carriage, k: DecKey, v: DecValue)
    requires NetInv(c) && (v.DispValue? ==> !v.d.Intent?)
    ensures NetInv(c.(decisions := Decide(c.decisions, k, v, true).0))
  {
    hide NetOk, Rests, SnapshotNet;
  }

  lemma {:induction false} ServeNet(cfg: Config, delay: nat, msgs: seq<Message>)
    requires Sendable(msgs) && forall i :: 0 <= i < |msgs| ==> TerminalRecords(msgs[i])
    ensures NetInv(Serve(Born(cfg, delay), msgs).c)
  {
    hide Handle, Inv, NetInv;
    if |msgs| == 0 {
      BornNet(cfg, delay);
    } else {
      var init := msgs[..|msgs| - 1];
      ServeNet(cfg, delay, init);
      ServeKeeps(cfg, delay, init);
      HandleNet(Serve(Born(cfg, delay), init), msgs[|msgs| - 1]);
    }
  }

  lemma BornNet(cfg: Config, delay: nat)
    ensures NetInv(Born(cfg, delay).c)
  {
  }

  /** In every reachable state a postpay channel's funding and its net legs are each at most its metered
      merchant-net, chained openings included. */
  lemma PostpayWithinMetered(cfg: Config, delay: nat, msgs: seq<Message>, cid: ChannelId)
    requires Sendable(msgs) && forall i :: 0 <= i < |msgs| ==> TerminalRecords(msgs[i])
    ensures var c := Serve(Born(cfg, delay), msgs).c;
            cid in c.channels && !c.channels[cid].meter.prepay ==>
              && c.channels[cid].ledger.funding <= MerchantNet(c.channels[cid].meter.cum, c.channels[cid].meter.accruals)
              && c.channels[cid].ledger.net <= MerchantNet(c.channels[cid].meter.cum, c.channels[cid].meter.accruals)
  {
    hide Serve, Born, MerchantNet, Rests, SnapshotNet;
    ServeNet(cfg, delay, msgs);
  }
}
