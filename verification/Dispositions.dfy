/** Close dispositions and chaining: terminal dispositions last, a position is refunded or imported but
    never both, and committed links always lead somewhere live. Disposition records are taken to reach the
    store, and to be written by this carriage alone. */
module Dispositions {
  import opened Options
  import opened Instance
  import opened VirtualRail
  import opened Books
  import opened Carriage
  import opened CarriageSteps
  import BookMoves
  import M = Metering

  // ---- invariant ---------------------------------------------------------------------------------

  predicate Terminal(d: Disp) { !d.Intent? }

  predicate SameKind(a: Disp, b: Disp) { (a.Committed? <==> b.Committed?) && (a.Reconciled? <==> b.Reconciled?) }

  predicate Recorded(c: Carriage, k: ChannelId) { DispKey(k) in c.decisions && c.decisions[DispKey(k)].DispValue? }

  /** Everything the carriage knows a channel by was opened under a durable acceptance. */
  predicate Accepted(c: Carriage) {
    && (forall k <- c.channels :: OpenKey(k) in c.decisions)
    && (forall k <- c.tombstones :: OpenKey(k) in c.decisions)
    && (forall p <- c.snapshots :: OpenKey(p.0) in c.decisions)
    && (forall p <- c.consumedChain :: OpenKey(p.0) in c.decisions)
  }

  /** Memory and store agree on which channels are terminal, and in which way. */
  predicate Agree(c: Carriage) {
    && (forall k <- c.disps :: Terminal(c.disps[k]) ==> Recorded(c, k) && SameKind(c.decisions[DispKey(k)].d, c.disps[k]))
    && (forall d <- c.decisions :: d.DispKey? ==> c.decisions[d].DispValue? && Terminal(c.decisions[d].d) && d.c in c.disps && Terminal(c.disps[d.c]))
  }

  predicate Climbs(rank: map<ChannelId, nat>, k: ChannelId, d: Disp) {
    d.Committed? ==> k in rank && d.successor in rank && rank[k] < rank[d.successor]
  }

  /** `rank` is the order of opening: every committed link goes to a channel opened later. */
  predicate Ordered(c: Carriage, rank: map<ChannelId, nat>, n: nat) {
    && (forall d <- c.decisions :: d.OpenKey? ==> d.c in rank)
    && (forall k <- rank :: OpenKey(k) in c.decisions && rank[k] < n)
    && (forall k <- c.disps :: Climbs(rank, k, c.disps[k]))
    && (forall d <- c.decisions :: d.DispKey? && c.decisions[d].DispValue? ==> Climbs(rank, d.c, c.decisions[d].d))
  }

  predicate DispInv(c: Carriage, rank: map<ChannelId, nat>, n: nat) { Accepted(c) && Agree(c) && Ordered(c, rank, n) }

  /** A position that can never be imported again. */
  predicate Spent(c: Carriage, p: (ChannelId, CkptRef)) {
    p in c.consumedChain || (p !in c.snapshots && p.0 !in c.channels && p.0 in c.tombstones)
  }

  predicate Lasts(c: Carriage, c': Carriage, k: ChannelId) {
    && (k in c.disps && c.disps[k].Reconciled? ==> k in c'.disps && c'.disps[k].Reconciled?)
    && (k in c.disps && c.disps[k].Committed? ==> k in c'.disps && c'.disps[k].Committed?)
  }

  ghost predicate Follows(c: Carriage, c': Carriage) {
    && c.decisions.Keys <= c'.decisions.Keys && (forall d <- c.decisions :: c'.decisions[d] == c.decisions[d])
    && (forall k :: Lasts(c, c', k))
    && (forall p :: Spent(c, p) ==> Spent(c', p))
  }

  lemma FollowsTrans(a: Carriage, b: Carriage, c: Carriage)
    requires Follows(a, b) && Follows(b, c)
    ensures Follows(a, c)
  {
    hide Spent;
    forall k ensures Lasts(a, c, k) { assert Lasts(a, b, k) && Lasts(b, c, k); }
  }

  // ---- messages that touch none of this --------------------------------------------------------------

  predicate Plain(d: DecKey) { !d.DispKey? && !d.OpenKey? }

  /** At most channels already known are updated and decisions of other kinds recorded. */
  predicate Quiet(c: Carriage, c': Carriage) {
    && c'.disps == c.disps && c'.tombstones == c.tombstones && c'.consumedChain == c.consumedChain && c'.snapshots == c.snapshots
    && c'.channels.Keys == c.channels.Keys
    && c.decisions.Keys <= c'.decisions.Keys && (forall d <- c.decisions :: c'.decisions[d] == c.decisions[d])
    && forall d <- c'.decisions :: d in c.decisions || Plain(d)
  }

  lemma QuietKeeps(c: Carriage, c': Carriage, rank: map<ChannelId, nat>, n: nat)
    requires DispInv(c, rank, n) && Quiet(c, c')
    ensures DispInv(c', rank, n) && Follows(c, c')
  {
    assert forall k :: k in c.channels.Keys <==> k in c'.channels.Keys;
  }

  lemma MeteringIsQuiet(c: Carriage, e: Message)
    requires e.BatchMsg? || e.CheckpointMsg? || e.ProposeMsg?
    ensures e.BatchMsg? ==> Quiet(c, Batch(c, e.cid, e.slices).0)
    ensures e.CheckpointMsg? ==> Quiet(c, Checkpoint(c, e.cid, e.q).0)
    ensures e.ProposeMsg? ==> Quiet(c, Propose(c, e.cid, e.p).0)
  {
    hide ProposeNew, ProposeRetry, OtherInFlight, M.AcceptBatch, M.Recomputes;
  }

  lemma PutIsQuiet(c: Carriage, cid: ChannelId, ch: Channel)
    requires cid in c.channels
    ensures Quiet(c, PutChannel(c, cid, ch))
  {
  }

  lemma ConsumeIsQuiet(c: Carriage, ref: nat, ok: bool, cid: ChannelId, ch: Channel)
    requires cid in c.channels
    ensures var c1 := c.(decisions := Decide(c.decisions, FundKey(ref), Bare, ok).0, consumed := c.consumed + {ref});
            Quiet(c, c1) && Quiet(c, PutChannel(c1, cid, ch))
  {
  }

  lemma ProofIsQuiet(s: System, cid: ChannelId, ckpt: CkptRef, p: Proof, ok: bool)
    requires cid in s.c.channels && ckpt in s.c.channels[cid].rounds
    ensures Quiet(s.c, ProveRound(s, cid, ckpt, p, ok).0.c)
  {
    hide ReadLegs, PlanOf, BookMoves.FoldProof, Quiet;
    var ch := s.c.channels[cid];
    PutIsQuiet(s.c, cid, ch);
    assert PutChannel(s.c, cid, ch) == s.c;
    if ProveRound(s, cid, ckpt, p, ok).0 != s {
      var l := ReadLegs(s.c, s.r, cid, ch, ckpt, p.txs).value;
      var plan := PlanOf(ch.rounds[ckpt], l).value;
      var done := BookMoves.FoldProof(ch, ckpt, plan.meed, plan.net, plan.confirm, plan.time);
      PutIsQuiet(s.c, cid, done);
      if plan.net {
        PlanHasLeg(ch.rounds[ckpt], l);
        ConsumeIsQuiet(s.c, l.netRef.value, ok, cid, done);
      }
    }
  }

  lemma FundingIsQuiet(s: System, cid: ChannelId, f: Funding, ok: bool)
    ensures Quiet(s.c, FundChannel(s, cid, f, ok).0.c)
  {
    hide FundingLegOk, BookMoves.Credited, ResolveTip, BookMoves.Fund, FundingTarget;
  }

  lemma DrawIsQuiet(s: System, cid: ChannelId, ckpt: CkptRef)
    requires ValidRail(s.r) && cid in s.c.channels && ckpt in s.c.channels[cid].rounds
    ensures Quiet(s.c, DrawLocked(s, cid, ckpt).0.c)
  {
    hide AdvanceMeed, BookMoves.FoldInterim, IsFinal, FinalTime, ValidRail, Quiet;
    var c' := DrawLocked(s, cid, ckpt).0.c;
    PutIsQuiet(s.c, cid, s.c.channels[cid]);
    assert PutChannel(s.c, cid, s.c.channels[cid]) == s.c;
    PutIsQuiet(s.c, cid, c'.channels[cid]);
    assert c' == PutChannel(s.c, cid, c'.channels[cid]);
  }

  lemma InterimIsQuiet(s: System, cid: ChannelId)
    requires ValidRail(s.r)
    ensures Quiet(s.c, InterimDraw(s, cid).0.c)
  {
    hide DrawLocked, LockInterim, ValidRail;
    if cid in s.c.channels {
      var ch := s.c.channels[cid];
      if InFlightRef(ch).Some? { DrawIsQuiet(s, cid, InFlightRef(ch).value); }
      if LockInterim(ch).Some? {
        var (k, locked) := LockInterim(ch).value;
        LockRedraws(ch);
        DrawIsQuiet(s.(c := PutChannel(s.c, cid, locked)), cid, k);
      }
    }
  }

  // ---- opening ---------------------------------------------------------------------------------------------

  lemma RefreshDisp(c: Carriage, pred: (ChannelId, CkptRef), rank: map<ChannelId, nat>, n: nat)
    requires DispInv(c, rank, n) && pred.0 in c.disps && c.disps[pred.0].Intent?
    ensures DispInv(RefreshSnapshot(c, pred), rank, n) && Follows(c, RefreshSnapshot(c, pred))
  {
    hide ComputeSnapshot, Climbs, SameKind;
    if ComputeSnapshot(c, pred.0, pred.1).Some? { SnapshotOfKnown(c, pred.0, pred.1); }
  }

  lemma SnapshotOfKnown(c: Carriage, p: ChannelId, ref: CkptRef)
    requires ComputeSnapshot(c, p, ref).Some?
    ensures p in c.channels
  {
  }

  lemma FreshOpenOk(c: Carriage, cid: ChannelId, ch: Channel, payer: Key, rank: map<ChannelId, nat>, n: nat)
    requires DispInv(c, rank, n) && OpenKey(cid) !in c.decisions
    ensures var c1 := c.(channels := c.channels[cid := ch], payers := c.payers[cid := payer], decisions := c.decisions[OpenKey(cid) := Bare]);
            DispInv(c1, rank[cid := n], n + 1) && Follows(c, c1)
  {
  }

  /** Recording that `pred` now continues in `cid`, which was opened later. */
  lemma CommitOk(c: Carriage, pred: (ChannelId, CkptRef), cid: ChannelId, rank: map<ChannelId, nat>, n: nat)
    requires DispInv(c, rank, n) && Climbs(rank, pred.0, Committed(cid)) && OpenKey(pred.0) in c.decisions
    requires pred.0 in c.disps ==> !c.disps[pred.0].Reconciled?
    ensures var c1 := c.(consumedChain := c.consumedChain + {pred}, disps := c.disps[pred.0 := Committed(cid)],
                         decisions := Decide(c.decisions, DispKey(pred.0), DispValue(Committed(cid)), true).0);
            DispInv(c1, rank, n) && Follows(c, c1)
  {
  }

  /** The rank after an open: unchanged unless the channel was established. */
  function RankOf(c: Carriage, c': Carriage, cid: ChannelId, rank: map<ChannelId, nat>, n: nat): (x: (map<ChannelId, nat>, nat)) {
    if OpenKey(cid) in c'.decisions && OpenKey(cid) !in c.decisions then (rank[cid := n], n + 1) else (rank, n)
  }

  lemma EstablishDisp(c: Carriage, cid: ChannelId, o: OpenReq, openOk: bool, rank: map<ChannelId, nat>, n: nat)
    requires DispInv(c, rank, n)
    requires o.predecessor.Some? && o.predecessor.value.0 in c.disps ==> !c.disps[o.predecessor.value.0].Reconciled?
    ensures var (c', a) := Establish(c, cid, o, openOk, true);
            var (rank', n') := RankOf(c, c', cid, rank, n);
            && DispInv(c', rank', n') && Follows(c, c')
            && (a.Ok? ==> OpenKey(cid) !in c.decisions && OpenKey(cid) in c'.decisions)
            && (a.Ok? && o.predecessor.Some? ==>
                  && o.predecessor.value !in c.consumedChain && !Spent(c, o.predecessor.value) && Spent(c', o.predecessor.value)
                  && o.predecessor.value.0 in c'.disps && c'.disps[o.predecessor.value.0].Committed?)
  {
    hide DispInv, Follows, FreshChannel, ChainedChannel;
    FollowsRefl(c);
    var (c', a) := Establish(c, cid, o, openOk, true);
    if a.Ok? {
      KnownByOpening(c, rank, n);
      match o.predecessor
      case None => FreshOpenOk(c, cid, FreshChannel(o), o.payer, rank, n);
      case Some(pred) =>
        ChainedHasSnapshot(c, o, pred);
        var ch := ChainedChannel(c, o, pred).value;
        FreshOpenOk(c, cid, ch, o.payer, rank, n);
        var c1 := c.(channels := c.channels[cid := ch], payers := c.payers[cid := o.payer], decisions := c.decisions[OpenKey(cid) := Bare]);
        CommitOk(c1, pred, cid, rank[cid := n], n + 1);
        FollowsTrans(c, c1, c');
    }
  }

  lemma FollowsRefl(c: Carriage)
    ensures Follows(c, c)
  {
  }

  lemma KnownByOpening(c: Carriage, rank: map<ChannelId, nat>, n: nat)
    requires DispInv(c, rank, n)
    ensures forall p <- c.snapshots :: OpenKey(p.0) in c.decisions && p.0 in rank && rank[p.0] < n
    ensures forall k <- rank :: OpenKey(k) in c.decisions
  {
  }

  lemma OpenDisp(c: Carriage, cid: ChannelId, o: OpenReq, openOk: bool, rank: map<ChannelId, nat>, n: nat)
    requires DispInv(c, rank, n)
    ensures var (c', a) := Open(c, cid, o, openOk, true);
            var (rank', n') := RankOf(c, c', cid, rank, n);
            && DispInv(c', rank', n') && Follows(c, c')
            && (a.Ok? ==> OpenKey(cid) !in c.decisions && OpenKey(cid) in c'.decisions)
            && (a.Ok? && o.predecessor.Some? ==>
                  && !Spent(c, o.predecessor.value) && Spent(c', o.predecessor.value)
                  && (o.predecessor.value.0 in c.disps ==> !c.disps[o.predecessor.value.0].Reconciled?)
                  && o.predecessor.value.0 in c'.disps && c'.disps[o.predecessor.value.0].Committed?)
  {
    hide DispInv, Follows, Establish, Spent;
    FollowsRefl(c);
    if o.finalOk {
      match o.predecessor
      case None => EstablishDisp(c, cid, o, openOk, rank, n);
      case Some(pred) =>
        if pred.0 in c.disps && c.disps[pred.0].Intent? {
          RefreshDisp(c, pred, rank, n);
          var c1 := RefreshSnapshot(c, pred);
          RefreshFrame(c, pred);
          EstablishDisp(c1, cid, o, openOk, rank, n);
          FollowsTrans(c, c1, Open(c, cid, o, openOk, true).0);
          FollowsSpent(c, c1, pred);
        } else if !(pred.0 in c.disps && c.disps[pred.0].Reconciled?) {
          EstablishDisp(c, cid, o, openOk, rank, n);
        }
    }
  }

  lemma RefreshFrame(c: Carriage, pred: (ChannelId, CkptRef))
    requires pred.0 in c.disps && c.disps[pred.0].Intent?
    ensures RefreshSnapshot(c, pred).decisions == c.decisions && RefreshSnapshot(c, pred).disps == c.disps
  {
  }

  lemma FollowsSpent(c: Carriage, c': Carriage, p: (ChannelId, CkptRef))
    requires Follows(c, c')
    ensures Spent(c, p) ==> Spent(c', p)
  {
  }

  // ---- closing ---------------------------------------------------------------------------------------------

  lemma RefundIsQuiet(s: System, cid: ChannelId, ckpt: CkptRef, reserveOk: bool, refOk: bool)
    requires ValidRail(s.r) && cid in s.c.channels
    ensures Quiet(s.c, IssueRefund(s, cid, ckpt, reserveOk, refOk).c)
  {
    hide ValidRail, ReleaseKeyed, RefundOwed;
  }

  lemma PriorIsMemory(c: Carriage, cid: ChannelId, rank: map<ChannelId, nat>, n: nat)
    requires DispInv(c, rank, n)
    ensures PriorDisp(c, cid) == if cid in c.disps then Some(c.disps[cid]) else None
    ensures DispKey(cid) in c.decisions <==> cid in c.disps && !c.disps[cid].Intent?
  {
  }

  /** A reconciled close is recorded where nothing terminal was. */
  lemma RecordOk(c: Carriage, cid: ChannelId, draw: Option<(CkptRef, nat)>, rank: map<ChannelId, nat>, n: nat)
    requires DispInv(c, rank, n) && DispKey(cid) !in c.decisions
    ensures var c1 := c.(decisions := c.decisions[DispKey(cid) := DispValue(Reconciled(draw))], disps := c.disps[cid := Reconciled(draw)]);
            DispInv(c1, rank, n) && Follows(c, c1)
  {
    hide Spent, Accepted, Agree, Ordered;
    var c1 := c.(decisions := c.decisions[DispKey(cid) := DispValue(Reconciled(draw))], disps := c.disps[cid := Reconciled(draw)]);
    SpentSame(c, c1);
    RecordAgrees(c, cid, draw);
    RecordOrdered(c, cid, draw, rank, n);
  }

  lemma RecordAgrees(c: Carriage, cid: ChannelId, draw: Option<(CkptRef, nat)>)
    requires Accepted(c) && Agree(c) && DispKey(cid) !in c.decisions
    ensures var c1 := c.(decisions := c.decisions[DispKey(cid) := DispValue(Reconciled(draw))], disps := c.disps[cid := Reconciled(draw)]);
            Accepted(c1) && Agree(c1) && forall k :: Lasts(c, c1, k)
  {
  }

  lemma RecordOrdered(c: Carriage, cid: ChannelId, draw: Option<(CkptRef, nat)>, rank: map<ChannelId, nat>, n: nat)
    requires Ordered(c, rank, n) && DispKey(cid) !in c.decisions
    ensures var c1 := c.(decisions := c.decisions[DispKey(cid) := DispValue(Reconciled(draw))], disps := c.disps[cid := Reconciled(draw)]);
            Ordered(c1, rank, n)
  {
  }

  lemma SpentSame(c: Carriage, c': Carriage)
    requires c'.consumedChain == c.consumedChain && c'.snapshots == c.snapshots && c'.channels == c.channels && c'.tombstones == c.tombstones
    ensures forall p :: Spent(c', p) <==> Spent(c, p)
  {
  }

  lemma ReconcileDisp(s: System, cid: ChannelId, ckpt: CkptRef, io: CloseIo, rank: map<ChannelId, nat>, n: nat)
    requires ValidRail(s.r) && DispInv(s.c, rank, n) && cid in s.c.channels && DispKey(cid) !in s.c.decisions && io.dispOk
    ensures var (s', a) := Reconcile(s, cid, ckpt, io);
            DispInv(s'.c, rank, n) && Follows(s.c, s'.c) && a.Ok? && cid in s'.c.disps && s'.c.disps[cid].Reconciled?
  {
    hide DispInv, Follows, ValidRail, IssueRefund, Drain, PendingDraw;
    RefundIsQuiet(s, cid, ckpt, io.reserveOk, io.refOk);
    var s1 := IssueRefund(s, cid, ckpt, io.reserveOk, io.refOk);
    assert cid in s.c.channels.Keys;
    var drained := Drain(s1.c.channels[cid], s1.r, cid);
    var c2 := PutChannel(s1.c, cid, drained);
    assert c2.channels.Keys == s1.c.channels.Keys;
    assert Quiet(s.c, c2);
    QuietKeeps(s.c, c2, rank, n);
    RecordOk(c2, cid, PendingDraw(drained), rank, n);
    FollowsTrans(s.c, c2, Reconcile(s, cid, ckpt, io).0.c);
  }

  lemma CloseDrawDisp(s: System, cid: ChannelId, rank: map<ChannelId, nat>, n: nat)
    requires ValidRail(s.r) && DispInv(s.c, rank, n)
    ensures DispInv(AttemptCloseDraw(s, cid).c, rank, n) && Follows(s.c, AttemptCloseDraw(s, cid).c)
    ensures AttemptCloseDraw(s, cid).c.channels == s.c.channels
  {
    hide ValidRail, AdvanceMeed;
  }

  lemma TerminatedIsQuiet(c: Carriage, cid: ChannelId)
    requires cid in c.channels
    ensures Quiet(c, Terminated(c, cid))
  {
  }

  lemma IntentOk(c: Carriage, cid: ChannelId, rank: map<ChannelId, nat>, n: nat)
    requires DispInv(c, rank, n) && cid !in c.disps
    ensures DispInv(c.(disps := c.disps[cid := Intent]), rank, n) && Follows(c, c.(disps := c.disps[cid := Intent]))
  {
  }

  /** Does this close reach the refund? */
  ghost predicate Reconciles(s: System, cid: ChannelId, q: CloseReq) {
    && cid in s.c.channels && q.signed && !q.chainIntent
    && (cid !in s.c.disps || s.c.disps[cid].Intent?)
    && !(s.c.channels[cid].operative.Some? && q.ckpt != s.c.channels[cid].operative.value.ref)
  }

  lemma CloseDisp(s: System, cid: ChannelId, q: CloseReq, io: CloseIo, rank: map<ChannelId, nat>, n: nat)
    requires ValidRail(s.r) && DispInv(s.c, rank, n) && io.dispOk
    ensures var s' := Close(s, cid, q, io).0;
            && DispInv(s'.c, rank, n) && Follows(s.c, s'.c)
            && (Reconciles(s, cid, q) ==> cid in s'.c.disps && s'.c.disps[cid].Reconciled?)
  {
    hide DispInv, Follows, ValidRail, Reconcile, AttemptCloseDraw, Terminated, InFlightRef, PriorDisp;
    FollowsRefl(s.c);
    PriorIsMemory(s.c, cid, rank, n);
    if cid in s.c.channels {
      var prior := PriorDisp(s.c, cid);
      if prior.None? {
        IntentOk(s.c, cid, rank, n);
        EndDisp(s.c, s.c.(disps := s.c.disps[cid := Intent]), cid, rank, n);
      }
      EndDisp(s.c, s.c, cid, rank, n);
      if prior.None? || prior.value.Intent? {
        ReconcileDisp(s, cid, q.ckpt, io, rank, n);
        var s1 := Reconcile(s, cid, q.ckpt, io).0;
        CloseDrawDisp(s1, cid, rank, n);
        FollowsTrans(s.c, s1.c, AttemptCloseDraw(s1, cid).c);
        EndDisp(s.c, AttemptCloseDraw(s1, cid).c, cid, rank, n);
        EndDisp(s1.c, AttemptCloseDraw(s1, cid).c, cid, rank, n);
        StaysReconciled(s1.c, Terminated(AttemptCloseDraw(s1, cid).c, cid), cid);
      }
      CloseDrawDisp(s, cid, rank, n);
      EndDisp(s.c, AttemptCloseDraw(s, cid).c, cid, rank, n);
    }
  }

  lemma StaysReconciled(c: Carriage, c': Carriage, cid: ChannelId)
    requires cid in c.disps && c.disps[cid].Reconciled?
    ensures Follows(c, c') ==> cid in c'.disps && c'.disps[cid].Reconciled?
  {
    if Follows(c, c') { assert Lasts(c, c', cid); }
  }

  lemma EndDisp(c: Carriage, c1: Carriage, cid: ChannelId, rank: map<ChannelId, nat>, n: nat)
    requires DispInv(c1, rank, n) && Follows(c, c1) && cid in c1.channels
    ensures DispInv(Terminated(c1, cid), rank, n) && Follows(c1, Terminated(c1, cid)) && Follows(c, Terminated(c1, cid))
  {
    hide DispInv, Follows, Terminated;
    TerminatedIsQuiet(c1, cid);
    QuietKeeps(c1, Terminated(c1, cid), rank, n);
    FollowsTrans(c, c1, Terminated(c1, cid));
  }

  // ---- restarts and replicas -----------------------------------------------------------------------------------

  lemma RestartShape(c: Carriage)
    ensures var x := Restart(c);
            && x.decisions == c.decisions && x.channels == map[] && x.snapshots == map[] && x.consumedChain == {}
            && (forall k :: k in x.disps <==> Recorded(c, k))
            && (forall k <- x.disps :: x.disps[k] == c.decisions[DispKey(k)].d)
            && (forall k :: k in x.tombstones <==> OpenKey(k) in c.decisions)
  {
    var x := Restart(c);
    forall k ensures k in x.disps <==> Recorded(c, k) {
      if Recorded(c, k) { assert DispKey(k).c == k; }
    }
    forall k ensures k in x.tombstones <==> OpenKey(k) in c.decisions {
      if OpenKey(k) in c.decisions { assert OpenKey(k).c == k; }
    }
  }

  /** A restart remembers every terminal disposition and every accepted channel. */
  lemma RestartDisp(c: Carriage, rank: map<ChannelId, nat>, n: nat)
    requires DispInv(c, rank, n)
    ensures DispInv(Restart(c), rank, n) && Follows(c, Restart(c))
  {
    hide Restart;
    RestartShape(c);
    RestartAgrees(c);
    RestartOrdered(c, rank, n);
    forall k ensures Lasts(c, Restart(c), k) { RestartLasts(c, k); }
    forall p | Spent(c, p) ensures Spent(Restart(c), p) { RestartSpent(c, p); }
  }

  lemma RestartAgrees(c: Carriage)
    requires Accepted(c) && Agree(c)
    ensures Accepted(Restart(c)) && Agree(Restart(c))
  {
    hide Restart;
    RestartShape(c);
  }

  lemma RestartOrdered(c: Carriage, rank: map<ChannelId, nat>, n: nat)
    requires Ordered(c, rank, n)
    ensures Ordered(Restart(c), rank, n)
  {
    hide Restart, Climbs;
    RestartShape(c);
  }

  lemma RestartLasts(c: Carriage, k: ChannelId)
    requires Agree(c)
    ensures Lasts(c, Restart(c), k)
  {
    hide Restart;
    RestartShape(c);
  }

  lemma RestartSpent(c: Carriage, p: (ChannelId, CkptRef))
    requires Accepted(c) && Spent(c, p)
    ensures Spent(Restart(c), p)
  {
    hide Restart;
    RestartShape(c);
  }

  lemma ReplicaDisp(c: Carriage, k: DecKey, v: DecValue, rank: map<ChannelId, nat>, n: nat)
    requires DispInv(c, rank, n) && !k.DispKey?
    ensures var c' := c.(decisions := Decide(c.decisions, k, v, true).0);
            Follows(c, c') && if k.OpenKey? && k !in c.decisions then DispInv(c', rank[k.c := n], n + 1) else DispInv(c', rank, n)
  {
    hide DispInv, Follows;
    var c' := c.(decisions := Decide(c.decisions, k, v, true).0);
    if k.OpenKey? && k !in c.decisions { ForeignOpenOk(c, k.c, v, rank, n); } else { QuietKeeps(c, c', rank, n); }
  }

  lemma ForeignOpenOk(c: Carriage, cid: ChannelId, v: DecValue, rank: map<ChannelId, nat>, n: nat)
    requires DispInv(c, rank, n) && OpenKey(cid) !in c.decisions
    ensures var c1 := c.(decisions := c.decisions[OpenKey(cid) := v]);
            DispInv(c1, rank[cid := n], n + 1) && Follows(c, c1)
  {
  }

  // ---- every message ---------------------------------------------------------------------------------------------

  /** Disposition records succeed, and no other writer records them. */
  predicate Written(e: Message) {
    match e
    case OpenMsg(_, _, _, dispOk) => dispOk
    case CloseMsg(_, _, io) => io.dispOk
    case ReplicaMsg(k, _) => !k.DispKey?
    case RailMsg(op) => OpOk(op)
    case _ => true
  }

  lemma HandleDisp(s: System, e: Message, rank: map<ChannelId, nat>, n: nat) returns (rank': map<ChannelId, nat>, n': nat)
    requires ValidRail(s.r) && DispInv(s.c, rank, n) && Written(e)
    ensures DispInv(Handle(s, e).0.c, rank', n') && Follows(s.c, Handle(s, e).0.c)
  {
    hide DispInv, Follows, ValidRail, Open, Batch, Checkpoint, Propose, ProveRound, FundChannel, InterimDraw, Close, Apply, NamedBy, Decide, Restart, Quiet;
    rank', n' := rank, n;
    var c, c' := s.c, Handle(s, e).0.c;
    FollowsRefl(c);
    match e
    case OpenMsg(cid, o, openOk, dispOk) =>
      OpenDisp(c, cid, o, openOk, rank, n);
      var x := RankOf(c, c', cid, rank, n);
      rank', n' := x.0, x.1;
    case CloseMsg(cid, q, io) => CloseDisp(s, cid, q, io, rank, n);
    case RestartMsg => RestartDisp(c, rank, n);
    case ReplicaMsg(k, v) =>
      ReplicaDisp(c, k, v, rank, n);
      if k.OpenKey? && k !in c.decisions { rank', n' := rank[k.c := n], n + 1; }
    case RailMsg(_) =>
    case _ =>
      HandleIsQuiet(s, e);
      if Quiet(c, c') { QuietKeeps(c, c', rank, n); }
  }

  lemma HandleIsQuiet(s: System, e: Message)
    requires ValidRail(s.r)
    requires e.BatchMsg? || e.CheckpointMsg? || e.ProposeMsg? || e.ProofMsg? || e.FundingMsg? || e.InterimMsg?
    ensures Quiet(s.c, Handle(s, e).0.c)
  {
    hide ValidRail, Batch, Checkpoint, Propose, ProveRound, FundChannel, InterimDraw;
    match e
    case ProofMsg(cid, ckpt, p, ok) =>
      if cid in s.c.channels && p.signed && NamedBy(s.c.channels[cid], ckpt, p.hash) { ProofIsQuiet(s, cid, ckpt, p, ok); }
    case FundingMsg(cid, f, ok) => FundingIsQuiet(s, cid, f, ok);
    case InterimMsg(cid) => InterimIsQuiet(s, cid);
    case _ => MeteringIsQuiet(s.c, e);
  }

  predicate AllWritten(msgs: seq<Message>) { forall i :: 0 <= i < |msgs| ==> Written(msgs[i]) }

  lemma {:induction false} ServeDisp(s: System, msgs: seq<Message>, rank: map<ChannelId, nat>, n: nat) returns (rank': map<ChannelId, nat>, n': nat)
    requires ValidRail(s.r) && DispInv(s.c, rank, n) && AllWritten(msgs)
    ensures Sendable(msgs) && DispInv(Serve(s, msgs).c, rank', n') && Follows(s.c, Serve(s, msgs).c)
  {
    hide DispInv, Follows, ValidRail, Handle;
    if |msgs| == 0 {
      rank', n' := rank, n;
      FollowsRefl(s.c);
    } else {
      var init := msgs[..|msgs| - 1];
      rank', n' := ServeDisp(s, init, rank, n);
      var mid := Serve(s, init);
      rank', n' := HandleDisp(mid, msgs[|msgs| - 1], rank', n');
      FollowsTrans(s.c, mid.c, Serve(s, msgs).c);
    }
  }

  /** The state after any run in which disposition records are written. */
  ghost predicate Kept(s: System) {
    ValidRail(s.r) && exists rank, n :: DispInv(s.c, rank, n)
  }

  lemma RunsAreKept(cfg: Config, delay: nat, msgs: seq<Message>)
    requires AllWritten(msgs)
    ensures Sendable(msgs) && Kept(Serve(Born(cfg, delay), msgs))
  {
    hide DispInv;
    BornDisp(cfg, delay);
    var rank, n := ServeDisp(Born(cfg, delay), msgs, map[], 0);
  }

  lemma BornDisp(cfg: Config, delay: nat)
    ensures DispInv(Born(cfg, delay).c, map[], 0)
  {
  }

  // ---- the properties ---------------------------------------------------------------------------------------------

  /** Terminal dispositions are never left, recorded decisions never change, over any later run with any
      restarts in it. */
  lemma TerminalDispositionsLast(s: System, msgs: seq<Message>, k: ChannelId)
    requires Kept(s) && AllWritten(msgs)
    ensures Sendable(msgs)
    ensures Lasts(s.c, Serve(s, msgs).c, k)
    ensures forall d <- s.c.decisions :: d in Serve(s, msgs).c.decisions && Serve(s, msgs).c.decisions[d] == s.c.decisions[d]
  {
    hide DispInv, Serve;
    var rank, n :| DispInv(s.c, rank, n);
    var rank', n' := ServeDisp(s, msgs, rank, n);
  }

  /** The message imports the position `p` into a new channel. */
  ghost predicate Imports(s: System, e: Message, p: (ChannelId, CkptRef))
    requires ValidRail(s.r) && Written(e)
  {
    e.OpenMsg? && e.o.predecessor == Some(p) && Handle(s, e).1.Ok?
  }

  /** The message makes the rail execute a keyed release for the channel: its refund. */
  ghost predicate Refunds(s: System, e: Message, cid: ChannelId)
    requires ValidRail(s.r) && MessageOk(e)
  {
    e.CloseMsg? && e.cid == cid && exists k :: (cid, k) !in s.r.releaseKeys && (cid, k) in Handle(s, e).0.r.releaseKeys
  }

  lemma RefundsByReconciling(s: System, e: Message, cid: ChannelId, rank: map<ChannelId, nat>, n: nat)
    requires ValidRail(s.r) && Written(e) && DispInv(s.c, rank, n) && Refunds(s, e, cid)
    ensures Reconciles(s, cid, e.close)
  {
    hide ValidRail, DispInv, Reconcile, InFlightRef, PriorDisp, Terminated;
    PriorIsMemory(s.c, cid, rank, n);
    DrawKeepsKeys(s, cid);
  }

  lemma DrawKeepsKeys(s: System, cid: ChannelId)
    requires ValidRail(s.r)
    ensures AttemptCloseDraw(s, cid).r.releaseKeys == s.r.releaseKeys
  {
    hide ValidRail, Advance, FundedP;
  }

  /** No position is both refunded and imported, in either order, whatever happens in between. */
  lemma RefundExcludesImport(s: System, first: Message, mid: seq<Message>, second: Message, cid: ChannelId, ref: CkptRef)
    requires Kept(s) && Written(first) && AllWritten(mid) && Written(second)
    ensures Sendable(mid)
    ensures Refunds(s, first, cid) ==> !Imports(Serve(Handle(s, first).0, mid), second, (cid, ref))
    ensures Imports(s, first, (cid, ref)) ==> !Refunds(Serve(Handle(s, first).0, mid), second, cid)
  {
    hide DispInv, Serve, Follows, ValidRail, Close, Open, Reconciles, Spent;
    var rank, n :| DispInv(s.c, rank, n);
    var r1, n1 := HandleDisp(s, first, rank, n);
    var s1 := Handle(s, first).0;
    var r2, n2 := ServeDisp(s1, mid, r1, n1);
    var s2 := Serve(s1, mid);
    if Refunds(s, first, cid) {
      RefundsByReconciling(s, first, cid, rank, n);
      CloseDisp(s, cid, first.close, first.io, rank, n);
      StaysReconciled(s1.c, s2.c, cid);
      if second.OpenMsg? { OpenDisp(s2.c, second.cid, second.o, second.openOk, r2, n2); }
    }
    if Imports(s, first, (cid, ref)) {
      OpenDisp(s.c, first.cid, first.o, first.openOk, rank, n);
      StaysCommitted(s1.c, s2.c, cid);
      if Refunds(s2, second, cid) {
        RefundsByReconciling(s2, second, cid, r2, n2);
        ReconcilesNothingCommitted(s2, cid, second.close);
      }
    }
  }

  lemma ReconcilesNothingCommitted(s: System, cid: ChannelId, q: CloseReq)
    requires Reconciles(s, cid, q)
    ensures !(cid in s.c.disps && s.c.disps[cid].Committed?)
  {
  }

  lemma StaysCommitted(c: Carriage, c': Carriage, cid: ChannelId)
    requires Follows(c, c') && cid in c.disps && c.disps[cid].Committed?
    ensures cid in c'.disps && c'.disps[cid].Committed?
  {
    assert Lasts(c, c', cid);
  }

  /** Each (predecessor, reference) is imported at most once, and each channel id established at most once. */
  lemma ImportedOnce(s: System, first: Message, mid: seq<Message>, second: Message, p: (ChannelId, CkptRef))
    requires Kept(s) && Written(first) && AllWritten(mid) && Written(second)
    ensures Sendable(mid)
    ensures Imports(s, first, p) ==> !Imports(Serve(Handle(s, first).0, mid), second, p)
    ensures first.OpenMsg? && second.OpenMsg? && first.cid == second.cid && Handle(s, first).1.Ok? ==>
              !Handle(Serve(Handle(s, first).0, mid), second).1.Ok?
  {
    hide DispInv, Serve, Follows, ValidRail, Open, Spent;
    var rank, n :| DispInv(s.c, rank, n);
    var r1, n1 := HandleDisp(s, first, rank, n);
    var s1 := Handle(s, first).0;
    var r2, n2 := ServeDisp(s1, mid, r1, n1);
    var s2 := Serve(s1, mid);
    if first.OpenMsg? && second.OpenMsg? {
      OpenDisp(s.c, first.cid, first.o, first.openOk, rank, n);
      OpenDisp(s2.c, second.cid, second.o, second.openOk, r2, n2);
      FollowsSpent(s1.c, s2.c, p);
      FollowsDecided(s1.c, s2.c);
    }
  }

  lemma FollowsDecided(c: Carriage, c': Carriage)
    requires Follows(c, c')
    ensures c.decisions.Keys <= c'.decisions.Keys
  {
  }
}
