/** What no message takes back: the rail's records and the durable decisions. */
module CarriageHistory {
  import opened Options
  import opened Instance
  import opened RailTypes
  import opened VirtualRail
  import opened RailHistory
  import opened Carriage
  import opened CarriageSteps
  import BookMoves
  import Dispositions

  /** Every recorded decision is still recorded, with its value. */
  predicate Remembers(c: Carriage, c': Carriage) {
    c.decisions.Keys <= c'.decisions.Keys && forall d <- c.decisions :: c'.decisions[d] == c.decisions[d]
  }

  // ---- decisions --------------------------------------------------------------------------------------

  lemma QuietRemembers(c: Carriage, c': Carriage)
    requires Dispositions.Quiet(c, c')
    ensures Remembers(c, c')
  {
  }

  lemma EstablishRemembers(c: Carriage, cid: ChannelId, o: OpenReq, openOk: bool, dispOk: bool)
    ensures Remembers(c, Establish(c, cid, o, openOk, dispOk).0)
  {
    hide FreshChannel, ChainedChannel, Conforms;
  }

  lemma RefreshRemembers(c: Carriage, pred: (ChannelId, CkptRef))
    requires pred.0 in c.disps && c.disps[pred.0].Intent?
    ensures RefreshSnapshot(c, pred).decisions == c.decisions
  {
    hide ComputeSnapshot;
  }

  lemma OpenRemembers(c: Carriage, cid: ChannelId, o: OpenReq, openOk: bool, dispOk: bool)
    ensures Remembers(c, Open(c, cid, o, openOk, dispOk).0)
  {
    hide Establish, RefreshSnapshot;
    EstablishRemembers(c, cid, o, openOk, dispOk);
    if o.predecessor.Some? && o.predecessor.value.0 in c.disps && c.disps[o.predecessor.value.0].Intent? {
      RefreshRemembers(c, o.predecessor.value);
      EstablishRemembers(RefreshSnapshot(c, o.predecessor.value), cid, o, openOk, dispOk);
    }
  }

  // ---- closing: the rail and the decisions together --------------------------------------------------------

  /** One system may follow another. */
  predicate History(s: System, s': System) { Grows(s.r, s'.r) && Remembers(s.c, s'.c) }

  lemma HistoryRefl(s: System)
    ensures History(s, s)
  {
    GrowsRefl(s.r);
  }

  lemma HistoryTrans(a: System, b: System, c: System)
    requires History(a, b) && History(b, c)
    ensures History(a, c)
  {
    hide Grows;
    GrowsTrans(a.r, b.r, c.r);
  }

  lemma AdvanceFollowsOn(r: Rail, src: Option<Address>, addr: Address, c: ChannelId, target: nat, asset: Asset)
    requires ValidRail(r) && target <= U128_MAX
    ensures Grows(r, AdvanceMeed(r, src, addr, c, target, asset).0)
  {
    hide ValidRail, Grows, NewRef, AdvanceMeed;
    StepFollows(r, AdvanceOp(src, addr, c, target, asset));
  }

  lemma RefundHistory(s: System, cid: ChannelId, ckpt: CkptRef, reserveOk: bool, refOk: bool)
    requires ValidRail(s.r) && cid in s.c.channels
    ensures History(s, IssueRefund(s, cid, ckpt, reserveOk, refOk))
  {
    hide ValidRail, Grows, NewRef, ReleaseKeyed, RefundOwed;
    GrowsRefl(s.r);
    var ch := s.c.channels[cid];
    if ch.terms.refundPtr.Some? {
      StepFollows(s.r, KeyedOp(cid, ckpt, s.c.cfg.settlePtr, ch.terms.refundPtr.value, ch.terms.asset, RefundOwed(ch)));
    }
  }

  lemma ReconcileHistory(s: System, cid: ChannelId, ckpt: CkptRef, io: CloseIo)
    requires ValidRail(s.r) && cid in s.c.channels
    ensures History(s, Reconcile(s, cid, ckpt, io).0)
  {
    hide ValidRail, Grows, IssueRefund, Drain, PendingDraw;
    RefundHistory(s, cid, ckpt, io.reserveOk, io.refOk);
  }

  lemma CloseDrawHistory(s: System, cid: ChannelId)
    requires ValidRail(s.r)
    ensures History(s, AttemptCloseDraw(s, cid))
  {
    hide ValidRail, Grows, AdvanceMeed;
    GrowsRefl(s.r);
    if cid in s.c.channels && cid in s.c.disps && s.c.disps[cid].Reconciled? && s.c.disps[cid].draw.Some? && s.c.disps[cid].draw.value.1 <= U128_MAX {
      AdvanceFollowsOn(s.r, Some(s.c.cfg.settlePtr), AddressOf(s.c.channels[cid].terms.seed), cid, s.c.disps[cid].draw.value.1, s.c.channels[cid].terms.asset);
    }
  }

  lemma TerminatedHistory(s: System, cid: ChannelId, c: Carriage)
    requires cid in c.channels && c.decisions == s.c.decisions
    ensures History(s, s.(c := Terminated(c, cid)))
  {
    GrowsRefl(s.r);
  }

  lemma CloseHistory(s: System, cid: ChannelId, q: CloseReq, io: CloseIo)
    requires ValidRail(s.r)
    ensures History(s, Close(s, cid, q, io).0)
  {
    hide ValidRail, History, Reconcile, AttemptCloseDraw, PriorDisp, InFlightRef, Terminated;
    HistoryRefl(s);
    if cid in s.c.channels {
      TerminatedHistory(s, cid, s.c);
      TerminatedHistory(s, cid, s.c.(disps := s.c.disps[cid := Intent]));
      ReconcileHistory(s, cid, q.ckpt, io);
      DrawThenEnd(s, cid);
      var s1 := Reconcile(s, cid, q.ckpt, io).0;
      DrawThenEnd(s1, cid);
      var s2 := AttemptCloseDraw(s1, cid);
      HistoryTrans(s, s1, s2.(c := Terminated(s2.c, cid)));
    }
  }

  lemma DrawThenEnd(s: System, cid: ChannelId)
    requires ValidRail(s.r) && cid in s.c.channels
    ensures cid in AttemptCloseDraw(s, cid).c.channels
    ensures var s2 := AttemptCloseDraw(s, cid); History(s, s2.(c := Terminated(s2.c, cid)))
  {
    hide ValidRail, History, AdvanceMeed;
    CloseDrawHistory(s, cid);
    var s2 := AttemptCloseDraw(s, cid);
    TerminatedHistory(s2, cid, s2.c);
    HistoryTrans(s, s2, s2.(c := Terminated(s2.c, cid)));
  }

  // ---- draws -------------------------------------------------------------------------------------------------

  lemma DrawGrows(s: System, cid: ChannelId, ckpt: CkptRef)
    requires ValidRail(s.r) && cid in s.c.channels && ckpt in s.c.channels[cid].rounds
    ensures Grows(s.r, DrawLocked(s, cid, ckpt).0.r)
  {
    hide ValidRail, Grows, AdvanceMeed, IsFinal, FinalTime, BookMoves.FoldInterim;
    GrowsRefl(s.r);
    var ch := s.c.channels[cid];
    var d := ch.rounds[ckpt];
    if d.target.Some? && d.target.value <= U128_MAX {
      AdvanceFollowsOn(s.r, Some(s.c.cfg.settlePtr), AddressOf(ch.terms.seed), cid, d.target.value, ch.terms.asset);
    }
  }

  lemma InterimGrows(s: System, cid: ChannelId)
    requires ValidRail(s.r)
    ensures Grows(s.r, InterimDraw(s, cid).0.r)
  {
    hide ValidRail, Grows, DrawLocked, LockInterim;
    GrowsRefl(s.r);
    if cid in s.c.channels {
      var ch := s.c.channels[cid];
      if InFlightRef(ch).Some? { DrawGrows(s, cid, InFlightRef(ch).value); }
      if LockInterim(ch).Some? {
        var (k, locked) := LockInterim(ch).value;
        LockRedraws(ch);
        DrawGrows(s.(c := PutChannel(s.c, cid, locked)), cid, k);
      }
    }
  }

  lemma ProofRail(s: System, cid: ChannelId, ckpt: CkptRef, p: Proof, ok: bool)
    requires cid in s.c.channels && ckpt in s.c.channels[cid].rounds
    ensures ProveRound(s, cid, ckpt, p, ok).0.r == s.r
  {
    hide ReadLegs, PlanOf, BookMoves.FoldProof;
  }

  lemma FundingRail(s: System, cid: ChannelId, f: Funding, ok: bool)
    ensures FundChannel(s, cid, f, ok).0.r == s.r
  {
    hide FundingLegOk, BookMoves.Credited, ResolveTip, BookMoves.Fund, FundingTarget;
  }

  // ---- every message ---------------------------------------------------------------------------------------------

  lemma HandleHistory(s: System, e: Message)
    requires ValidRail(s.r) && MessageOk(e)
    ensures History(s, Handle(s, e).0)
  {
    hide ValidRail, Grows, Remembers, Open, Batch, Checkpoint, Propose, ProveRound, FundChannel, InterimDraw, Close, Apply, NamedBy, Decide;
    GrowsRefl(s.r);
    match e
    case OpenMsg(cid, o, openOk, dispOk) => OpenRemembers(s.c, cid, o, openOk, dispOk);
    case CloseMsg(cid, q, io) => CloseHistory(s, cid, q, io);
    case RestartMsg => RestartRemembers(s.c);
    case ReplicaMsg(k, v) => DecideRemembers(s.c, k, v);
    case RailMsg(op) =>
      StepFollows(s.r, op);
      RestartRemembers(s.c);
    case _ =>
      Dispositions.HandleIsQuiet(s, e);
      QuietRemembers(s.c, Handle(s, e).0.c);
      QuietGrows(s, e);
  }

  lemma QuietGrows(s: System, e: Message)
    requires ValidRail(s.r)
    requires e.BatchMsg? || e.CheckpointMsg? || e.ProposeMsg? || e.ProofMsg? || e.FundingMsg? || e.InterimMsg?
    ensures Grows(s.r, Handle(s, e).0.r)
  {
    hide ValidRail, Grows, Batch, Checkpoint, Propose, ProveRound, FundChannel, InterimDraw;
    GrowsRefl(s.r);
    match e
    case InterimMsg(cid) => InterimGrows(s, cid);
    case ProofMsg(cid, ckpt, p, ok) =>
      if cid in s.c.channels && p.signed && NamedBy(s.c.channels[cid], ckpt, p.hash) { ProofRail(s, cid, ckpt, p, ok); }
    case FundingMsg(cid, f, ok) => FundingRail(s, cid, f, ok);
    case _ =>
  }

  lemma RestartRemembers(c: Carriage)
    ensures Remembers(c, Restart(c)) && Remembers(c, c)
  {
  }

  lemma DecideRemembers(c: Carriage, k: DecKey, v: DecValue)
    ensures Remembers(c, c.(decisions := Decide(c.decisions, k, v, true).0))
  {
  }

  /** Over any run the rail's references, idempotency records and watermarks stay or grow, and no decision is
      forgotten or changed. */
  lemma {:induction false} ServeHistory(s: System, msgs: seq<Message>)
    requires ValidRail(s.r) && Sendable(msgs)
    ensures History(s, Serve(s, msgs))
  {
    hide ValidRail, History, Handle;
    if |msgs| == 0 {
      HistoryRefl(s);
    } else {
      ServeHistory(s, msgs[..|msgs| - 1]);
      var mid := Serve(s, msgs[..|msgs| - 1]);
      HandleHistory(mid, msgs[|msgs| - 1]);
      HistoryTrans(s, mid, Serve(s, msgs));
    }
  }
}
