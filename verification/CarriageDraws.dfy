/** Draws and closes against the invariant of module CarriageBooks. */
module CarriageDraws {
  import opened Options
  import opened Instance
  import opened Ledger
  import opened RailTypes
  import opened VirtualRail
  import opened RailHistory
  import M = Metering
  import opened Books
  import opened BookMoves
  import opened Carriage
  import opened CarriageSteps
  import opened CarriageBooks

  // ---- drawing ------------------------------------------------------------------------------------

  /** An accepted advance has brought the watermark to its target exactly when the instance has shares to
      pay, or the watermark was there already. */
  lemma AdvanceReaches(r: Rail, src: Option<Address>, seed: Seed, cid: ChannelId, target: nat, asset: Asset)
    requires ValidRail(r) && target <= U128_MAX
    requires AdvanceMeed(r, src, AddressOf(seed), cid, target, asset).1.Ref?
    ensures AddressOf(seed) in r.instances
    ensures target <= FundedAt(AdvanceMeed(r, src, AddressOf(seed), cid, target, asset).0, seed, cid)
       <==> (BpTotal(r.instances[AddressOf(seed)].meed) > 0 || target <= FundedAt(r, seed, cid))
  {
    hide ValidSplit, CreditAll, Payouts, Entitlements, BpTotal;
  }

  lemma DrawRefOk(r: Rail, cid: ChannelId, ch: Channel, ckpt: CkptRef, ref: nat)
    requires ChannelOk(r, cid, ch) && ckpt in ch.rounds && !ch.rounds[ckpt].confirmed
    requires ch.rounds[ckpt].target.Some? && (Shares(r, ch.terms.seed) ==> ch.rounds[ckpt].target.value <= FundedAt(r, ch.terms.seed, cid))
    ensures ChannelOk(r, cid, SetDrawRef(ch, ckpt, ref))
  {
    hide BooksOk, OwnUnits, FundedAt, Shares;
    SetDrawRefKeeps(ch, ckpt, ref);
  }

  lemma InterimFoldOk(r: Rail, cid: ChannelId, ch: Channel, ckpt: CkptRef, time: Option<nat>)
    requires ChannelOk(r, cid, ch) && ckpt in ch.rounds && !ch.rounds[ckpt].confirmed && ch.meter.prepay
    requires |ch.rounds[ckpt].eR| == |ch.ledger.settled|
    requires ch.rounds[ckpt].target.Some? && (Shares(r, ch.terms.seed) ==> ch.rounds[ckpt].target.value <= FundedAt(r, ch.terms.seed, cid))
    ensures ChannelOk(r, cid, FoldInterim(ch, ckpt, time))
  {
    hide BooksOk, OwnUnits, FundedAt, Shares;
    FoldInterimKeeps(ch, ckpt, time);
  }

  lemma DrawnReached(r: Rail, cid: ChannelId, ch: Channel, ckpt: CkptRef)
    requires ChannelOk(r, cid, ch) && ckpt in ch.rounds && !ch.rounds[ckpt].confirmed && ch.rounds[ckpt].drawRef.Some?
    ensures Shares(r, ch.terms.seed) ==> ch.rounds[ckpt].target.Some? && ch.rounds[ckpt].target.value <= FundedAt(r, ch.terms.seed, cid)
  {
    hide BooksOk, OwnUnits, FundedAt, Shares;
  }

  /** The round's draw on the rail: made now, or made before. */
  lemma DrawMade(s: System, cid: ChannelId, ckpt: CkptRef)
    requires Inv(s) && cid in s.c.channels && ckpt in s.c.channels[cid].rounds && !s.c.channels[cid].rounds[ckpt].confirmed
    requires s.c.channels[cid].rounds[ckpt].target.Some? && s.c.channels[cid].rounds[ckpt].target.value <= U128_MAX
    requires s.c.channels[cid].rounds[ckpt].drawRef.None?
    ensures var ch := s.c.channels[cid];
            var (r', reply) := AdvanceMeed(s.r, Some(s.c.cfg.settlePtr), AddressOf(ch.terms.seed), cid, ch.rounds[ckpt].target.value, ch.terms.asset);
            && Inv(s.(r := r'))
            && (reply.Ref? && Shares(r', ch.terms.seed) ==> ch.rounds[ckpt].target.value <= FundedAt(r', ch.terms.seed, cid))
  {
    hide ChannelOk, FactsHold, ValidRail, SnapshotOk, FundedAt, AdvanceMeed;
    var ch := s.c.channels[cid];
    var target := ch.rounds[ckpt].target.value;
    var op := AdvanceOp(Some(s.c.cfg.settlePtr), AddressOf(ch.terms.seed), cid, target, ch.terms.asset);
    RailKeeps(s, op);
    assert Apply(s.r, op) == AdvanceMeed(s.r, Some(s.c.cfg.settlePtr), AddressOf(ch.terms.seed), cid, target, ch.terms.asset);
    if Apply(s.r, op).1.Ref? && Shares(Apply(s.r, op).0, ch.terms.seed) {
      StepFollows(s.r, op);
      SharesBefore(s.r, Apply(s.r, op).0, ch.terms.seed);
      AdvanceReaches(s.r, Some(s.c.cfg.settlePtr), ch.terms.seed, cid, target, ch.terms.asset);
    }
  }

  lemma DrawStep(s: System, cid: ChannelId, ckpt: CkptRef)
    requires Inv(s) && cid in s.c.channels && ckpt in s.c.channels[cid].rounds && !s.c.channels[cid].rounds[ckpt].confirmed
    requires s.c.channels[cid].meter.prepay
    ensures Inv(DrawLocked(s, cid, ckpt).0)
  {
    hide BooksOk, OwnUnits, DrawnOk, FactsHold, ValidRail, SnapshotOk, FundedAt, AdvanceMeed, FoldInterim, IsFinal, FinalTime;
    var ch := s.c.channels[cid];
    var d := ch.rounds[ckpt];
    if d.target.Some? && d.target.value <= U128_MAX && |d.eR| == |ch.ledger.settled| {
      var (r', reply) := if d.drawRef.Some? then (s.r, Reply.Ref(d.drawRef.value))
        else AdvanceMeed(s.r, Some(s.c.cfg.settlePtr), AddressOf(ch.terms.seed), cid, d.target.value, ch.terms.asset);
      if d.drawRef.Some? { DrawnReached(s.r, cid, ch, ckpt); } else { DrawMade(s, cid, ckpt); }
      if reply.Ref? {
        var s1 := s.(r := r');
        assert Inv(s1);
        DrawRefOk(r', cid, ch, ckpt, reply.r);
        var drawn := SetDrawRef(ch, ckpt, reply.r);
        InterimFoldOk(r', cid, drawn, ckpt, FinalTime(r', reply.r));
        PutKeeps(s1, cid, drawn);
        PutKeeps(s1, cid, FoldInterim(drawn, ckpt, FinalTime(r', reply.r)));
      }
    }
  }

  lemma LockKeeps(r: Rail, cid: ChannelId, ch: Channel)
    requires ChannelOk(r, cid, ch) && ch.meter.prepay && (forall k <- ch.rounds :: ch.rounds[k].confirmed)
    requires LockInterim(ch).Some? && LockInterim(ch).value.0 !in ch.rounds
    ensures var (k, locked) := LockInterim(ch).value;
            ChannelOk(r, cid, locked) && k in locked.rounds && !locked.rounds[k].confirmed && locked.meter == ch.meter
  {
    hide BooksOk, InFlight, Recompute, CumulativeTarget, DrawnOk, FundedAt;
    var (x, target) := Verified(ch).value;
    InterimRoundInFlight(ch, x, target.value);
    var (k, locked) := LockInterim(ch).value;
    StartKeeps(ch, k, InterimRound(ch, x, target.value));
    StartStanding(r, cid, ch, k, InterimRound(ch, x, target.value));
  }

  lemma NoneInFlight(ch: Channel)
    requires InFlightRef(ch).None?
    ensures forall k <- ch.rounds :: ch.rounds[k].confirmed
  {
  }

  lemma LockNames(ch: Channel)
    requires LockInterim(ch).Some? && ch.operative.Some?
    ensures LockInterim(ch).value.0 == ch.operative.value.ref
  {
  }

  lemma InterimStep(s: System, cid: ChannelId)
    requires Inv(s)
    ensures Inv(InterimDraw(s, cid).0)
  {
    hide ChannelOk, FactsHold, ValidRail, SnapshotOk, DrawLocked, LockInterim;
    if cid in s.c.channels && s.c.channels[cid].meter.prepay && s.c.channels[cid].meter.open {
      var ch := s.c.channels[cid];
      match InFlightRef(ch)
      case Some(k) => DrawStep(s, cid, k);
      case None =>
        if ch.operative.Some? && ch.operative.value.ref !in ch.rounds && LockInterim(ch).Some? {
          NoneInFlight(ch);
          LockNames(ch);
          LockKeeps(s.r, cid, ch);
          var (k, locked) := LockInterim(ch).value;
          PutKeeps(s, cid, locked);
          DrawStep(s.(c := PutChannel(s.c, cid, locked)), cid, k);
        }
    }
  }

  // ---- closing --------------------------------------------------------------------------------------

  lemma DrainKeeps(r: Rail, cid: ChannelId, ch: Channel)
    requires ChannelOk(r, cid, ch)
    ensures ChannelOk(r, cid, Drain(ch, r, cid))
  {
    hide BooksOk, OwnUnits, FundedAt, FoldInterim;
    if ch.meter.prepay && InFlightRef(ch).Some? {
      var k := InFlightRef(ch).value;
      if DrawnOnRail(r, cid, ch.terms, ch.rounds[k]) && |ch.rounds[k].eR| == |ch.ledger.settled| {
        DrawnReached(r, cid, ch, k);
        InterimFoldOk(r, cid, ch, k, None);
      } else {
        RemoveKeeps(ch, k);
      }
    }
  }

  /** Nothing the invariant speaks of depends on dispositions or recorded decisions. */
  lemma NotesKeep(s: System, disps: map<ChannelId, Disp>, decisions: map<DecKey, DecValue>)
    requires Inv(s)
    ensures Inv(s.(c := s.c.(disps := disps, decisions := decisions)))
  {
  }

  lemma RefundKeeps(s: System, cid: ChannelId, ckpt: CkptRef, reserveOk: bool, refOk: bool)
    requires Inv(s) && cid in s.c.channels
    ensures Inv(IssueRefund(s, cid, ckpt, reserveOk, refOk))
    ensures IssueRefund(s, cid, ckpt, reserveOk, refOk).c.channels == s.c.channels
  {
    hide ChannelOk, FactsHold, ValidRail, SnapshotOk, ReleaseKeyed, Decide, RefundOwed;
    var ch := s.c.channels[cid];
    if ch.terms.refundPtr.Some? {
      var op := KeyedOp(cid, ckpt, s.c.cfg.settlePtr, ch.terms.refundPtr.value, ch.terms.asset, RefundOwed(ch));
      assert Apply(s.r, op) == ReleaseKeyed(s.r, cid, ckpt, s.c.cfg.settlePtr, ch.terms.refundPtr.value, ch.terms.asset, RefundOwed(ch));
      RailKeeps(s, op);
      var s1 := s.(r := Apply(s.r, op).0);
      NotesKeep(s1, s1.c.disps, IssueRefund(s, cid, ckpt, reserveOk, refOk).c.decisions);
    }
  }

  lemma CloseDrawKeeps(s: System, cid: ChannelId)
    requires Inv(s)
    ensures Inv(AttemptCloseDraw(s, cid))
  {
    hide ChannelOk, FactsHold, ValidRail, SnapshotOk, AdvanceMeed;
    if cid in s.c.channels && cid in s.c.disps && s.c.disps[cid].Reconciled? && s.c.disps[cid].draw.Some? && s.c.disps[cid].draw.value.1 <= U128_MAX {
      var ch := s.c.channels[cid];
      var op := AdvanceOp(Some(s.c.cfg.settlePtr), AddressOf(ch.terms.seed), cid, s.c.disps[cid].draw.value.1, ch.terms.asset);
      assert Apply(s.r, op) == AdvanceMeed(s.r, Some(s.c.cfg.settlePtr), AddressOf(ch.terms.seed), cid, s.c.disps[cid].draw.value.1, ch.terms.asset);
      RailKeeps(s, op);
      NotesKeep(s.(r := Apply(s.r, op).0), s.c.disps[cid := Reconciled(None)], s.c.decisions);
    }
  }

  lemma TerminateKeeps(s: System, cid: ChannelId)
    requires Inv(s) && cid in s.c.channels
    ensures Inv(s.(c := Terminated(s.c, cid)))
  {
    hide BooksOk, OwnUnits, DrawnOk, FactsHold, ValidRail, SnapshotOk, FundedAt;
    var ch := s.c.channels[cid];
    var ch' := ch.(meter := M.BeginSettling(ch.meter));
    SettlingKeeps(ch);
    SameStanding(s.r, cid, ch, ch');
    PutKeeps(s, cid, ch');
  }

  lemma ReconcileKeeps(s: System, cid: ChannelId, ckpt: CkptRef, io: CloseIo)
    requires Inv(s) && cid in s.c.channels
    ensures Inv(Reconcile(s, cid, ckpt, io).0)
  {
    hide ChannelOk, FactsHold, ValidRail, SnapshotOk, IssueRefund, Drain, Decide, PendingDraw;
    RefundKeeps(s, cid, ckpt, io.reserveOk, io.refOk);
    var s1 := IssueRefund(s, cid, ckpt, io.reserveOk, io.refOk);
    DrainKeeps(s1.r, cid, s1.c.channels[cid]);
    PutKeeps(s1, cid, Drain(s1.c.channels[cid], s1.r, cid));
  }

  lemma CloseStep(s: System, cid: ChannelId, q: CloseReq, io: CloseIo)
    requires Inv(s)
    ensures Inv(Close(s, cid, q, io).0)
  {
    hide Inv, Reconcile, AttemptCloseDraw, Terminated, InFlightRef, PriorDisp;
    if cid in s.c.channels {
      var marked := s.(c := s.c.(disps := s.c.disps[cid := Intent]));
      NotesKeep(s, s.c.disps[cid := Intent], s.c.decisions);
      TerminateKeeps(s, cid);
      TerminateKeeps(marked, cid);
      ReconcileKeeps(s, cid, q.ckpt, io);
      var s1 := Reconcile(s, cid, q.ckpt, io).0;
      CloseDrawKeeps(s1, cid);
      CloseDrawKeeps(s, cid);
      CloseDrawLeaves(s1, cid);
      CloseDrawLeaves(s, cid);
      TerminateKeeps(AttemptCloseDraw(s1, cid), cid);
      TerminateKeeps(AttemptCloseDraw(s, cid), cid);
    }
  }
}
