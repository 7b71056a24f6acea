/** The escrow invariant over every message, and what it rules out. */
module EscrowRuns {
  import opened Sums
  import opened Options
  import opened Instance
  import opened Ledger
  import opened RailTypes
  import opened VirtualRail
  import opened RailHistory
  import M = Metering
  import opened Books
  import opened BookMoves
  import opened Carriage
  import opened CarriageSteps
  import opened CarriageBooks
  import opened CarriageDraws
  import opened CarriageRuns
  import opened EscrowRail
  import opened Escrow
  import Dispositions
  import F7

  // ---- funding --------------------------------------------------------------------------------------------

  lemma FundPrudent(ch: Channel, amount: nat)
    requires BooksOk(ch) && Prudent(ch)
    ensures var ch' := Fund(ch, Credited(ch, amount));
            && Prudent(ch') && Carve(ch') == Carve(ch) && ch'.terms == ch.terms && ch'.meter.prepay == ch.meter.prepay
            && ch'.ledger.funding <= ch.ledger.funding + amount && ch'.meter.open == ch.meter.open
  {
    hide BooksOk, Sum, F7.OutstandingMerchantNet;
    BooksMeter(ch);
    var credited := Credited(ch, amount);
    if ch.meter.prepay { M.CoveredKept(ch.meter, ch.ledger.funding, [], credited); }
    assert Roles(Fund(ch, credited)) == Roles(ch);
  }

  /** Crediting a payment takes it out of the pool and raises its channel's claim by no more. */
  lemma CreditSolvent(s: System, k: ChannelId, ref: nat, ch: Channel)
    requires Solvent(s) && k in s.c.channels && ref < |s.r.refs| && FundKey(ref) !in s.c.decisions
    requires s.r.refs[ref].1.to == s.c.cfg.settlePtr && s.r.refs[ref].1.memo.Some?
    requires Carve(ch) == Carve(s.c.channels[k]) && ch.terms == s.c.channels[k].terms && ch.meter.prepay == s.c.channels[k].meter.prepay
    requires ch.ledger.funding <= s.c.channels[k].ledger.funding + s.r.refs[ref].1.amount
    ensures Solvent(s.(c := PutChannel(Consumed(s.c, ref, true), k, ch)))
  {
    hide MapSum, Claims, Bal, Carve, FundedAt;
    var s' := s.(c := PutChannel(Consumed(s.c, ref, true), k, ch));
    PoolTakes(s.r.refs, s.c.decisions, ref, Bare, s.c.cfg.settlePtr);
    assert s'.c.channels.Keys == s.c.channels.Keys;
    assert ClaimOf(s', k) <= ClaimOf(s, k) + s.r.refs[ref].1.amount;
    ClaimsMove(s, s', k, s.r.refs[ref].1.amount);
  }

  lemma FundingEscrow(s: System, cid: ChannelId, f: Funding, ok: bool)
    requires EscrowOk(s)
    ensures EscrowOk(FundChannel(s, cid, f, ok).0)
  {
    hide Inv, Tidy, Within, Solvent, Shut, ValidRail, IsFinal, ResolveTip, FundingTarget, Fund, Credited;
    FundingStep(s, cid, f, ok);
    var s' := FundChannel(s, cid, f, ok).0;
    if s' != s {
      var target := FundingTarget(s.c, cid);
      var info := RefTarget(s.r, f.ref).value;
      InvRail(s);
      CanonicalHere(s.r, f.ref);
      var s1 := s.(c := Consumed(s.c, f.ref, ok));
      NotesOk(s, Consumed(s.c, f.ref, ok));
      ShutNotes(s.c, s1.c);
      if s' != s1 {
        var ch := s.c.channels[target];
        InvBooks(s, target);
        ChannelPrudent(s.c, target);
        FundPrudent(ch, info.amount);
        var ch' := Fund(ch, Credited(ch, info.amount));
        CreditSolvent(s, target, f.ref, ch');
        PutTidy(s1.c, target, ch');
        PutShut(s1.c, target, ch');
      }
    }
  }

  lemma InvRail(s: System)
    requires Inv(s)
    ensures ValidRail(s.r)
  {
    hide ValidRail, ChannelOk, SnapshotOk, FactsHold;
  }

  lemma CanonicalHere(r: Rail, ref: nat)
    requires ValidRail(r) && RefTarget(r, ref).Some?
    ensures ref < |r.refs| && RefTarget(r, ref).value.canonical == ref && r.refs[ref].1 == RefTarget(r, ref).value
  {
    hide Valid, ValidSplit;
  }

  // ---- the rail -----------------------------------------------------------------------------------------------

  lemma GrownClaims(s: System, r: Rail)
    requires Grows(s.r, r)
    ensures ClaimsFall(s, s.(r := r))
  {
    hide Grows, FundedAt, Carve;
    forall j <- s.c.channels ensures ClaimOf(s.(r := r), j) <= ClaimOf(s, j) {
      FundedMonotone(s.r, r, s.c.channels[j].terms.seed, j);
    }
  }

  lemma RailEscrow(s: System, op: Op)
    requires EscrowOk(s) && OpOk(op) && !Debits(op, s.c.cfg.settlePtr)
    ensures EscrowOk(s.(r := Apply(s.r, op).0))
  {
    hide Inv, Tidy, Shut, Within, PlainAccount, Apart, ValidRail, Apply, MapSum, Claims, Bal, ClaimsFall, OpOk, Debits;
    InvRail(s);
    RailKeeps(s, op);
    var r' := Apply(s.r, op).0;
    StepFollows(s.r, op);
    OthersServe(s.r, op, s.c.cfg.settlePtr);
    ServedApart(s.r, r', s.c.cfg.settlePtr, 0);
    ServesPool(s.r, r', s.c.cfg.settlePtr, 0, s.c.decisions);
    GrownClaims(s, r');
    ClaimsDrop(s, s.(r := r'));
  }

  lemma ServedApart(r: Rail, r': Rail, p: Address, x: nat)
    requires Serves(r, r', p, x)
    ensures Within(r'.ledger) && Apart(r', p)
  {
  }

  // ---- draws --------------------------------------------------------------------------------------------------------

  /** A draw toward a target the claim covers is paid out of that claim, and never short. */
  lemma DrawPaid(s: System, cid: ChannelId, target: nat)
    requires Core(s) && cid in s.c.channels && target <= U128_MAX
    requires forall f: nat :: FundedAt(s.r, s.c.channels[cid].terms.seed, cid) <= f <= target ==>
               ClaimOn(s.c.channels[cid], DispOf(s.c, cid), f) + f
               <= ClaimOf(s, cid) + FundedAt(s.r, s.c.channels[cid].terms.seed, cid)
    requires target <= ClaimOf(s, cid) + FundedAt(s.r, s.c.channels[cid].terms.seed, cid)
    ensures var ch := s.c.channels[cid];
            ValidRail(s.r) && var (r', reply) := AdvanceMeed(s.r, Some(s.c.cfg.settlePtr), AddressOf(ch.terms.seed), cid, target, ch.terms.asset);
            && Core(s.(r := r')) && reply != Failed(InsufficientEscrow)
  {
    hide Inv, Tidy, Within, PlainAccount, Apart, ValidRail, AdvanceMeed, MapSum, Bal, FundedAt, ClaimOn, Pool, Serves;
    InvRail(s);
    var ch := s.c.channels[cid];
    var p := s.c.cfg.settlePtr;
    var op := AdvanceOp(Some(p), AddressOf(ch.terms.seed), cid, target, ch.terms.asset);
    RailKeeps(s, op);
    StepFollows(s.r, op);
    assert Apply(s.r, op) == AdvanceMeed(s.r, Some(p), AddressOf(ch.terms.seed), cid, target, ch.terms.asset);
    var r' := Apply(s.r, op).0;
    AdvanceServes(s.r, Some(p), ch.terms.seed, cid, target, ch.terms.asset, p);
    var f, f' := FundedAt(s.r, ch.terms.seed, cid), FundedAt(r', ch.terms.seed, cid);
    ServedApart(s.r, r', p, f' - f);
    ServesPool(s.r, r', p, f' - f, s.c.decisions);
    MapSumMember<ChannelId>(Claims(s), cid);
    GrownClaims(s, r');
    DrawnClaims(s, r', cid);
  }

  lemma DrawnClaims(s: System, r': Rail, cid: ChannelId)
    requires cid in s.c.channels && ClaimsFall(s, s.(r := r'))
    requires var f, f' := FundedAt(s.r, s.c.channels[cid].terms.seed, cid), FundedAt(r', s.c.channels[cid].terms.seed, cid);
             f <= f' && ClaimOn(s.c.channels[cid], DispOf(s.c, cid), f') + f' <= ClaimOf(s, cid) + f
    ensures var f, f' := FundedAt(s.r, s.c.channels[cid].terms.seed, cid), FundedAt(r', s.c.channels[cid].terms.seed, cid);
            MapSum<ChannelId>(Claims(s.(r := r'))) + f' <= MapSum<ChannelId>(Claims(s)) + f
  {
    hide MapSum, FundedAt, ClaimOn;
    var f: int, f': int := FundedAt(s.r, s.c.channels[cid].terms.seed, cid), FundedAt(r', s.c.channels[cid].terms.seed, cid);
    ClaimsMove(s, s.(r := r'), cid, f - f');
  }

  /** While a prepay channel is not reconciled, its claim covers its whole carve, drawn in any steps. */
  lemma OpenClaim(s: System, cid: ChannelId, target: nat)
    requires Core(s) && cid in s.c.channels && s.c.channels[cid].meter.prepay && target <= Carve(s.c.channels[cid])
    requires cid in s.c.disps ==> !s.c.disps[cid].Reconciled?
    ensures forall f: nat :: FundedAt(s.r, s.c.channels[cid].terms.seed, cid) <= f <= target ==>
               ClaimOn(s.c.channels[cid], DispOf(s.c, cid), f) + f
               <= ClaimOf(s, cid) + FundedAt(s.r, s.c.channels[cid].terms.seed, cid)
    ensures target <= ClaimOf(s, cid) + FundedAt(s.r, s.c.channels[cid].terms.seed, cid)
  {
    hide Inv, Within, PlainAccount, Apart, Solvent, Carve, FundedAt, Prudent, BooksOk, RefundOwed;
    InvBooks(s, cid);
    ChannelPrudent(s.c, cid);
    CarveWithin(s.c.channels[cid]);
  }

  lemma DrawEscrow(s: System, cid: ChannelId, ckpt: CkptRef)
    requires EscrowOk(s) && cid in s.c.channels && ckpt in s.c.channels[cid].rounds && !s.c.channels[cid].rounds[ckpt].confirmed
    requires s.c.channels[cid].meter.prepay && s.c.channels[cid].meter.open
    ensures EscrowOk(DrawLocked(s, cid, ckpt).0)
  {
    hide Inv, Tidy, Within, Solvent, PlainAccount, Apart, ValidRail, AdvanceMeed, FoldInterim, IsFinal, FinalTime, BooksOk, Prudent, Carve, ClaimOf, ClaimOn, FundedAt;
    InvRail(s);
    DrawStep(s, cid, ckpt);
    var ch := s.c.channels[cid];
    var d := ch.rounds[ckpt];
    InvBooks(s, cid);
    ChannelPrudent(s.c, cid);
    TargetWithin(ch, ckpt);
    if d.target.value <= U128_MAX && |d.eR| == |ch.ledger.settled| {
      var (r', reply) := if d.drawRef.Some? then (s.r, Reply.Ref(d.drawRef.value))
        else AdvanceMeed(s.r, Some(s.c.cfg.settlePtr), AddressOf(ch.terms.seed), cid, d.target.value, ch.terms.asset);
      if d.drawRef.None? {
        OpenClaim(s, cid, d.target.value);
        DrawPaid(s, cid, d.target.value);
      }
      var s1 := s.(r := r');
      assert Core(s1) && Shut(s1.c);
      if reply.Ref? {
        var drawn := SetDrawRef(ch, ckpt, reply.r);
        var folded := FoldInterim(drawn, ckpt, FinalTime(r', reply.r));
        DrawRedraws(ch, ckpt, reply.r, FinalTime(r', reply.r));
        RedrawnPosition(ch, drawn);
        RedrawnPosition(ch, folded);
        if IsFinal(r', reply.r) { PutSame(s1, cid, folded); } else { PutSame(s1, cid, drawn); }
      }
    }
  }

  lemma InterimEscrow(s: System, cid: ChannelId)
    requires EscrowOk(s)
    ensures EscrowOk(InterimDraw(s, cid).0)
  {
    hide Inv, Tidy, Within, Solvent, PlainAccount, Apart, ValidRail, Shut, DrawLocked, LockInterim, ChannelOk;
    InvRail(s);
    if cid in s.c.channels && s.c.channels[cid].meter.prepay && s.c.channels[cid].meter.open {
      var ch := s.c.channels[cid];
      match InFlightRef(ch)
      case Some(k) => DrawEscrow(s, cid, k);
      case None =>
        if ch.operative.Some? && ch.operative.value.ref !in ch.rounds && LockInterim(ch).Some? {
          NoneInFlight(ch);
          LockNames(ch);
          InvBooks(s, cid);
          LockKeeps(s.r, cid, ch);
          var (k, locked) := LockInterim(ch).value;
          PutKeeps(s, cid, locked);
          LockRedraws(ch);
          RedrawnPosition(ch, locked);
          PutSame(s, cid, locked);
          DrawEscrow(s.(c := PutChannel(s.c, cid, locked)), cid, k);
        }
    }
  }

  // ---- closes ---------------------------------------------------------------------------------------------------------

  lemma ReconciledClaim(s: System, cid: ChannelId, target: nat)
    requires cid in s.c.channels && cid in s.c.disps && s.c.disps[cid].Reconciled?
    requires s.c.disps[cid].draw.Some? && s.c.disps[cid].draw.value.1 == target
    ensures forall f: nat :: FundedAt(s.r, s.c.channels[cid].terms.seed, cid) <= f <= target ==>
               ClaimOn(s.c.channels[cid], DispOf(s.c, cid), f) + f
               <= ClaimOf(s, cid) + FundedAt(s.r, s.c.channels[cid].terms.seed, cid)
    ensures target <= ClaimOf(s, cid) + FundedAt(s.r, s.c.channels[cid].terms.seed, cid)
  {
    hide FundedAt;
  }

  lemma SettledDisp(s: System, cid: ChannelId)
    requires Core(s) && cid in s.c.channels && cid in s.c.disps && s.c.disps[cid].Reconciled?
    ensures Core(s.(c := s.c.(disps := s.c.disps[cid := Reconciled(None)])))
  {
    hide Inv, Within, PlainAccount, Apart, Prudent, FundedAt, Carve, Claims, ClaimsFall;
    var s' := s.(c := s.c.(disps := s.c.disps[cid := Reconciled(None)]));
    CarriageDraws.NotesKeep(s, s'.c.disps, s.c.decisions);
    assert ClaimsFall(s, s') by { FallsOnDisp(s, s', cid); }
    BooksSolvent(s, s');
  }

  lemma FallsOnDisp(s: System, s': System, cid: ChannelId)
    requires s'.r == s.r && s'.c.channels == s.c.channels && cid in s.c.channels
    requires forall k <- s.c.channels :: k != cid ==> DispOf(s'.c, k) == DispOf(s.c, k)
    requires ClaimOf(s', cid) <= ClaimOf(s, cid)
    ensures ClaimsFall(s, s')
  {
    hide FundedAt, ClaimOn;
  }

  lemma CloseDrawEscrow(s: System, cid: ChannelId)
    requires Core(s)
    ensures ValidRail(s.r) && Core(AttemptCloseDraw(s, cid))
    ensures AttemptCloseDraw(s, cid).c.channels == s.c.channels
    ensures forall k <- s.c.disps :: k in AttemptCloseDraw(s, cid).c.disps && (AttemptCloseDraw(s, cid).c.disps[k].Reconciled? <==> s.c.disps[k].Reconciled?)
    ensures AttemptCloseDraw(s, cid).c.disps.Keys == s.c.disps.Keys
  {
    hide Inv, Tidy, Within, Solvent, PlainAccount, Apart, ValidRail, AdvanceMeed, ClaimOf, ClaimOn, FundedAt;
    InvRail(s);
    if cid in s.c.channels && cid in s.c.disps && s.c.disps[cid].Reconciled? && s.c.disps[cid].draw.Some? && s.c.disps[cid].draw.value.1 <= U128_MAX {
      var target := s.c.disps[cid].draw.value.1;
      ReconciledClaim(s, cid, target);
      DrawPaid(s, cid, target);
      var ch := s.c.channels[cid];
      var r' := AdvanceMeed(s.r, Some(s.c.cfg.settlePtr), AddressOf(ch.terms.seed), cid, target, ch.terms.asset).0;
      SettledDisp(s.(r := r'), cid);
    }
  }

  /** The refund leaves the pinned carve covered: what is released is what the claim sheds. */
  lemma RefundArithmetic(ch: Channel, drained: Channel, disp: Option<Disp>, funded: nat, funded': nat)
    requires BooksOk(ch) && Prudent(ch) && Prudent(drained) && Shape(drained) && funded <= funded'
    requires SamePosition(ch, drained)
    requires disp.Some? ==> !disp.value.Reconciled?
    ensures ClaimOn(drained, Some(Reconciled(PendingDraw(drained))), funded') + (if ch.meter.prepay then RefundOwed(ch) else 0) <= ClaimOn(ch, disp, funded)
    ensures ch.meter.prepay ==> RefundOwed(ch) <= ClaimOn(ch, disp, funded)
  {
    hide BooksOk, Prudent, Carve, RefundOwed, PendingDraw;
    SamePositionKeeps(ch, drained);
    if PendingDraw(drained).Some? { PendingIsCarve(drained); }
    if ch.meter.prepay { CarveWithin(ch); }
  }

  /** What the release of the refund does to the rail. */
  lemma RefundRail(s: System, cid: ChannelId, ckpt: CkptRef, reserveOk: bool, refOk: bool)
    requires Core(s) && cid in s.c.channels
    ensures ValidRail(s.r)
    ensures var s1 := IssueRefund(s, cid, ckpt, reserveOk, refOk);
            && Grows(s.r, s1.r) && Serves(s.r, s1.r, s.c.cfg.settlePtr, if s.c.channels[cid].meter.prepay then RefundOwed(s.c.channels[cid]) else 0)
            && Inv(s1) && Tidy(s1.c) && s1.c.channels == s.c.channels && s1.c.disps == s.c.disps && s1.c.cfg == s.c.cfg
            && s.c.decisions.Keys <= s1.c.decisions.Keys
  {
    hide Inv, Within, Solvent, PlainAccount, Apart, ValidRail, ReleaseKeyed, RefundOwed, Serves, Grows, Prudent, Bal;
    InvRail(s);
    RefundKeeps(s, cid, ckpt, reserveOk, refOk);
    var ch := s.c.channels[cid];
    var s1 := IssueRefund(s, cid, ckpt, reserveOk, refOk);
    ChannelPrudent(s.c, cid);
    PrudentRefund(ch);
    if ch.terms.refundPtr.Some? && RefundOwed(ch) != 0 {
      var op := KeyedOp(cid, ckpt, s.c.cfg.settlePtr, ch.terms.refundPtr.value, ch.terms.asset, RefundOwed(ch));
      assert Apply(s.r, op) == ReleaseKeyed(s.r, cid, ckpt, s.c.cfg.settlePtr, ch.terms.refundPtr.value, ch.terms.asset, RefundOwed(ch));
      StepFollows(s.r, op);
      KeyedServes(s.r, cid, ckpt, ch.terms.refundPtr.value, ch.terms.asset, RefundOwed(ch), s.c.cfg.settlePtr);
    } else {
      GrowsRefl(s.r);
      StillServes(s.r, s.c.cfg.settlePtr, if ch.meter.prepay then RefundOwed(ch) else 0);
    }
    NotesTidy(s.c, s1.c);
  }

  lemma PrudentRefund(ch: Channel)
    requires Prudent(ch)
    ensures ch.terms.refundPtr.Some? ==> ch.meter.prepay
  {
  }

  lemma StillServes(r: Rail, p: Address, x: nat)
    requires Within(r.ledger) && Apart(r, p)
    ensures Serves(r, r, p, x)
  {
  }

  /** The claim sheds at least what the refund takes. */
  lemma ClaimSheds(s: System, cid: ChannelId, ckpt: CkptRef, io: CloseIo)
    requires Core(s) && cid in s.c.channels && io.dispOk && (cid in s.c.disps ==> !s.c.disps[cid].Reconciled?)
    requires ValidRail(s.r) && Inv(Reconcile(s, cid, ckpt, io).0)
    ensures var s' := Reconcile(s, cid, ckpt, io).0;
            var ch := s.c.channels[cid];
            ClaimOf(s', cid) + (if ch.meter.prepay then RefundOwed(ch) else 0) <= ClaimOf(s, cid)
  {
    hide Inv, Tidy, Within, PlainAccount, Apart, ValidRail, Solvent, IssueRefund, Drain, PendingDraw, RefundOwed, Serves, Grows, Prudent, ClaimOn, FundedAt, BooksOk, SamePosition;
    RefundRail(s, cid, ckpt, io.reserveOk, io.refOk);
    var s1 := IssueRefund(s, cid, ckpt, io.reserveOk, io.refOk);
    var ch := s.c.channels[cid];
    var drained := Drain(ch, s1.r, cid);
    var s' := Reconcile(s, cid, ckpt, io).0;
    DrainRedraws(ch, s1.r, cid);
    RedrawnPosition(ch, drained);
    InvBooks(s, cid);
    InvBooks(s', cid);
    BooksShape(s'.c.channels[cid]);
    ChannelPrudent(s.c, cid);
    SamePositionKeeps(ch, drained);
    OpenStays(ch, drained);
    FundedMonotone(s.r, s1.r, ch.terms.seed, cid);
    RefundArithmetic(ch, drained, DispOf(s.c, cid), FundedAt(s.r, ch.terms.seed, cid), FundedAt(s1.r, ch.terms.seed, cid));
  }

  lemma ReconcileEscrow(s: System, cid: ChannelId, ckpt: CkptRef, io: CloseIo)
    requires Core(s) && cid in s.c.channels && io.dispOk && (cid in s.c.disps ==> !s.c.disps[cid].Reconciled?)
    ensures ValidRail(s.r)
    ensures var (s', a) := Reconcile(s, cid, ckpt, io);
            && a.Ok? && Core(s') && s'.c.channels.Keys == s.c.channels.Keys && s'.c.disps.Keys == s.c.disps.Keys + {cid}
            && (forall k <- s.c.disps :: k != cid ==> s'.c.disps[k] == s.c.disps[k])
            && (forall k <- s.c.channels :: s'.c.channels[k].meter.open ==> s.c.channels[k].meter.open)
  {
    hide Inv, Tidy, Within, PlainAccount, Apart, ValidRail, Solvent, IssueRefund, Drain, PendingDraw, RefundOwed, Serves, Grows, Prudent, ClaimOn, FundedAt, BooksOk, SamePosition, ClaimOf;
    InvRail(s);
    RefundRail(s, cid, ckpt, io.reserveOk, io.refOk);
    ReconcileKeeps(s, cid, ckpt, io);
    var s1 := IssueRefund(s, cid, ckpt, io.reserveOk, io.refOk);
    var ch := s.c.channels[cid];
    var drained := Drain(ch, s1.r, cid);
    var s' := Reconcile(s, cid, ckpt, io).0;
    DrainRedraws(ch, s1.r, cid);
    RedrawnPosition(ch, drained);
    InvBooks(s, cid);
    InvBooks(s', cid);
    ChannelPrudent(s.c, cid);
    SamePositionKeeps(ch, drained);
    OpenStays(ch, drained);
    ClaimSheds(s, cid, ckpt, io);
    ReconciledTidy(s1.c, s'.c, cid, drained);
    ReconciledSolvent(s, s1, s', cid, if ch.meter.prepay then RefundOwed(ch) else 0);
  }

  lemma ReconciledSolvent(s: System, s1: System, s': System, cid: ChannelId, x: nat)
    requires Solvent(s) && Grows(s.r, s1.r) && Serves(s.r, s1.r, s.c.cfg.settlePtr, x) && s'.c.cfg == s.c.cfg
    requires s'.r == s1.r && cid in s.c.channels && cid in s'.c.channels && s.c.decisions.Keys <= s'.c.decisions.Keys
    requires s'.c.channels == s.c.channels[cid := s'.c.channels[cid]] && s'.c.channels[cid].terms == s.c.channels[cid].terms
    requires forall k <- s.c.channels :: k != cid ==> DispOf(s'.c, k) == DispOf(s.c, k)
    requires ClaimOf(s', cid) + x <= ClaimOf(s, cid)
    ensures Solvent(s') && Within(s'.r.ledger) && Apart(s'.r, s'.c.cfg.settlePtr)
  {
    hide Grows, Serves, Within, Apart, ClaimOf, MapSum, Bal, Pool;
    ReconciledClaims(s, s1, s', cid, x);
    ServedApart(s.r, s1.r, s.c.cfg.settlePtr, x);
    ServesPool(s.r, s1.r, s.c.cfg.settlePtr, x, s.c.decisions);
    PoolShrinks(s1.r.refs, s.c.decisions, s'.c.decisions, s.c.cfg.settlePtr);
  }

  lemma BooksShape(ch: Channel)
    requires BooksOk(ch)
    ensures Shape(ch)
  {
    hide Position, Totals, Whole, Serial, InFlight;
  }

  lemma OpenStays(ch: Channel, ch': Channel)
    requires SamePosition(ch, ch')
    ensures (ch'.meter.open ==> ch.meter.open) && ch'.terms == ch.terms
  {
  }

  lemma ReconciledTidy(c: Carriage, c': Carriage, cid: ChannelId, ch: Channel)
    requires Tidy(c) && cid in c.channels && Prudent(ch)
    requires c'.channels == c.channels[cid := ch] && c'.disps.Keys == c.disps.Keys + {cid}
    requires c.decisions.Keys <= c'.decisions.Keys && forall d <- c'.decisions :: d in c.decisions || d == DispKey(cid)
    ensures Tidy(c')
  {
    hide Prudent;
    assert forall k :: k in c'.disps ==> k in c.disps.Keys || k == cid;
    assert forall k :: OpenKey(k) in c.decisions.Keys ==> OpenKey(k) in c'.decisions.Keys;
  }

  lemma ReconciledClaims(s: System, s1: System, s': System, cid: ChannelId, x: nat)
    requires Grows(s.r, s1.r) && s'.r == s1.r && cid in s.c.channels && cid in s'.c.channels
    requires s'.c.channels == s.c.channels[cid := s'.c.channels[cid]] && s'.c.channels[cid].terms == s.c.channels[cid].terms
    requires forall k <- s.c.channels :: k != cid ==> DispOf(s'.c, k) == DispOf(s.c, k)
    requires ClaimOf(s', cid) + x <= ClaimOf(s, cid)
    ensures MapSum<ChannelId>(Claims(s')) + x <= MapSum<ChannelId>(Claims(s))
  {
    hide MapSum, FundedAt, Grows, Carve;
    assert s'.c.channels.Keys == s.c.channels.Keys;
    forall j <- s.c.channels | j != cid ensures j in s'.c.channels && ClaimOf(s', j) <= ClaimOf(s, j) {
      FundedMonotone(s.r, s1.r, s.c.channels[j].terms.seed, j);
    }
    ClaimsMove(s, s', cid, -(x as int));
  }

  lemma TerminatedCore(s: System, cid: ChannelId)
    requires Core(s) && cid in s.c.channels
    ensures Core(s.(c := Terminated(s.c, cid)))
    ensures (forall k <- s.c.disps :: k != cid && s.c.disps[k].Reconciled? && k in s.c.channels ==> !s.c.channels[k].meter.open) ==> Shut(Terminated(s.c, cid))
  {
    hide Inv, Tidy, Within, Solvent, PlainAccount, Apart;
    TerminateKeeps(s, cid);
    PutSame(s, cid, s.c.channels[cid].(meter := M.BeginSettling(s.c.channels[cid].meter)));
  }

  lemma IntentCore(s: System, cid: ChannelId)
    requires Core(s) && cid in s.c.channels && cid !in s.c.disps
    ensures Core(s.(c := s.c.(disps := s.c.disps[cid := Intent])))
  {
    hide Inv, Within, PlainAccount, Apart, Prudent, FundedAt, Carve, Claims, ClaimsFall;
    var s' := s.(c := s.c.(disps := s.c.disps[cid := Intent]));
    CarriageDraws.NotesKeep(s, s'.c.disps, s.c.decisions);
    assert ClaimsFall(s, s') by { FallsOnDisp(s, s', cid); }
    BooksSolvent(s, s');
    ChannelPrudent(s.c, cid);
  }

  lemma PriorShows(c: Carriage, cid: ChannelId)
    ensures (PriorDisp(c, cid).None? || PriorDisp(c, cid).value.Intent?) ==> (cid in c.disps ==> c.disps[cid].Intent?)
    ensures PriorDisp(c, cid).None? ==> cid !in c.disps
  {
  }

  lemma CloseEscrow(s: System, cid: ChannelId, q: CloseReq, io: CloseIo)
    requires EscrowOk(s) && io.dispOk
    ensures ValidRail(s.r) && EscrowOk(Close(s, cid, q, io).0)
  {
    hide Core, ValidRail, Reconcile, AttemptCloseDraw, InFlightRef, PriorDisp, Terminated;
    CoreRail(s);
    PriorShows(s.c, cid);
    if cid in s.c.channels {
      TerminatedCore(s, cid);
      if PriorDisp(s.c, cid).None? {
        IntentCore(s, cid);
        TerminatedCore(s.(c := s.c.(disps := s.c.disps[cid := Intent])), cid);
      }
      CloseDrawEscrow(s, cid);
      TerminatedCore(AttemptCloseDraw(s, cid), cid);
      if PriorDisp(s.c, cid).None? || PriorDisp(s.c, cid).value.Intent? {
        ReconcileEscrow(s, cid, q.ckpt, io);
        var s1 := Reconcile(s, cid, q.ckpt, io).0;
        CloseDrawEscrow(s1, cid);
        TerminatedCore(AttemptCloseDraw(s1, cid), cid);
      }
    }
  }

  lemma CoreRail(s: System)
    requires Core(s)
    ensures ValidRail(s.r)
  {
    hide Inv, Tidy, Within, Solvent, PlainAccount, Apart, ValidRail;
    InvRail(s);
  }

  // ---- opening, restarts, replicas ---------------------------------------------------------------------------------

  lemma FreshPrudent(o: OpenReq)
    requires o.terms.refundPtr.Some? ==> o.prepay
    ensures Prudent(FreshChannel(o)) && FreshChannel(o).ledger.funding == 0
  {
    hide Sum;
  }

  lemma NewClaim(s: System, cid: ChannelId, ch: Channel, c': Carriage)
    requires Core(s) && cid !in s.c.channels && OpenKey(cid) !in s.c.decisions && Prudent(ch) && ch.ledger.funding == 0
    requires c' == s.c.(channels := s.c.channels[cid := ch], payers := c'.payers, decisions := s.c.decisions[OpenKey(cid) := Bare])
    requires Inv(s.(c := c'))
    ensures Core(s.(c := c')) && (Shut(s.c) ==> Shut(c'))
  {
    hide Inv, Within, PlainAccount, Apart, Prudent, FundedAt, Carve, MapSum, Bal;
    var s' := s.(c := c');
    assert cid !in s.c.disps;
    assert ClaimOf(s', cid) == 0;
    assert Claims(s') - {cid} == Claims(s);
    MapSumRemove<ChannelId>(Claims(s'), cid);
    PoolShrinks(s.r.refs, s.c.decisions, c'.decisions, s.c.cfg.settlePtr);
  }

  lemma OpenEscrow(s: System, cid: ChannelId, o: OpenReq, openOk: bool, dispOk: bool)
    requires EscrowOk(s) && o.predecessor.None?
    ensures EscrowOk(s.(c := Open(s.c, cid, o, openOk, dispOk).0))
  {
    hide Inv, Tidy, Within, Solvent, PlainAccount, Apart, Prudent, Shut, FreshChannel;
    OpenKeeps(s, cid, o, openOk, dispOk);
    var (c', a) := Open(s.c, cid, o, openOk, dispOk);
    if a.Ok? {
      FreshPrudent(o);
      NewClaim(s, cid, FreshChannel(o), c');
    }
  }

  lemma RestartEscrow(s: System)
    requires EscrowOk(s)
    ensures EscrowOk(s.(c := Restart(s.c)))
  {
    hide ValidRail, FactsHold, Within, PlainAccount, Apart, Restart, Bal;
    Dispositions.RestartShape(s.c);
    RestartCfg(s.c);
    var s' := s.(c := Restart(s.c));
    assert Claims(s') == map[];
  }

  lemma RestartCfg(c: Carriage)
    ensures Restart(c).cfg == c.cfg
  {
  }

  lemma ReplicaEscrow(s: System, k: DecKey, v: DecValue)
    requires EscrowOk(s) && !k.DispKey?
    ensures EscrowOk(s.(c := s.c.(decisions := Decide(s.c.decisions, k, v, true).0)))
  {
    hide Core, Shut;
    NotesOk(s, s.c.(decisions := Decide(s.c.decisions, k, v, true).0));
    ShutNotes(s.c, s.c.(decisions := Decide(s.c.decisions, k, v, true).0));
  }

  // ---- every message ----------------------------------------------------------------------------------------------------

  lemma HandleEscrow(s: System, e: Message)
    requires EscrowOk(s) && Guarded(e, s.c.cfg.settlePtr)
    ensures ValidRail(s.r) && EscrowOk(Handle(s, e).0)
  {
    hide EscrowOk, ValidRail, Open, Batch, Checkpoint, Propose, ProveRound, FundChannel, InterimDraw, Close, Apply, NamedBy, Decide, Restart, Debits;
    EscrowRailOk(s);
    match e
    case OpenMsg(cid, o, openOk, dispOk) => OpenEscrow(s, cid, o, openOk, dispOk);
    case BatchMsg(cid, slices) => BatchEscrow(s, cid, slices);
    case CheckpointMsg(cid, q) => CheckpointEscrow(s, cid, q);
    case ProposeMsg(cid, p) => ProposeEscrow(s, cid, p);
    case ProofMsg(cid, ckpt, p, ok) =>
      if cid in s.c.channels && p.signed && NamedBy(s.c.channels[cid], ckpt, p.hash) { ProofEscrow(s, cid, ckpt, p, ok); }
    case FundingMsg(cid, f, ok) => FundingEscrow(s, cid, f, ok);
    case InterimMsg(cid) => InterimEscrow(s, cid);
    case CloseMsg(cid, q, io) => CloseEscrow(s, cid, q, io);
    case RestartMsg => RestartEscrow(s);
    case ReplicaMsg(k, v) => ReplicaEscrow(s, k, v);
    case RailMsg(op) => RailEscrow(s, op);
  }

  lemma EscrowRailOk(s: System)
    requires EscrowOk(s)
    ensures ValidRail(s.r)
  {
    hide Core, Shut;
    CoreRail(s);
  }

  ghost predicate AllGuarded(msgs: seq<Message>, p: Address) { forall i :: 0 <= i < |msgs| ==> Guarded(msgs[i], p) }

  lemma {:induction false} ServeEscrow(cfg: Config, delay: nat, msgs: seq<Message>)
    requires PlainAccount(cfg.settlePtr) && AllGuarded(msgs, cfg.settlePtr)
    ensures Sendable(msgs) && EscrowOk(Serve(Born(cfg, delay), msgs)) && Serve(Born(cfg, delay), msgs).c.cfg == cfg
  {
    hide Handle, EscrowOk, PlainAccount, Debits;
    if |msgs| == 0 {
      BornEscrow(cfg, delay);
    } else {
      var init := msgs[..|msgs| - 1];
      ServeEscrow(cfg, delay, init);
      HandleEscrow(Serve(Born(cfg, delay), init), msgs[|msgs| - 1]);
      CfgStays(Serve(Born(cfg, delay), init), msgs[|msgs| - 1]);
    }
  }

  lemma BornEscrow(cfg: Config, delay: nat)
    requires PlainAccount(cfg.settlePtr)
    ensures EscrowOk(Born(cfg, delay))
  {
    BornOk(cfg, delay);
    assert Claims(Born(cfg, delay)) == map[];
  }

  lemma CfgStays(s: System, e: Message)
    requires ValidRail(s.r) && MessageOk(e)
    ensures Handle(s, e).0.c.cfg == s.c.cfg
  {
    hide ValidRail, Batch, Checkpoint, Open, Propose, ProveRound, FundChannel, InterimDraw, Close, Apply, NamedBy, Decide;
    match e
    case OpenMsg(cid, o, openOk, dispOk) => OpenCfg(s.c, cid, o, openOk, dispOk);
    case BatchMsg(cid, slices) => BooksCfg(s.c, e);
    case CheckpointMsg(cid, q) => BooksCfg(s.c, e);
    case ProposeMsg(cid, p) => BooksCfg(s.c, e);
    case ProofMsg(cid, ckpt, p, ok) =>
      if cid in s.c.channels && p.signed && NamedBy(s.c.channels[cid], ckpt, p.hash) { NamedCfg(s, cid, ckpt, p, ok); }
    case FundingMsg(cid, f, ok) => FundingCfg(s, cid, f, ok);
    case InterimMsg(cid) => InterimCfg(s, cid);
    case CloseMsg(cid, q, io) => CloseCfg(s, cid, q, io);
    case _ =>
  }

  lemma OpenCfg(c: Carriage, cid: ChannelId, o: OpenReq, openOk: bool, dispOk: bool)
    ensures Open(c, cid, o, openOk, dispOk).0.cfg == c.cfg
  {
    hide Establish, ComputeSnapshot;
    EstablishCfg(c, cid, o, openOk, dispOk);
    if o.predecessor.Some? && o.predecessor.value.0 in c.disps && c.disps[o.predecessor.value.0].Intent? {
      EstablishCfg(RefreshSnapshot(c, o.predecessor.value), cid, o, openOk, dispOk);
    }
  }

  lemma EstablishCfg(c: Carriage, cid: ChannelId, o: OpenReq, openOk: bool, dispOk: bool)
    ensures Establish(c, cid, o, openOk, dispOk).0.cfg == c.cfg
  {
    hide FreshChannel, ChainedChannel, Decide;
  }

  lemma BooksCfg(c: Carriage, e: Message)
    requires e.BatchMsg? || e.CheckpointMsg? || e.ProposeMsg?
    ensures e.BatchMsg? ==> Batch(c, e.cid, e.slices).0.cfg == c.cfg
    ensures e.CheckpointMsg? ==> Checkpoint(c, e.cid, e.q).0.cfg == c.cfg
    ensures e.ProposeMsg? ==> Propose(c, e.cid, e.p).0.cfg == c.cfg
  {
    hide ProposeNew, ProposeRetry, OtherInFlight, M.AcceptBatch, M.Recomputes, Checkpointed;
  }

  lemma NamedCfg(s: System, cid: ChannelId, ckpt: CkptRef, p: Proof, ok: bool)
    requires cid in s.c.channels && NamedBy(s.c.channels[cid], ckpt, p.hash)
    ensures ProveRound(s, cid, ckpt, p, ok).0.c.cfg == s.c.cfg
  {
    hide ReadLegs, PlanOf, FoldProof, Decide;
  }

  lemma FundingCfg(s: System, cid: ChannelId, f: Funding, ok: bool)
    ensures FundChannel(s, cid, f, ok).0.c.cfg == s.c.cfg
  {
    hide FundingLegOk, Credited, ResolveTip, Fund, FundingTarget, Decide;
  }

  lemma InterimCfg(s: System, cid: ChannelId)
    requires ValidRail(s.r)
    ensures InterimDraw(s, cid).0.c.cfg == s.c.cfg
  {
    hide ValidRail, AdvanceMeed, FoldInterim, IsFinal, FinalTime, LockInterim, InFlightRef, SetDrawRef;
  }

  lemma CloseCfg(s: System, cid: ChannelId, q: CloseReq, io: CloseIo)
    requires ValidRail(s.r)
    ensures Close(s, cid, q, io).0.c.cfg == s.c.cfg
  {
    hide ValidRail, Reconcile, AttemptCloseDraw, PriorDisp, InFlightRef, Decide;
    if cid in s.c.channels {
      ReconcileCfg(s, cid, q.ckpt, io);
      CloseDrawCfg(Reconcile(s, cid, q.ckpt, io).0, cid);
      CloseDrawCfg(s, cid);
    }
  }

  lemma ReconcileCfg(s: System, cid: ChannelId, ckpt: CkptRef, io: CloseIo)
    requires ValidRail(s.r) && cid in s.c.channels
    ensures Reconcile(s, cid, ckpt, io).0.c.cfg == s.c.cfg
  {
    hide ValidRail, ReleaseKeyed, RefundOwed, Drain, PendingDraw, Decide;
  }

  lemma CloseDrawCfg(s: System, cid: ChannelId)
    requires ValidRail(s.r)
    ensures AttemptCloseDraw(s, cid).c.cfg == s.c.cfg
  {
    hide ValidRail, AdvanceMeed;
  }

  // ---- never short --------------------------------------------------------------------------------------------------------

  /** The rail's answer to the draw a locked round would make. */
  function RoundDraw(s: System, cid: ChannelId, ckpt: CkptRef): Reply
    requires ValidRail(s.r) && cid in s.c.channels && ckpt in s.c.channels[cid].rounds
    requires s.c.channels[cid].rounds[ckpt].target.Some? && s.c.channels[cid].rounds[ckpt].target.value <= U128_MAX
  {
    var ch := s.c.channels[cid];
    AdvanceMeed(s.r, Some(s.c.cfg.settlePtr), AddressOf(ch.terms.seed), cid, ch.rounds[ckpt].target.value, ch.terms.asset).1
  }

  /** The rail's answer to the draw a reconciled channel still owes. */
  function CarveDraw(s: System, cid: ChannelId): Reply
    requires ValidRail(s.r) && cid in s.c.channels && cid in s.c.disps && s.c.disps[cid].Reconciled?
    requires s.c.disps[cid].draw.Some? && s.c.disps[cid].draw.value.1 <= U128_MAX
  {
    var ch := s.c.channels[cid];
    AdvanceMeed(s.r, Some(s.c.cfg.settlePtr), AddressOf(ch.terms.seed), cid, s.c.disps[cid].draw.value.1, ch.terms.asset).1
  }

  /** A state any guarded run reaches. */
  ghost predicate Escrowed(s: System) {
    exists cfg: Config, delay, msgs :: PlainAccount(cfg.settlePtr) && AllGuarded(msgs, cfg.settlePtr) && Sendable(msgs) && s == Serve(Born(cfg, delay), msgs)
  }

  lemma EscrowedOk(s: System)
    requires Escrowed(s)
    ensures EscrowOk(s)
  {
    hide EscrowOk, PlainAccount, Serve, Born, AllGuarded;
    var cfg: Config, delay, msgs :| PlainAccount(cfg.settlePtr) && AllGuarded(msgs, cfg.settlePtr) && Sendable(msgs) && s == Serve(Born(cfg, delay), msgs);
    ServeEscrow(cfg, delay, msgs);
  }

  /** The shared balance covers every channel's remaining claim and every payment not yet credited. */
  lemma BalanceCoversClaims(s: System)
    requires Escrowed(s)
    ensures Bal(s.r.ledger, s.c.cfg.settlePtr) >= MapSum<ChannelId>(Claims(s)) + Pool(s.r.refs, s.c.decisions, s.c.cfg.settlePtr)
  {
    hide Inv, Tidy, Within, PlainAccount, Apart, Escrowed, Shut;
    EscrowedOk(s);
  }

  /** An interim round's draw is never refused for want of escrow. */
  lemma InterimNeverShort(s: System, cid: ChannelId, ckpt: CkptRef)
    requires Escrowed(s) && cid in s.c.channels && ckpt in s.c.channels[cid].rounds && !s.c.channels[cid].rounds[ckpt].confirmed
    requires s.c.channels[cid].meter.prepay && s.c.channels[cid].meter.open
    ensures ValidRail(s.r) && s.c.channels[cid].rounds[ckpt].target.Some?
    ensures s.c.channels[cid].rounds[ckpt].target.value <= U128_MAX ==> RoundDraw(s, cid, ckpt) != Failed(InsufficientEscrow)
  {
    hide Escrowed;
    EscrowedOk(s);
    ShortNever(s, cid, ckpt);
  }

  lemma ShortNever(s: System, cid: ChannelId, ckpt: CkptRef)
    requires EscrowOk(s) && cid in s.c.channels && ckpt in s.c.channels[cid].rounds && !s.c.channels[cid].rounds[ckpt].confirmed
    requires s.c.channels[cid].meter.prepay && s.c.channels[cid].meter.open
    ensures ValidRail(s.r) && s.c.channels[cid].rounds[ckpt].target.Some?
    ensures s.c.channels[cid].rounds[ckpt].target.value <= U128_MAX ==> RoundDraw(s, cid, ckpt) != Failed(InsufficientEscrow)
  {
    hide Inv, Tidy, Within, Solvent, PlainAccount, Apart, ValidRail, AdvanceMeed, BooksOk, Prudent, Carve, ClaimOf, ClaimOn, FundedAt;
    InvRail(s);
    var ch := s.c.channels[cid];
    InvBooks(s, cid);
    ChannelPrudent(s.c, cid);
    TargetWithin(ch, ckpt);
    if ch.rounds[ckpt].target.value <= U128_MAX {
      OpenClaim(s, cid, ch.rounds[ckpt].target.value);
      DrawPaid(s, cid, ch.rounds[ckpt].target.value);
    }
  }

  /** Nor is the draw made right after a round is locked. */
  lemma LockedNeverShort(s: System, cid: ChannelId)
    requires Escrowed(s) && cid in s.c.channels && s.c.channels[cid].meter.prepay && s.c.channels[cid].meter.open
    requires InFlightRef(s.c.channels[cid]).None? && LockInterim(s.c.channels[cid]).Some? && LockInterim(s.c.channels[cid]).value.0 !in s.c.channels[cid].rounds
    ensures var (k, locked) := LockInterim(s.c.channels[cid]).value;
            var s1 := s.(c := PutChannel(s.c, cid, locked));
            && ValidRail(s.r) && k in locked.rounds && locked.rounds[k].target.Some?
            && (locked.rounds[k].target.value <= U128_MAX ==> RoundDraw(s1, cid, k) != Failed(InsufficientEscrow))
  {
    hide Escrowed, Inv, Tidy, Within, Solvent, PlainAccount, Apart, ValidRail, Shut, LockInterim, ChannelOk, AdvanceMeed;
    EscrowedOk(s);
    InvRail(s);
    var ch := s.c.channels[cid];
    var (k, locked) := LockInterim(ch).value;
    NoneInFlight(ch);
    InvBooks(s, cid);
    LockKeeps(s.r, cid, ch);
    PutKeeps(s, cid, locked);
    LockRedraws(ch);
    RedrawnPosition(ch, LockInterim(ch).value.1);
    PutSame(s, cid, locked);
    ShortNever(s.(c := PutChannel(s.c, cid, locked)), cid, k);
  }

  /** A close's refund is never refused for want of escrow, whatever checkpoint the close names. */
  lemma RefundNeverShort(s: System, cid: ChannelId, ckpt: CkptRef, to: Address, asset: Asset)
    requires Escrowed(s) && cid in s.c.channels && s.c.channels[cid].meter.prepay && (cid in s.c.disps ==> !s.c.disps[cid].Reconciled?)
    ensures ValidRail(s.r) && RefundOwed(s.c.channels[cid]) <= Bal(s.r.ledger, s.c.cfg.settlePtr)
    ensures RefundOwed(s.c.channels[cid]) > 0 ==>
              ReleaseKeyed(s.r, cid, ckpt, s.c.cfg.settlePtr, to, asset, RefundOwed(s.c.channels[cid])).1 != Failed(InsufficientEscrow)
  {
    hide Escrowed, Inv, Tidy, Within, PlainAccount, Apart, ValidRail, ReleaseKeyed, MapSum, Bal, Carve, RefundOwed, Prudent, BooksOk, Shut;
    EscrowedOk(s);
    InvRail(s);
    var ch := s.c.channels[cid];
    InvBooks(s, cid);
    ChannelPrudent(s.c, cid);
    CarveWithin(ch);
    MapSumMember<ChannelId>(Claims(s), cid);
    KeyedServes(s.r, cid, ckpt, to, asset, RefundOwed(ch), s.c.cfg.settlePtr);
  }

  /** Neither the draw a reconciled channel owes, nor the one its reconciling close makes at once. */
  lemma CloseDrawNeverShort(s: System, cid: ChannelId, ckpt: CkptRef, io: CloseIo)
    requires Escrowed(s) && cid in s.c.channels && io.dispOk
    ensures ValidRail(s.r)
    ensures cid in s.c.disps && s.c.disps[cid].Reconciled? && s.c.disps[cid].draw.Some? && s.c.disps[cid].draw.value.1 <= U128_MAX ==>
              CarveDraw(s, cid) != Failed(InsufficientEscrow)
    ensures !(cid in s.c.disps && s.c.disps[cid].Reconciled?) ==>
              var s1 := Reconcile(s, cid, ckpt, io).0;
              cid in s1.c.disps && s1.c.disps[cid].Reconciled? && s1.c.disps[cid].draw.Some? && s1.c.disps[cid].draw.value.1 <= U128_MAX ==>
                CarveDraw(s1, cid) != Failed(InsufficientEscrow)
  {
    hide Escrowed, Core, ValidRail, Reconcile, AdvanceMeed, ClaimOf, ClaimOn, FundedAt;
    EscrowedOk(s);
    CoreRail(s);
    OwedNeverShort(s, cid);
    if !(cid in s.c.disps && s.c.disps[cid].Reconciled?) {
      ReconcileEscrow(s, cid, ckpt, io);
      OwedNeverShort(Reconcile(s, cid, ckpt, io).0, cid);
    }
  }

  lemma OwedNeverShort(s: System, cid: ChannelId)
    requires Core(s) && cid in s.c.channels
    ensures ValidRail(s.r)
    ensures cid in s.c.disps && s.c.disps[cid].Reconciled? && s.c.disps[cid].draw.Some? && s.c.disps[cid].draw.value.1 <= U128_MAX ==>
              CarveDraw(s, cid) != Failed(InsufficientEscrow)
  {
    hide Core, ValidRail, AdvanceMeed, ClaimOf, ClaimOn, FundedAt;
    CoreRail(s);
    if cid in s.c.disps && s.c.disps[cid].Reconciled? && s.c.disps[cid].draw.Some? && s.c.disps[cid].draw.value.1 <= U128_MAX {
      ReconciledClaim(s, cid, s.c.disps[cid].draw.value.1);
      DrawPaid(s, cid, s.c.disps[cid].draw.value.1);
    }
  }
}
