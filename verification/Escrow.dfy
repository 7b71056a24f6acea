/** One settle pointer escrows every prepay channel: its balance covers what each channel may still draw or
    have refunded, so the carriage is never refused for want of escrow. */
module Escrow {
  import opened Sums
  import opened Options
  import opened Instance
  import opened Ledger
  import M = Metering
  import opened Books
  import opened BookMoves
  import opened Carriage
  import opened CarriageSteps
  import opened CarriageBooks
  import opened CarriageRuns
  import opened EscrowRail
  import Dispositions
  import F7

  // ---- what a channel may still take --------------------------------------------------------------------

  function Less(a: nat, b: nat): nat { if a <= b then a else b }

  /** The carve of the evidenced position. */
  function Carve(ch: Channel): nat { F7.MeedCarve(BasisAccruals(ch)) }

  /** An open prepay channel holds its deposit less what was drawn of its carve; a reconciled one only the
      pinned carve not drawn yet. */
  function ClaimOn(ch: Channel, disp: Option<Disp>, funded: nat): nat {
    if disp.Some? && disp.value.Reconciled? then
      if disp.value.draw.None? then 0 else F7.SatSub(disp.value.draw.value.1, funded)
    else if ch.meter.prepay then F7.SatSub(ch.ledger.funding, Less(funded, Carve(ch)))
    else 0
  }

  function DispOf(c: Carriage, k: ChannelId): Option<Disp> { if k in c.disps then Some(c.disps[k]) else None }

  function ClaimOf(s: System, k: ChannelId): nat
    requires k in s.c.channels
  {
    ClaimOn(s.c.channels[k], DispOf(s.c, k), FundedAt(s.r, s.c.channels[k].terms.seed, k))
  }

  function Claims(s: System): map<ChannelId, nat> { map k | k in s.c.channels :: ClaimOf(s, k) }

  ghost predicate Solvent(s: System) {
    Bal(s.r.ledger, s.c.cfg.settlePtr) >= MapSum<ChannelId>(Claims(s)) + Pool(s.r.refs, s.c.decisions, s.c.cfg.settlePtr)
  }

  // ---- invariant ---------------------------------------------------------------------------------------------

  /** Unchained, metered at its vector, and a prepay one never past its deposit. */
  predicate Prudent(ch: Channel) {
    && ch.imported.None? && M.Linear(ch.meter, 0, Zeros(Roles(ch)))
    && (ch.meter.prepay ==> ch.meter.upper == 0 && M.Covered(ch.meter, ch.ledger.funding))
    && (ch.terms.refundPtr.Some? ==> ch.meter.prepay)
  }

  predicate Tidy(c: Carriage) {
    && (forall k <- c.channels :: Prudent(c.channels[k]) && OpenKey(k) in c.decisions)
    && (forall k <- c.disps :: OpenKey(k) in c.decisions)
    && (forall d <- c.decisions :: d.DispKey? ==> OpenKey(d.c) in c.decisions)
  }

  /** A reconciled channel meters and draws no more. */
  predicate Shut(c: Carriage) {
    forall k <- c.disps :: c.disps[k].Reconciled? && k in c.channels ==> !c.channels[k].meter.open
  }

  ghost predicate EscrowOk(s: System) { Core(s) && Shut(s.c) }

  ghost predicate Core(s: System) {
    && Inv(s) && Tidy(s.c) && Within(s.r.ledger) && PlainAccount(s.c.cfg.settlePtr) && Apart(s.r, s.c.cfg.settlePtr)
    && Solvent(s)
  }

  /** Channels are not chained, disposition records are written, and nobody else debits the pointer. */
  ghost predicate Guarded(e: Message, p: Address) {
    && MessageOk(e) && Dispositions.Written(e)
    && (e.OpenMsg? ==> e.o.predecessor.None?) && (e.RailMsg? ==> !Debits(e.op, p))
  }

  // ---- one channel's arithmetic ---------------------------------------------------------------------------------

  lemma BasisLinear(ch: Channel)
    requires BooksOk(ch) && Prudent(ch)
    ensures Sum(BasisAccruals(ch)) == BasisCum(ch) * Sum(ch.meter.bp) && Sum(ch.meter.bp) <= UNIT && BasisCum(ch) <= ch.meter.cum
  {
    hide MapSum, Sum, Totals, Whole, Serial, InFlight, M.MeterOk;
    var w := MapSum<nat>(ch.meter.window);
    var x: nat := BasisCum(ch);
    assert ch.meter.cum - w == x;
    forall i | 0 <= i < Roles(ch) ensures BasisAccruals(ch)[i] == x * ch.meter.bp[i] {
      assert Zeros(Roles(ch))[i] == 0;
      assert ch.meter.cum * ch.meter.bp[i] - w * ch.meter.bp[i] == x * ch.meter.bp[i] by {
        assert ch.meter.cum == x + w;
      }
    }
    SumScaled(ch.meter.bp, x, BasisAccruals(ch));
  }

  /** The carve is within the evidenced total, and that within the deposit. */
  lemma CarveWithin(ch: Channel)
    requires BooksOk(ch) && Prudent(ch) && ch.meter.prepay
    ensures Carve(ch) <= BasisCum(ch) <= ch.ledger.funding
    ensures RefundOwed(ch) == ch.ledger.funding - BasisCum(ch)
  {
    hide MapSum, Sum, Totals, Whole, Serial, InFlight, Position;
    BasisLinear(ch);
    MulLe(Sum(ch.meter.bp), UNIT, BasisCum(ch));
    DivLe(Sum(BasisAccruals(ch)), BasisCum(ch) * UNIT, UNIT);
    DivUnique(BasisCum(ch) * UNIT, UNIT, BasisCum(ch));
    BooksMeter(ch);
    M.PrepayWithinDeposit(ch.meter, ch.ledger.funding);
  }

  lemma BooksMeter(ch: Channel)
    requires BooksOk(ch)
    ensures M.MeterOk(ch.meter) && |ch.meter.accruals| == |ch.meter.bp|
  {
    hide MapSum, Sum;
  }

  /** A round in flight never targets past the evidenced carve. */
  lemma TargetWithin(ch: Channel, ref: CkptRef)
    requires BooksOk(ch) && Prudent(ch) && ch.meter.prepay && ref in ch.rounds && !ch.rounds[ref].confirmed
    ensures ch.rounds[ref].target.Some? && ch.rounds[ref].target.value <= Carve(ch)
  {
    hide MapSum, Sum, Totals, Serial, Position, MerchantNet, M.Linear, M.Covered;
    var d := ch.rounds[ref];
    assert InFlight(ch, d);
    var s, o := ch.ledger.settled, OpeningSettled(ch);
    assert Sum(o) == 0;
    AddRolesSum(s, d.eR);
    SumLe(AddRoles(s, d.eR), BasisAccruals(ch));
    DivLe(Sum(s) + UNIT * d.meed.value, Sum(BasisAccruals(ch)), UNIT);
    DivShift(Sum(s), d.meed.value, UNIT);
  }

  lemma PendingIsCarve(ch: Channel)
    requires Prudent(ch) && Shape(ch) && PendingDraw(ch).Some?
    ensures PendingDraw(ch).value.1 == Carve(ch) && ch.meter.prepay
  {
    hide F7.Division, F7.OutstandingMeedPerRole, M.Linear, Sum;
    TargetValue(ch, BasisAccruals(ch));
  }

  // ---- how the claims move ---------------------------------------------------------------------------------------

  /** No claim of another channel rises, and `k`'s moves by at most `x`. */
  predicate ClaimMoves(s: System, s': System, k: ChannelId, x: int) {
    && s'.c.channels.Keys == s.c.channels.Keys && k in s.c.channels && k in s'.c.channels
    && (forall j <- s.c.channels :: j in s'.c.channels && (j != k ==> ClaimOf(s', j) <= ClaimOf(s, j)))
    && ClaimOf(s', k) <= ClaimOf(s, k) + x
  }

  lemma ClaimsMove(s: System, s': System, k: ChannelId, x: int)
    requires ClaimMoves(s, s', k, x)
    ensures MapSum<ChannelId>(Claims(s')) <= MapSum<ChannelId>(Claims(s)) + x
  {
    hide MapSum, ClaimOf;
    var a, b := Claims(s), Claims(s');
    assert forall j :: j in s'.c.channels <==> j in s.c.channels.Keys;
    MapSumRemove<ChannelId>(a, k);
    MapSumRemove<ChannelId>(b, k);
    MapSumLe<ChannelId>(b - {k}, a - {k});
  }

  predicate ClaimsFall(s: System, s': System) {
    forall j <- s'.c.channels :: j in s.c.channels && ClaimOf(s', j) <= ClaimOf(s, j)
  }

  lemma ClaimsDrop(s: System, s': System)
    requires ClaimsFall(s, s')
    ensures MapSum<ChannelId>(Claims(s')) <= MapSum<ChannelId>(Claims(s))
  {
    hide MapSum, ClaimOf;
    MapSumLe<ChannelId>(Claims(s'), Claims(s));
  }

  /** Only the carriage moved, and its claims did not rise. */
  lemma BooksSolvent(s: System, s': System)
    requires Solvent(s) && s'.r == s.r && s'.c.cfg == s.c.cfg && s.c.decisions.Keys <= s'.c.decisions.Keys && ClaimsFall(s, s')
    ensures Solvent(s')
  {
    hide MapSum, ClaimsFall, Claims, Bal;
    ClaimsDrop(s, s');
    PoolShrinks(s.r.refs, s.c.decisions, s'.c.decisions, s.c.cfg.settlePtr);
  }

  /** What a channel's claim depends on besides its deposit. */
  predicate SameTerms(ch: Channel, ch': Channel) {
    ch'.terms == ch.terms && ch'.meter.prepay == ch.meter.prepay && ch'.ledger.funding == ch.ledger.funding
  }

  lemma PutFalls(s: System, k: ChannelId, ch: Channel)
    requires k in s.c.channels && SameTerms(s.c.channels[k], ch) && Carve(s.c.channels[k]) <= Carve(ch)
    ensures ClaimsFall(s, s.(c := PutChannel(s.c, k, ch)))
  {
    hide Carve, FundedAt;
  }

  lemma PutTidy(c: Carriage, k: ChannelId, ch: Channel)
    requires Tidy(c) && k in c.channels && Prudent(ch)
    ensures Tidy(PutChannel(c, k, ch))
  {
    hide Prudent;
  }

  /** One channel's books moved; its deposit, terms and evidenced carve did not raise its claim. */
  lemma PutOk(s: System, k: ChannelId, ch: Channel)
    requires Core(s) && Inv(s.(c := PutChannel(s.c, k, ch))) && k in s.c.channels
    requires SameTerms(s.c.channels[k], ch) && Carve(s.c.channels[k]) <= Carve(ch) && Prudent(ch)
    ensures Core(s.(c := PutChannel(s.c, k, ch)))
  {
    hide Inv, Tidy, Solvent, Prudent, Carve, Within;
    PutFalls(s, k, ch);
    PutTidy(s.c, k, ch);
    BooksSolvent(s, s.(c := PutChannel(s.c, k, ch)));
  }

  lemma PutShut(c: Carriage, k: ChannelId, ch: Channel)
    requires Shut(c) && k in c.channels && (ch.meter.open ==> c.channels[k].meter.open)
    ensures Shut(PutChannel(c, k, ch))
  {
  }

  /** Books that differ in rounds, settled totals or version only. */
  predicate SamePosition(ch: Channel, ch': Channel) {
    && SameTerms(ch, ch') && ch'.operative == ch.operative && ch'.imported == ch.imported && ch'.meter.bp == ch.meter.bp
    && ch'.meter.cum == ch.meter.cum && ch'.meter.accruals == ch.meter.accruals && ch'.meter.upper == ch.meter.upper
    && (ch.meter.prepay ==> ch'.meter.balance == ch.meter.balance) && (ch'.meter.open ==> ch.meter.open)
  }

  lemma RedrawnPosition(ch: Channel, ch': Channel)
    requires Redrawn(ch, ch')
    ensures SamePosition(ch, ch')
  {
  }

  lemma SamePositionKeeps(ch: Channel, ch': Channel)
    requires Prudent(ch) && SamePosition(ch, ch')
    ensures Prudent(ch') && Carve(ch') == Carve(ch)
  {
    hide Sum;
  }

  lemma ChannelPrudent(c: Carriage, k: ChannelId)
    requires Tidy(c) && k in c.channels
    ensures Prudent(c.channels[k]) && OpenKey(k) in c.decisions
  {
    hide Prudent;
  }

  /** A put that leaves the position alone. */
  lemma PutSame(s: System, k: ChannelId, ch: Channel)
    requires Core(s) && Inv(s.(c := PutChannel(s.c, k, ch))) && k in s.c.channels && SamePosition(s.c.channels[k], ch)
    ensures Core(s.(c := PutChannel(s.c, k, ch))) && (Shut(s.c) ==> Shut(PutChannel(s.c, k, ch)))
  {
    hide Inv, Solvent, Carve, Prudent, Shut;
    ChannelPrudent(s.c, k);
    SamePositionKeeps(s.c.channels[k], ch);
    PutOk(s, k, ch);
    if Shut(s.c) { PutShut(s.c, k, ch); }
  }

  // ---- metering and rounds -------------------------------------------------------------------------------------------

  lemma {:induction false} TentativeOpen(m: M.Meter, slices: seq<M.Slice>)
    requires |m.accruals| == |m.bp|
    ensures M.Tentative(m, slices).0.open == m.open && M.Tentative(m, slices).0.upper == m.upper && M.Tentative(m, slices).0.prepay == m.prepay
    decreases |slices|
  {
    if |slices| > 0 { TentativeOpen(M.AcceptSlice(m, slices[0]).0, slices[1..]); }
  }

  lemma BatchPrudent(ch: Channel, slices: seq<M.Slice>)
    requires BooksOk(ch) && Prudent(ch)
    ensures var ch' := MeterBatch(ch, slices);
            Prudent(ch') && Carve(ch') == Carve(ch) && SameTerms(ch, ch') && (ch'.meter.open ==> ch.meter.open)
  {
    hide BooksOk, Sum;
    BooksMeter(ch);
    TentativeOpen(ch.meter, slices);
    M.BatchLinear(ch.meter, slices, 0, Zeros(Roles(ch)));
    if ch.meter.prepay { M.CoveredKept(ch.meter, ch.ledger.funding, slices, 0); }
    assert Roles(MeterBatch(ch, slices)) == Roles(ch);
  }

  lemma BatchEscrow(s: System, cid: ChannelId, slices: seq<M.Slice>)
    requires EscrowOk(s)
    ensures EscrowOk(s.(c := Batch(s.c, cid, slices).0))
  {
    hide Inv, Solvent, Carve, Prudent, Shut, BooksOk, M.AcceptBatch, Within;
    BatchStep(s, cid, slices);
    if cid in s.c.channels && |s.c.channels[cid].meter.accruals| == |s.c.channels[cid].meter.bp| && |slices| > 0 {
      InvBooks(s, cid);
      ChannelPrudent(s.c, cid);
      BatchPrudent(s.c.channels[cid], slices);
      PutOk(s, cid, MeterBatch(s.c.channels[cid], slices));
      PutShut(s.c, cid, MeterBatch(s.c.channels[cid], slices));
    }
  }

  lemma CheckpointPrudent(ch: Channel, ref: CkptRef, lastSeq: nat, cum: nat, accruals: seq<nat>)
    requires BooksOk(ch) && Prudent(ch) && M.Recomputes(ch.meter, lastSeq, cum, accruals)
    ensures var ch' := Checkpointed(ch, ref, lastSeq, cum, accruals);
            Prudent(ch') && Carve(ch) <= Carve(ch') && SameTerms(ch, ch') && (ch'.meter.open ==> ch.meter.open)
  {
    hide BooksOk, Sum, MapSum, M.Recomputes;
    CheckpointKeeps(ch, ref, lastSeq, cum, accruals);
    CarveGrows(ch, Checkpointed(ch, ref, lastSeq, cum, accruals));
    assert Roles(Checkpointed(ch, ref, lastSeq, cum, accruals)) == Roles(ch);
  }

  lemma CarveGrows(ch: Channel, ch': Channel)
    requires BooksOk(ch) && BooksOk(ch') && Roles(ch) == Roles(ch')
    requires forall i :: 0 <= i < Roles(ch) ==> BasisAccruals(ch)[i] <= BasisAccruals(ch')[i]
    ensures Carve(ch) <= Carve(ch')
  {
    hide MapSum, Totals, Whole, Serial, InFlight, Position;
    SumLe(BasisAccruals(ch), BasisAccruals(ch'));
    DivLe(Sum(BasisAccruals(ch)), Sum(BasisAccruals(ch')), UNIT);
  }

  lemma CheckpointEscrow(s: System, cid: ChannelId, q: CkptReq)
    requires EscrowOk(s)
    ensures EscrowOk(s.(c := Checkpoint(s.c, cid, q).0))
  {
    hide Inv, Solvent, Carve, Prudent, Shut, BooksOk, M.Recomputes, M.CheckpointUpto, Within, Checkpointed;
    CheckpointStep(s, cid, q);
    if q.signed && cid in s.c.channels && |s.c.channels[cid].meter.accruals| == |s.c.channels[cid].meter.bp|
       && M.Recomputes(s.c.channels[cid].meter, q.lastSeq, q.cum, q.accruals) {
      var ch := s.c.channels[cid];
      InvBooks(s, cid);
      ChannelPrudent(s.c, cid);
      CheckpointPrudent(ch, q.ref, q.lastSeq, q.cum, q.accruals);
      PutOk(s, cid, Checkpointed(ch, q.ref, q.lastSeq, q.cum, q.accruals));
      PutShut(s.c, cid, Checkpointed(ch, q.ref, q.lastSeq, q.cum, q.accruals));
    }
  }

  lemma ProposeEscrow(s: System, cid: ChannelId, p: Proposal)
    requires EscrowOk(s)
    ensures EscrowOk(s.(c := Propose(s.c, cid, p).0))
  {
    hide Inv, Tidy, Within, Solvent, Shut, Verified, OtherInFlight;
    ProposeStep(s, cid, p);
    if cid in s.c.channels && Propose(s.c, cid, p).1.Ok? {
      PutSame(s, cid, Propose(s.c, cid, p).0.channels[cid]);
    }
  }

  // ---- consuming payments ---------------------------------------------------------------------------------------------

  function Consumed(c: Carriage, ref: nat, ok: bool): Carriage {
    c.(decisions := Decide(c.decisions, FundKey(ref), Bare, ok).0, consumed := c.consumed + {ref})
  }

  lemma NotesTidy(c: Carriage, c': Carriage)
    requires Tidy(c) && c'.channels == c.channels && c'.disps == c.disps && c.decisions.Keys <= c'.decisions.Keys
    requires forall d <- c'.decisions :: d in c.decisions || !d.DispKey?
    ensures Tidy(c')
  {
    hide Prudent;
    assert forall k :: OpenKey(k) in c.decisions.Keys ==> OpenKey(k) in c'.decisions.Keys;
  }

  /** Only decisions and notes moved. */
  lemma NotesOk(s: System, c': Carriage)
    requires Core(s) && c'.channels == s.c.channels && c'.disps == s.c.disps && c'.snapshots == s.c.snapshots && c'.cfg == s.c.cfg
    requires s.c.decisions.Keys <= c'.decisions.Keys && forall d <- c'.decisions :: d in s.c.decisions || !d.DispKey?
    ensures Core(s.(c := c'))
  {
    hide Prudent, Solvent, Within, ChannelOk, SnapshotOk;
    NotesTidy(s.c, c');
    BooksSolvent(s, s.(c := c'));
  }

  lemma ProofEscrow(s: System, cid: ChannelId, ckpt: CkptRef, p: Proof, ok: bool)
    requires EscrowOk(s) && cid in s.c.channels && NamedBy(s.c.channels[cid], ckpt, p.hash)
    ensures EscrowOk(ProveRound(s, cid, ckpt, p, ok).0)
  {
    hide Inv, Tidy, Within, Solvent, Shut, ReadLegs, PlanOf, FoldProof;
    ProveStep(s, cid, ckpt, p, ok);
    var s' := ProveRound(s, cid, ckpt, p, ok).0;
    var ch := s.c.channels[cid];
    var d := ch.rounds[ckpt];
    if s' != s {
      var l := ReadLegs(s.c, s.r, cid, ch, ckpt, p.txs).value;
      var plan := PlanOf(d, l).value;
      ProofPosition(ch, ckpt, plan);
      if plan.net {
        PlanHasLeg(d, l);
        NotesOk(s, Consumed(s.c, l.netRef.value, ok));
        ShutNotes(s.c, Consumed(s.c, l.netRef.value, ok));
        var s1 := s.(c := Consumed(s.c, l.netRef.value, ok));
        if s' != s1 { PutSame(s1, cid, FoldProof(ch, ckpt, plan.meed, plan.net, plan.confirm, plan.time)); }
      } else {
        PutSame(s, cid, FoldProof(ch, ckpt, plan.meed, plan.net, plan.confirm, plan.time));
      }
    }
  }

  lemma ShutNotes(c: Carriage, c': Carriage)
    requires Shut(c) && c'.channels == c.channels && c'.disps == c.disps
    ensures Shut(c')
  {
  }

  lemma ProofPosition(ch: Channel, ckpt: CkptRef, plan: Plan)
    requires ckpt in ch.rounds && |ch.rounds[ckpt].eR| == |ch.ledger.settled|
    ensures SamePosition(ch, FoldProof(ch, ckpt, plan.meed, plan.net, plan.confirm, plan.time))
  {
    hide AddRoles, CarveDelta;
  }
}
