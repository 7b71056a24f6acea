/** What the carriage and the rail keep over every run: books that never outrun the rail, and the round
    ledger. */
module CarriageRuns {
  import opened Sums
  import opened Options
  import opened Instance
  import opened RailTypes
  import opened VirtualRail
  import opened RailHistory
  import opened Books
  import opened BookMoves
  import opened Carriage
  import opened CarriageBooks
  import opened CarriageDraws
  import F7

  lemma HandleKeeps(s: System, e: Message)
    requires Inv(s) && MessageOk(e)
    ensures Inv(Handle(s, e).0)
  {
    hide ChannelOk, FactsHold, ValidRail, SnapshotOk, Open, Batch, Checkpoint, Propose, ProveRound, FundChannel,
         InterimDraw, Close, Apply, NamedBy, Decide, Restart;
    match e
    case OpenMsg(cid, o, openOk, dispOk) => OpenKeeps(s, cid, o, openOk, dispOk);
    case BatchMsg(cid, slices) => BatchStep(s, cid, slices);
    case CheckpointMsg(cid, q) => CheckpointStep(s, cid, q);
    case ProposeMsg(cid, p) => ProposeStep(s, cid, p);
    case ProofMsg(cid, ckpt, p, ok) =>
      if cid in s.c.channels && p.signed && NamedBy(s.c.channels[cid], ckpt, p.hash) { ProveStep(s, cid, ckpt, p, ok); }
    case FundingMsg(cid, f, ok) => FundingStep(s, cid, f, ok);
    case InterimMsg(cid) => InterimStep(s, cid);
    case CloseMsg(cid, q, io) => CloseStep(s, cid, q, io);
    case RestartMsg => RestartForgets(s.c);
    case ReplicaMsg(k, v) => NotesKeep(s, s.c.disps, Decide(s.c.decisions, k, v, true).0);
    case RailMsg(op) => RailKeeps(s, op);
  }

  lemma RestartForgets(c: Carriage)
    ensures Restart(c).channels == map[] && Restart(c).snapshots == map[]
  {
  }

  lemma {:induction false} ServeKeeps(cfg: Config, delay: nat, msgs: seq<Message>)
    requires Sendable(msgs)
    ensures Inv(Serve(Born(cfg, delay), msgs))
  {
    hide Handle, Inv;
    if |msgs| == 0 {
      BornOk(cfg, delay);
    } else {
      ServeKeeps(cfg, delay, msgs[..|msgs| - 1]);
      HandleKeeps(Serve(Born(cfg, delay), msgs[..|msgs| - 1]), msgs[|msgs| - 1]);
    }
  }

  lemma BornOk(cfg: Config, delay: nat)
    ensures Inv(Born(cfg, delay))
  {
  }

  /** The state after any run. */
  ghost predicate Reached(s: System) {
    exists cfg, delay, msgs :: Sendable(msgs) && s == Serve(Born(cfg, delay), msgs)
  }

  lemma ReachedOk(s: System)
    requires Reached(s)
    ensures Inv(s)
  {
    hide Inv, Serve, Born;
    var cfg, delay, msgs :| Sendable(msgs) && s == Serve(Born(cfg, delay), msgs);
    ServeKeeps(cfg, delay, msgs);
  }

  lemma InvBooks(s: System, k: ChannelId)
    requires Inv(s) && k in s.c.channels
    ensures BooksOk(s.c.channels[k]) && ChannelOk(s.r, k, s.c.channels[k])
  {
    hide BooksOk, ValidRail, OwnUnits, DrawnOk, FundedAt;
  }

  // ---- the books never outrun the rail -------------------------------------------------------------------

  /** In every reachable state, what a channel has settled itself is funded on its watermark, so each
      destination of its instance has already been paid at least its floored share of it, provided the
      instance has shares to pay. */
  lemma BooksNeverOutrun(s: System, cid: ChannelId, d: nat)
    requires Reached(s) && cid in s.c.channels && Shares(s.r, s.c.channels[cid].terms.seed)
    ensures BooksOk(s.c.channels[cid])
    ensures var ch := s.c.channels[cid];
            var a := AddressOf(ch.terms.seed);
            && OwnUnits(ch) <= FundedAt(s.r, ch.terms.seed, cid)
            && (OwnUnits(ch) > 0 ==>
                  && a in s.r.instances && BpTotal(s.r.instances[a].meed) > 0
                  && |PaidOf(s.r.instances[a], cid)| == |s.r.instances[a].meed|
                  && (d < |s.r.instances[a].meed| ==>
                        MulDiv(OwnUnits(ch), s.r.instances[a].meed[d].bp, BpTotal(s.r.instances[a].meed)) <= PaidOf(s.r.instances[a], cid)[d]))
  {
    ReachedOk(s);
    var ch := s.c.channels[cid];
    var a := AddressOf(ch.terms.seed);
    assert ChannelOk(s.r, cid, ch);
    if OwnUnits(ch) > 0 {
      WatermarkPaid(s.r.instances[a], cid, OwnUnits(ch), d);
    }
  }

  lemma WatermarkPaid(i: State, c: ChannelId, own: nat, d: nat)
    requires Valid(i) && BpTotal(i.meed) > 0 && own <= FundedP(i, c)
    ensures |PaidOf(i, c)| == |i.meed|
    ensures d < |i.meed| ==> MulDiv(own, i.meed[d].bp, BpTotal(i.meed)) <= PaidOf(i, c)[d]
  {
    hide BpTotal;
    PaidBelow(i, c, FundedP(i, c));
    if d < |i.meed| { ShareMono(own, FundedP(i, c), i.meed[d].bp, BpTotal(i.meed)); }
  }

  // ---- the round ledger -----------------------------------------------------------------------------------

  /** At most one round in flight; the ledger is its openings plus the folded rounds; per role nothing
      settled passes the evidenced accruals, nor those the metered ones. */
  lemma RoundLedger(s: System, cid: ChannelId, i: nat)
    requires Reached(s) && cid in s.c.channels
    ensures var ch := s.c.channels[cid];
            && Shape(ch) && |ch.meter.accruals| == Roles(ch) && |BasisAccruals(ch)| == Roles(ch)
            && (forall j, k :: j in ch.rounds && k in ch.rounds && !ch.rounds[j].confirmed && !ch.rounds[k].confirmed ==> j == k)
            && ch.ledger.net == OpeningNet(ch) + MapSum<CkptRef>(NetOf(ch.rounds))
            && (i < Roles(ch) ==>
                  && ch.ledger.settled[i] == OpeningSettled(ch)[i] + MapSum<CkptRef>(FoldedOf(ch.rounds, i))
                  && ch.ledger.settled[i] <= BasisAccruals(ch)[i] <= ch.meter.accruals[i])
  {
    hide Sum, MapSum;
    ReachedOk(s);
    assert ChannelOk(s.r, cid, s.c.channels[cid]);
    BasisWithinMeter(s.c.channels[cid]);
  }

  lemma BasisWithinMeter(ch: Channel)
    requires Shape(ch) && Position(ch)
    ensures |ch.meter.accruals| == Roles(ch)
    ensures forall i :: 0 <= i < Roles(ch) ==> BasisAccruals(ch)[i] <= ch.meter.accruals[i]
  {
    hide Sum, MapSum;
    var w := MapSum<nat>(ch.meter.window);
    forall i | 0 <= i < Roles(ch) ensures 0 <= w * ch.meter.bp[i] { MulNonNeg(w, ch.meter.bp[i]); }
  }

  /** A round computed against the books as they stand: its version is the ledger's, its target is what is
      settled plus its P, and folding it carves exactly P out of the window. */
  predicate Current(ch: Channel, d: Round)
    requires Shape(ch) && Whole(ch) && |d.eR| == |ch.ledger.settled|
  {
    && d.version == ch.ledger.version
    && (d.meed.Some? && !d.meedFolded ==>
          && d.target == Some(OwnUnits(ch) + d.meed.value)
          && CarveDelta(ch.ledger.settled, AddRoles(ch.ledger.settled, d.eR)) == d.meed.value)
  }

  /** An unconfirmed round is always current, so the staleness rejection is unreachable. */
  lemma RoundsAreCurrent(s: System, cid: ChannelId, ref: CkptRef)
    requires Reached(s) && cid in s.c.channels && ref in s.c.channels[cid].rounds && !s.c.channels[cid].rounds[ref].confirmed
    ensures BooksOk(s.c.channels[cid]) && Current(s.c.channels[cid], s.c.channels[cid].rounds[ref])
  {
    hide BooksOk, Inv, Current, Reached, OwnUnits, DrawnOk;
    ReachedOk(s);
    InvBooks(s, cid);
    CurrentRound(s.c.channels[cid], ref);
  }

  lemma CurrentRound(ch: Channel, ref: CkptRef)
    requires BooksOk(ch) && ref in ch.rounds && !ch.rounds[ref].confirmed
    ensures |ch.rounds[ref].eR| == |ch.ledger.settled| && Current(ch, ch.rounds[ref])
  {
    hide MapSum, Sum, MerchantNet, OpeningSettled, Totals, Position, Serial, AddRoles, CarveDelta, OwnUnits;
    NeverStale(ch, ref);
    if ch.rounds[ref].meed.Some? && !ch.rounds[ref].meedFolded { RoundCarve(ch, ref); }
  }

  lemma RoundCarve(ch: Channel, ref: CkptRef)
    requires BooksOk(ch) && ref in ch.rounds && !ch.rounds[ref].confirmed && |ch.rounds[ref].eR| == |ch.ledger.settled|
    requires ch.rounds[ref].meed.Some? && !ch.rounds[ref].meedFolded
    ensures ch.rounds[ref].target == Some(OwnUnits(ch) + ch.rounds[ref].meed.value)
    ensures CarveDelta(ch.ledger.settled, AddRoles(ch.ledger.settled, ch.rounds[ref].eR)) == ch.rounds[ref].meed.value
  {
    hide MapSum, Sum, MerchantNet, OpeningSettled, Totals, Position, Serial, AddRoles;
    var d := ch.rounds[ref];
    assert InFlight(ch, d);
    CarveOf(ch.ledger.settled, d.eR, d.meed.value);
  }

  lemma CarveOf(settled: seq<nat>, eR: seq<nat>, p: nat)
    requires |settled| == |eR| && Sum(eR) == UNIT * p
    ensures CarveDelta(settled, AddRoles(settled, eR)) == p
  {
    AddRolesSum(settled, eR);
    DivShift(Sum(settled), p, UNIT);
  }

  /** The close's carve brings the channel's draws to floor((sum A - sum imported) / 10000) whatever rounds
      came before, and no dust is left between it and the whole-chain carve. */
  lemma CloseDrawsTheRest(s: System, cid: ChannelId)
    requires Reached(s) && cid in s.c.channels
    ensures BooksOk(s.c.channels[cid])
    ensures var ch := s.c.channels[cid];
            PendingDraw(ch).Some? ==>
              && Sum(OpeningSettled(ch)) <= Sum(BasisAccruals(ch))
              && PendingDraw(ch).value.1 == (Sum(BasisAccruals(ch)) - Sum(OpeningSettled(ch))) / UNIT >= OwnUnits(ch)
              && F7.MeedCarve(BasisAccruals(ch)) == F7.MeedCarve(OpeningSettled(ch)) + PendingDraw(ch).value.1
              && ReconciliationDust(ch) == 0
  {
    hide MapSum, MerchantNet, Totals, Position, InFlight, Serial, OpeningSettled, Sum;
    ReachedOk(s);
    var ch := s.c.channels[cid];
    assert ChannelOk(s.r, cid, ch);
    if PendingDraw(ch).Some? {
      TargetValue(ch, BasisAccruals(ch));
      DustBound(ch);
      SumLe(ch.ledger.settled, BasisAccruals(ch));
      UnitsApart(Sum(BasisAccruals(ch)), Sum(ch.ledger.settled), Sum(OpeningSettled(ch)));
      UnitsApart(Sum(BasisAccruals(ch)), Sum(OpeningSettled(ch)), Sum(OpeningSettled(ch)));
    }
  }
}
