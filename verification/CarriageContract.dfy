/** The carriage as one object over its maps and the rail: every handler runs to its end and moves the state
    exactly as module Carriage says. Batches and checkpoints are the metering record's own and stay on
    values. */
module CarriageContract {
  import opened Options
  import opened Instance
  import opened RailTypes
  import opened VirtualRail
  import RailContract
  import M = Metering
  import opened Books
  import opened BookMoves
  import opened Carriage
  import opened CarriageSteps
  import opened CarriageBooks
  import opened CarriageRuns

  class CarriageNode {
    const cfg: Config
    const rail: RailContract.VirtualRailNode
    var channels: map<ChannelId, Channel>
    var payers: map<ChannelId, Key>
    var disps: map<ChannelId, Disp>
    var consumed: set<nat>
    var tombstones: set<ChannelId>
    var consumedChain: set<(ChannelId, CkptRef)>
    var snapshots: map<(ChannelId, CkptRef), ChainSnapshot>
    var decisions: map<DecKey, DecValue>

    ghost function Abs(): Carriage
      reads this
    {
      Carriage(cfg, channels, payers, disps, consumed, tombstones, consumedChain, snapshots, decisions)
    }

    ghost function Sys(): System
      reads this, rail
    {
      System(Abs(), rail.Abs())
    }

    /** The invariant of module CarriageBooks. */
    ghost predicate Ok()
      reads this, rail
    {
      Inv(Sys())
    }

    constructor (cfg: Config, rail: RailContract.VirtualRailNode)
      requires rail.Ok() && rail.Abs() == Empty(rail.delay)
      ensures Ok() && this.rail == rail && Sys() == Born(cfg, rail.delay)
    {
      this.cfg, this.rail := cfg, rail;
      channels, payers, disps, consumed := map[], map[], map[], {};
      tombstones, consumedChain, snapshots, decisions := {}, {}, map[], map[];
      new;
      BornOk(cfg, rail.delay);
    }

    /** A copy of the maps, for the computations that only read them. */
    method View() returns (c: Carriage)
      ensures c == Abs()
    {
      c := Carriage(cfg, channels, payers, disps, consumed, tombstones, consumedChain, snapshots, decisions);
    }

    method Record(k: DecKey, v: DecValue, ok: bool) returns (d: Decided)
      modifies `decisions
      ensures (decisions, d) == Decide(old(decisions), k, v, ok)
    {
      if k in decisions { return Already(decisions[k]); }
      if !ok { return WriteFailed; }
      decisions := decisions[k := v];
      d := Fresh;
    }

    /** The one unconfirmed round, found by looking at them all. */
    static method FindInFlight(ch: Channel) returns (found: Option<CkptRef>)
      requires Serial(ch)
      ensures found == InFlightRef(ch)
    {
      var keys := ch.rounds.Keys;
      while keys != {}
        invariant keys <= ch.rounds.Keys
        invariant forall k <- ch.rounds.Keys :: k in keys || ch.rounds[k].confirmed
        decreases |keys|
      {
        var k :| k in keys;
        if !ch.rounds[k].confirmed { return Some(k); }
        keys := keys - {k};
      }
      found := None;
    }

    // ---- opening ----------------------------------------------------------------------------------------

    method EstablishHere(cid: ChannelId, o: OpenReq, openOk: bool, dispOk: bool) returns (a: Response)
      modifies `channels, `payers, `disps, `consumedChain, `decisions
      ensures (Abs(), a) == Establish(old(Abs()), cid, o, openOk, dispOk)
    {
      hide FreshChannel, ChainedChannel;
      if !Conforms(o) || cid in tombstones || cid in channels { return Rejected; }
      if o.predecessor.Some? && o.predecessor.value in consumedChain { return Rejected; }
      var built := Some(FreshChannel(o));
      if o.predecessor.Some? {
        var c := View();
        built := ChainedChannel(c, o, o.predecessor.value);
      }
      if built.None? { return Rejected; }
      var acceptance := Record(OpenKey(cid), Bare, openOk);
      if !acceptance.Fresh? { return Rejected; }
      channels, payers := channels[cid := built.value], payers[cid := o.payer];
      if o.predecessor.Some? {
        var pred := o.predecessor.value;
        consumedChain := consumedChain + {pred};
        disps := disps[pred.0 := Committed(cid)];
        var _ := Record(DispKey(pred.0), DispValue(Committed(cid)), dispOk);
      }
      a := Response.Ok;
    }

    method OnOpen(cid: ChannelId, o: OpenReq, openOk: bool, dispOk: bool) returns (a: Response)
      requires Ok()
      modifies this
      ensures Ok() && (Sys(), a) == Handle(old(Sys()), OpenMsg(cid, o, openOk, dispOk))
    {
      hide Inv, Establish, ComputeSnapshot;
      OkRail();
      HandleKeeps(Sys(), OpenMsg(cid, o, openOk, dispOk));
      if !o.finalOk { return Rejected; }
      if o.predecessor.Some? {
        var pred := o.predecessor.value;
        if pred.0 in disps && disps[pred.0].Intent? {
          var c := View();
          var position := ComputeSnapshot(c, pred.0, pred.1);
          snapshots := snapshots - {pred};
          if position.Some? { snapshots := snapshots[pred := position.value]; }
          assert Abs() == RefreshSnapshot(old(Abs()), pred);
        } else if pred.0 in disps && disps[pred.0].Reconciled? {
          return Rejected;
        }
      }
      a := EstablishHere(cid, o, openOk, dispOk);
    }

    lemma OkRail()
      requires Ok()
      ensures rail.Ok() && forall k <- channels :: BooksOk(channels[k]) && Serial(channels[k])
    {
      forall k <- channels ensures BooksOk(channels[k]) { assert ChannelOk(rail.Abs(), k, channels[k]); }
    }

    // ---- rounds -------------------------------------------------------------------------------------------

    method RetryHere(ch: Channel, p: Proposal) returns (x: Option<Channel>)
      requires p.ref in ch.rounds
      ensures x == ProposeRetry(ch, p)
    {
      var d := ch.rounds[p.ref];
      if p.output != d.output || p.leg != ExpectedLeg(d.target, d.eR) { return None; }
      if p.hash !in d.hashes && |d.hashes| >= MAX_PROPOSAL_HASHES { return None; }
      x := Some(ch.(rounds := ch.rounds[p.ref := d.(hashes := d.hashes + {p.hash})]));
    }

    method LockHere(ch: Channel, p: Proposal) returns (x: Option<Channel>)
      ensures x == ProposeNew(ch, p)
    {
      hide Verified;
      var v := Verified(ch);
      if v.None? { return None; }
      var (e, target) := v.value;
      if p.output != e.output || p.leg != ExpectedLeg(target, e.eR) { return None; }
      x := Some(ch.(rounds := ch.rounds[p.ref := PostpayRound(ch, e, target, p.hash)]));
    }

    method OnPropose(cid: ChannelId, p: Proposal) returns (a: Response)
      requires Ok()
      modifies `channels
      ensures Ok() && (Sys(), a) == Handle(old(Sys()), ProposeMsg(cid, p))
    {
      hide Inv, ProposeNew, ProposeRetry, OtherInFlight;
      HandleKeeps(Sys(), ProposeMsg(cid, p));
      if cid in disps && !disps[cid].Reconciled? { return Rejected; }
      if cid !in channels || !p.signed { return Rejected; }
      var ch := channels[cid];
      if ch.meter.prepay || OtherInFlight(ch, p.ref) { return Rejected; }
      if !(ch.operative.Some? && ch.operative.value.ref == p.ref) && p.ref !in ch.rounds { return Rejected; }
      if !p.plain { return Rejected; }
      var next: Option<Channel>;
      if p.ref in ch.rounds { next := RetryHere(ch, p); } else { next := LockHere(ch, p); }
      if next.None? { return Rejected; }
      channels := channels[cid := next.value];
      a := Response.Ok;
    }

    /** The proof's legs one by one; the first that does not match rejects them all. */
    static method ReadAll(c: Carriage, r: Rail, cid: ChannelId, ch: Channel, ckpt: CkptRef, txs: seq<LegTx>) returns (legs: Option<Legs>)
      requires ckpt in ch.rounds
      ensures legs == ReadLegs(c, r, cid, ch, ckpt, txs)
    {
      hide MeedLegOk, NetLegOk, FinalityOf;
      var d := ch.rounds[ckpt];
      var l := Legs(None, None, None, {});
      for i := 0 to |txs|
        invariant ReadLegs(c, r, cid, ch, ckpt, txs[..i]) == Some(l)
      {
        assert txs[..i + 1][..i] == txs[..i] && txs[..i + 1][i] == txs[i];
        RejectedStays(c, r, cid, ch, ckpt, txs, i + 1);
        var t := txs[i];
        var info := RefTarget(r, t.ref);
        if info.None? || info.value.canonical in l.seen { return None; }
        var seen := l.seen + {info.value.canonical};
        if t.leg == 1 {
          if d.target.None? || l.meedTime.Some? || !MeedLegOk(r, cid, ch.terms, d.target.value, t.ref) { return None; }
          l := l.(meedTime := FinalTime(r, t.ref), seen := seen);
        } else if t.leg == 2 {
          if l.netRef.Some? || !NetLegOk(c, r, cid, ch.terms, ckpt, d.output, t.ref) { return None; }
          l := l.(netTime := FinalTime(r, t.ref), netRef := Some(info.value.canonical), seen := seen);
        } else {
          return None;
        }
      }
      assert txs[..|txs|] == txs;
      legs := Some(l);
    }

    method ProveHere(cid: ChannelId, ckpt: CkptRef, p: Proof, ok: bool) returns (a: Response)
      requires cid in channels && ckpt in channels[cid].rounds
      modifies `channels, `consumed, `decisions
      ensures (Sys(), a) == ProveRound(old(Sys()), cid, ckpt, p, ok)
    {
      hide ReadLegs, PlanOf, FoldProof;
      var ch := channels[cid];
      var d := ch.rounds[ckpt];
      if d.confirmed { return Receipt; }
      if d.version != ch.ledger.version || |d.eR| != |ch.ledger.settled| { return Rejected; }
      var c := View();
      var r := rail.View();
      var legs := ReadAll(c, r, cid, ch, ckpt, p.txs);
      if legs.None? { return Rejected; }
      var plan := PlanOf(d, legs.value);
      if plan.None? { return Rejected; }
      if plan.value.net {
        PlanHasLeg(d, legs.value);
        var ref := legs.value.netRef.value;
        if ref in consumed || ch.ledger.net + d.output > U128_MAX { return Rejected; }
        var credited := Record(FundKey(ref), Bare, ok);
        if credited.WriteFailed? { return Rejected; }
        consumed := consumed + {ref};
        if credited.Already? { return Response.Ok; }
      }
      channels := channels[cid := FoldProof(ch, ckpt, plan.value.meed, plan.value.net, plan.value.confirm, plan.value.time)];
      a := if plan.value.confirm then Receipt else Response.Ok;
    }

    method OnProof(cid: ChannelId, ckpt: CkptRef, p: Proof, ok: bool) returns (a: Response)
      requires Ok()
      modifies `channels, `consumed, `decisions
      ensures Ok() && (Sys(), a) == Handle(old(Sys()), ProofMsg(cid, ckpt, p, ok))
    {
      hide Inv, ProveRound;
      OkRail();
      HandleKeeps(Sys(), ProofMsg(cid, ckpt, p, ok));
      if cid !in channels || !p.signed || !NamedBy(channels[cid], ckpt, p.hash) { return Rejected; }
      a := ProveHere(cid, ckpt, p, ok);
    }

    // ---- funding ------------------------------------------------------------------------------------------

    /** Follow the committed links, one hop at a time. */
    method TipOf(cid: ChannelId) returns (tip: ChannelId)
      ensures tip == ResolveTip(disps, cid)
    {
      tip := cid;
      var hops: nat := |disps| + 1;
      while hops > 0 && tip in disps && disps[tip].Committed?
        invariant Follow(disps, tip, hops) == ResolveTip(disps, cid)
      {
        tip, hops := disps[tip].successor, hops - 1;
      }
    }

    method FundHere(cid: ChannelId, f: Funding, ok: bool) returns (a: Response)
      modifies `channels, `consumed, `decisions
      ensures (Sys(), a) == FundChannel(old(Sys()), cid, f, ok)
    {
      hide FundingLegOk, Credited, Fund, ResolveTip;
      if cid !in channels || !f.signed || f.authHash != channels[cid].terms.authHash { return Rejected; }
      var target := cid;
      if cid in disps && disps[cid].Committed? { target := TipOf(cid); }
      var c := View();
      var r := rail.View();
      if !FundingAdmissible(c, target) || !FundingLegOk(c, r, channels[cid], f) { return Rejected; }
      LegHasTarget(c, r, channels[cid], f);
      var info := RefTarget(r, f.ref).value;
      var credited := Credited(channels[target], info.amount);
      if info.canonical in consumed || channels[target].ledger.funding + credited > U128_MAX { return Rejected; }
      var decided := Record(FundKey(info.canonical), Bare, ok);
      if decided.WriteFailed? { return Rejected; }
      consumed := consumed + {info.canonical};
      if decided.Fresh? { channels := channels[target := Fund(channels[target], credited)]; }
      a := Response.Ok;
    }

    method OnFunding(cid: ChannelId, f: Funding, ok: bool) returns (a: Response)
      requires Ok()
      modifies `channels, `consumed, `decisions
      ensures Ok() && (Sys(), a) == Handle(old(Sys()), FundingMsg(cid, f, ok))
    {
      hide Inv, FundChannel;
      OkRail();
      HandleKeeps(Sys(), FundingMsg(cid, f, ok));
      a := FundHere(cid, f, ok);
    }

    // ---- draws ---------------------------------------------------------------------------------------------

    method DrawHere(cid: ChannelId, ckpt: CkptRef) returns (a: Response)
      requires rail.Ok() && cid in channels && ckpt in channels[cid].rounds
      modifies `channels, rail
      ensures rail.Ok() && (Sys(), a) == DrawLocked(old(Sys()), cid, ckpt)
    {
      hide ValidRail, VirtualRail.AdvanceMeed, FoldInterim, FinalityOf;
      var ch := channels[cid];
      var d := ch.rounds[ckpt];
      if d.target.None? || d.target.value > U128_MAX || |d.eR| != |ch.ledger.settled| { return Rejected; }
      var reply := if d.drawRef.Some? then Reply.Ref(d.drawRef.value) else Done;
      if d.drawRef.None? {
        reply := rail.AdvanceMeed(Some(cfg.settlePtr), AddressOf(ch.terms.seed), cid, d.target.value, ch.terms.asset);
      }
      if !reply.Ref? { return Rejected; }
      ch := ch.(rounds := ch.rounds[ckpt := d.(drawRef := Some(reply.r))]);
      var r := rail.View();
      if !IsFinal(r, reply.r) {
        channels := channels[cid := ch];
        return Rejected;
      }
      channels := channels[cid := FoldInterim(ch, ckpt, FinalTime(r, reply.r))];
      a := Notice(d.target.value);
    }

    method OnInterim(cid: ChannelId) returns (a: Response)
      requires Ok()
      modifies `channels, rail
      ensures Ok() && (Sys(), a) == Handle(old(Sys()), InterimMsg(cid))
    {
      hide Inv, DrawLocked, InFlightRef, LockInterim, ValidRail, BooksOk;
      OkRail();
      HandleKeeps(Sys(), InterimMsg(cid));
      if cid !in channels || !channels[cid].meter.prepay || !channels[cid].meter.open { return Rejected; }
      var ch := channels[cid];
      var inFlight := FindInFlight(ch);
      if inFlight.Some? {
        FlightIsOpen(ch);
        a := DrawHere(cid, inFlight.value);
        return;
      }
      if ch.operative.None? { return Rejected; }
      if ch.operative.value.ref in ch.rounds {
        var d := ch.rounds[ch.operative.value.ref];
        return if d.target.Some? && d.drawRef.Some? then Notice(d.target.value) else Rejected;
      }
      var lock := LockInterim(ch);
      if lock.None? { return Rejected; }
      LockRedraws(ch);
      channels := channels[cid := lock.value.1];
      a := DrawHere(cid, lock.value.0);
    }

    // ---- closing ---------------------------------------------------------------------------------------------

    method DrainHere(cid: ChannelId)
      requires cid in channels && Serial(channels[cid])
      modifies `channels
      ensures Abs() == PutChannel(old(Abs()), cid, Drain(old(channels[cid]), rail.Abs(), cid))
    {
      hide InFlightRef, FoldInterim, DrawnOnRail;
      var ch := channels[cid];
      if ch.meter.prepay {
        var k := FindInFlight(ch);
        if k.Some? {
          FlightIsOpen(ch);
          var r := rail.View();
          if DrawnOnRail(r, cid, ch.terms, ch.rounds[k.value]) && |ch.rounds[k.value].eR| == |ch.ledger.settled| {
            ch := FoldInterim(ch, k.value, None);
          } else {
            ch := ch.(rounds := ch.rounds - {k.value});
          }
        }
      }
      channels := channels[cid := ch];
    }

    method RefundHere(cid: ChannelId, ckpt: CkptRef, reserveOk: bool, refOk: bool)
      requires rail.Ok() && cid in channels
      modifies `decisions, rail
      ensures rail.Ok() && Sys() == IssueRefund(old(Sys()), cid, ckpt, reserveOk, refOk)
    {
      hide ValidRail, VirtualRail.ReleaseKeyed, RefundOwed;
      var ch := channels[cid];
      var refund := RefundOwed(ch);
      if ch.terms.refundPtr.None? || refund == 0 { return; }
      var _ := Record(ReserveKey(cid, ckpt), Bare, reserveOk);
      var reply := rail.ReleaseKeyed(cid, ckpt, cfg.settlePtr, ch.terms.refundPtr.value, ch.terms.asset, refund);
      if reply.Ref? { var _ := Record(RefundRefKey(cid, ckpt), RefValue(reply.r), refOk); }
    }

    method CloseDrawHere(cid: ChannelId)
      requires rail.Ok()
      modifies `disps, rail
      ensures rail.Ok() && Sys() == AttemptCloseDraw(old(Sys()), cid)
    {
      hide ValidRail, VirtualRail.AdvanceMeed;
      if cid !in channels || cid !in disps || !disps[cid].Reconciled? || disps[cid].draw.None? { return; }
      var target := disps[cid].draw.value.1;
      if target > U128_MAX { return; }
      var reply := rail.AdvanceMeed(Some(cfg.settlePtr), AddressOf(channels[cid].terms.seed), cid, target, channels[cid].terms.asset);
      if reply.Ref? { disps := disps[cid := Reconciled(None)]; }
    }

    method ReconcileHere(cid: ChannelId, ckpt: CkptRef, io: CloseIo) returns (a: Response)
      requires rail.Ok() && cid in channels && Serial(channels[cid])
      modifies `channels, `disps, `decisions, rail
      ensures rail.Ok() && (Sys(), a) == Reconcile(old(Sys()), cid, ckpt, io)
      ensures cid in channels
    {
      hide ValidRail, IssueRefund, Drain, PendingDraw;
      RefundHere(cid, ckpt, io.reserveOk, io.refOk);
      RefundLeaves(old(Sys()), cid, ckpt, io.reserveOk, io.refOk);
      DrainHere(cid);
      var disp := Reconciled(PendingDraw(channels[cid]));
      var recorded := Record(DispKey(cid), DispValue(disp), io.dispOk);
      if recorded.WriteFailed? { return Rejected; }
      disps := disps[cid := disp];
      a := Response.Ok;
    }

    method OnClose(cid: ChannelId, q: CloseReq, io: CloseIo) returns (a: Response)
      requires Ok()
      modifies `channels, `disps, `decisions, rail
      ensures Ok() && (Sys(), a) == Handle(old(Sys()), CloseMsg(cid, q, io))
    {
      hide Inv, ValidRail, Reconcile, AttemptCloseDraw, InFlightRef, BooksOk, Serial;
      OkRail();
      HandleKeeps(Sys(), CloseMsg(cid, q, io));
      if cid !in channels || !q.signed { return Rejected; }
      var ch := channels[cid];
      var reconciled := cid in disps && disps[cid].Reconciled?;
      if !reconciled && ch.operative.Some? && q.ckpt != ch.operative.value.ref { return Rejected; }
      var inFlight := FindInFlight(ch);
      if q.chainIntent && inFlight.Some? { return Rejected; }
      var c := View();
      var prior := PriorDisp(c, cid);
      if q.chainIntent {
        if ch.meter.cum != BasisCum(ch) || (ch.operative.None? && ch.meter.cum != 0) { return Rejected; }
        if prior.None? { disps := disps[cid := Intent]; }
      } else {
        if prior.None? || prior.value.Intent? {
          a := ReconcileHere(cid, q.ckpt, io);
          if a.Rejected? { return; }
        }
        ghost var before := Sys();
        CloseDrawHere(cid);
        CloseDrawLeaves(before, cid);
      }
      channels := channels[cid := channels[cid].(meter := M.BeginSettling(channels[cid].meter))];
      a := Response.Ok;
    }
  }

  lemma FlightIsOpen(ch: Channel)
    requires InFlightRef(ch).Some?
    ensures InFlightRef(ch).value in ch.rounds
  {
  }

  lemma LegHasTarget(c: Carriage, r: Rail, ch: Channel, f: Funding)
    requires FundingLegOk(c, r, ch, f)
    ensures RefTarget(r, f.ref).Some?
  {
  }

  /** Once a prefix of the legs is rejected, so is the whole. */
  lemma {:induction false} RejectedStays(c: Carriage, r: Rail, cid: ChannelId, ch: Channel, ckpt: CkptRef, txs: seq<LegTx>, i: nat)
    requires ckpt in ch.rounds && i <= |txs|
    ensures ReadLegs(c, r, cid, ch, ckpt, txs[..i]).None? ==> ReadLegs(c, r, cid, ch, ckpt, txs).None?
    decreases |txs|
  {
    hide MeedLegOk, NetLegOk, FinalityOf;
    if i < |txs| {
      assert txs[..|txs| - 1][..i] == txs[..i];
      RejectedStays(c, r, cid, ch, ckpt, txs[..|txs| - 1], i);
    } else {
      assert txs[..i] == txs;
    }
  }
}
