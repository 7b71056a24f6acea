/** Facts about single messages and runs that several arguments about the carriage share. */
module CarriageSteps {
  import opened Options
  import opened Instance
  import opened VirtualRail
  import opened Books
  import opened BookMoves
  import opened Carriage

  /** A plan folds a net leg only where one was read, and only once. */
  lemma PlanHasLeg(d: Round, l: Legs)
    requires PlanOf(d, l).Some? && PlanOf(d, l).value.net
    ensures l.netRef.Some? && !d.netFolded
  {
  }

  /** A proof's round is one of the channel's. */
  lemma NamedHere(ch: Channel, ckpt: CkptRef, hash: nat)
    requires NamedBy(ch, ckpt, hash)
    ensures ckpt in ch.rounds
  {
  }

  lemma ChainedHasSnapshot(c: Carriage, o: OpenReq, pred: (ChannelId, CkptRef))
    requires ChainedChannel(c, o, pred).Some?
    ensures pred in c.snapshots
  {
  }

  // ---- draws ----------------------------------------------------------------------------------------------

  /** Only the rounds and the settled sums differ. */
  predicate Redrawn(ch: Channel, ch': Channel) {
    ch' == ch.(rounds := ch'.rounds, ledger := ch.ledger.(settled := ch'.ledger.settled, version := ch'.ledger.version))
  }

  lemma DrawRedraws(ch: Channel, ckpt: CkptRef, ref: nat, time: Option<nat>)
    requires ckpt in ch.rounds && |ch.rounds[ckpt].eR| == |ch.ledger.settled|
    ensures Redrawn(ch, SetDrawRef(ch, ckpt, ref)) && Redrawn(ch, FoldInterim(SetDrawRef(ch, ckpt, ref), ckpt, time))
  {
    hide AddRoles;
  }

  lemma LockRedraws(ch: Channel)
    requires LockInterim(ch).Some?
    ensures LockInterim(ch).value.0 in LockInterim(ch).value.1.rounds && Redrawn(ch, LockInterim(ch).value.1)
  {
    hide Verified;
  }

  lemma DrainRedraws(ch: Channel, r: Rail, cid: ChannelId)
    ensures Redrawn(ch, Drain(ch, r, cid))
  {
    hide DrawnOnRail, AddRoles;
  }

  // ---- closes ---------------------------------------------------------------------------------------------

  /** A refund is recorded among the decisions and touches nothing else of the carriage. */
  lemma RefundLeaves(s: System, cid: ChannelId, ckpt: CkptRef, reserveOk: bool, refOk: bool)
    requires ValidRail(s.r) && cid in s.c.channels
    ensures var c' := IssueRefund(s, cid, ckpt, reserveOk, refOk).c; c' == s.c.(decisions := c'.decisions)
  {
    hide ValidRail, ReleaseKeyed, RefundOwed, Decide;
  }

  /** Reconciling touches the closing channel's rounds and settled sums, dispositions and decisions. */
  lemma ReconcileLeaves(s: System, cid: ChannelId, ckpt: CkptRef, io: CloseIo)
    requires ValidRail(s.r) && cid in s.c.channels
    ensures var c' := Reconcile(s, cid, ckpt, io).0.c;
            && c' == s.c.(channels := c'.channels, disps := c'.disps, decisions := c'.decisions)
            && cid in c'.channels && c'.channels == s.c.channels[cid := c'.channels[cid]] && Redrawn(s.c.channels[cid], c'.channels[cid])
  {
    hide ValidRail, IssueRefund, Drain, PendingDraw, Decide, Redrawn;
    RefundLeaves(s, cid, ckpt, io.reserveOk, io.refOk);
    DrainRedraws(s.c.channels[cid], IssueRefund(s, cid, ckpt, io.reserveOk, io.refOk).r, cid);
  }

  /** The draw of a pinned carve clears the disposition's draw and touches nothing else of the carriage. */
  lemma CloseDrawLeaves(s: System, cid: ChannelId)
    requires ValidRail(s.r)
    ensures var c' := AttemptCloseDraw(s, cid).c; c' == s.c.(disps := c'.disps)
  {
    hide ValidRail, AdvanceMeed;
  }

  // ---- runs -----------------------------------------------------------------------------------------------

  lemma RailStep(s: System, op: Op)
    requires ValidRail(s.r) && OpOk(op)
    ensures Handle(s, RailMsg(op)).0 == s.(r := Apply(s.r, op).0)
  {
    hide ValidRail, Apply, OpOk;
  }

  /** The prefix of `n` messages, and what the next one makes of it. */
  lemma ServeNext(s: System, run: seq<Message>, n: nat)
    requires ValidRail(s.r) && Sendable(run) && n < |run|
    ensures n == 0 ==> Serve(s, run[..n]) == s
    ensures Serve(s, run[..n + 1]) == Handle(Serve(s, run[..n]), run[n]).0
    ensures n + 1 == |run| ==> run[..n + 1] == run
  {
    hide Handle, ValidRail;
    assert run[..n + 1][..n] == run[..n];
  }
}
