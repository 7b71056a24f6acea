/** How often a channel is refunded: exactly when a close refunds, that it does so once, and what a second
    refund would need. */
module Refunds {
  import opened Instance
  import opened Ledger
  import opened RailTypes
  import opened VirtualRail
  import opened RailHistory
  import opened Carriage
  import opened CarriageHistory
  import opened Dispositions

  // ---- exactly when a close refunds ---------------------------------------------------------------------

  /** Nothing terminal is known of the channel and the close names its position. */
  predicate Issues(s: System, cid: ChannelId, q: CloseReq) {
    && cid in s.c.channels && q.signed && !q.chainIntent
    && (PriorDisp(s.c, cid).None? || PriorDisp(s.c, cid).value.Intent?)
    && (s.c.channels[cid].operative.Some? ==> q.ckpt == s.c.channels[cid].operative.value.ref)
  }

  /** The close gets as far as a refund that is owed, not yet executed under the named reference, and
      payable. */
  predicate RefundDue(s: System, cid: ChannelId, q: CloseReq) {
    && Issues(s, cid, q)
    && var ch := s.c.channels[cid];
       && ch.terms.refundPtr.Some? && 0 < RefundOwed(ch) <= Bal(s.r.ledger, s.c.cfg.settlePtr)
       && (cid, q.ckpt) !in s.r.releaseKeys && !s.r.outage
  }

  lemma ReleaseIff(r: Rail, c: ChannelId, ckpt: CkptRef, src: Address, to: Address, asset: Asset, amount: nat)
    requires ValidRail(r)
    ensures var r' := ReleaseKeyed(r, c, ckpt, src, to, asset, amount).0;
            && (forall k <- r'.releaseKeys :: k in r.releaseKeys || k == (c, ckpt))
            && ((c, ckpt) !in r.releaseKeys ==>
                  ((c, ckpt) in r'.releaseKeys <==> !r.outage && 0 < amount <= Bal(r.ledger, src)))
  {
    hide ValidRail;
  }

  lemma ReconcileKeys(s: System, cid: ChannelId, ckpt: CkptRef, io: CloseIo)
    requires ValidRail(s.r) && cid in s.c.channels
    ensures Reconcile(s, cid, ckpt, io).0.r == IssueRefund(s, cid, ckpt, io.reserveOk, io.refOk).r
  {
    hide ValidRail, IssueRefund, Drain, PendingDraw, Decide;
  }

  lemma IssuedIff(s: System, cid: ChannelId, ckpt: CkptRef, reserveOk: bool, refOk: bool)
    requires ValidRail(s.r) && cid in s.c.channels
    ensures var ch := s.c.channels[cid];
            var r' := IssueRefund(s, cid, ckpt, reserveOk, refOk).r;
            && (forall k <- r'.releaseKeys :: k in s.r.releaseKeys || k == (cid, ckpt))
            && ((cid, ckpt) !in s.r.releaseKeys ==>
                  ((cid, ckpt) in r'.releaseKeys <==>
                     ch.terms.refundPtr.Some? && !s.r.outage && 0 < RefundOwed(ch) <= Bal(s.r.ledger, s.c.cfg.settlePtr)))
  {
    hide ValidRail, ReleaseKeyed, RefundOwed, Decide;
    var ch := s.c.channels[cid];
    if ch.terms.refundPtr.Some? {
      ReleaseIff(s.r, cid, ckpt, s.c.cfg.settlePtr, ch.terms.refundPtr.value, ch.terms.asset, RefundOwed(ch));
    }
  }

  lemma CloseKeys(s: System, cid: ChannelId, q: CloseReq, io: CloseIo)
    requires ValidRail(s.r)
    ensures Close(s, cid, q, io).0.r.releaseKeys
            == if Issues(s, cid, q) then IssueRefund(s, cid, q.ckpt, io.reserveOk, io.refOk).r.releaseKeys else s.r.releaseKeys
  {
    hide ValidRail, Reconcile, AttemptCloseDraw, InFlightRef, Terminated, IssueRefund;
    if cid in s.c.channels {
      ReconcileKeys(s, cid, q.ckpt, io);
      DrawKeepsKeys(s, cid);
      DrawKeepsKeys(Reconcile(s, cid, q.ckpt, io).0, cid);
    }
  }

  /** A close makes the rail execute a refund for its channel if and only if the refund is due; whether any
      record reaches the store plays no part. */
  lemma RefundsIff(s: System, cid: ChannelId, q: CloseReq, io: CloseIo)
    requires ValidRail(s.r)
    ensures Refunds(s, CloseMsg(cid, q, io), cid) <==> RefundDue(s, cid, q)
    ensures Refunds(s, CloseMsg(cid, q, io), cid) ==> (cid, q.ckpt) in Handle(s, CloseMsg(cid, q, io)).0.r.releaseKeys
  {
    hide ValidRail, Close, IssueRefund, RefundOwed, PriorDisp;
    CloseKeys(s, cid, q, io);
    if cid in s.c.channels { IssuedIff(s, cid, q.ckpt, io.reserveOk, io.refOk); }
    if RefundDue(s, cid, q) { assert (cid, q.ckpt) in Handle(s, CloseMsg(cid, q, io)).0.r.releaseKeys; }
  }

  // ---- at most once ---------------------------------------------------------------------------------------

  /** With disposition records written, a channel is refunded at most once, whatever references its closes
      name and whatever runs in between. */
  lemma RefundedOnce(s: System, first: Message, mid: seq<Message>, second: Message, cid: ChannelId)
    requires Kept(s) && Written(first) && AllWritten(mid) && Written(second)
    ensures Sendable(mid)
    ensures Refunds(s, first, cid) ==> !Refunds(Serve(Handle(s, first).0, mid), second, cid)
  {
    hide DispInv, Serve, Follows, ValidRail, Close, Open, Reconciles;
    var rank, n :| DispInv(s.c, rank, n);
    var r1, n1 := HandleDisp(s, first, rank, n);
    var s1 := Handle(s, first).0;
    var r2, n2 := ServeDisp(s1, mid, r1, n1);
    var s2 := Serve(s1, mid);
    if Refunds(s, first, cid) {
      RefundsByReconciling(s, first, cid, rank, n);
      CloseDisp(s, cid, first.close, first.io, rank, n);
      StaysReconciled(s1.c, s2.c, cid);
      if Refunds(s2, second, cid) {
        RefundsByReconciling(s2, second, cid, r2, n2);
        ReconcilesNothingTerminal(s2, cid, second.close);
      }
    }
  }

  lemma ReconcilesNothingTerminal(s: System, cid: ChannelId, q: CloseReq)
    requires Reconciles(s, cid, q)
    ensures !(cid in s.c.disps && s.c.disps[cid].Reconciled?)
  {
  }

  // ---- without assuming any record is written -----------------------------------------------------------------

  predicate TerminallyRecorded(c: Carriage, cid: ChannelId) { Recorded(c, cid) && Dispositions.Terminal(c.decisions[DispKey(cid)].d) }

  /** The store holds a terminal disposition, and memory holds nothing else. */
  predicate Barred(c: Carriage, cid: ChannelId) {
    TerminallyRecorded(c, cid) && (cid in c.disps ==> Dispositions.Terminal(c.disps[cid]))
  }

  lemma RecordStays(c: Carriage, c': Carriage, cid: ChannelId)
    requires Remembers(c, c') && TerminallyRecorded(c, cid)
    ensures TerminallyRecorded(c', cid)
  {
  }

  /** Memory gained no revocable intent for `k`. */
  predicate NoIntent(c: Carriage, c': Carriage, k: ChannelId) {
    k in c'.disps && c'.disps[k].Intent? ==> k in c.disps && c.disps[k].Intent?
  }

  lemma ReconcileNoIntent(s: System, cid: ChannelId, ckpt: CkptRef, io: CloseIo, k: ChannelId)
    requires ValidRail(s.r) && cid in s.c.channels
    ensures NoIntent(s.c, Reconcile(s, cid, ckpt, io).0.c, k)
  {
    hide ValidRail, IssueRefund, Drain, PendingDraw, Decide;
    RefundIsQuiet(s, cid, ckpt, io.reserveOk, io.refOk);
  }

  lemma DrawNoIntent(s: System, cid: ChannelId, k: ChannelId)
    requires ValidRail(s.r)
    ensures NoIntent(s.c, AttemptCloseDraw(s, cid).c, k)
  {
    hide ValidRail, AdvanceMeed;
  }

  lemma BarredPrior(c: Carriage, k: ChannelId)
    requires Barred(c, k)
    ensures PriorDisp(c, k).Some? && !PriorDisp(c, k).value.Intent?
  {
  }

  lemma BarredClose(s: System, cid: ChannelId, q: CloseReq, io: CloseIo, k: ChannelId)
    requires ValidRail(s.r) && Barred(s.c, k)
    ensures k in Close(s, cid, q, io).0.c.disps ==> Dispositions.Terminal(Close(s, cid, q, io).0.c.disps[k])
  {
    hide ValidRail, Reconcile, AttemptCloseDraw, InFlightRef, PriorDisp;
    BarredPrior(s.c, k);
    if cid in s.c.channels {
      ReconcileNoIntent(s, cid, q.ckpt, io, k);
      DrawNoIntent(s, cid, k);
      DrawNoIntent(Reconcile(s, cid, q.ckpt, io).0, cid, k);
    }
  }

  lemma BarredOpen(c: Carriage, cid: ChannelId, o: OpenReq, openOk: bool, dispOk: bool, k: ChannelId)
    requires Barred(c, k)
    ensures k in Open(c, cid, o, openOk, dispOk).0.disps ==> Dispositions.Terminal(Open(c, cid, o, openOk, dispOk).0.disps[k])
  {
    hide Establish;
    BarredEstablish(c, cid, o, openOk, dispOk, k);
    if o.predecessor.Some? && o.predecessor.value.0 in c.disps && c.disps[o.predecessor.value.0].Intent? {
      RefreshFrame(c, o.predecessor.value);
      BarredEstablish(RefreshSnapshot(c, o.predecessor.value), cid, o, openOk, dispOk, k);
    }
  }

  lemma BarredEstablish(c: Carriage, cid: ChannelId, o: OpenReq, openOk: bool, dispOk: bool, k: ChannelId)
    requires Barred(c, k)
    ensures k in Establish(c, cid, o, openOk, dispOk).0.disps ==> Dispositions.Terminal(Establish(c, cid, o, openOk, dispOk).0.disps[k])
  {
    hide FreshChannel, ChainedChannel, Conforms, Decide;
  }

  lemma BarredStays(s: System, e: Message, k: ChannelId)
    requires ValidRail(s.r) && MessageOk(e) && Barred(s.c, k)
    ensures Barred(Handle(s, e).0.c, k)
  {
    hide ValidRail, Grows, Open, Batch, Checkpoint, Propose, ProveRound, FundChannel, InterimDraw, Close, Apply, NamedBy, Restart, Quiet, TerminallyRecorded;
    HandleHistory(s, e);
    RecordStays(s.c, Handle(s, e).0.c, k);
    match e
    case OpenMsg(cid, o, openOk, dispOk) => BarredOpen(s.c, cid, o, openOk, dispOk, k);
    case CloseMsg(cid, q, io) => BarredClose(s, cid, q, io, k);
    case RestartMsg => RestartBars(s.c, k);
    case ReplicaMsg(_, _) =>
    case RailMsg(_) =>
    case _ =>
      HandleIsQuiet(s, e);
      QuietDisps(s.c, Handle(s, e).0.c);
  }

  lemma QuietDisps(c: Carriage, c': Carriage)
    requires Quiet(c, c')
    ensures c'.disps == c.disps
  {
  }

  lemma RestartBars(c: Carriage, k: ChannelId)
    requires TerminallyRecorded(c, k)
    ensures k in Restart(c).disps ==> Dispositions.Terminal(Restart(c).disps[k])
  {
    hide Restart;
    RestartShape(c);
  }

  lemma {:induction false} BarredRun(s: System, msgs: seq<Message>, k: ChannelId)
    requires ValidRail(s.r) && Sendable(msgs) && Barred(s.c, k)
    ensures Barred(Serve(s, msgs).c, k)
  {
    hide ValidRail, Handle, Barred;
    if |msgs| > 0 {
      BarredRun(s, msgs[..|msgs| - 1], k);
      BarredStays(Serve(s, msgs[..|msgs| - 1]), msgs[|msgs| - 1], k);
    }
  }

  /** A barred channel's close is not due a refund. */
  lemma BarredIsNotDue(s: System, cid: ChannelId, q: CloseReq)
    requires Barred(s.c, cid)
    ensures !RefundDue(s, cid, q)
  {
  }

  lemma ReconcileRecords(s: System, cid: ChannelId, ckpt: CkptRef, io: CloseIo)
    requires ValidRail(s.r) && cid in s.c.channels
    ensures var (s', a) := Reconcile(s, cid, ckpt, io);
            && (a.Ok? ==> cid in s'.c.disps && s'.c.disps[cid].Reconciled?)
            && (!a.Ok? ==> a.Rejected? && DispKey(cid) !in s'.c.decisions)
            && (DispKey(cid) !in s.c.decisions ==> (a.Ok? <==> io.dispOk) && (a.Ok? ==> TerminallyRecorded(s'.c, cid)))
  {
    hide ValidRail, IssueRefund, Drain, PendingDraw;
    RefundIsQuiet(s, cid, ckpt, io.reserveOk, io.refOk);
  }

  lemma CloseEnds(s: System, cid: ChannelId)
    requires ValidRail(s.r) && cid in s.c.channels && cid in s.c.disps && s.c.disps[cid].Reconciled?
    ensures var c' := AttemptCloseDraw(s, cid).c;
            c'.decisions == s.c.decisions && c'.channels == s.c.channels && cid in c'.disps && c'.disps[cid].Reconciled?
  {
    hide ValidRail, AdvanceMeed;
  }

  /** What a refunding close leaves recorded: the store has a terminal disposition only if the close went
      through, and then memory has it too; from a clean store, exactly when the record was written. */
  lemma RefundRecords(s: System, cid: ChannelId, q: CloseReq, io: CloseIo)
    requires ValidRail(s.r) && RefundDue(s, cid, q)
    ensures var c' := Handle(s, CloseMsg(cid, q, io)).0.c;
            && (TerminallyRecorded(c', cid) ==> Barred(c', cid))
            && (DispKey(cid) !in s.c.decisions ==> (TerminallyRecorded(c', cid) <==> io.dispOk))
  {
    hide ValidRail, Reconcile, AttemptCloseDraw, InFlightRef, RefundOwed, PriorDisp;
    ReconcileRecords(s, cid, q.ckpt, io);
    PriorShown(s.c, cid);
    var (s1, a) := Reconcile(s, cid, q.ckpt, io);
    if a.Ok? { CloseEnds(s1, cid); }
  }

  lemma PriorShown(c: Carriage, cid: ChannelId)
    requires PriorDisp(c, cid).None? || PriorDisp(c, cid).value.Intent?
    ensures cid in c.disps ==> c.disps[cid].Intent?
  {
  }

  /** A channel is refunded a second time only if the first refund's close left no terminal disposition in
      the store, and only under another checkpoint reference. From a store with none, that is a failed
      record. */
  lemma SecondRefundNeeds(s: System, first: Message, mid: seq<Message>, second: Message, cid: ChannelId)
    requires ValidRail(s.r) && MessageOk(first) && Sendable(mid) && MessageOk(second)
    requires Refunds(s, first, cid) && Refunds(Serve(Handle(s, first).0, mid), second, cid)
    ensures second.close.ckpt != first.close.ckpt
    ensures !TerminallyRecorded(Handle(s, first).0.c, cid)
    ensures DispKey(cid) !in s.c.decisions ==> !first.io.dispOk
  {
    hide ValidRail, Handle, Serve, RefundDue, Barred, TerminallyRecorded, Refunds;
    var s1 := Handle(s, first).0;
    var s2 := Serve(s1, mid);
    RefundMessage(s, first, cid);
    RefundMessage(s2, second, cid);
    RefundsIff(s, cid, first.close, first.io);
    RefundsIff(s2, cid, second.close, second.io);
    RefundRecords(s, cid, first.close, first.io);
    if TerminallyRecorded(s1.c, cid) {
      BarredRun(s1, mid, cid);
      BarredIsNotDue(s2, cid, second.close);
    }
    ServeHistory(s1, mid);
    DueIsNew(s2, cid, second.close);
  }

  lemma RefundMessage(s: System, e: Message, cid: ChannelId)
    requires ValidRail(s.r) && MessageOk(e) && Refunds(s, e, cid)
    ensures e.CloseMsg? && e == CloseMsg(cid, e.close, e.io)
  {
  }

  lemma DueIsNew(s: System, cid: ChannelId, q: CloseReq)
    requires RefundDue(s, cid, q)
    ensures (cid, q.ckpt) !in s.r.releaseKeys
  {
  }
}
