/** Why the escrow argument needs every disposition record to reach the store: a run in which one does not. */
module EscrowLimits {
  import opened Options
  import opened Instance
  import opened Ledger
  import opened RailTypes
  import opened VirtualRail
  import opened Books
  import BookMoves
  import opened Carriage
  import opened CarriageSteps

  const P := Cid(0)
  const S := "merchant"
  const R := "payer"
  const MINE := Chosen([])
  const OTHER := Chosen([1])

  function Deposit(word: Word): Transfer { Transfer(S, "", 10, Some(word)) }

  function PrepayOpen(): OpenReq { OpenReq(1, Terms([], Some(R), "", MINE), true, 100, 0, SCHEMA_ROLES, None, true, true) }

  function CloseAt(ckpt: CkptRef, dispOk: bool): Message { CloseMsg(P, CloseReq(ckpt, false, true), CloseIo(true, true, dispOk)) }

  /** Two deposits of ten arrive, one of them for this channel. Its first plain close cannot record its
      disposition and is rejected; the retry names another checkpoint reference. */
  function RetriedClose(): seq<Message> {
    [OpenMsg(P, PrepayOpen(), true, true), RailMsg(SubmitOp(Deposit(MINE))), RailMsg(SubmitOp(Deposit(OTHER))),
     FundingMsg(P, Funding(0, 10, MINE, true), true), CloseAt(1, false), CloseAt(2, true)]
  }

  function Deposited(): Channel { BookMoves.Fund(FreshChannel(PrepayOpen()), 10) }

  lemma DepositStep(r: Rail, word: Word)
    requires ValidRail(r) && S !in r.splits && Bal(r.ledger, S) <= 10 && !r.outage
    ensures var r' := Apply(r, SubmitOp(Deposit(word))).0;
            && r' == r.(ledger := r.ledger[S := Bal(r.ledger, S) + 10], refs := r'.refs)
            && |r'.refs| == |r.refs| + 1 && r'.refs[..|r.refs|] == r.refs && r'.refs[|r.refs|].0 == r.clock
            && r'.refs[|r.refs|].1.to == S && r'.refs[|r.refs|].1.asset == "" && r'.refs[|r.refs|].1.amount == 10
            && r'.refs[|r.refs|].1.memo == Some(word) && r'.refs[|r.refs|].1.canonical == |r.refs|
  {
    hide ValidRail;
  }

  lemma OpenStep(s: System)
    requires ValidRail(s.r) && s.c == Born(Config(S, (c, a, n, f) => 0), 0).c
    ensures var s' := Handle(s, RetriedClose()[0]).0;
            && s'.r == s.r && s'.c.cfg == s.c.cfg && s'.c.channels == map[P := FreshChannel(PrepayOpen())] && s'.c.disps == map[]
            && s'.c.decisions == map[OpenKey(P) := Bare] && s'.c.consumed == {}
  {
    hide ValidRail, FreshChannel;
  }

  lemma FundingStep(s: System)
    requires ValidRail(s.r) && s.c.cfg.settlePtr == S && s.c.channels == map[P := FreshChannel(PrepayOpen())] && s.c.disps == map[]
    requires s.c.decisions == map[OpenKey(P) := Bare] && s.c.consumed == {}
    requires |s.r.refs| >= 1 && s.r.delay == 0 && s.r.clock >= s.r.refs[0].0
    requires var i := s.r.refs[0].1; i.to == S && i.asset == "" && i.amount == 10 && i.memo == Some(MINE) && i.canonical == 0
    ensures var s' := Handle(s, RetriedClose()[3]).0;
            && s'.r == s.r && s'.c.cfg == s.c.cfg && s'.c.channels == map[P := Deposited()] && s'.c.disps == map[]
            && forall d <- s'.c.decisions :: d.OpenKey? || d.FundKey?
  {
    hide ValidRail;
  }

  /** What a plain close of the undisposed, uncheckpointed channel does to the accounts. */
  lemma RefundStep(s: System, ckpt: CkptRef, dispOk: bool)
    requires ValidRail(s.r) && !s.r.outage && s.c.cfg.settlePtr == S && s.c.channels == map[P := Deposited()] && s.c.disps == map[]
    requires DispKey(P) !in s.c.decisions && (P, ckpt) !in s.r.releaseKeys
    requires 10 <= Bal(s.r.ledger, S) <= 20 && Bal(s.r.ledger, R) <= 10
    ensures var s' := Handle(s, CloseAt(ckpt, dispOk)).0;
            && Bal(s'.r.ledger, S) == Bal(s.r.ledger, S) - 10 && Bal(s'.r.ledger, R) == Bal(s.r.ledger, R) + 10
            && (!dispOk ==>
                  && s'.c.cfg == s.c.cfg && s'.c.channels == s.c.channels && s'.c.disps == map[] && DispKey(P) !in s'.c.decisions
                  && s'.r.outage == s.r.outage && forall k <- s'.r.releaseKeys :: k in s.r.releaseKeys || k == (P, ckpt))
  {
    hide ValidRail;
    DepositedFacts();
    ReconcileStep(s, ckpt, dispOk);
  }

  lemma DepositedFacts()
    ensures Deposited().operative.None? && Deposited().imported.None? && Deposited().rounds == map[] && Deposited().meter.prepay
    ensures Deposited().terms.refundPtr == Some(R) && Deposited().terms.asset == "" && RefundOwed(Deposited()) == 10
    ensures PendingDraw(Deposited()).None?
    ensures forall r: Rail, cid: ChannelId :: Drain(Deposited(), r, cid) == Deposited()
  {
  }

  lemma ReconcileStep(s: System, ckpt: CkptRef, dispOk: bool)
    requires ValidRail(s.r) && !s.r.outage && s.c.cfg.settlePtr == S && s.c.channels == map[P := Deposited()] && s.c.disps == map[]
    requires DispKey(P) !in s.c.decisions && (P, ckpt) !in s.r.releaseKeys
    requires 10 <= Bal(s.r.ledger, S) <= 20 && Bal(s.r.ledger, R) <= 10
    ensures var (s', a) := Reconcile(s, P, ckpt, CloseIo(true, true, dispOk));
            && Bal(s'.r.ledger, S) == Bal(s.r.ledger, S) - 10 && Bal(s'.r.ledger, R) == Bal(s.r.ledger, R) + 10
            && s'.c.cfg == s.c.cfg && s'.c.channels == s.c.channels && s'.r.outage == s.r.outage
            && (forall k <- s'.r.releaseKeys :: k in s.r.releaseKeys || k == (P, ckpt))
            && (if dispOk then a.Ok? && s'.c.disps == map[P := Reconciled(None)]
                else a.Rejected? && s'.c.disps == map[] && DispKey(P) !in s'.c.decisions)
  {
    hide ValidRail, Deposited, RefundOwed, Drain, PendingDraw;
    DepositedFacts();
    assert S != R;
  }

  /** The channel is open, both deposits have arrived, and its own is credited. */
  predicate Ready(s: System) {
    && ValidRail(s.r) && !s.r.outage && s.c.cfg.settlePtr == S && s.c.channels == map[P := Deposited()] && s.c.disps == map[]
    && DispKey(P) !in s.c.decisions && s.r.releaseKeys == map[] && Bal(s.r.ledger, S) == 20 && Bal(s.r.ledger, R) == 0
  }

  lemma DepositsArrive(s0: System)
    requires s0 == Born(Config(S, (c, a, n, f) => 0), 0)
    ensures var run := RetriedClose();
            Sendable(run) && Ready(Handle(Handle(Handle(Handle(s0, run[0]).0, run[1]).0, run[2]).0, run[3]).0)
  {
    hide Handle, Deposited, FreshChannel, PrepayOpen, ValidRail;
    var run := RetriedClose();
    OpenStep(s0);
    var s1 := Handle(s0, run[0]).0;
    RailStep(s1, SubmitOp(Deposit(MINE)));
    DepositStep(s1.r, MINE);
    var s2 := Handle(s1, run[1]).0;
    RailStep(s2, SubmitOp(Deposit(OTHER)));
    DepositStep(s2.r, OTHER);
    var s3 := Handle(s2, run[2]).0;
    assert s3.r.refs[0] == s2.r.refs[0];
    FundingStep(s3);
  }

  lemma ClosedTwice(s: System)
    requires Ready(s)
    ensures var s' := Handle(Handle(s, CloseAt(1, false)).0, CloseAt(2, true)).0;
            Bal(s'.r.ledger, S) == 0 && Bal(s'.r.ledger, R) == 20
  {
    hide Handle, Deposited, ValidRail;
    RefundStep(s, 1, false);
    RefundStep(Handle(s, CloseAt(1, false)).0, 2, true);
  }

  /** The channel deposited ten and is refunded twenty: the second deposit is gone from the shared pointer. */
  lemma RefundedTwice()
    ensures Sendable(RetriedClose())
    ensures var s := Serve(Born(Config(S, (c, a, n, f) => 0), 0), RetriedClose());
            Bal(s.r.ledger, S) == 0 && Bal(s.r.ledger, R) == 20
  {
    hide Handle, Serve, ValidRail, Ready, Deposited, PrepayOpen;
    var run := RetriedClose();
    var s0 := Born(Config(S, (c, a, n, f) => 0), 0);
    ServeNext(s0, run, 0); ServeNext(s0, run, 1); ServeNext(s0, run, 2); ServeNext(s0, run, 3); ServeNext(s0, run, 4); ServeNext(s0, run, 5);
    DepositsArrive(s0);
    ClosedTwice(Serve(s0, run[..4]));
  }
}
