/** A run in which a credit does not leave room for the net leg in flight, and the leg is proved all the same:
    the channel is paid twice what it metered. */
module NetOverrun {
  import opened Sums
  import opened Options
  import opened Instance
  import opened Ledger
  import opened RailTypes
  import opened VirtualRail
  import M = Metering
  import opened Books
  import opened BookMoves
  import opened Carriage
  import opened CarriageSteps
  import opened NetBounds
  import opened NetTogether
  import F7

  const P := Cid(0)
  const S := "merchant"
  const MINE := Chosen([])
  const TERMS := Terms([], None, "", MINE)

  function PostpayOpen(): OpenReq { OpenReq(1, TERMS, false, 100, 100, SCHEMA_ROLES, None, true, true) }

  function Begun(): (s: System)
    ensures ValidRail(s.r)
  {
    Born(Config(S, (c, a, n, f) => 0), 0)
  }

  function Payment(x: nat, memo: Word): Transfer { Transfer(S, "", x, Some(memo)) }

  /** What metering `x` accrues to the four roles. */
  function Accrued(x: nat): seq<nat> { [x * 50, x * 10, x * 30, x * 10] }

  /** The payer sends `x` as funding and `x` as the net leg of round 1. The channel meters `x`, checkpoints
      it and starts round 1, which asks for `x`; then the funding is credited, and then the leg proved. */
  function DoublyPaid(x: nat): seq<Message> {
    [OpenMsg(P, PostpayOpen(), true, true), RailMsg(SubmitOp(Payment(x, MINE))), RailMsg(SubmitOp(Payment(x, OfRound(P, 1)))),
     BatchMsg(P, [M.Slice(true, 1, x)]), CheckpointMsg(P, CkptReq(1, 1, x, Accrued(x), true)),
     ProposeMsg(P, Proposal(1, 0, true, x, None, true)), FundingMsg(P, Funding(0, x, MINE, true), true),
     ProofMsg(P, 1, Proof(0, [LegTx(2, 1)], true), true)]
  }

  // ---- the rail ------------------------------------------------------------------------------------------

  predicate Paid(r: Rail, ref: nat, x: nat, memo: Word) {
    && ref < |r.refs| && r.refs[ref].0 <= r.clock && r.delay == 0
    && var i := r.refs[ref].1; i.to == S && i.asset == "" && i.amount == x && i.memo == Some(memo) && i.canonical == ref
  }

  lemma PaymentStep(r: Rail, x: nat, memo: Word)
    requires ValidRail(r) && r.splits == map[] && Bal(r.ledger, S) + x <= U128_MAX && !r.outage && r.delay == 0
    ensures var r' := Apply(r, SubmitOp(Payment(x, memo))).0;
            && r'.splits == map[] && Bal(r'.ledger, S) == Bal(r.ledger, S) + x && !r'.outage && r'.delay == 0 && r'.clock == r.clock
            && |r'.refs| == |r.refs| + 1 && r'.refs[..|r.refs|] == r.refs && Paid(r', |r.refs|, x, memo)
  {
    hide ValidRail;
  }

  // ---- the channel ---------------------------------------------------------------------------------------

  /** The channel after metering `x`, with what funding and net legs have paid. */
  predicate Metered(ch: Channel, x: nat, funding: nat, net: nat) {
    && !ch.meter.prepay && ch.meter.cum == x && ch.meter.accruals == Accrued(x) && |ch.meter.bp| == 4
    && ch.terms == TERMS && ch.imported.None? && ch.ledger.settled == Zeros(4)
    && ch.ledger.funding == funding && ch.ledger.net == net
  }

  predicate Evidenced(ch: Channel, x: nat) { ch.operative == Some(Operative(1, x, Accrued(x))) }

  /** Round 1 is in flight and asks for `x`. */
  predicate Asking(ch: Channel, x: nat) {
    && ch.rounds.Keys == {1} && var d := ch.rounds[1];
    && d.output == x && d.meed.None? && d.target.None? && |d.eR| == 4 && d.version == ch.ledger.version && d.hashes == {0}
    && !d.confirmed && !d.meedFolded && !d.netFolded && d.meedTime.None?
  }

  lemma AccruedCarve(x: nat)
    requires 0 < x < 100
    ensures Sum(Accrued(x)) == 100 * x && MerchantNet(x, Accrued(x)) == x
  {
    var a: seq<nat>, b: seq<nat>, c: seq<nat>, d := [x * 50], [x * 50, x * 10], [x * 50, x * 10, x * 30], Accrued(x);
    assert a[..0] == [] && b[..1] == a && c[..2] == b && d[..3] == c;
    assert Sum(a) == 50 * x && Sum(b) == 60 * x && Sum(c) == 90 * x;
  }

  /** Below a hundred units no meed is payable yet: the round is its net output alone. */
  lemma RoundOf(ch: Channel, x: nat)
    requires 0 < x < 100 && Metered(ch, x, 0, 0) && Evidenced(ch, x)
    ensures Verified(ch).Some? && var (e, target) := Verified(ch).value; target.None? && e.meed.None? && e.output == x && |e.eR| == 4
  {
    hide F7.Division, F7.OutstandingMeedPerRole, Sum, MerchantNet;
    AccruedCarve(x);
    var a, s := Accrued(x), ch.ledger.settled;
    Outstanding(x);
    var nR := F7.OutstandingMeedPerRole(a, s).value;
    RemainingTotal(a, s);
    SmallDivides(nR, x);
    RoundArithmetic(a, s);
    NetOutput(x);
  }

  lemma Outstanding(x: nat)
    requires x < 100
    ensures F7.OutstandingMeedPerRole(Accrued(x), Zeros(4)).Ok?
    ensures forall i :: 0 <= i < 4 ==> F7.OutstandingMeedPerRole(Accrued(x), Zeros(4)).value[i] < 10_000
  {
    hide Sum;
  }

  lemma SmallDivides(nR: seq<nat>, x: nat)
    requires |nR| == 4 && x < 100 && Sum(nR) == 100 * x && forall i :: 0 <= i < |nR| ==> nR[i] < 10_000
    ensures F7.Division(nR, F7.UNITY).Ok?
  {
    hide Sum;
    assert F7.Payment(Sum(nR), F7.UNITY) == Sum(nR) * 1 / 10_000;
  }

  lemma NetOutput(x: nat)
    requires 0 < x < 100
    ensures F7.OutstandingMerchantNet(x, Accrued(x), 0, 0) == x
  {
    AccruedCarve(x);
  }

  // ---- step by step ----------------------------------------------------------------------------------------

  /** The carriage with one undisposed channel and nothing else consumed than `used`. */
  ghost predicate Only(c: Carriage, ch: Channel, used: set<nat>) {
    && c.cfg.settlePtr == S && c.channels == map[P := ch] && c.disps == map[] && c.consumed == used
    && forall r :: r !in used ==> FundKey(r) !in c.decisions
  }

  lemma Opens(s: System)
    requires ValidRail(s.r) && s.c == Begun().c
    ensures var s' := Handle(s, OpenMsg(P, PostpayOpen(), true, true)).0;
            s'.r == s.r && Only(s'.c, FreshChannel(PostpayOpen()), {})
  {
    hide ValidRail, FreshChannel;
  }

  lemma SliceTaken(x: nat)
    requires 0 < x < 100
    ensures var ch := FreshChannel(PostpayOpen());
            && |ch.meter.accruals| == |ch.meter.bp|
            && var ch' := MeterBatch(ch, [M.Slice(true, 1, x)]);
               && Metered(ch', x, 0, 0) && ch'.rounds == map[] && ch'.meter.window == map[1 := x] && ch'.meter.floor == 0
               && M.AcceptBatch(ch.meter, [M.Slice(true, 1, x)]).1.Accepted? && ch'.operative.None?
  {
    var m := FreshChannel(PostpayOpen()).meter;
    var slice := M.Slice(true, 1, x);
    assert [slice][1..] == [];
    assert M.AcceptSlice(m, slice).1.Accepted?;
    assert M.Accrued(m, x) == Accrued(x);
    assert M.Tentative(m, [slice]) == M.AcceptSlice(m, slice);
  }

  lemma Meters(s: System, x: nat)
    requires 0 < x < 100 && ValidRail(s.r) && Only(s.c, FreshChannel(PostpayOpen()), {})
    ensures var s' := Handle(s, BatchMsg(P, [M.Slice(true, 1, x)])).0;
            && s'.r == s.r && P in s'.c.channels && Only(s'.c, s'.c.channels[P], {})
            && var ch := s'.c.channels[P]; Metered(ch, x, 0, 0) && ch.rounds == map[] && ch.meter.window == map[1 := x] && ch.operative.None?
  {
    hide ValidRail, FreshChannel, M.AcceptBatch, Metered;
    SliceTaken(x);
  }

  lemma Checkpoints(s: System, x: nat)
    requires 0 < x < 100 && ValidRail(s.r) && P in s.c.channels && Only(s.c, s.c.channels[P], {})
    requires var ch := s.c.channels[P]; Metered(ch, x, 0, 0) && ch.rounds == map[] && ch.meter.window == map[1 := x]
    ensures var s' := Handle(s, CheckpointMsg(P, CkptReq(1, 1, x, Accrued(x), true))).0;
            && s'.r == s.r && P in s'.c.channels && Only(s'.c, s'.c.channels[P], {})
            && var ch := s'.c.channels[P]; Metered(ch, x, 0, 0) && ch.rounds == map[] && Evidenced(ch, x)
  {
    hide ValidRail, MapSum, Sum;
    var m := s.c.channels[P].meter;
    MapSumEmpty<nat>();
    assert M.Newer(m, 1) == map[];
    assert M.AccrualsAt(m, 1) == Accrued(x);
    assert M.Recomputes(m, 1, x, Accrued(x));
  }

  lemma StartsRound(ch: Channel, x: nat)
    requires 0 < x < 100 && Metered(ch, x, 0, 0) && ch.rounds == map[] && Evidenced(ch, x)
    ensures var started := ProposeNew(ch, Proposal(1, 0, true, x, None, true));
            started.Some? && Metered(started.value, x, 0, 0) && Asking(started.value, x)
  {
    hide Verified, Sum, Accrued, Zeros;
    RoundOf(ch, x);
  }

  lemma Proposes(s: System, x: nat)
    requires 0 < x < 100 && ValidRail(s.r) && P in s.c.channels && Only(s.c, s.c.channels[P], {})
    requires var ch := s.c.channels[P]; Metered(ch, x, 0, 0) && ch.rounds == map[] && Evidenced(ch, x)
    ensures var s' := Handle(s, ProposeMsg(P, Proposal(1, 0, true, x, None, true))).0;
            && s'.r == s.r && P in s'.c.channels && Only(s'.c, s'.c.channels[P], {})
            && var ch := s'.c.channels[P]; Metered(ch, x, 0, 0) && Asking(ch, x)
  {
    hide ValidRail, ProposeNew, Asking, Sum, Accrued, Zeros;
    StartsRound(s.c.channels[P], x);
  }

  lemma Credits(s: System, x: nat)
    requires 0 < x < 100 && ValidRail(s.r) && P in s.c.channels && Only(s.c, s.c.channels[P], {}) && Paid(s.r, 0, x, MINE)
    requires var ch := s.c.channels[P]; Metered(ch, x, 0, 0) && Asking(ch, x)
    ensures var s' := Handle(s, FundingMsg(P, Funding(0, x, MINE, true), true)).0;
            && s'.r == s.r && P in s'.c.channels && Only(s'.c, s'.c.channels[P], {0})
            && var ch := s'.c.channels[P]; Metered(ch, x, x, 0) && Asking(ch, x)
  {
    hide ValidRail, Sum, MerchantNet, Accrued, Zeros;
    NetOutput(x);
    assert Credited(s.c.channels[P], x) == x;
  }

  lemma LegRead(c: Carriage, r: Rail, ch: Channel, x: nat)
    requires 0 < x && c.cfg.settlePtr == S && Paid(r, 1, x, OfRound(P, 1)) && ch.terms == TERMS && Asking(ch, x)
    ensures ReadLegs(c, r, P, ch, 1, [LegTx(2, 1)]) == Some(Legs(None, FinalTime(r, 1), Some(1), {1}))
  {
    var txs := [LegTx(2, 1)];
    assert txs[..0] == [];
    assert ReadLegs(c, r, P, ch, 1, txs[..0]) == Some(Legs(None, None, None, {}));
    assert txs[0] == LegTx(2, 1) && NetLegOk(c, r, P, ch.terms, 1, x, 1);
    assert {} + {1} == {1};
    assert RefTarget(r, 1).value.canonical == 1 && ch.rounds[1].output == x;
  }

  lemma Proves(s: System, x: nat)
    requires 0 < x < 100 && ValidRail(s.r) && P in s.c.channels && Only(s.c, s.c.channels[P], {0}) && Paid(s.r, 1, x, OfRound(P, 1))
    requires var ch := s.c.channels[P]; Metered(ch, x, x, 0) && Asking(ch, x)
    ensures var s' := Handle(s, ProofMsg(P, 1, Proof(0, [LegTx(2, 1)], true), true)).0;
            P in s'.c.channels && Metered(s'.c.channels[P], x, x, x)
  {
    hide ValidRail, Sum, ReadLegs;
    LegRead(s.c, s.r, s.c.channels[P], x);
  }

  /** Both payments reach the rail and the channel opens. */
  lemma PaymentsArrive(x: nat)
    requires 0 < x < 100
    ensures var run := DoublyPaid(x);
            var s := Handle(Handle(Handle(Begun(), run[0]).0, run[1]).0, run[2]).0;
            Only(s.c, FreshChannel(PostpayOpen()), {}) && Paid(s.r, 0, x, MINE) && Paid(s.r, 1, x, OfRound(P, 1))
  {
    hide Handle, ValidRail, Only, PostpayOpen, FreshChannel, Accrued, Payment;
    Opens(Begun());
    var s1 := Handle(Begun(), OpenMsg(P, PostpayOpen(), true, true)).0;
    RailStep(s1, SubmitOp(Payment(x, MINE)));
    PaymentStep(s1.r, x, MINE);
    var s2 := Handle(s1, RailMsg(SubmitOp(Payment(x, MINE)))).0;
    RailStep(s2, SubmitOp(Payment(x, OfRound(P, 1))));
    PaymentStep(s2.r, x, OfRound(P, 1));
    var s3 := Handle(s2, RailMsg(SubmitOp(Payment(x, OfRound(P, 1))))).0;
    assert s3.r.refs[0] == s2.r.refs[0];
  }

  /** The run up to the credit, which takes the room of the leg in flight. */
  lemma RoomTaken(x: nat)
    requires 0 < x < 100
    ensures Recordable(DoublyPaid(x)[..7])
    ensures var s := Serve(Begun(), DoublyPaid(x)[..7]);
            && P in s.c.channels && Only(s.c, s.c.channels[P], {0}) && Paid(s.r, 1, x, OfRound(P, 1))
            && Metered(s.c.channels[P], x, x, 0) && Asking(s.c.channels[P], x)
  {
    hide Handle, Serve, ValidRail, Only, Metered, Asking, Evidenced, Paid, PostpayOpen, FreshChannel, MerchantNet, Accrued;
    var run := DoublyPaid(x);
    ServeNext(Begun(), run, 0); ServeNext(Begun(), run, 1); ServeNext(Begun(), run, 2); ServeNext(Begun(), run, 3);
    ServeNext(Begun(), run, 4); ServeNext(Begun(), run, 5); ServeNext(Begun(), run, 6);
    PaymentsArrive(x);
    var s3 := Handle(Handle(Handle(Begun(), run[0]).0, run[1]).0, run[2]).0;
    Meters(s3, x);
    var s4 := Handle(s3, run[3]).0;
    Checkpoints(s4, x);
    var s5 := Handle(s4, run[4]).0;
    Proposes(s5, x);
    Credits(Handle(s5, run[5]).0, x);
  }

  /** Taking the room does no harm until the leg is proved: the sum never passed the merchant-net. */
  lemma RoomTakenUnproved(x: nat)
    requires 0 < x < 100
    ensures Recordable(DoublyPaid(x)[..7])
    ensures !RunFits(Begun(), DoublyPaid(x)[..7]) && LegsCovered(Begun(), DoublyPaid(x)[..7])
    ensures var c := Serve(Begun(), DoublyPaid(x)[..7]).c;
            P in c.channels && LiveNet(c.channels[P]) == x && c.channels[P].ledger.funding == x && c.channels[P].ledger.net == 0
  {
    hide Serve, LegsCovered, RunFits, Only, Metered, Asking, Paid;
    var run := DoublyPaid(x)[..7];
    RoomTaken(x);
    var ch := Serve(Begun(), run).c.channels[P];
    StillAsks(ch, x);
    NoProofNoOverrun(Begun(), run);
    if RunFits(Begun(), run) { TogetherIff(Config(S, (c, a, n, f) => 0), 0, run); }
  }

  lemma StillAsks(ch: Channel, x: nat)
    requires 0 < x < 100 && Metered(ch, x, x, 0) && Asking(ch, x)
    ensures LiveNet(ch) == x && ch.ledger.funding == x && ch.ledger.net == 0 && !Fitting(ch, WithLegs)
  {
    hide MerchantNet;
    AccruedCarve(x);
    assert LegPending(ch.rounds[1]) && Left(ch) == 0;
  }

  /** Once the leg is proved, funding and net legs reach twice the merchant-net. */
  lemma PaidTwice(x: nat)
    requires 0 < x < 100
    ensures Recordable(DoublyPaid(x)) && !LegsCovered(Begun(), DoublyPaid(x))
    ensures var c := Serve(Begun(), DoublyPaid(x)).c;
            && P in c.channels && !c.channels[P].meter.prepay && LiveNet(c.channels[P]) == x
            && c.channels[P].ledger.funding == x && c.channels[P].ledger.net == x
  {
    hide Handle, Serve, ValidRail, Only, Metered, Asking, Evidenced, Paid, PostpayOpen, FreshChannel, MerchantNet, LegsCovered, Accrued;
    var run := DoublyPaid(x);
    RoomTaken(x);
    ServeNext(Begun(), run, 7);
    Proves(Serve(Begun(), run[..7]), x);
    PaidPosition(Serve(Begun(), run).c.channels[P], x);
    if LegsCovered(Begun(), run) { BothWithinMetered(Config(S, (c, a, n, f) => 0), 0, run, P); }
  }

  lemma PaidPosition(ch: Channel, x: nat)
    requires 0 < x < 100 && Metered(ch, x, x, x)
    ensures !ch.meter.prepay && LiveNet(ch) == x && ch.ledger.funding == x && ch.ledger.net == x
  {
    hide MerchantNet;
    AccruedCarve(x);
  }
}
