/** Committed links lead to a live channel; and exactly when a committed predecessor can be imported again. */
module Chains {
  import opened Sums
  import opened Options
  import opened Instance
  import opened RailTypes
  import opened VirtualRail
  import opened Books
  import opened Carriage
  import opened CarriageSteps
  import opened Dispositions
  import M = Metering

  // ---- where a chain ends ---------------------------------------------------------------------------

  /** The committed channels opened no earlier than `cid`. */
  function Ahead(disps: map<ChannelId, Disp>, rank: map<ChannelId, nat>, cid: ChannelId): set<ChannelId> {
    set k <- disps | disps[k].Committed? && k in rank && cid in rank && rank[cid] <= rank[k]
  }

  predicate Climbing(disps: map<ChannelId, Disp>, rank: map<ChannelId, nat>) {
    forall k <- disps :: Climbs(rank, k, disps[k])
  }

  lemma {:induction false} FollowReaches(disps: map<ChannelId, Disp>, rank: map<ChannelId, nat>, cid: ChannelId, hops: nat)
    requires Climbing(disps, rank) && |Ahead(disps, rank, cid)| < hops
    ensures var tip := Follow(disps, cid, hops); tip in disps ==> !disps[tip].Committed?
    decreases hops
  {
    if cid in disps && disps[cid].Committed? {
      var next := disps[cid].successor;
      assert Climbs(rank, cid, disps[cid]);
      assert Ahead(disps, rank, next) <= Ahead(disps, rank, cid) - {cid};
      SubsetSize(Ahead(disps, rank, next), Ahead(disps, rank, cid) - {cid});
      FollowReaches(disps, rank, next, hops - 1);
    }
  }

  lemma {:induction false} SubsetSize<T>(a: set<T>, b: set<T>)
    requires a <= b
    ensures |a| <= |b|
    decreases a
  {
    if a != {} {
      var x :| x in a;
      SubsetSize(a - {x}, b - {x});
    }
  }

  /** The bounded walk along committed links always ends at a channel that is not committed: there are no
      cycles, and the bound is never what stops it. */
  lemma TipIsLive(s: System, cid: ChannelId)
    requires Kept(s)
    ensures var tip := ResolveTip(s.c.disps, cid); tip in s.c.disps ==> !s.c.disps[tip].Committed?
  {
    hide Accepted, Agree, Climbs;
    var rank, n :| DispInv(s.c, rank, n);
    SubsetSize(Ahead(s.c.disps, rank, cid), s.c.disps.Keys);
    FollowReaches(s.c.disps, rank, cid, |s.c.disps| + 1);
  }

  // ---- importing a committed predecessor again ---------------------------------------------------------

  /** A recorded position over the base roles, not imported yet, with a balance some successor's window
      admits. */
  predicate Importable(c: Carriage, p: (ChannelId, CkptRef)) {
    p in c.snapshots && p !in c.consumedChain && |c.snapshots[p].position.accruals| == |SCHEMA_ROLES| && if c.snapshots[p].prepay then c.snapshots[p].balance <= 0 else c.snapshots[p].balance >= 0
  }

  /** An open that matches everything the recorded position pins. */
  function Matching(c: Carriage, p: (ChannelId, CkptRef)): OpenReq
    requires p in c.snapshots
  {
    var s := c.snapshots[p];
    OpenReq(s.payer, Terms(s.seed, if s.prepay then Some("") else None, s.asset, Chosen([])), s.prepay,
            if s.balance < 0 then -s.balance else s.balance, 0, SCHEMA_ROLES, Some(p), true, true)
  }

  /** Some open naming `p` as a predecessor would be accepted. */
  ghost predicate CanBeImported(c: Carriage, p: ChannelId, cid: ChannelId) {
    exists o: OpenReq, ref :: o.predecessor == Some((p, ref)) && Open(c, cid, o, true, true).1.Ok?
  }

  /** A committed predecessor can be imported once more exactly when an unconsumed position of it is still
      recorded, under whatever reference: uniqueness is per (predecessor, reference). */
  lemma ReimportIff(c: Carriage, p: ChannelId, cid: ChannelId)
    requires p in c.disps && c.disps[p].Committed?
    requires cid !in c.tombstones && cid !in c.channels && OpenKey(cid) !in c.decisions
    ensures CanBeImported(c, p, cid) <==> exists ref :: Importable(c, (p, ref))
  {
    if ref: CkptRef :| Importable(c, (p, ref)) {
      var o := Matching(c, (p, ref));
      assert o.predecessor == Some((p, ref)) && Open(c, cid, o, true, true).1.Ok?;
    }
    if o: OpenReq, ref :| o.predecessor == Some((p, ref)) && Open(c, cid, o, true, true).1.Ok? {
      assert Importable(c, (p, ref));
    }
  }

  /** No unconsumed position of `p` is recorded. */
  ghost predicate Exhausted(c: Carriage, p: ChannelId) {
    p in c.disps && c.disps[p].Committed? && forall q <- c.snapshots :: q.0 == p ==> q in c.consumedChain
  }

  lemma ExhaustedStays(s: System, e: Message, p: ChannelId, rank: map<ChannelId, nat>, n: nat)
    requires ValidRail(s.r) && DispInv(s.c, rank, n) && Written(e) && Exhausted(s.c, p)
    ensures Exhausted(Handle(s, e).0.c, p)
    ensures forall ref :: !Imports(s, e, (p, ref))
  {
    hide DispInv, ValidRail, Batch, Checkpoint, Propose, ProveRound, FundChannel, InterimDraw, Close, Apply, NamedBy, Restart, Follows, Quiet;
    var rank', n' := HandleDisp(s, e, rank, n);
    StaysCommitted(s.c, Handle(s, e).0.c, p);
    match e
    case OpenMsg(cid, o, openOk, dispOk) => OpenNearExhausted(s.c, cid, o, openOk, dispOk, p);
    case CloseMsg(cid, q, io) => CloseSnapshots(s, cid, q, io);
    case RestartMsg => RestartShape(s.c);
    case ReplicaMsg(k, v) =>
    case RailMsg(_) =>
    case _ =>
      HandleIsQuiet(s, e);
      QuietSnapshots(s.c, Handle(s, e).0.c);
  }

  lemma QuietSnapshots(c: Carriage, c': Carriage)
    requires Quiet(c, c')
    ensures c'.snapshots == c.snapshots && c'.consumedChain == c.consumedChain
  {
  }

  predicate OnlyConsumed(c: Carriage, p: ChannelId) { forall q <- c.snapshots :: q.0 == p ==> q in c.consumedChain }

  lemma EstablishNear(c: Carriage, cid: ChannelId, o: OpenReq, openOk: bool, dispOk: bool, p: ChannelId)
    requires OnlyConsumed(c, p)
    ensures var (c', a) := Establish(c, cid, o, openOk, dispOk);
            OnlyConsumed(c', p) && (a.Ok? && o.predecessor.Some? ==> o.predecessor.value.0 != p)
  {
    hide FreshChannel, ChainedChannel, Decide;
    if o.predecessor.Some? && ChainedChannel(c, o, o.predecessor.value).Some? { ChainedHasSnapshot(c, o, o.predecessor.value); }
  }

  lemma RefreshNear(c: Carriage, pred: (ChannelId, CkptRef), p: ChannelId)
    requires OnlyConsumed(c, p) && pred.0 in c.disps && c.disps[pred.0].Intent? && pred.0 != p
    ensures OnlyConsumed(RefreshSnapshot(c, pred), p)
  {
    hide ComputeSnapshot;
  }

  lemma OpenNearExhausted(c: Carriage, cid: ChannelId, o: OpenReq, openOk: bool, dispOk: bool, p: ChannelId)
    requires Exhausted(c, p)
    ensures var (c', a) := Open(c, cid, o, openOk, dispOk);
            OnlyConsumed(c', p) && (a.Ok? && o.predecessor.Some? ==> o.predecessor.value.0 != p)
  {
    hide Establish, RefreshSnapshot;
    EstablishNear(c, cid, o, openOk, dispOk, p);
    if o.predecessor.Some? && o.predecessor.value.0 in c.disps && c.disps[o.predecessor.value.0].Intent? {
      RefreshNear(c, o.predecessor.value, p);
      EstablishNear(RefreshSnapshot(c, o.predecessor.value), cid, o, openOk, dispOk, p);
    }
  }

  predicate SameChain(c: Carriage, c': Carriage) { c'.snapshots == c.snapshots && c'.consumedChain == c.consumedChain }

  lemma CloseSnapshots(s: System, cid: ChannelId, q: CloseReq, io: CloseIo)
    requires ValidRail(s.r)
    ensures SameChain(s.c, Close(s, cid, q, io).0.c)
  {
    hide ValidRail, Reconcile, AttemptCloseDraw, PriorDisp, InFlightRef, Decide;
    if cid in s.c.channels {
      ReconcileLeaves(s, cid, q.ckpt, io);
      CloseDrawLeaves(Reconcile(s, cid, q.ckpt, io).0, cid);
      CloseDrawLeaves(s, cid);
    }
  }

  /** A committed predecessor none of whose recorded positions is unconsumed is never imported again. */
  lemma {:induction false} NeverReimported(s: System, msgs: seq<Message>, e: Message, p: ChannelId, ref: CkptRef)
    requires Kept(s) && AllWritten(msgs) && Written(e) && Exhausted(s.c, p)
    ensures Sendable(msgs) && !Imports(Serve(s, msgs), e, (p, ref))
  {
    hide DispInv, Exhausted, Imports;
    var rank, n :| DispInv(s.c, rank, n);
    var rank', n' := ExhaustedRun(s, msgs, p, rank, n);
    ExhaustedStays(Serve(s, msgs), e, p, rank', n');
  }

  lemma {:induction false} ExhaustedRun(s: System, msgs: seq<Message>, p: ChannelId, rank: map<ChannelId, nat>, n: nat)
    returns (rank': map<ChannelId, nat>, n': nat)
    requires ValidRail(s.r) && DispInv(s.c, rank, n) && AllWritten(msgs) && Exhausted(s.c, p)
    ensures Sendable(msgs) && DispInv(Serve(s, msgs).c, rank', n') && Exhausted(Serve(s, msgs).c, p)
  {
    hide DispInv, Exhausted, ValidRail, Handle, Imports;
    if |msgs| == 0 {
      rank', n' := rank, n;
    } else {
      var init := msgs[..|msgs| - 1];
      rank', n' := ExhaustedRun(s, init, p, rank, n);
      var mid := Serve(s, init);
      ExhaustedStays(mid, msgs[|msgs| - 1], p, rank', n');
      rank', n' := HandleDisp(mid, msgs[|msgs| - 1], rank', n');
    }
  }

  // ---- the run in which it happens -----------------------------------------------------------------------

  const P := Cid(0)
  const A := Cid(1)
  const B := Cid(2)

  function PlainOpen(payer: Key, predecessor: Option<(ChannelId, CkptRef)>): OpenReq {
    OpenReq(payer, Terms([], None, "", Chosen([])), false, 0, 1, SCHEMA_ROLES, predecessor, true, true)
  }

  /** A birth channel announces its chaining; an open by another payer is refused but leaves the birth
      position recorded; the channel is then checkpointed and continued from the checkpoint. */
  function StaleRun(): seq<Message> {
    [OpenMsg(P, PlainOpen(1, None), true, true),
     CloseMsg(P, CloseReq(0, true, true), CloseIo(true, true, true)),
     OpenMsg(A, PlainOpen(2, Some((P, 0))), true, true),
     CheckpointMsg(P, CkptReq(1, 0, 0, Zeros(4), true)),
     OpenMsg(A, PlainOpen(1, Some((P, 1))), true, true)]
  }

  function Idle(): Channel { FreshChannel(PlainOpen(1, None)) }

  function Ended(): Channel { Idle().(meter := M.BeginSettling(Idle().meter)) }

  function Evidenced(): Channel { Ended().(operative := Some(Operative(1, 0, Zeros(4)))) }

  function BirthPosition(): ChainSnapshot { ChainSnapshot(Imported(0, 0, Zeros(4), Zeros(4), 0, 0), 0, 1, false, [], "") }

  ghost predicate Untouched(c: Carriage) {
    && c.payers == map[P := 1] && c.consumedChain == {} && c.tombstones == {} && c.decisions == map[OpenKey(P) := Bare]
    && forall x, a, n, f :: c.cfg.synthetic(x, a, n, f) == 0
  }

  lemma Opened(s: System)
    requires ValidRail(s.r) && s.c == Born(Config("", (c, a, n, f) => 0), 0).c
    ensures var c := Handle(s, StaleRun()[0]).0.c;
            Untouched(c) && c.channels == map[P := Idle()] && c.disps == map[] && c.snapshots == map[]
  {
    hide ValidRail, FreshChannel;
  }

  lemma Announced(s: System)
    requires ValidRail(s.r) && Untouched(s.c) && s.c.channels == map[P := Idle()] && s.c.disps == map[] && s.c.snapshots == map[]
    ensures var c := Handle(s, StaleRun()[1]).0.c;
            Untouched(c) && c.channels == map[P := Ended()] && c.disps == map[P := Intent] && c.snapshots == map[]
  {
    hide ValidRail, Reconcile, AttemptCloseDraw;
  }

  lemma BirthPositionRead(c: Carriage)
    requires Untouched(c) && c.channels == map[P := Ended()]
    ensures ComputeSnapshot(c, P, 0) == Some(BirthPosition())
  {
  }

  lemma Mismatched(s: System)
    requires ValidRail(s.r) && Untouched(s.c) && s.c.channels == map[P := Ended()] && s.c.disps == map[P := Intent] && s.c.snapshots == map[]
    ensures var c := Handle(s, StaleRun()[2]).0.c;
            Untouched(c) && c.channels == map[P := Ended()] && c.disps == map[P := Intent] && c.snapshots == map[(P, 0) := BirthPosition()]
  {
    hide ValidRail, ComputeSnapshot, Ended;
    BirthPositionRead(s.c);
  }

  lemma NoSlices(m: M.Meter)
    requires m == Ended().meter
    ensures |m.accruals| == |m.bp| && M.Recomputes(m, 0, 0, Zeros(4)) && M.CheckpointUpto(m, 0) == m
  {
    hide MapSum, Sum;
    MapSumEmpty<nat>();
    assert m.window == map[] && M.Newer(m, 0) == map[];
    assert M.AccrualsAt(m, 0) == Zeros(4);
  }

  lemma Repositioned(s: System)
    requires ValidRail(s.r) && Untouched(s.c) && s.c.channels == map[P := Ended()] && s.c.disps == map[P := Intent]
    requires s.c.snapshots == map[(P, 0) := BirthPosition()]
    ensures var c := Handle(s, StaleRun()[3]).0.c;
            Untouched(c) && c.channels == map[P := Evidenced()] && c.disps == map[P := Intent] && c.snapshots == map[(P, 0) := BirthPosition()]
  {
    hide ValidRail, M.Recomputes, M.CheckpointUpto, BirthPosition;
    NoSlices(Ended().meter);
  }

  lemma NewPositionRead(c: Carriage)
    requires Untouched(c) && c.channels == map[P := Evidenced()]
    ensures ComputeSnapshot(c, P, 1) == Some(BirthPosition().(position := Imported(0, 1, Zeros(4), Zeros(4), 0, 0)))
  {
  }

  /** The open that continues from the checkpoint, given the position read for it. */
  lemma ContinuedFrom(c: Carriage, position: ChainSnapshot)
    requires Untouched(c) && c.channels.Keys == {P} && c.disps == map[P := Intent] && c.snapshots == map[(P, 0) := BirthPosition(), (P, 1) := position]
    requires position == BirthPosition().(position := Imported(0, 1, Zeros(4), Zeros(4), 0, 0))
    ensures var x := Establish(c, A, PlainOpen(1, Some((P, 1))), true, true).0;
            && x.disps == map[P := Committed(A)] && x.consumedChain == {(P, 1)} && x.tombstones == {} && B !in x.channels
            && OpenKey(B) !in x.decisions && DispKey(P) in x.decisions && x.decisions[DispKey(P)] == DispValue(Committed(A))
            && x.snapshots == c.snapshots
  {
    assert ChainedChannel(c, PlainOpen(1, Some((P, 1))), (P, 1)).Some?;
  }

  lemma Continued(s: System)
    requires ValidRail(s.r) && Untouched(s.c) && s.c.channels == map[P := Evidenced()] && s.c.disps == map[P := Intent]
    requires s.c.snapshots == map[(P, 0) := BirthPosition()]
    ensures var c := Handle(s, StaleRun()[4]).0.c;
            && c.disps == map[P := Committed(A)] && c.consumedChain == {(P, 1)} && c.tombstones == {} && B !in c.channels
            && OpenKey(B) !in c.decisions && DispKey(P) in c.decisions && c.decisions[DispKey(P)] == DispValue(Committed(A))
            && (P, 0) in c.snapshots && c.snapshots[(P, 0)] == BirthPosition()
  {
    hide ValidRail, ComputeSnapshot, Evidenced, Establish;
    NewPositionRead(s.c);
    var refreshed := RefreshSnapshot(s.c, (P, 1));
    assert refreshed.snapshots == map[(P, 0) := BirthPosition(), (P, 1) := refreshed.snapshots[(P, 1)]];
    ContinuedFrom(refreshed, refreshed.snapshots[(P, 1)]);
  }

  /** The same predecessor is then imported a second time, under its other reference; the disposition in
      memory names the second successor and the durable one the first. */
  lemma SecondImport()
    ensures var again := OpenMsg(B, PlainOpen(1, Some((P, 0))), true, true);
            && AllWritten(StaleRun()) && Sendable(StaleRun())
            && var s := Serve(Born(Config("", (c, a, n, f) => 0), 0), StaleRun());
               && P in s.c.disps && s.c.disps[P] == Committed(A)
               && Imports(s, again, (P, 0))
               && P in Handle(s, again).0.c.disps && Handle(s, again).0.c.disps[P] == Committed(B)
               && DispKey(P) in Handle(s, again).0.c.decisions
               && Handle(s, again).0.c.decisions[DispKey(P)] == DispValue(Committed(A))
  {
    hide Handle, Untouched, Idle, Ended, Evidenced, BirthPosition, ValidRail, Serve;
    var run := StaleRun();
    var s0 := Born(Config("", (c, a, n, f) => 0), 0);
    ServeNext(s0, run, 0); ServeNext(s0, run, 1); ServeNext(s0, run, 2); ServeNext(s0, run, 3); ServeNext(s0, run, 4);
    Opened(s0);
    var s1 := Handle(s0, run[0]).0;
    Announced(s1);
    var s2 := Handle(s1, run[1]).0;
    Mismatched(s2);
    var s3 := Handle(s2, run[2]).0;
    Repositioned(s3);
    var s4 := Handle(s3, run[3]).0;
    Continued(s4);
    AgainImported(Handle(s4, run[4]).0);
  }

  lemma AgainImported(s: System)
    requires ValidRail(s.r) && P in s.c.disps && s.c.disps[P] == Committed(A) && s.c.consumedChain == {(P, 1)} && s.c.tombstones == {}
    requires B !in s.c.channels && OpenKey(B) !in s.c.decisions
    requires DispKey(P) in s.c.decisions && s.c.decisions[DispKey(P)] == DispValue(Committed(A))
    requires (P, 0) in s.c.snapshots && s.c.snapshots[(P, 0)] == BirthPosition()
    ensures var again := OpenMsg(B, PlainOpen(1, Some((P, 0))), true, true);
            && Imports(s, again, (P, 0)) && P in Handle(s, again).0.c.disps && Handle(s, again).0.c.disps[P] == Committed(B)
            && DispKey(P) in Handle(s, again).0.c.decisions && Handle(s, again).0.c.decisions[DispKey(P)] == DispValue(Committed(A))
  {
    hide ValidRail;
  }
}
