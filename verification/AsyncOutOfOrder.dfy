/** Debits are checked when an operation is submitted, not when it is confirmed: what that mints, and exactly
    when a reorg that does not hit the latest survivor still leaves the rail as if the operation had never
    been confirmed. */
module AsyncOutOfOrder {
  import opened Instance
  import opened Ledger
  import opened Options
  import opened RailTypes
  import opened AsyncRail
  import opened AsyncReorg

  /** No later advance on the reorged advance's channel went past the position it started from. */
  predicate Harmless(w: World, j: Transaction, later: seq<Transaction>)
    requires ValidWorld(w) && OpValid(w, j)
  {
    j.Advancing? && BpTotal(w.instances[j.addr].meed) > 0 ==>
      forall k :: 0 <= k < |later| && later[k].Advancing? && later[k].addr == j.addr && later[k].c == j.c
        ==> later[k].target <= FundedP(w.instances[j.addr], j.c)
  }

  /** How the instances with operation `j` and without it relate, `ap` being its undo record. */
  predicate Apart(with: World, without: World, ap: Applied) {
    && with.instances.Keys == without.instances.Keys
    && if ap.AdvanceApplied? then
         && ap.addr in without.instances
         && with.instances[ap.addr := without.instances[ap.addr]] == without.instances
         && Restore(with.instances[ap.addr], ap.c, ap.snapshot) == without.instances[ap.addr]
         && TakeSnapshot(without.instances[ap.addr], ap.c) == ap.snapshot
         && FundedP(without.instances[ap.addr], ap.c) <= FundedP(with.instances[ap.addr], ap.c)
       else with.instances == without.instances
  }

  lemma AfterFirst(w: World, j: Transaction)
    requires ValidWorld(w) && OpValid(w, j)
    ensures Apart(Perform(w, j).0, w, Perform(w, j).1)
  {
    hide Valid, Restore;
    var w' := Perform(w, j).0;
    InstancesUndone(w, j);
    if j.Advancing? {
      RestoreAfterAdvance(w.instances[j.addr], j.c, j.target);
      AdvanceRaises(w.instances[j.addr], j.c, j.c, j.target);
      assert w'.instances[j.addr := w.instances[j.addr]] == w.instances;
    }
  }

  lemma AdvanceRaises(s: State, c: ChannelId, d: ChannelId, target: nat)
    requires Valid(s) && target <= U128_MAX
    ensures var s' := Advance(s, c, target).0;
            && s'.meed == s.meed && FundedP(s, d) <= FundedP(s', d)
            && (c == d && BpTotal(s.meed) > 0 ==> target <= FundedP(s', d))
  {
  }

  /** An advance answers from its own channel's record alone. */
  lemma AdvanceAgrees(s: State, v: State, c: ChannelId, target: nat)
    requires Valid(s) && Valid(v) && target <= U128_MAX
    requires s.meed == v.meed && TakeSnapshot(s, c) == TakeSnapshot(v, c)
    ensures Advance(s, c, target).1 == Advance(v, c, target).1
  {
    hide Valid;
  }

  lemma AdvanceIdle(s: State, c: ChannelId, target: nat)
    requires Valid(s) && target <= U128_MAX && (target <= FundedP(s, c) || BpTotal(s.meed) == 0)
    ensures Advance(s, c, target) == (s, Advanced(FundedP(s, c), 0, []))
  {
  }

  lemma RestoreOther(s: State, c: ChannelId, snap: Snapshot, d: ChannelId)
    requires c != d
    ensures TakeSnapshot(Restore(s, c, snap), d) == TakeSnapshot(s, d) && Restore(s, c, snap).meed == s.meed
  {
  }

  lemma AdvanceOther(s: State, c: ChannelId, d: ChannelId, target: nat)
    requires Valid(s) && target <= U128_MAX && c != d
    ensures TakeSnapshot(Advance(s, d, target).0, c) == TakeSnapshot(s, c)
  {
  }

  /** A later operation that is harmless to `j` moves the instances alike, and by the same amounts. */
  lemma ApartStep(with: World, without: World, ap: Applied, op: Transaction)
    requires ValidWorld(with) && ValidWorld(without) && Apart(with, without, ap)
    requires OpValid(with, op) && OpValid(without, op)
    requires ap.AdvanceApplied? && op.Advancing? && op.addr == ap.addr && op.c == ap.c ==>
               op.target <= FundedP(without.instances[ap.addr], ap.c) || BpTotal(without.instances[ap.addr].meed) == 0
    ensures Apart(Perform(with, op).0, Perform(without, op).0, ap)
    ensures forall a :: Change(Perform(with, op).1, a) == Change(Perform(without, op).1, a)
  {
    hide Valid, Restore, Advance, Change;
    if op.Advancing? {
      AdvanceApart(with, without, ap, op);
    }
    forall a ensures Change(Perform(with, op).1, a) == Change(Perform(without, op).1, a) { SameChange(with, without, op, a); }
  }

  lemma SameChange(with: World, without: World, op: Transaction, a: Address)
    requires ValidWorld(with) && ValidWorld(without) && OpValid(with, op) && OpValid(without, op)
    requires op.Advancing? ==> Advance(with.instances[op.addr], op.c, op.target).1.payouts == Advance(without.instances[op.addr], op.c, op.target).1.payouts
    requires op.Advancing? ==> Advance(with.instances[op.addr], op.c, op.target).1.delta == Advance(without.instances[op.addr], op.c, op.target).1.delta
    ensures Change(Perform(with, op).1, a) == Change(Perform(without, op).1, a)
  {
    hide Valid, Advance;
  }

  lemma AdvanceApart(with: World, without: World, ap: Applied, op: Transaction)
    requires ValidWorld(with) && ValidWorld(without) && Apart(with, without, ap) && op.Advancing?
    requires OpValid(with, op) && OpValid(without, op)
    requires ap.AdvanceApplied? && op.addr == ap.addr && op.c == ap.c ==>
               op.target <= FundedP(without.instances[ap.addr], ap.c) || BpTotal(without.instances[ap.addr].meed) == 0
    ensures Advance(with.instances[op.addr], op.c, op.target).1.payouts == Advance(without.instances[op.addr], op.c, op.target).1.payouts
    ensures Advance(with.instances[op.addr], op.c, op.target).1.delta == Advance(without.instances[op.addr], op.c, op.target).1.delta
    ensures Apart(Perform(with, op).0.(ledger := with.ledger), Perform(without, op).0.(ledger := without.ledger), ap)
  {
    hide Valid, Advance, Change, Restore, BpTotal;
    var s, v := with.instances[op.addr], without.instances[op.addr];
    if ap.AdvanceApplied? && op.addr == ap.addr {
      RestoreMeed(s, ap.c, ap.snapshot);
      if op.c == ap.c {
        AdvanceIdle(s, op.c, op.target);
        AdvanceIdle(v, op.c, op.target);
        assert with.instances[op.addr := s] == with.instances && without.instances[op.addr := v] == without.instances;
      } else {
        OtherChannel(s, v, ap, op);
        var s', v' := Advance(s, op.c, op.target).0, Advance(v, op.c, op.target).0;
        assert with.instances[op.addr := s'][op.addr := v'] == without.instances[op.addr := v'];
      }
    } else {
      assert s == v by {
        if ap.AdvanceApplied? { assert with.instances[ap.addr := without.instances[ap.addr]][op.addr] == s; }
      }
    }
  }

  /** An advance on another channel of the same instance. */
  lemma OtherChannel(s: State, v: State, ap: Applied, op: Transaction)
    requires Valid(s) && Valid(v) && ap.AdvanceApplied? && op.Advancing? && op.c != ap.c && op.target <= U128_MAX
    requires Restore(s, ap.c, ap.snapshot) == v && TakeSnapshot(v, ap.c) == ap.snapshot
    requires FundedP(v, ap.c) <= FundedP(s, ap.c)
    ensures Advance(s, op.c, op.target).1 == Advance(v, op.c, op.target).1
    ensures var (s', v') := (Advance(s, op.c, op.target).0, Advance(v, op.c, op.target).0);
            && Restore(s', ap.c, ap.snapshot) == v' && TakeSnapshot(v', ap.c) == ap.snapshot
            && FundedP(v', ap.c) <= FundedP(s', ap.c)
  {
    hide Valid, Advance, Restore, BpTotal;
    RestoreMeed(s, ap.c, ap.snapshot);
    RestoreOther(s, ap.c, ap.snapshot, op.c);
    AdvanceAgrees(s, v, op.c, op.target);
    RestoreCommutes(s, ap.c, ap.snapshot, Call(op.c, op.target));
    AdvanceOther(s, ap.c, op.c, op.target);
    AdvanceOther(v, ap.c, op.c, op.target);
  }

  lemma RestoreMeed(s: State, c: ChannelId, snap: Snapshot)
    ensures Restore(s, c, snap).meed == s.meed
  {
  }

  /** What a log's operations say they move, and what its debits lacked when they were confirmed. */
  function ChangeOver(w: World, log: seq<Transaction>, a: Address): int
    requires ValidWorld(w) && LogValid(w, log)
  {
    if |log| == 0 then 0
    else
      var mid := Replay(w, log[..|log| - 1]);
      OpStaysValid(w, mid, log[|log| - 1]);
      ChangeOver(w, log[..|log| - 1], a) + Change(Perform(mid, log[|log| - 1]).1, a)
  }

  function MissingOver(w: World, log: seq<Transaction>, a: Address): nat
    requires ValidWorld(w) && LogValid(w, log)
  {
    if |log| == 0 then 0
    else
      var mid := Replay(w, log[..|log| - 1]);
      OpStaysValid(w, mid, log[|log| - 1]);
      MissingOver(w, log[..|log| - 1], a) + Missing(mid, log[|log| - 1], a)
  }

  predicate AllRoom(w: World, log: seq<Transaction>)
    requires ValidWorld(w) && LogValid(w, log)
  {
    |log| == 0 || (AllRoom(w, log[..|log| - 1]) && Room(Replay(w, log[..|log| - 1]), log[|log| - 1]))
  }

  /** Confirming a whole log moves what its operations say, and mints what their debits lacked. */
  lemma {:induction false} ReplayMoves(w: World, log: seq<Transaction>, a: Address)
    requires ValidWorld(w) && LogValid(w, log) && AllRoom(w, log)
    ensures Bal(Replay(w, log).ledger, a) == Bal(w.ledger, a) + ChangeOver(w, log, a) + MissingOver(w, log, a)
  {
    hide Perform, Change, Missing, Room, ValidWorld, OpValid;
    if |log| > 0 {
      var n := |log| - 1;
      ReplayMoves(w, log[..n], a);
      OpStaysValid(w, Replay(w, log[..n]), log[n]);
      PerformMoves(Replay(w, log[..n]), log[n], a);
    }
  }

  lemma MissingSnoc(w: World, log: seq<Transaction>, a: Address)
    requires ValidWorld(w) && LogValid(w, log)
    ensures |log| == 0 ==> MissingOver(w, log, a) == 0
    ensures |log| > 0 ==>
              var n := |log| - 1;
              && OpValid(Replay(w, log[..n]), log[n])
              && MissingOver(w, log, a) == MissingOver(w, log[..n], a) + Missing(Replay(w, log[..n]), log[n], a)
  {
    hide Missing, Perform, ValidWorld, OpValid;
    if |log| > 0 { OpStaysValid(w, Replay(w, log[..|log| - 1]), log[|log| - 1]); }
  }

  ghost predicate MintsNothing(w: World, log: seq<Transaction>)
    requires ValidWorld(w) && LogValid(w, log)
  {
    forall a :: MissingOver(w, log, a) == 0
  }

  lemma MintsSnoc(w: World, log: seq<Transaction>)
    requires ValidWorld(w) && LogValid(w, log) && |log| > 0
    ensures var n := |log| - 1;
            && OpValid(Replay(w, log[..n]), log[n])
            && (MintsNothing(w, log) <==> MintsNothing(w, log[..n]) && forall a :: Missing(Replay(w, log[..n]), log[n], a) == 0)
  {
    hide Missing, MissingOver, Perform, ValidWorld, OpValid;
    var n := |log| - 1;
    OpStaysValid(w, Replay(w, log[..n]), log[n]);
    forall a ensures MissingOver(w, log, a) == MissingOver(w, log[..n], a) + Missing(Replay(w, log[..n]), log[n], a) { MissingSnoc(w, log, a); }
    if MintsNothing(w, log) {
      forall a ensures MissingOver(w, log[..n], a) == 0 && Missing(Replay(w, log[..n]), log[n], a) == 0 { assert MissingOver(w, log, a) == 0; }
    }
  }

  lemma NothingMinted(w: World, log: seq<Transaction>)
    requires ValidWorld(w) && LogValid(w, log) && |log| == 0
    ensures MintsNothing(w, log)
  {
  }

  /** A log mints nothing exactly when every debit in it is covered at its turn. */
  lemma {:induction false} MintsNothingIff(w: World, log: seq<Transaction>)
    requires ValidWorld(w) && LogValid(w, log) && AllRoom(w, log)
    ensures AllCovered(w, log) <==> MintsNothing(w, log)
  {
    hide Perform, Missing, MintsNothing, Room, Covered, ValidWorld, OpValid;
    if |log| == 0 {
      NothingMinted(w, log);
    } else {
      var n := |log| - 1;
      MintsNothingIff(w, log[..n]);
      MintsSnoc(w, log);
      NothingMissingIff(Replay(w, log[..n]), log[n]);
    }
  }

  /** The next operation is harmless where the two runs stand. */
  lemma HarmlessNext(w: World, j: Transaction, later: seq<Transaction>, with: World, without: World)
    requires ValidWorld(w) && OpValid(w, j) && Harmless(w, j, later) && |later| > 0
    requires Apart(with, without, Perform(w, j).1) && SameDeployment(w, without)
    ensures var ap, op := Perform(w, j).1, later[|later| - 1];
            ap.AdvanceApplied? && op.Advancing? && op.addr == ap.addr && op.c == ap.c ==>
              && ap.addr in without.instances
              && (op.target <= FundedP(without.instances[ap.addr], ap.c) || BpTotal(without.instances[ap.addr].meed) == 0)
  {
    hide Perform, Apart, ValidWorld, BpTotal;
    FirstRecord(w, j);
    ApartSnapshot(with, without, Perform(w, j).1);
  }

  /** The two runs stay apart by exactly the operation's own effect on its instance. */
  lemma {:induction false} ApartReplay(w: World, j: Transaction, later: seq<Transaction>)
    requires ValidWorld(w) && OpValid(w, j) && LogValid(w, later) && Harmless(w, j, later)
    requires LogValid(Perform(w, j).0, later)
    ensures Apart(Replay(Perform(w, j).0, later), Replay(w, later), Perform(w, j).1)
  {
    hide Perform, Apart, ValidWorld, Change, BpTotal, OpValid;
    if |later| == 0 {
      AfterFirst(w, j);
    } else {
      var n := |later| - 1;
      ApartReplay(w, j, later[..n]);
      var with, without := Replay(Perform(w, j).0, later[..n]), Replay(w, later[..n]);
      OpStaysValid(w, without, later[n]);
      OpStaysValid(Perform(w, j).0, with, later[n]);
      HarmlessNext(w, j, later, with, without);
      ApartStep(with, without, Perform(w, j).1, later[n]);
    }
  }

  /** A harmless operation leaves what later ones say they move as it is. */
  lemma {:induction false} SameChanges(w: World, j: Transaction, later: seq<Transaction>, a: Address)
    requires ValidWorld(w) && OpValid(w, j) && LogValid(w, later) && Harmless(w, j, later)
    requires LogValid(Perform(w, j).0, later)
    ensures ChangeOver(Perform(w, j).0, later, a) == ChangeOver(w, later, a)
  {
    hide Perform, Apart, ValidWorld, Change, BpTotal, OpValid, Replay;
    if |later| > 0 {
      var n := |later| - 1;
      SameChanges(w, j, later[..n], a);
      ApartReplay(w, j, later[..n]);
      var with, without := Replay(Perform(w, j).0, later[..n]), Replay(w, later[..n]);
      OpStaysValid(w, without, later[n]);
      OpStaysValid(Perform(w, j).0, with, later[n]);
      HarmlessNext(w, j, later, with, without);
      ApartStep(with, without, Perform(w, j).1, later[n]);
    }
  }

  lemma FirstRecord(w: World, j: Transaction)
    requires ValidWorld(w) && OpValid(w, j)
    ensures var ap := Perform(w, j).1;
            && (ap.AdvanceApplied? <==> j.Advancing?)
            && (j.Advancing? ==> ap.addr == j.addr && ap.c == j.c && ap.snapshot == TakeSnapshot(w.instances[j.addr], j.c))
  {
  }

  lemma ApartSnapshot(with: World, without: World, ap: Applied)
    requires Apart(with, without, ap)
    ensures ap.AdvanceApplied? ==>
              && ap.addr in without.instances
              && FundedP(without.instances[ap.addr], ap.c) == if ap.snapshot.Record? then ap.snapshot.w.funded else 0
  {
  }

  /** Watermarks only rise along a log, and reach every target asked of them. */
  lemma {:induction false} ReplayFunded(w: World, log: seq<Transaction>, addr: Address, c: ChannelId)
    requires ValidWorld(w) && LogValid(w, log) && addr in w.instances
    ensures var v := Replay(w, log);
            && addr in v.instances && FundedP(w.instances[addr], c) <= FundedP(v.instances[addr], c)
            && (BpTotal(w.instances[addr].meed) > 0 ==>
                forall k :: 0 <= k < |log| && log[k].Advancing? && log[k].addr == addr && log[k].c == c
                  ==> log[k].target <= FundedP(v.instances[addr], c))
  {
    hide ValidWorld, Perform, BpTotal, OpValid;
    if |log| > 0 {
      var n := |log| - 1;
      ReplayFunded(w, log[..n], addr, c);
      var mid := Replay(w, log[..n]);
      OpStaysValid(w, mid, log[n]);
      PerformFunded(mid, log[n], addr, c);
    }
  }

  lemma PerformFunded(w: World, op: Transaction, addr: Address, c: ChannelId)
    requires ValidWorld(w) && OpValid(w, op) && addr in w.instances
    ensures var v := Perform(w, op).0;
            && addr in v.instances && v.instances[addr].meed == w.instances[addr].meed
            && FundedP(w.instances[addr], c) <= FundedP(v.instances[addr], c)
            && (BpTotal(w.instances[addr].meed) > 0 && op.Advancing? && op.addr == addr && op.c == c ==> op.target <= FundedP(v.instances[addr], c))
  {
    hide Valid, Advance, BpTotal, AddAll;
    if op.Advancing? { AdvanceRaises(w.instances[op.addr], op.c, c, op.target); }
  }

  lemma RestoredFunded(w: World, ap: Applied)
    requires ap.AdvanceApplied? && ap.addr in w.instances
    ensures FundedP(Revert(w, ap).instances[ap.addr], ap.c) == if ap.snapshot.Record? then ap.snapshot.w.funded else 0
  {
  }

  // ---- the theorem ------------------------------------------------------------------------------------------

  /** No credit of a release is cut off, neither with `j` confirmed first nor without it. */
  predicate RoomBothWays(w: World, j: Transaction, later: seq<Transaction>)
    requires ValidWorld(w) && OpValid(w, j) && LogValid(w, later)
  {
    Room(w, j) && LogValid(Perform(w, j).0, later) && AllRoom(Perform(w, j).0, later) && AllRoom(w, later)
  }

  /** What the run with `j` and its reorg mint, account by account, is what the later operations alone
      would mint. */
  ghost predicate Balanced(w: World, j: Transaction, later: seq<Transaction>)
    requires ValidWorld(w) && OpValid(w, j) && LogValid(w, later) && RoomBothWays(w, j, later)
  {
    var (first, ap, _) := Perform(w, j);
    forall a :: Missing(w, j, a) + MissingOver(first, later, a) + RevertMissing(Replay(first, later), ap, a) == MissingOver(w, later, a)
  }

  lemma ReorgBalance(w: World, j: Transaction, later: seq<Transaction>, a: Address)
    requires ValidWorld(w) && OpValid(w, j) && LogValid(w, later) && RoomBothWays(w, j, later) && Harmless(w, j, later)
    ensures var (first, ap, _) := Perform(w, j);
            Bal(Revert(Replay(first, later), ap).ledger, a) + MissingOver(w, later, a)
            == Bal(Replay(w, later).ledger, a) + Missing(w, j, a) + MissingOver(first, later, a) + RevertMissing(Replay(first, later), ap, a)
  {
    hide Perform, Revert, Change, Missing, RevertMissing, Room, ValidWorld, OpValid, Harmless, Replay;
    var (first, ap, _) := Perform(w, j);
    PerformMoves(w, j, a);
    ReplayMoves(first, later, a);
    ReplayMoves(w, later, a);
    RevertMoves(Replay(first, later), ap, a);
    SameChanges(w, j, later, a);
  }

  lemma ReorgInstances(w: World, j: Transaction, later: seq<Transaction>)
    requires ValidWorld(w) && OpValid(w, j) && LogValid(w, later) && LogValid(Perform(w, j).0, later)
    ensures Revert(Replay(Perform(w, j).0, later), Perform(w, j).1).instances == Replay(w, later).instances <==> Harmless(w, j, later)
  {
    hide Perform, ValidWorld, Change, Replay, BpTotal;
    var with, without, ap := Replay(Perform(w, j).0, later), Replay(w, later), Perform(w, j).1;
    FirstRecord(w, j);
    if Harmless(w, j, later) {
      ApartReplay(w, j, later);
      if j.Advancing? {
        assert with.instances[ap.addr := without.instances[ap.addr]] == without.instances;
      }
    } else {
      ReplayFunded(w, later, j.addr, j.c);
      RestoredFunded(with, ap);
    }
  }

  /** A reorg of any confirmed operation, whatever was confirmed after it and covered or not, leaves exactly
      the balances and watermarks of never having confirmed it if and only if no later advance on its
      channel passed the position it started from and the shortfalls balance. */
  lemma OutOfOrderReorg(w: World, j: Transaction, later: seq<Transaction>)
    requires ValidWorld(w) && OpValid(w, j) && LogValid(w, later) && RoomBothWays(w, j, later)
    ensures Same(Revert(Replay(Perform(w, j).0, later), Perform(w, j).1), Replay(w, later))
            <==> Harmless(w, j, later) && Balanced(w, j, later)
  {
    hide Perform, Revert, ValidWorld, OpValid, Replay, Harmless, Missing, RevertMissing, MissingOver, Room, AllRoom, LogValid;
    ReorgInstances(w, j, later);
    if Harmless(w, j, later) {
      var (first, ap, _) := Perform(w, j);
      var back, without := Revert(Replay(first, later), ap), Replay(w, later);
      forall a ensures Bal(back.ledger, a) == Bal(without.ledger, a)
                       <==> Missing(w, j, a) + MissingOver(first, later, a) + RevertMissing(Replay(first, later), ap, a) == MissingOver(w, later, a) {
        ReorgBalance(w, j, later, a);
      }
    }
  }

  /** When every debit was covered as the run executed, two things are left to ask of a harmless operation:
      that the reorg finds what it takes back, and that the later operations would have been covered
      without it. Given either, the reorg is sound exactly when the other holds too. */
  lemma CoveredReorg(w: World, j: Transaction, later: seq<Transaction>)
    requires ValidWorld(w) && OpValid(w, j) && LogValid(w, later) && RoomBothWays(w, j, later)
    requires Covered(w, j) && AllCovered(Perform(w, j).0, later)
    ensures var (first, ap, _) := Perform(w, j);
            var found := RevertCovered(Replay(first, later), ap);
            var sound := Same(Revert(Replay(first, later), ap), Replay(w, later));
            && (AllCovered(w, later) ==> (sound <==> Harmless(w, j, later) && found))
            && (found ==> (sound <==> Harmless(w, j, later) && AllCovered(w, later)))
  {
    hide Perform, Revert, ValidWorld, OpValid, Replay, Harmless, Missing, RevertMissing, MissingOver, Covered, AllCovered, RevertCovered, Room, Same, AllRoom;
    var (first, ap, _) := Perform(w, j);
    OutOfOrderReorg(w, j, later);
    NothingMissingIff(w, j);
    MintsNothingIff(first, later);
    MintsNothingIff(w, later);
    RevertNothingMissingIff(Replay(first, later), ap);
    assert forall a :: Missing(w, j, a) == 0 && MissingOver(first, later, a) == 0;
    assert Balanced(w, j, later) <==> forall a :: RevertMissing(Replay(first, later), ap, a) == MissingOver(w, later, a);
    if AllCovered(w, later) && RevertCovered(Replay(first, later), ap) {
      forall a ensures RevertMissing(Replay(first, later), ap, a) == 0 && MissingOver(w, later, a) == 0 {}
      assert Balanced(w, j, later);
    } else if AllCovered(w, later) {
      var a: Address :| RevertMissing(Replay(first, later), ap, a) != 0;
      assert MissingOver(w, later, a) == 0;
    } else if RevertCovered(Replay(first, later), ap) {
      var a: Address :| MissingOver(w, later, a) != 0;
      assert RevertMissing(Replay(first, later), ap, a) == 0;
    }
  }

  // ---- inputs that show each condition at work --------------------------------------------------------------

  const USD := "usd"

  function Pay(to: Address, amount: nat): Transaction { Plain(to, USD, amount, None) }

  lemma OneLater(w: World, op: Transaction)
    requires ValidWorld(w) && OpValid(w, op)
    ensures LogValid(w, [op]) && Replay(w, [op]) == Perform(w, op).0
    ensures AllRoom(w, [op]) <==> Room(w, op)
    ensures AllCovered(w, [op]) <==> Covered(w, op)
  {
    assert [op][..0] == [];
    assert Replay(w, [op][..0]) == w;
  }

  lemma TwoLater(w: World, a: Transaction, b: Transaction)
    requires ValidWorld(w) && OpValid(w, a) && OpValid(w, b)
    ensures OpValid(Perform(w, a).0, b) && LogValid(w, [a, b]) && Replay(w, [a, b]) == Perform(Perform(w, a).0, b).0
    ensures AllRoom(w, [a, b]) <==> Room(w, a) && Room(Perform(w, a).0, b)
    ensures AllCovered(w, [a, b]) <==> Covered(w, a) && Covered(Perform(w, a).0, b)
  {
    hide Perform, Room, Covered, OpValid;
    OneLater(w, a);
    OpStaysValid(w, Perform(w, a).0, b);
    assert [a, b][..1] == [a];
  }

  // ---- runs ------------------------------------------------------------------------------------------------

  predicate Stage(t: Tracked, w: World, order: seq<nat>) { ValidChain(t.s) && !t.s.outage && t.s.world == w && t.order == order }

  predicate Awaits(t: Tracked, r: nat, op: Transaction) { r < |t.s.refs| && t.s.refs[r].level == Submitted && t.s.refs[r].op == op }

  predicate InPlace(t: Tracked, r: nat, op: Transaction, ap: Applied) {
    r < |t.s.refs| && t.s.refs[r].level == Confirmed && t.s.refs[r].op == op && t.s.refs[r].applied == Some(ap)
  }

  /** No record but that of `r` changes. */
  predicate OnlyRecord(t: Tracked, t': Tracked, r: nat) {
    |t.s.refs| <= |t'.s.refs| && forall q :: 0 <= q < |t.s.refs| && q != r ==> t'.s.refs[q] == t.s.refs[q]
  }

  lemma PayEntered(t: Tracked, w: World, order: seq<nat>, to: Address, amount: nat)
    requires Stage(t, w, order)
    ensures var t' := Next(t, SubmitMove(Transfer(to, USD, amount, None)));
            Stage(t', w, order) && Awaits(t', |t.s.refs|, Pay(to, amount)) && |t'.s.refs| == |t.s.refs| + 1 && OnlyRecord(t, t', |t.s.refs|)
  {
    hide ValidChain;
  }

  lemma ReleaseEntered(t: Tracked, w: World, order: seq<nat>, src: Address, to: Address, amount: nat)
    requires Stage(t, w, order) && 0 < amount <= Bal(w.ledger, src)
    ensures var t' := Next(t, ReleaseMove(src, to, USD, amount));
            Stage(t', w, order) && Awaits(t', |t.s.refs|, Release(src, to, USD, amount)) && |t'.s.refs| == |t.s.refs| + 1 && OnlyRecord(t, t', |t.s.refs|)
  {
    hide ValidChain;
  }

  lemma Confirms(t: Tracked, w: World, order: seq<nat>, r: nat, op: Transaction)
    requires Stage(t, w, order) && Awaits(t, r, op) && ValidWorld(w) && OpValid(w, op) && CreditsFit(w, op)
    ensures var t' := Next(t, ConfirmMove(r));
            && Stage(t', Perform(w, op).0, order + [r]) && InPlace(t', r, op, Perform(w, op).1)
            && |t'.s.refs| == |t.s.refs| && OnlyRecord(t, t', r)
  {
    hide ValidChain, ValidWorld, OpValid, Perform, CreditsFit;
  }

  lemma Reorgs(t: Tracked, w: World, order: seq<nat>, r: nat, op: Transaction, ap: Applied)
    requires Stage(t, w, order) && InPlace(t, r, op, ap)
    ensures var t' := Next(t, ReorgMove(r));
            Stage(t', Revert(w, ap), Without(order, r)) && |t'.s.refs| == |t.s.refs| && OnlyRecord(t, t', r)
  {
    hide ValidChain, Revert;
  }

  lemma Begins()
    ensures Stage(Start(World(map[], map[])), World(map[], map[]), []) && |Start(World(map[], map[])).s.refs| == 0
  {
  }

  lemma RunNext(t: Tracked, run: seq<Move>, n: nat)
    requires ValidChain(t.s) && MovesOk(run) && n < |run|
    ensures n == 0 ==> Run(t, run[..n]) == t
    ensures Run(t, run[..n + 1]) == Next(Run(t, run[..n]), run[n])
    ensures n + 1 == |run| ==> run[..n + 1] == run
  {
    assert run[..n + 1][..n] == run[..n];
  }

  /** `d` receives 5 and a release of them to `e` is accepted; both are confirmed. */
  function Spending(): seq<Move> {
    [SubmitMove(Transfer("d", USD, 5, None)), ConfirmMove(0), ReleaseMove("d", "e", USD, 5), ConfirmMove(1)]
  }

  const NONE := World(map[], map[])
  const HELD := World(map["d" := 5], map[])
  const SPENT := World(map["d" := 0, "e" := 5], map[])
  const TOPPED := World(map["d" := 3, "e" := 5], map[])

  /** A payment or release entered and confirmed at once. */
  lemma Receives(t: Tracked, w: World, order: seq<nat>, to: Address, amount: nat)
    requires Stage(t, w, order) && ValidWorld(w) && CreditsFit(w, Pay(to, amount))
    ensures var r := |t.s.refs|;
            var t' := Next(Next(t, SubmitMove(Transfer(to, USD, amount, None))), ConfirmMove(r));
            && Stage(t', World(Add(w.ledger, to, amount), w.instances), order + [r]) && |t'.s.refs| == r + 1 && OnlyRecord(t, t', r)
            && InPlace(t', r, Pay(to, amount), PlainApplied(to, amount))
  {
    hide Next, ValidChain, ValidWorld, CreditsFit, Awaits;
    PayEntered(t, w, order, to, amount);
    Confirms(Next(t, SubmitMove(Transfer(to, USD, amount, None))), w, order, |t.s.refs|, Pay(to, amount));
  }

  lemma PassesOn(t: Tracked, w: World, order: seq<nat>, src: Address, to: Address, amount: nat)
    requires Stage(t, w, order) && ValidWorld(w) && 0 < amount <= Bal(w.ledger, src)
    ensures var r := |t.s.refs|;
            var t' := Next(Next(t, ReleaseMove(src, to, USD, amount)), ConfirmMove(r));
            && Stage(t', World(Credit(SatDebit(w.ledger, src, amount), to, amount), w.instances), order + [r])
            && |t'.s.refs| == r + 1 && OnlyRecord(t, t', r) && InPlace(t', r, Release(src, to, USD, amount), ReleaseApplied(src, to, amount))
  {
    hide Next, ValidChain, ValidWorld, Awaits, Bal, Credit, SatDebit;
    ReleaseEntered(t, w, order, src, to, amount);
    Confirms(Next(t, ReleaseMove(src, to, USD, amount)), w, order, |t.s.refs|, Release(src, to, USD, amount));
  }

  lemma SpentStage()
    ensures MovesOk(Spending())
    ensures var t := Run(Start(NONE), Spending());
            && Stage(t, SPENT, [0, 1]) && |t.s.refs| == 2
            && InPlace(t, 0, Pay("d", 5), PlainApplied("d", 5)) && InPlace(t, 1, Release("d", "e", USD, 5), ReleaseApplied("d", "e", 5))
  {
    hide Next, Stage, Start, Run, InPlace, ValidWorld, CreditsFit;
    PaidWorld();
    var run, t0 := Spending(), Start(NONE);
    Begins();
    RunNext(t0, run, 0); RunNext(t0, run, 1); RunNext(t0, run, 2); RunNext(t0, run, 3);
    Receives(t0, NONE, [], "d", 5);
    var t2 := Run(t0, run[..2]);
    assert [] + [0] == [0];
    PassesOn(t2, HELD, [0], "d", "e", 5);
    assert [0] + [1] == [0, 1];
    StaysInPlace(t2, Run(t0, run), 0, 1, Pay("d", 5), PlainApplied("d", 5));
  }

  lemma StaysInPlace(t: Tracked, t': Tracked, q: nat, r: nat, op: Transaction, ap: Applied)
    requires InPlace(t, q, op, ap) && OnlyRecord(t, t', r) && q != r
    ensures InPlace(t', q, op, ap)
  {
  }

  lemma PaidWorld()
    ensures Perform(NONE, Pay("d", 5)).0 == World(Add(NONE.ledger, "d", 5), map[]) == HELD
    ensures World(Credit(SatDebit(HELD.ledger, "d", 5), "e", 5), map[]) == SPENT
    ensures World(Add(SPENT.ledger, "d", 3), map[]) == TOPPED
    ensures CreditsFit(NONE, Pay("d", 5)) && CreditsFit(SPENT, Pay("d", 3)) && ValidWorld(NONE) && ValidWorld(HELD) && ValidWorld(SPENT)
    ensures Bal(HELD.ledger, "d") == 5
  {
  }

  /** Then `d` receives 3 more, and the 5 are reorged away. */
  function SpentAndPaid(): seq<Move> {
    Spending() + [SubmitMove(Transfer("d", USD, 3, None)), ConfirmMove(2), ReorgMove(0)]
  }

  lemma SpentAndPaidStage()
    ensures MovesOk(SpentAndPaid())
    ensures var t := Run(Start(NONE), SpentAndPaid());
            && Stage(t, Revert(TOPPED, PlainApplied("d", 5)), [1, 2]) && |t.s.refs| == 3
            && t.s.refs[1].op == Release("d", "e", USD, 5) && t.s.refs[2].op == Pay("d", 3)
  {
    hide Next, Stage, Start, Run, InPlace, ValidWorld, CreditsFit, Revert, Spending;
    SpentStage();
    PaidWorld();
    var run, t0 := SpentAndPaid(), Start(NONE);
    AfterSpending(run);
    RunNext(t0, run, 4); RunNext(t0, run, 5); RunNext(t0, run, 6);
    var t4, t6 := Run(t0, run[..4]), Run(t0, run[..6]);
    Receives(t4, SPENT, [0, 1], "d", 3);
    assert [0, 1] + [2] == [0, 1, 2];
    StaysInPlace(t4, t6, 0, 2, Pay("d", 5), PlainApplied("d", 5));
    StaysInPlace(t4, t6, 1, 2, Release("d", "e", USD, 5), ReleaseApplied("d", "e", 5));
    Reorgs(t6, TOPPED, [0, 1, 2], 0, Pay("d", 5), PlainApplied("d", 5));
    WithoutFirst();
    PlacedOps(t6, Run(t0, run));
  }

  lemma AfterSpending(run: seq<Move>)
    requires run == SpentAndPaid()
    ensures MovesOk(run) && |run| == 7 && run[..4] == Spending()
    ensures run[4] == SubmitMove(Transfer("d", USD, 3, None)) && run[5] == ConfirmMove(2) && run[6] == ReorgMove(0)
  {
  }

  lemma WithoutFirst()
    ensures Without([0, 1, 2], 0) == [1, 2] && Without([0, 1], 0) == [1]
  {
    var a: seq<nat>, b: seq<nat>, c: seq<nat> := [0], [0, 1], [0, 1, 2];
    assert c[..2] == b && b[..1] == a && a[..0] == [];
    assert Without(a, 0) == [] && Without(b, 0) == [1];
  }

  lemma PlacedOps(t: Tracked, t': Tracked)
    requires InPlace(t, 1, Release("d", "e", USD, 5), ReleaseApplied("d", "e", 5)) && InPlace(t, 2, Pay("d", 3), PlainApplied("d", 3))
    requires OnlyRecord(t, t', 0)
    ensures t'.s.refs[1].op == Release("d", "e", USD, 5) && t'.s.refs[2].op == Pay("d", 3)
  {
  }

  /** Harmless and covered as executed is not enough: from an empty chain `d` receives 5, passes them on and
      receives 3; a reorg of the 5 leaves it nothing, although the survivors alone give it 3. */
  lemma SpentThenReorged()
    ensures var w, j, later := NONE, Pay("d", 5), [Release("d", "e", USD, 5), Pay("d", 3)];
            && LogValid(w, later) && Harmless(w, j, later) && RoomBothWays(w, j, later)
            && Covered(w, j) && AllCovered(Perform(w, j).0, later)
            && MovesOk(SpentAndPaid())
            && var t := Run(Start(w), SpentAndPaid());
               && |t.s.refs| == 3 && t.order == [1, 2] && OpsOf(t.s, t.order) == later
               && Bal(t.s.world.ledger, "d") == 0 && Bal(Replay(w, later).ledger, "d") == 3
  {
    hide Run, Start, ValidChain;
    SpentAndPaidStage();
    SpentLog();
  }

  lemma SpentLog()
    ensures var w, j, later := NONE, Pay("d", 5), [Release("d", "e", USD, 5), Pay("d", 3)];
            && LogValid(w, later) && Harmless(w, j, later) && RoomBothWays(w, j, later)
            && Covered(w, j) && AllCovered(Perform(w, j).0, later) && Bal(Replay(w, later).ledger, "d") == 3
    ensures Bal(Revert(TOPPED, PlainApplied("d", 5)).ledger, "d") == 0
  {
    PaidWorld();
    TwoLater(NONE, Release("d", "e", USD, 5), Pay("d", 3));
    TwoLater(HELD, Release("d", "e", USD, 5), Pay("d", 3));
  }

  /** The 5 are reorged away right after they were passed on. */
  function SpentOnly(): seq<Move> { Spending() + [ReorgMove(0)] }

  lemma SpentOnlyStage()
    ensures MovesOk(SpentOnly())
    ensures var t := Run(Start(NONE), SpentOnly());
            Stage(t, Revert(SPENT, PlainApplied("d", 5)), [1]) && |t.s.refs| == 2 && t.s.refs[1].op == Release("d", "e", USD, 5)
  {
    hide Next, Stage, Start, Run, ValidWorld, Revert, Spending;
    SpentStage();
    PaidWorld();
    var run, t0 := SpentOnly(), Start(NONE);
    assert |Spending()| == 4 by { SpendingLength(); }
    assert run[..4] == Spending();
    RunNext(t0, run, 4);
    Reorgs(Run(t0, run[..4]), SPENT, [0, 1], 0, Pay("d", 5), PlainApplied("d", 5));
    WithoutFirst();
  }

  lemma SpendingLength()
    ensures |Spending()| == 4
  {
  }

  /** Two shortfalls can cancel: without the last receipt neither half of the coverage holds, and the reorg
      leaves exactly what its survivor alone would. */
  lemma ShortfallsCancel()
    ensures var w, j, later := NONE, Pay("d", 5), [Release("d", "e", USD, 5)];
            && LogValid(w, later) && Harmless(w, j, later) && RoomBothWays(w, j, later)
            && Covered(w, j) && AllCovered(Perform(w, j).0, later)
            && MovesOk(SpentOnly())
            && var (first, ap, _) := Perform(w, j);
               var t := Run(Start(w), SpentOnly());
               && !AllCovered(w, later) && !RevertCovered(Replay(first, later), ap)
               && |t.s.refs| == 2 && t.order == [1] && OpsOf(t.s, t.order) == later
               && t.s.world == Revert(Replay(first, later), ap) && Same(t.s.world, Replay(w, later))
  {
    hide Run, Start, ValidChain;
    SpentOnlyStage();
    PaidWorld();
    OneLater(NONE, Release("d", "e", USD, 5));
    OneLater(HELD, Release("d", "e", USD, 5));
  }

  // ---- a run that mints --------------------------------------------------------------------------------------

  /** One unit reaches an escrow; two releases of it are accepted before either is confirmed. */
  function TwoReleases(): seq<Move> {
    [SubmitMove(Transfer("escrow", USD, 1, None)), ConfirmMove(0),
     ReleaseMove("escrow", "payer", USD, 1), ReleaseMove("escrow", "payer", USD, 1), ConfirmMove(1), ConfirmMove(2)]
  }

  const ESCROWED := World(map["escrow" := 1], map[])
  const RELEASED := World(map["escrow" := 0, "payer" := 1], map[])
  const MINTED := World(map["escrow" := 0, "payer" := 2], map[])
  const RETURN := Release("escrow", "payer", USD, 1)

  lemma MintingWorlds()
    ensures ValidWorld(NONE) && ValidWorld(ESCROWED) && ValidWorld(RELEASED) && CreditsFit(NONE, Pay("escrow", 1))
    ensures World(Add(NONE.ledger, "escrow", 1), map[]) == ESCROWED && Bal(ESCROWED.ledger, "escrow") == 1
    ensures Perform(ESCROWED, RETURN).0 == RELEASED && Perform(RELEASED, RETURN).0 == MINTED
  {
  }

  /** From an empty chain one unit comes in and two arrive at the payer: the second release was covered
      when it was submitted and is not when it is confirmed. */
  lemma UncheckedDebitMints()
    ensures MovesOk(TwoReleases())
    ensures var t := Run(Start(World(map[], map[])), TwoReleases());
            Bal(t.s.world.ledger, "payer") == 2 && Bal(t.s.world.ledger, "escrow") == 0
  {
    hide Next, Start, Run, ValidWorld, CreditsFit, Perform, ValidChain, InPlace;
    MintingWorlds();
    var run, t0 := TwoReleases(), Start(NONE);
    Begins();
    RunNext(t0, run, 0); RunNext(t0, run, 1); RunNext(t0, run, 2); RunNext(t0, run, 3); RunNext(t0, run, 4); RunNext(t0, run, 5);
    Receives(t0, NONE, [], "escrow", 1);
    var t2 := Run(t0, run[..2]);
    ReleaseEntered(t2, ESCROWED, [] + [0], "escrow", "payer", 1);
    ReleaseEntered(Run(t0, run[..3]), ESCROWED, [] + [0], "escrow", "payer", 1);
    ReturnsConfirmed(Run(t0, run[..4]), [] + [0]);
  }

  lemma ReturnsConfirmed(t: Tracked, order: seq<nat>)
    requires Stage(t, ESCROWED, order) && Awaits(t, 1, RETURN) && Awaits(t, 2, RETURN)
    ensures Stage(Next(Next(t, ConfirmMove(1)), ConfirmMove(2)), MINTED, order + [1] + [2])
  {
    hide Next, ValidChain, ValidWorld, Perform, CreditsFit;
    MintingWorlds();
    ReturnsFit();
    Confirms(t, ESCROWED, order, 1, RETURN);
    Confirms(Next(t, ConfirmMove(1)), RELEASED, order + [1], 2, RETURN);
  }

  lemma ReturnsFit()
    ensures ValidWorld(ESCROWED) && ValidWorld(RELEASED) && CreditsFit(ESCROWED, RETURN) && CreditsFit(RELEASED, RETURN)
  {
  }
}
