/** Reorg soundness: after any run whose reorgs hit the latest confirmed surviving operation, the
    rail's balances and watermarks are those of confirming only the survivors, once, in order. */
module AsyncReorg {
  import opened Instance
  import opened Options
  import opened RailTypes
  import opened AsyncRail

  datatype Move =
    | Tick(secs: nat)
    | SetOutage(on: bool)
    | SubmitMove(t: Transfer)
    | SettleMove(t: Transfer, id: Word)
    | ReleaseMove(src: Address, to: Address, asset: Asset, amount: nat)
    | KeyedMove(c: ChannelId, ckpt: CkptRef, src: Address, to: Address, asset: Asset, amount: nat)
    | AdvanceMove(from: Option<Address>, addr: Address, c: ChannelId, target: nat, asset: Asset)
    | ConfirmMove(r: nat)
    | FinalizeMove(r: nat)
    | DropMove(r: nat)
    | ReorgMove(r: nat)

  predicate MoveOk(m: Move) { m.AdvanceMove? ==> m.target <= U128_MAX }

  function Apply(s: Chain, m: Move): (s': Chain)
    requires ValidChain(s) && MoveOk(m)
    ensures ValidChain(s')
  {
    match m
    case Tick(secs) => s.(clock := s.clock + secs)
    case SetOutage(on) => s.(outage := on)
    case SubmitMove(t) => Submit(s, t).0
    case SettleMove(t, id) => Settle(s, t, id).0
    case ReleaseMove(src, to, asset, amount) => SubmitRelease(s, src, to, asset, amount).0
    case KeyedMove(c, ckpt, src, to, asset, amount) => ReleaseKeyed(s, c, ckpt, src, to, asset, amount).0
    case AdvanceMove(from, addr, c, target, asset) => SubmitAdvance(s, from, addr, c, target, asset).0
    case ConfirmMove(r) => Confirm(s, r).0
    case FinalizeMove(r) => Finalize(s, r).0
    case DropMove(r) => Drop(s, r)
    case ReorgMove(r) => Reorg(s, r).0
  }

  predicate LevelIs(s: Chain, r: nat, l: Level) { r < |s.refs| && s.refs[r].level == l }

  predicate InForce(s: Chain, r: nat) { LevelIs(s, r, Confirmed) || LevelIs(s, r, Finalized) }

  /** The rail together with the references whose value is in force, in confirmation order. */
  datatype Tracked = Tracked(s: Chain, order: seq<nat>)

  function Without(order: seq<nat>, r: nat): seq<nat> {
    if |order| == 0 then []
    else Without(order[..|order| - 1], r) + if order[|order| - 1] == r then [] else [order[|order| - 1]]
  }

  function Next(t: Tracked, m: Move): (t': Tracked)
    requires ValidChain(t.s) && MoveOk(m)
    ensures ValidChain(t'.s)
  {
    var s' := Apply(t.s, m);
    Tracked(s',
      match m
      case ConfirmMove(r) => if LevelIs(t.s, r, Submitted) && InForce(s', r) then t.order + [r] else t.order
      case FinalizeMove(r) => if LevelIs(t.s, r, Submitted) && InForce(s', r) then t.order + [r] else t.order
      case ReorgMove(r) => if LevelIs(t.s, r, Confirmed) then Without(t.order, r) else t.order
      case _ => t.order)
  }

  predicate MovesOk(run: seq<Move>) { forall i :: 0 <= i < |run| ==> MoveOk(run[i]) }

  function Run(t: Tracked, run: seq<Move>): (t': Tracked)
    requires ValidChain(t.s) && MovesOk(run)
    ensures ValidChain(t'.s)
  {
    if |run| == 0 then t else Next(Run(t, run[..|run| - 1]), run[|run| - 1])
  }

  function OpsOf(s: Chain, order: seq<nat>): (log: seq<Transaction>)
    requires forall i :: 0 <= i < |order| ==> order[i] < |s.refs|
    ensures |log| == |order|
  {
    seq(|order|, i requires 0 <= i < |order| => s.refs[order[i]].op)
  }

  ghost predicate Listed(t: Tracked) {
    && (forall i :: 0 <= i < |t.order| ==> InForce(t.s, t.order[i]))
    && (forall i, j :: 0 <= i < j < |t.order| ==> t.order[i] != t.order[j])
    && (forall r :: InForce(t.s, r) ==> r in t.order)
  }

  /** The undo record of the log's `k`-th operation is what confirming it in its place yields. */
  ghost predicate RecordAt(w0: World, log: seq<Transaction>, k: nat, applied: Option<Applied>)
    requires ValidWorld(w0) && k < |log|
  {
    && LogValid(w0, log[..k]) && OpValid(Replay(w0, log[..k]), log[k])
    && applied == Some(Perform(Replay(w0, log[..k]), log[k]).1)
  }

  lemma RecordPrefix(w0: World, log: seq<Transaction>, log': seq<Transaction>, k: nat, applied: Option<Applied>)
    requires ValidWorld(w0) && k < |log| && k < |log'| && log'[..k] == log[..k] && log'[k] == log[k]
    requires RecordAt(w0, log, k, applied)
    ensures RecordAt(w0, log', k, applied)
  {
  }

  ghost predicate UndoRecords(w0: World, t: Tracked)
    requires Listed(t) && ValidWorld(w0)
  {
    forall k :: 0 <= k < |t.order| ==> RecordAt(w0, OpsOf(t.s, t.order), k, t.s.refs[t.order[k]].applied)
  }

  ghost predicate Consistent(w0: World, t: Tracked) {
    && ValidWorld(w0) && ValidChain(t.s) && SameDeployment(w0, t.s.world) && Listed(t)
    && var log := OpsOf(t.s, t.order);
    && LogValid(w0, log) && AllCovered(w0, log)
    && Same(t.s.world, Replay(w0, log))
    && UndoRecords(w0, t)
  }

  /** Debits are covered when value moves, and a reorg hits the latest confirmed survivor. */
  ghost predicate Orderly(t: Tracked, m: Move)
    requires ValidChain(t.s)
  {
    match m
    case ConfirmMove(r) => LevelIs(t.s, r, Submitted) ==> Covered(t.s.world, t.s.refs[r].op)
    case FinalizeMove(r) => LevelIs(t.s, r, Submitted) ==> Covered(t.s.world, t.s.refs[r].op)
    case ReorgMove(r) => LevelIs(t.s, r, Confirmed) ==> |t.order| > 0 && t.order[|t.order| - 1] == r
    case _ => true
  }

  ghost predicate OrderlyRun(t: Tracked, run: seq<Move>)
    requires ValidChain(t.s) && MovesOk(run)
  {
    |run| == 0 || (OrderlyRun(t, run[..|run| - 1]) && Orderly(Run(t, run[..|run| - 1]), run[|run| - 1]))
  }

  // ---- one move ------------------------------------------------------------------------------------

  /** Moves that touch no value keep every operation and every record in force. */
  ghost predicate Quiet(t: Tracked, t': Tracked) {
    && t'.order == t.order && t'.s.world == t.s.world && |t.s.refs| <= |t'.s.refs|
    && (forall r :: 0 <= r < |t.s.refs| ==>
          && t'.s.refs[r].op == t.s.refs[r].op && t'.s.refs[r].applied == t.s.refs[r].applied
          && (InForce(t'.s, r) <==> InForce(t.s, r)))
    && (forall r :: |t.s.refs| <= r < |t'.s.refs| ==> !InForce(t'.s, r))
  }

  lemma QuietConsistent(w0: World, t: Tracked, t': Tracked)
    requires Consistent(w0, t) && Quiet(t, t') && ValidChain(t'.s)
    ensures Consistent(w0, t')
  {
    hide Perform, ValidWorld, Replay, AllCovered, Same, SameDeployment, ValidChain;
    assert forall i :: 0 <= i < |t.order| ==> InForce(t.s, t.order[i]);
    assert OpsOf(t'.s, t'.order) == OpsOf(t.s, t.order);
  }

  predicate Valueless(t: Tracked, m: Move) {
    match m
    case ConfirmMove(r) => !LevelIs(t.s, r, Submitted)
    case FinalizeMove(r) => !LevelIs(t.s, r, Submitted)
    case ReorgMove(r) => !LevelIs(t.s, r, Confirmed)
    case _ => true
  }

  lemma ValuelessQuiet(t: Tracked, m: Move)
    requires ValidChain(t.s) && MoveOk(m) && Valueless(t, m)
    ensures Quiet(t, Next(t, m))
  {
    hide ValidChain, Apply, Quiet;
    if m.ConfirmMove? || m.FinalizeMove? || m.ReorgMove? || m.DropMove? { LevelsQuiet(t, m); } else { SubmissionsQuiet(t, m); }
  }

  lemma LevelsQuiet(t: Tracked, m: Move)
    requires ValidChain(t.s) && MoveOk(m) && Valueless(t, m) && (m.ConfirmMove? || m.FinalizeMove? || m.ReorgMove? || m.DropMove?)
    ensures Quiet(t, Next(t, m))
  {
    hide ValidWorld, ValidApplied, OpValid, Perform, Revert;
  }

  lemma SubmissionsQuiet(t: Tracked, m: Move)
    requires ValidChain(t.s) && MoveOk(m) && !(m.ConfirmMove? || m.FinalizeMove? || m.ReorgMove? || m.DropMove?)
    ensures Quiet(t, Next(t, m))
  {
    hide ValidChain;
    match m
    case KeyedMove(_, _, _, _, _, _) => KeyedQuiet(t, m);
    case _ => EnteredQuiet(t, m);
  }

  lemma KeyedQuiet(t: Tracked, m: Move)
    requires ValidChain(t.s) && m.KeyedMove?
    ensures Quiet(t, Next(t, m))
  {
    hide ValidChain;
  }

  lemma EnteredQuiet(t: Tracked, m: Move)
    requires ValidChain(t.s) && MoveOk(m) && !(m.ConfirmMove? || m.FinalizeMove? || m.ReorgMove? || m.DropMove? || m.KeyedMove?)
    ensures Quiet(t, Next(t, m))
  {
    hide ValidChain;
  }

  /** Value moves for reference `r`: its operation joins the end of the log. */
  ghost predicate Joined(t: Tracked, t': Tracked, r: nat)
    requires ValidChain(t.s) && r < |t.s.refs|
  {
    var (w, ap, _) := Perform(t.s.world, t.s.refs[r].op);
    && t'.order == t.order + [r] && t'.s.world == w && |t'.s.refs| == |t.s.refs|
    && t'.s.refs[r].op == t.s.refs[r].op && t'.s.refs[r].applied == Some(ap) && InForce(t'.s, r)
    && forall q :: 0 <= q < |t.s.refs| && q != r ==> t'.s.refs[q] == t.s.refs[q]
  }

  /** Confirming on the rail and confirming at the end of the replay agree. */
  lemma LogGrows(w0: World, log: seq<Transaction>, w: World, op: Transaction)
    requires ValidWorld(w0) && LogValid(w0, log) && AllCovered(w0, log) && SameDeployment(w0, w)
    requires ValidWorld(w) && Same(w, Replay(w0, log)) && OpValid(w, op) && Covered(w, op)
    ensures LogValid(w0, log + [op]) && AllCovered(w0, log + [op])
    ensures OpValid(Replay(w0, log), op) && Perform(w, op).1 == Perform(Replay(w0, log), op).1
    ensures Same(Perform(w, op).0, Replay(w0, log + [op]))
  {
    hide Perform, ValidWorld, Covered, Same;
    assert (log + [op])[..|log|] == log;
    OpStaysValid(w, w0, op);
    OpStaysValid(w, Replay(w0, log), op);
    SamePerform(w, Replay(w0, log), op);
  }

  /** Reverting on the rail takes the last operation off the replay. */
  lemma LogShrinks(w0: World, log: seq<Transaction>, w: World)
    requires ValidWorld(w0) && LogValid(w0, log) && AllCovered(w0, log) && |log| > 0 && Same(w, Replay(w0, log))
    ensures var n := |log| - 1;
            && LogValid(w0, log[..n]) && AllCovered(w0, log[..n]) && OpValid(Replay(w0, log[..n]), log[n])
            && Same(Revert(w, Perform(Replay(w0, log[..n]), log[n]).1), Replay(w0, log[..n]))
  {
    hide Perform, Revert, ValidWorld, Covered, ValidApplied;
    var n := |log| - 1;
    var before := Replay(w0, log[..n]);
    OpStaysValid(w0, before, log[n]);
    RevertUndoes(before, log[n]);
    RevertIsCovered(before, log[n]);
    SameRevert(w, Replay(w0, log), Perform(before, log[n]).1);
  }

  lemma JoinedConsistent(w0: World, t: Tracked, t': Tracked, r: nat)
    requires Consistent(w0, t) && LevelIs(t.s, r, Submitted) && Covered(t.s.world, t.s.refs[r].op)
    requires Joined(t, t', r) && ValidChain(t'.s)
    ensures Consistent(w0, t')
  {
    hide Perform, ValidWorld, Covered, ValidApplied, AllCovered, Replay, Same;
    var log, op := OpsOf(t.s, t.order), t.s.refs[r].op;
    assert r !in t.order by { assert forall i :: 0 <= i < |t.order| ==> InForce(t.s, t.order[i]); }
    ListedJoin(t, t', r);
    LogGrows(w0, log, t.s.world, op);
    DeploymentTrans(w0, t.s.world, t'.s.world);
    JoinedLog(t, t', r);
    JoinedRecords(w0, t, t', r);
  }

  lemma JoinedLog(t: Tracked, t': Tracked, r: nat)
    requires ValidChain(t.s) && Listed(t) && Listed(t') && LevelIs(t.s, r, Submitted) && Joined(t, t', r)
    ensures OpsOf(t'.s, t'.order) == OpsOf(t.s, t.order) + [t.s.refs[r].op]
  {
    hide Perform, ValidChain;
    assert r !in t.order by { assert forall i :: 0 <= i < |t.order| ==> InForce(t.s, t.order[i]); }
  }

  lemma JoinedRecords(w0: World, t: Tracked, t': Tracked, r: nat)
    requires ValidWorld(w0) && ValidChain(t.s) && Listed(t) && Listed(t') && LevelIs(t.s, r, Submitted) && Joined(t, t', r)
    requires LogValid(w0, OpsOf(t.s, t.order)) && LogValid(w0, OpsOf(t'.s, t'.order)) && UndoRecords(w0, t)
    requires OpValid(Replay(w0, OpsOf(t.s, t.order)), t.s.refs[r].op)
    requires Perform(t.s.world, t.s.refs[r].op).1 == Perform(Replay(w0, OpsOf(t.s, t.order)), t.s.refs[r].op).1
    ensures UndoRecords(w0, t')
  {
    hide Perform, Replay, ValidWorld, ValidApplied, RecordAt, LogValid, OpValid, ValidChain;
    JoinedLog(t, t', r);
    var log, log' := OpsOf(t.s, t.order), OpsOf(t'.s, t'.order);
    forall k | 0 <= k < |t'.order| ensures RecordAt(w0, log', k, t'.s.refs[t'.order[k]].applied) {
      if k < |log| {
        assert log'[..k] == log[..k] && log'[k] == log[k] && t'.order[k] == t.order[k];
        assert InForce(t.s, t.order[k]) && !InForce(t.s, r);
        RecordPrefix(w0, log, log', k, t.s.refs[t.order[k]].applied);
      } else {
        LastRecord(w0, log, t.s.refs[r].op, t'.s.refs[r].applied);
      }
    }
  }

  lemma LastRecord(w0: World, log: seq<Transaction>, op: Transaction, applied: Option<Applied>)
    requires ValidWorld(w0) && LogValid(w0, log) && OpValid(Replay(w0, log), op)
    requires applied == Some(Perform(Replay(w0, log), op).1)
    ensures RecordAt(w0, log + [op], |log|, applied)
  {
    assert (log + [op])[..|log|] == log;
  }

  lemma ListedJoin(t: Tracked, t': Tracked, r: nat)
    requires Listed(t) && t'.order == t.order + [r] && r !in t.order && |t'.s.refs| == |t.s.refs| && InForce(t'.s, r)
    requires forall q :: 0 <= q < |t.s.refs| && q != r ==> t'.s.refs[q] == t.s.refs[q]
    ensures Listed(t')
  {
    forall q | InForce(t'.s, q) ensures q in t'.order {
      if q == r {
        assert t'.order[|t.order|] == r;
      } else {
        assert InForce(t.s, q);
      }
    }
  }

  lemma DeploymentTrans(a: World, b: World, c: World)
    requires SameDeployment(a, b) && SameDeployment(b, c)
    ensures SameDeployment(a, c)
  {
  }

  /** The latest survivor is reorged away: its operation leaves the end of the log. */
  ghost predicate Left(t: Tracked, t': Tracked)
    requires Listed(t) && |t.order| > 0
  {
    var n := |t.order| - 1;
    var r := t.order[n];
    && t.s.refs[r].applied.Some?
    && t'.order == t.order[..n] && t'.s.world == Revert(t.s.world, t.s.refs[r].applied.value)
    && |t'.s.refs| == |t.s.refs| && !InForce(t'.s, r)
    && forall q :: 0 <= q < |t.s.refs| && q != r ==> t'.s.refs[q] == t.s.refs[q]
  }

  lemma ReorgLeaves(t: Tracked, r: nat)
    requires ValidChain(t.s) && Listed(t) && LevelIs(t.s, r, Confirmed) && |t.order| > 0 && t.order[|t.order| - 1] == r
    ensures Left(t, Next(t, ReorgMove(r)))
  {
    hide ValidWorld, ValidApplied, Revert, OpValid;
    WithoutLast(t.order);
  }

  lemma LeftConsistent(w0: World, t: Tracked, t': Tracked)
    requires Consistent(w0, t) && |t.order| > 0 && Left(t, t') && ValidChain(t'.s)
    ensures Consistent(w0, t')
  {
    hide Perform, ValidWorld, Covered, ValidApplied, AllCovered, Replay, Same, Revert;
    var log, n := OpsOf(t.s, t.order), |t.order| - 1;
    LogShrinks(w0, log, t.s.world);
    DeploymentTrans(w0, t.s.world, t'.s.world);
    ListedLeave(t, t', t.order[n]);
    assert OpsOf(t'.s, t'.order) == log[..n] by { assert forall i :: 0 <= i < n ==> t'.order[i] != t.order[n]; }
    LeftRecords(w0, t, t');
  }

  lemma LeftRecords(w0: World, t: Tracked, t': Tracked)
    requires ValidWorld(w0) && Listed(t) && Listed(t') && |t.order| > 0 && Left(t, t')
    requires LogValid(w0, OpsOf(t.s, t.order)) && LogValid(w0, OpsOf(t'.s, t'.order)) && UndoRecords(w0, t)
    requires OpsOf(t'.s, t'.order) == OpsOf(t.s, t.order)[..|t.order| - 1]
    ensures UndoRecords(w0, t')
  {
    hide Perform, Replay, ValidWorld, ValidApplied, Revert, RecordAt, LogValid;
    var log, log' := OpsOf(t.s, t.order), OpsOf(t'.s, t'.order);
    forall k | 0 <= k < |t'.order| ensures RecordAt(w0, log', k, t'.s.refs[t'.order[k]].applied) {
      assert log'[..k] == log[..k] && log'[k] == log[k] && t'.order[k] == t.order[k] != t.order[|t.order| - 1];
      RecordPrefix(w0, log, log', k, t.s.refs[t.order[k]].applied);
    }
  }

  lemma {:induction false} WithoutAbsent(order: seq<nat>, r: nat)
    requires r !in order
    ensures Without(order, r) == order
  {
    if |order| > 0 {
      assert order[|order| - 1] in order;
      WithoutAbsent(order[..|order| - 1], r);
    }
  }

  lemma WithoutLast(order: seq<nat>)
    requires |order| > 0 && forall i, j :: 0 <= i < j < |order| ==> order[i] != order[j]
    ensures Without(order, order[|order| - 1]) == order[..|order| - 1]
  {
    WithoutAbsent(order[..|order| - 1], order[|order| - 1]);
  }

  lemma ListedLeave(t: Tracked, t': Tracked, r: nat)
    requires Listed(t) && |t.order| > 0 && t.order[|t.order| - 1] == r && t'.order == t.order[..|t.order| - 1]
    requires |t'.s.refs| == |t.s.refs| && !InForce(t'.s, r)
    requires forall q :: 0 <= q < |t.s.refs| && q != r ==> t'.s.refs[q] == t.s.refs[q]
    ensures Listed(t')
  {
    forall q | InForce(t'.s, q) ensures q in t'.order {
      assert InForce(t.s, q);
      var i :| 0 <= i < |t.order| && t.order[i] == q;
      assert t'.order[i] == q;
    }
  }

  lemma ConfirmJoins(t: Tracked, m: Move)
    requires ValidChain(t.s) && (m.ConfirmMove? || m.FinalizeMove?) && LevelIs(t.s, m.r, Submitted)
    ensures Next(t, m) == t || Joined(t, Next(t, m), m.r)
  {
    hide Perform, ValidWorld, ValidApplied, OpValid;
  }

  lemma OrderlyStep(w0: World, t: Tracked, m: Move)
    requires Consistent(w0, t) && MoveOk(m) && Orderly(t, m)
    ensures Consistent(w0, Next(t, m))
  {
    hide Listed, Same, AllCovered, UndoRecords, Joined, Quiet, Left, Apply, Next;
    if Valueless(t, m) {
      ValuelessQuiet(t, m);
      QuietConsistent(w0, t, Next(t, m));
    } else if m.ReorgMove? {
      ReorgLeaves(t, m.r);
      LeftConsistent(w0, t, Next(t, m));
    } else {
      ConfirmJoins(t, m);
      if Next(t, m) != t { JoinedConsistent(w0, t, Next(t, m), m.r); }
    }
  }

  function Start(w0: World): (t: Tracked)
    requires ValidWorld(w0)
    ensures ValidChain(t.s)
  {
    Tracked(Chain(1_000_000_000, false, w0, [], map[], map[]), [])
  }

  /** The theorem over whole runs: in every reachable state the rail is the replay of its survivors. */
  lemma {:induction false} ReorgSoundness(w0: World, run: seq<Move>)
    requires ValidWorld(w0) && MovesOk(run) && OrderlyRun(Start(w0), run)
    ensures Consistent(w0, Run(Start(w0), run))
  {
    hide Consistent, Next, Orderly;
    if |run| == 0 {
      StartConsistent(w0);
    } else {
      ReorgSoundness(w0, run[..|run| - 1]);
      OrderlyStep(w0, Run(Start(w0), run[..|run| - 1]), run[|run| - 1]);
    }
  }

  lemma StartConsistent(w0: World)
    requires ValidWorld(w0)
    ensures Consistent(w0, Start(w0))
  {
    assert OpsOf(Start(w0).s, []) == [];
  }
}
