/** One reference per settlement id and per release key, and at most one movement of value per
    reference, over any run of the reorg-capable rail, orderly or not. */
module AsyncHistory {
  import opened Instance
  import opened RailTypes
  import opened AsyncRail
  import opened AsyncReorg

  /** The only transitions a level makes. */
  predicate LevelStep(a: Level, b: Level) {
    match a
    case Submitted => true
    case Confirmed => b != Submitted
    case _ => b == a
  }

  predicate Follows(s: Chain, s': Chain) {
    && |s.refs| <= |s'.refs|
    && (forall r :: 0 <= r < |s.refs| ==> s'.refs[r].op == s.refs[r].op && LevelStep(s.refs[r].level, s'.refs[r].level))
    && (forall k <- s.settleIds :: k in s'.settleIds && s'.settleIds[k] == s.settleIds[k])
    && (forall k <- s.releaseKeys :: k in s'.releaseKeys && s'.releaseKeys[k] == s.releaseKeys[k])
  }

  /** One more submitted record at most, and no idempotency record changed. */
  lemma Appended(s: Chain, s': Chain)
    requires s'.refs == s.refs || (|s'.refs| == |s.refs| + 1 && s.refs <= s'.refs)
    requires s'.settleIds == s.settleIds || (forall k <- s.settleIds :: k in s'.settleIds && s'.settleIds[k] == s.settleIds[k])
    requires s'.releaseKeys == s.releaseKeys || (forall k <- s.releaseKeys :: k in s'.releaseKeys && s'.releaseKeys[k] == s.releaseKeys[k])
    ensures Follows(s, s')
  {
  }

  lemma OneRecord(s: Chain, s': Chain, r: nat)
    requires s'.settleIds == s.settleIds && s'.releaseKeys == s.releaseKeys
    requires s'.refs == s.refs
             || (r < |s.refs| && |s'.refs| == |s.refs| && s'.refs == s.refs[r := s'.refs[r]]
                 && s'.refs[r].op == s.refs[r].op && LevelStep(s.refs[r].level, s'.refs[r].level))
    ensures Follows(s, s')
  {
  }

  lemma SubmissionFollows(s: Chain, m: Move)
    requires ValidChain(s) && MoveOk(m) && (m.SubmitMove? || m.SettleMove? || m.ReleaseMove? || m.KeyedMove? || m.AdvanceMove?)
    ensures Follows(s, Apply(s, m))
  {
    hide ValidWorld, ValidApplied, OpValid, FundedP, Follows, ValidChain;
    Appended(s, Apply(s, m));
  }

  lemma ConfirmFollows(s: Chain, r: nat)
    requires ValidChain(s)
    ensures Follows(s, Confirm(s, r).0)
    ensures |Confirm(s, r).0.refs| == |s.refs|
    ensures LevelIs(s, r, Submitted) ==> Confirm(s, r).0.refs == s.refs || LevelIs(Confirm(s, r).0, r, Confirmed)
  {
    hide ValidWorld, ValidApplied, OpValid, Perform, CreditsFit, Follows, ValidChain;
    OneRecord(s, Confirm(s, r).0, r);
  }

  lemma FinalizeFollows(s: Chain, r: nat)
    requires ValidChain(s)
    ensures Follows(s, Finalize(s, r).0)
  {
    hide ValidWorld, ValidApplied, OpValid, ValidChain, Confirm;
    ConfirmFollows(s, r);
  }

  lemma ReorgFollows(s: Chain, r: nat)
    requires ValidChain(s)
    ensures Follows(s, Reorg(s, r).0) && Follows(s, Drop(s, r))
  {
    if LevelIs(s, r, Confirmed) { AppliedWhenConfirmed(s, r); }
    hide ValidWorld, ValidApplied, OpValid, Revert, Follows, ValidChain;
    OneRecord(s, Reorg(s, r).0, r);
    OneRecord(s, Drop(s, r), r);
  }

  lemma AppliedWhenConfirmed(s: Chain, r: nat)
    requires ValidChain(s) && r < |s.refs| && s.refs[r].level == Confirmed
    ensures s.refs[r].applied.Some?
  {
  }

  lemma StepFollows(s: Chain, m: Move)
    requires ValidChain(s) && MoveOk(m)
    ensures Follows(s, Apply(s, m))
  {
    hide ValidChain, Follows, Confirm, Finalize, Reorg, Drop, Submit, Settle, SubmitRelease, ReleaseKeyed, SubmitAdvance;
    match m
    case ConfirmMove(r) => ConfirmFollows(s, r);
    case FinalizeMove(r) => FinalizeFollows(s, r);
    case DropMove(r) => ReorgFollows(s, r);
    case ReorgMove(r) => ReorgFollows(s, r);
    case Tick(_) => Appended(s, Apply(s, m));
    case SetOutage(_) => Appended(s, Apply(s, m));
    case _ => SubmissionFollows(s, m);
  }

  lemma {:induction false} RunFollows(t: Tracked, run: seq<Move>)
    requires ValidChain(t.s) && MovesOk(run)
    ensures Follows(t.s, Run(t, run).s)
  {
    hide Apply, ValidChain;
    if |run| > 0 {
      RunFollows(t, run[..|run| - 1]);
      StepFollows(Run(t, run[..|run| - 1]).s, run[|run| - 1]);
    }
  }

  /** How often value moves for reference `r` during the run. */
  function Movements(t: Tracked, run: seq<Move>, r: nat): nat
    requires ValidChain(t.s) && MovesOk(run)
  {
    if |run| == 0 then 0
    else
      var mid := Run(t, run[..|run| - 1]);
      Movements(t, run[..|run| - 1], r)
      + if LevelIs(mid.s, r, Submitted) && InForce(Next(mid, run[|run| - 1]).s, r) then 1 else 0
  }

  lemma {:induction false} MovesAtMostOnce(t: Tracked, run: seq<Move>, r: nat)
    requires ValidChain(t.s) && MovesOk(run)
    ensures Movements(t, run, r) <= 1
    ensures r < |Run(t, run).s.refs| && Run(t, run).s.refs[r].level == Submitted ==> Movements(t, run, r) == 0
    ensures r >= |Run(t, run).s.refs| ==> Movements(t, run, r) == 0
  {
    hide Apply, ValidChain;
    if |run| > 0 {
      MovesAtMostOnce(t, run[..|run| - 1], r);
      StepFollows(Run(t, run[..|run| - 1]).s, run[|run| - 1]);
    }
  }

  /** The id names one reference for good, whatever is presented with it later, and value moves for
      that reference at most once. */
  lemma SettleIdMovesOnce(t: Tracked, tr: Transfer, id: Word, run: seq<Move>, again: Transfer)
    requires ValidChain(t.s) && MovesOk(run) && Settle(t.s, tr, id).1.Ref?
    ensures var (s1, reply) := Settle(t.s, tr, id);
            var last := Run(Tracked(s1, t.order), run).s;
            && Settle(last, again, id) == (last, reply)
            && Movements(Tracked(s1, t.order), run, reply.r) <= 1
  {
    hide ValidChain, Apply;
    var (s1, reply) := Settle(t.s, tr, id);
    RunFollows(Tracked(s1, t.order), run);
    MovesAtMostOnce(Tracked(s1, t.order), run, reply.r);
  }

  /** The same for keyed releases; once its reference was dropped the release is answered with that
      reference again and value never moves for it. */
  lemma ReleaseKeyMovesOnce(t: Tracked, m: Move, run: seq<Move>, m': Move)
    requires ValidChain(t.s) && MovesOk(run) && m.KeyedMove? && m'.KeyedMove? && m'.c == m.c && m'.ckpt == m.ckpt
    requires ReleaseKeyed(t.s, m.c, m.ckpt, m.src, m.to, m.asset, m.amount).1.Ref?
    ensures var (s1, reply) := ReleaseKeyed(t.s, m.c, m.ckpt, m.src, m.to, m.asset, m.amount);
            var last := Run(Tracked(s1, t.order), run).s;
            && ReleaseKeyed(last, m'.c, m'.ckpt, m'.src, m'.to, m'.asset, m'.amount) == (last, reply)
            && Movements(Tracked(s1, t.order), run, reply.r) <= 1
            && (LevelIs(s1, reply.r, Dropped) ==>
                  Movements(Tracked(s1, t.order), run, reply.r) == 0 && LevelIs(last, reply.r, Dropped))
  {
    hide ValidChain, Apply;
    var (s1, reply) := ReleaseKeyed(t.s, m.c, m.ckpt, m.src, m.to, m.asset, m.amount);
    RunFollows(Tracked(s1, t.order), run);
    MovesAtMostOnce(Tracked(s1, t.order), run, reply.r);
    if LevelIs(s1, reply.r, Dropped) { DroppedStays(Tracked(s1, t.order), run, reply.r); }
  }

  lemma {:induction false} DroppedStays(t: Tracked, run: seq<Move>, r: nat)
    requires ValidChain(t.s) && MovesOk(run) && LevelIs(t.s, r, Dropped)
    ensures LevelIs(Run(t, run).s, r, Dropped) && Movements(t, run, r) == 0
  {
    hide Apply, ValidChain;
    if |run| > 0 {
      DroppedStays(t, run[..|run| - 1], r);
      StepFollows(Run(t, run[..|run| - 1]).s, run[|run| - 1]);
    }
  }

  /** Finality is irreversible: a finalized operation stays in the log of survivors, and a reorg of it
      is refused and changes nothing. */
  lemma {:induction false} FinalizedSurvives(t: Tracked, run: seq<Move>, r: nat)
    requires ValidChain(t.s) && MovesOk(run) && LevelIs(t.s, r, Finalized) && r in t.order
    ensures var t' := Run(t, run);
            LevelIs(t'.s, r, Finalized) && r in t'.order && Reorg(t'.s, r) == (t'.s, false)
  {
    if |run| > 0 {
      hide Apply, ValidChain;
      var mid, m := Run(t, run[..|run| - 1]), run[|run| - 1];
      FinalizedSurvives(t, run[..|run| - 1], r);
      StepFollows(mid.s, m);
      if m.ReorgMove? && LevelIs(mid.s, m.r, Confirmed) { WithoutKeeps(mid.order, m.r, r); }
    }
  }

  lemma {:induction false} WithoutKeeps(order: seq<nat>, x: nat, r: nat)
    requires r in order && r != x
    ensures r in Without(order, x)
  {
    var n := |order| - 1;
    if order[n] != r { WithoutKeeps(order[..n], x, r); }
  }
}
