/** The reorg-capable rail: a submitted operation moves value when it is confirmed, and a reorg of a
    confirmed, not yet finalized operation moves it back. */
module AsyncRail {
  import opened Instance
  import opened Ledger
  import opened Options
  import opened RailTypes

  datatype Level = Submitted | Confirmed | Finalized | Dropped

  datatype Transaction =
    | Plain(to: Address, asset: Asset, amount: nat, memo: Option<Word>)
    | Release(src: Address, to: Address, asset: Asset, amount: nat)
    | Advancing(from: Option<Address>, addr: Address, c: ChannelId, target: nat, asset: Asset)

  /** What a confirmed operation moved, kept so that a reorg can move it back. */
  datatype Applied =
    | PlainApplied(to: Address, amount: nat)
    | ReleaseApplied(src: Address, to: Address, amount: nat)
    | AdvanceApplied(from: Option<Address>, addr: Address, c: ChannelId, delta: nat, payouts: seq<Payout>, snapshot: Snapshot)

  /** Balances and instances: everything `apply` and `revert` touch. */
  datatype World = World(ledger: Book, instances: map<Address, State>)

  datatype TxRecord = TxRecord(level: Level, op: Transaction, applied: Option<Applied>, info: Option<RefInfo>)

  datatype Chain = Chain(
    clock: nat, outage: bool, world: World, refs: seq<TxRecord>,
    settleIds: map<Word, nat>, releaseKeys: map<(ChannelId, CkptRef), nat>)

  predicate ValidWorld(w: World) { forall a <- w.instances :: Valid(w.instances[a]) }

  predicate OpValid(w: World, op: Transaction) {
    op.Advancing? ==> op.addr in w.instances && op.target <= U128_MAX
  }

  /** A snapshot that an instance dividing by `meed` could have held. */
  predicate SnapshotOk(meed: seq<MeedShare>, snap: Snapshot) {
    snap.Record? ==> BpTotal(meed) > 0 && 0 < snap.w.funded <= U128_MAX && snap.w == WatermarkAt(meed, snap.w.funded)
  }

  predicate ValidApplied(w: World, ap: Applied) {
    ap.AdvanceApplied? ==> ap.addr in w.instances && SnapshotOk(w.instances[ap.addr].meed, ap.snapshot)
  }

  /** Deployments and their division vectors never change. */
  predicate SameDeployment(w: World, v: World) {
    v.instances.Keys == w.instances.Keys && forall a <- w.instances :: v.instances[a].meed == w.instances[a].meed
  }

  // ---- moving value --------------------------------------------------------------------------

  function SatDebit(l: Book, a: Address, x: nat): Book {
    if a in l then l[a := if l[a] >= x then l[a] - x else 0] else l
  }

  function SatDebitAll(l: Book, ps: seq<Payout>): Book {
    if |ps| == 0 then l
    else SatDebit(SatDebitAll(l, ps[..|ps| - 1]), ps[|ps| - 1].dest, ps[|ps| - 1].amount)
  }

  /** Overflow-checked credits: meaningful only where they fit. */
  function Add(l: Book, a: Address, x: nat): Book { l[a := Bal(l, a) + x] }

  function AddAll(l: Book, ps: seq<Payout>): Book {
    if |ps| == 0 then l else Add(AddAll(l, ps[..|ps| - 1]), ps[|ps| - 1].dest, ps[|ps| - 1].amount)
  }

  function DebitFrom(l: Book, from: Option<Address>, delta: nat): Book {
    if from.Some? && delta > 0 then SatDebit(l, from.value, delta) else l
  }

  function BareInfo(to: Address, asset: Asset, amount: nat): RefInfo {
    RefInfo(to, asset, amount, None, None, None, None, 0)
  }

  function Perform(w: World, op: Transaction): (x: (World, Applied, RefInfo))
    requires ValidWorld(w) && OpValid(w, op)
    ensures ValidWorld(x.0) && SameDeployment(w, x.0) && ValidApplied(w, x.1)
  {
    match op
    case Plain(to, asset, amount, memo) =>
      (w.(ledger := Add(w.ledger, to, amount)), PlainApplied(to, amount), BareInfo(to, asset, amount).(memo := memo))
    case Release(src, to, asset, amount) =>
      (w.(ledger := Credit(SatDebit(w.ledger, src, amount), to, amount)), ReleaseApplied(src, to, amount), BareInfo(to, asset, amount))
    case Advancing(from, addr, c, target, asset) =>
      var s := w.instances[addr];
      var (s', adv) := Advance(s, c, target);
      (World(AddAll(DebitFrom(w.ledger, from, adv.delta), adv.payouts), w.instances[addr := s']),
       AdvanceApplied(from, addr, c, adv.delta, adv.payouts, TakeSnapshot(s, c)),
       BareInfo(addr, asset, adv.delta).(advanced := Some(AdvancedFact(c, s.seed, adv.funded, adv.delta, asset))))
  }

  /** No checked credit of the operation overflows. */
  predicate CreditsFit(w: World, op: Transaction)
    requires ValidWorld(w) && OpValid(w, op)
  {
    op.Release? || forall a <- Perform(w, op).0.ledger :: Perform(w, op).0.ledger[a] <= U128_MAX
  }

  lemma RestoreValid(s: State, c: ChannelId, snap: Snapshot)
    requires Valid(s) && SnapshotOk(s.meed, snap)
    ensures Valid(Restore(s, c, snap))
  {
    var s' := Restore(s, c, snap);
    assert forall id <- s'.entries :: ValidEntry(s', id) by { assert forall id <- s.entries :: ValidEntry(s, id); }
  }

  function Revert(w: World, ap: Applied): (w': World)
    ensures SameDeployment(w, w')
    ensures ValidWorld(w) && ValidApplied(w, ap) ==> ValidWorld(w')
  {
    match ap
    case PlainApplied(to, amount) => w.(ledger := SatDebit(w.ledger, to, amount))
    case ReleaseApplied(src, to, amount) => w.(ledger := Add(SatDebit(w.ledger, to, amount), src, amount))
    case AdvanceApplied(from, addr, c, delta, payouts, snapshot) =>
      var l := SatDebitAll(w.ledger, payouts);
      assert ValidWorld(w) && ValidApplied(w, ap) ==> Valid(Restore(w.instances[addr], c, snapshot)) by {
        if ValidWorld(w) && ValidApplied(w, ap) { RestoreValid(w.instances[addr], c, snapshot); }
      }
      World(if from.Some? && delta > 0 then Add(l, from.value, delta) else l,
            if addr in w.instances then w.instances[addr := Restore(w.instances[addr], c, snapshot)] else w.instances)
  }

  /** The same balances (an absent one is zero) and the same instances. */
  ghost predicate Same(w: World, v: World) {
    w.instances == v.instances && forall a :: Bal(w.ledger, a) == Bal(v.ledger, a)
  }

  /** A release's credit fits 128 bits; the other credits that do not fit panic and move nothing. */
  predicate Room(w: World, op: Transaction) { op.Release? ==> Bal(w.ledger, op.to) + op.amount <= U128_MAX }

  /** The balance an operation takes from holds it, and what a release gives fits. */
  predicate Covered(w: World, op: Transaction)
    requires ValidWorld(w) && OpValid(w, op)
  {
    Room(w, op) &&
    match op
    case Plain(_, _, _, _) => true
    case Release(src, _, _, amount) => amount <= Bal(w.ledger, src)
    case Advancing(from, addr, c, target, _) =>
      from.Some? ==> Advance(w.instances[addr], c, target).1.delta <= Bal(w.ledger, from.value)
  }

  function Short(need: nat, held: nat): nat { if need > held then need - held else 0 }

  /** What the operation's debit of account `a` lacks when it is confirmed; the debit stops at zero. */
  function Missing(w: World, op: Transaction, a: Address): nat
    requires ValidWorld(w) && OpValid(w, op)
  {
    match op
    case Plain(_, _, _, _) => 0
    case Release(src, _, _, amount) => if src == a then Short(amount, Bal(w.ledger, a)) else 0
    case Advancing(from, addr, c, target, _) =>
      if from == Some(a) then Short(Advance(w.instances[addr], c, target).1.delta, Bal(w.ledger, a)) else 0
  }

  // ---- balances as signed moves ------------------------------------------------------------------

  /** The signed change of one balance that an applied operation stands for. */
  function Change(ap: Applied, a: Address): int {
    match ap
    case PlainApplied(to, amount) => if to == a then amount else 0
    case ReleaseApplied(src, to, amount) => (if to == a then amount else 0) - (if src == a then amount else 0)
    case AdvanceApplied(from, _, _, delta, payouts, _) => PayoutTo(payouts, a) - (if from == Some(a) then delta else 0)
  }

  lemma {:induction false} AddAllBal(l: Book, ps: seq<Payout>, a: Address)
    ensures Bal(AddAll(l, ps), a) == Bal(l, a) + PayoutTo(ps, a)
  {
    if |ps| > 0 { AddAllBal(l, ps[..|ps| - 1], a); }
  }

  lemma {:induction false} DebitAllBal(l: Book, ps: seq<Payout>, a: Address)
    ensures PayoutTo(ps, a) <= Bal(l, a) ==> Bal(SatDebitAll(l, ps), a) + PayoutTo(ps, a) == Bal(l, a)
    ensures PayoutTo(ps, a) >= Bal(l, a) ==> Bal(SatDebitAll(l, ps), a) == 0
  {
    if |ps| > 0 { DebitAllBal(l, ps[..|ps| - 1], a); }
  }

  /** Confirming an operation changes every balance by its signed move, and mints what its debit lacked. */
  lemma PerformMoves(w: World, op: Transaction, a: Address)
    requires ValidWorld(w) && OpValid(w, op) && Room(w, op)
    ensures Bal(Perform(w, op).0.ledger, a) == Bal(w.ledger, a) + Change(Perform(w, op).1, a) + Missing(w, op, a)
  {
    hide Valid, Advance, AddAll;
    match op
    case Advancing(from, addr, c, target, _) =>
      var adv := Advance(w.instances[addr], c, target).1;
      AddAllBal(DebitFrom(w.ledger, from, adv.delta), adv.payouts, a);
    case _ =>
  }

  lemma NothingMissingIff(w: World, op: Transaction)
    requires ValidWorld(w) && OpValid(w, op) && Room(w, op)
    ensures Covered(w, op) <==> forall a :: Missing(w, op, a) == 0
  {
    hide Valid, Advance;
    match op
    case Release(src, _, _, _) => assert Missing(w, op, src) == 0 ==> Covered(w, op);
    case Advancing(from, _, _, _, _) => if from.Some? { assert Missing(w, op, from.value) == 0 ==> Covered(w, op); }
    case _ =>
  }

  /** A confirmation moves exactly what its operation says if and only if its debit is covered then. */
  lemma ExactIffCovered(w: World, op: Transaction)
    requires ValidWorld(w) && OpValid(w, op) && Room(w, op)
    ensures (forall a :: Bal(Perform(w, op).0.ledger, a) == Bal(w.ledger, a) + Change(Perform(w, op).1, a)) <==> Covered(w, op)
  {
    hide Perform, Change, Covered, Missing, Room, ValidWorld, OpValid;
    NothingMissingIff(w, op);
    forall a ensures Bal(Perform(w, op).0.ledger, a) == Bal(w.ledger, a) + Change(Perform(w, op).1, a) + Missing(w, op, a) {
      PerformMoves(w, op, a);
    }
    if w1: Address :| Missing(w, op, w1) != 0 { assert Bal(Perform(w, op).0.ledger, w1) != Bal(w.ledger, w1) + Change(Perform(w, op).1, w1); }
  }

  /** What a reorg debits is there to be debited. */
  ghost predicate RevertCovered(w: World, ap: Applied) {
    match ap
    case PlainApplied(to, amount) => amount <= Bal(w.ledger, to)
    case ReleaseApplied(_, to, amount) => amount <= Bal(w.ledger, to)
    case AdvanceApplied(_, _, _, _, payouts, _) => forall a :: PayoutTo(payouts, a) <= Bal(w.ledger, a)
  }

  /** What the reorg's debit of account `a` lacks. */
  function RevertMissing(w: World, ap: Applied, a: Address): nat {
    match ap
    case PlainApplied(to, amount) => if to == a then Short(amount, Bal(w.ledger, a)) else 0
    case ReleaseApplied(_, to, amount) => if to == a then Short(amount, Bal(w.ledger, a)) else 0
    case AdvanceApplied(_, _, _, _, payouts, _) => Short(PayoutTo(payouts, a), Bal(w.ledger, a))
  }

  /** A reorg moves every balance back, and mints what its debit lacked. */
  lemma RevertMoves(w: World, ap: Applied, a: Address)
    ensures Bal(Revert(w, ap).ledger, a) == Bal(w.ledger, a) - Change(ap, a) + RevertMissing(w, ap, a)
  {
    match ap
    case AdvanceApplied(_, _, _, _, payouts, _) => DebitAllBal(w.ledger, payouts, a);
    case _ =>
  }

  lemma RevertNothingMissingIff(w: World, ap: Applied)
    ensures RevertCovered(w, ap) <==> forall a :: RevertMissing(w, ap, a) == 0
  {
    match ap
    case PlainApplied(to, _) => assert RevertMissing(w, ap, to) == 0 ==> RevertCovered(w, ap);
    case ReleaseApplied(_, to, _) => assert RevertMissing(w, ap, to) == 0 ==> RevertCovered(w, ap);
    case AdvanceApplied(_, _, _, _, payouts, _) =>
      forall a ensures RevertMissing(w, ap, a) == 0 <==> PayoutTo(payouts, a) <= Bal(w.ledger, a) {}
  }

  lemma RevertIsCovered(w: World, op: Transaction)
    requires ValidWorld(w) && OpValid(w, op) && Covered(w, op)
    ensures RevertCovered(Perform(w, op).0, Perform(w, op).1)
  {
    match op
    case Advancing(from, addr, c, target, _) =>
      var adv := Advance(w.instances[addr], c, target).1;
      forall a ensures PayoutTo(adv.payouts, a) <= Bal(Perform(w, op).0.ledger, a) {
        AddAllBal(DebitFrom(w.ledger, from, adv.delta), adv.payouts, a);
      }
    case _ =>
  }

  lemma RevertedInstances(w: World, ap: Applied)
    requires ap.AdvanceApplied? && ap.addr in w.instances
    ensures Revert(w, ap).instances == w.instances[ap.addr := Restore(w.instances[ap.addr], ap.c, ap.snapshot)]
  {
    hide Restore, SatDebitAll, Add, ValidWorld, ValidApplied;
  }

  lemma PerformedInstances(w: World, op: Transaction)
    requires ValidWorld(w) && OpValid(w, op) && op.Advancing?
    ensures var s, ap := w.instances[op.addr], Perform(w, op).1;
            && Perform(w, op).0.instances == w.instances[op.addr := Advance(s, op.c, op.target).0]
            && ap.AdvanceApplied? && ap.addr == op.addr && ap.c == op.c && ap.snapshot == TakeSnapshot(s, op.c)
  {
    hide Valid, Advance, AddAll, DebitFrom, TakeSnapshot;
  }

  lemma PutBack(m: map<Address, State>, a: Address, s: State)
    requires a in m
    ensures m[a := s][a := m[a]] == m
  {
  }

  lemma InstancesUndone(w: World, op: Transaction)
    requires ValidWorld(w) && OpValid(w, op)
    ensures Revert(Perform(w, op).0, Perform(w, op).1).instances == w.instances
  {
    if op.Advancing? {
      hide Valid, Advance, Restore, Revert, Perform, TakeSnapshot;
      PerformedInstances(w, op);
      RevertedInstances(Perform(w, op).0, Perform(w, op).1);
      RestoreAfterAdvance(w.instances[op.addr], op.c, op.target);
      PutBack(w.instances, op.addr, Advance(w.instances[op.addr], op.c, op.target).0);
    }
  }

  /** A reorg right after the confirmation is an exact undo: balances, watermark and residue. */
  lemma RevertUndoes(w: World, op: Transaction)
    requires ValidWorld(w) && OpValid(w, op) && Covered(w, op)
    ensures Same(Revert(Perform(w, op).0, Perform(w, op).1), w)
  {
    hide Perform, Revert, RevertCovered, Change, OpValid, ValidWorld, Missing, RevertMissing;
    var (w', ap, _) := Perform(w, op);
    RevertIsCovered(w, op);
    NothingMissingIff(w, op);
    RevertNothingMissingIff(w', ap);
    forall a ensures Bal(Revert(w', ap).ledger, a) == Bal(w.ledger, a) {
      PerformMoves(w, op, a);
      RevertMoves(w', ap, a);
    }
    InstancesUndone(w, op);
  }

  lemma RestoreAfterAdvance(s: State, c: ChannelId, target: nat)
    requires Valid(s) && target <= U128_MAX
    ensures Restore(Advance(s, c, target).0, c, TakeSnapshot(s, c)) == s
  {
    var s' := Advance(s, c, target).0;
    AdvanceFrame(s, c, target);
    if c in s.channels {
      assert s'.channels[c := s.channels[c]] == s.channels by {
        assert s'.channels[c := s.channels[c]] == (s'.channels - {c})[c := s.channels[c]];
        assert s.channels == (s.channels - {c})[c := s.channels[c]];
      }
    } else {
      assert s.channels - {c} == s.channels;
    }
  }

  // ---- logs of confirmed operations -------------------------------------------------------------

  predicate LogValid(w: World, log: seq<Transaction>) {
    forall i :: 0 <= i < |log| ==> OpValid(w, log[i])
  }

  lemma OpStaysValid(w: World, v: World, op: Transaction)
    requires OpValid(w, op) && SameDeployment(w, v)
    ensures OpValid(v, op)
  {
  }

  /** Confirming a log of operations once each, in order. */
  function Replay(w: World, log: seq<Transaction>): (w': World)
    requires ValidWorld(w) && LogValid(w, log)
    ensures ValidWorld(w') && SameDeployment(w, w')
  {
    if |log| == 0 then w
    else
      var mid := Replay(w, log[..|log| - 1]);
      OpStaysValid(w, mid, log[|log| - 1]);
      Perform(mid, log[|log| - 1]).0
  }

  ghost predicate AllCovered(w: World, log: seq<Transaction>)
    requires ValidWorld(w) && LogValid(w, log)
  {
    |log| == 0 || (AllCovered(w, log[..|log| - 1]) && Covered(Replay(w, log[..|log| - 1]), log[|log| - 1]))
  }

  lemma SamePerform(w: World, v: World, op: Transaction)
    requires ValidWorld(w) && ValidWorld(v) && Same(w, v) && OpValid(w, op)
    ensures Covered(w, op) <==> Covered(v, op)
    ensures Covered(w, op) ==> Perform(w, op).1 == Perform(v, op).1 && Same(Perform(w, op).0, Perform(v, op).0)
  {
    if Covered(w, op) {
      NothingMissingIff(w, op);
      NothingMissingIff(v, op);
      forall a ensures Bal(Perform(w, op).0.ledger, a) == Bal(Perform(v, op).0.ledger, a) {
        PerformMoves(w, op, a);
        PerformMoves(v, op, a);
      }
    }
  }

  lemma SameRevert(w: World, v: World, ap: Applied)
    requires Same(w, v) && RevertCovered(v, ap)
    ensures Same(Revert(w, ap), Revert(v, ap))
  {
    RevertNothingMissingIff(w, ap);
    RevertNothingMissingIff(v, ap);
    forall a ensures Bal(Revert(w, ap).ledger, a) == Bal(Revert(v, ap).ledger, a) {
      RevertMoves(w, ap, a);
      RevertMoves(v, ap, a);
    }
  }

  // ---- the rail's calls -----------------------------------------------------------------------------

  predicate ValidChain(s: Chain) {
    && ValidWorld(s.world)
    && (forall i :: 0 <= i < |s.refs| ==>
        && OpValid(s.world, s.refs[i].op)
        && (s.refs[i].applied.Some? ==> ValidApplied(s.world, s.refs[i].applied.value))
        && (s.refs[i].applied.Some? <==> s.refs[i].level == Confirmed || s.refs[i].level == Finalized)
        && (s.refs[i].info.Some? <==> s.refs[i].applied.Some?)
        && (s.refs[i].info.Some? ==> s.refs[i].info.value.canonical == i))
    && (forall k <- s.settleIds :: s.settleIds[k] < |s.refs| && s.refs[s.settleIds[k]].op.Plain?)
    && (forall k <- s.releaseKeys :: s.releaseKeys[k] < |s.refs| && s.refs[s.releaseKeys[k]].op.Release?)
  }

  function Enter(s: Chain, op: Transaction): (x: (Chain, Reply))
    requires ValidChain(s) && OpValid(s.world, op)
    ensures ValidChain(x.0)
  {
    (s.(refs := s.refs + [TxRecord(Submitted, op, None, None)]), Ref(|s.refs|))
  }

  function Submit(s: Chain, t: Transfer): (x: (Chain, Reply))
    requires ValidChain(s)
    ensures ValidChain(x.0)
  {
    if s.outage then (s, Failed(Outage)) else Enter(s, Plain(t.to, t.asset, t.amount, t.memo))
  }

  function Settle(s: Chain, t: Transfer, id: Word): (x: (Chain, Reply))
    requires ValidChain(s)
    ensures ValidChain(x.0)
  {
    if id in s.settleIds then (s, Ref(s.settleIds[id]))
    else if s.outage then (s, Failed(Outage))
    else
      var (s', reply) := Enter(s, Plain(t.to, t.asset, t.amount, t.memo));
      (s'.(settleIds := s'.settleIds[id := reply.r]), reply)
  }

  /** The cover is checked here, at submission, and not again at confirmation. */
  function SubmitRelease(s: Chain, src: Address, to: Address, asset: Asset, amount: nat): (x: (Chain, Reply))
    requires ValidChain(s)
    ensures ValidChain(x.0)
  {
    if s.outage then (s, Failed(Outage))
    else if amount == 0 || amount > Bal(s.world.ledger, src) then (s, Failed(InsufficientEscrow))
    else Enter(s, Release(src, to, asset, amount))
  }

  function ReleaseKeyed(s: Chain, c: ChannelId, ckpt: CkptRef, src: Address, to: Address, asset: Asset, amount: nat)
    : (x: (Chain, Reply))
    requires ValidChain(s)
    ensures ValidChain(x.0)
  {
    if (c, ckpt) in s.releaseKeys then (s, Ref(s.releaseKeys[(c, ckpt)]))
    else
      var (s', reply) := SubmitRelease(s, src, to, asset, amount);
      if reply.Ref? then (s'.(releaseKeys := s'.releaseKeys[(c, ckpt) := reply.r]), reply) else (s', reply)
  }

  function SubmitAdvance(s: Chain, from: Option<Address>, addr: Address, c: ChannelId, target: nat, asset: Asset): (x: (Chain, Reply))
    requires ValidChain(s) && target <= U128_MAX
    ensures ValidChain(x.0)
  {
    if s.outage then (s, Failed(Outage))
    else if addr !in s.world.instances then (s, Failed(NoSuchAccount))
    else
      var funded := FundedP(s.world.instances[addr], c);
      var delta := if target > funded then target - funded else 0;
      if from.Some? && delta > 0 && delta > Bal(s.world.ledger, from.value) then (s, Failed(InsufficientEscrow))
      else Enter(s, Advancing(from, addr, c, target, asset))
  }

  function SetRecord(s: Chain, r: nat, rec: TxRecord): Chain
    requires r < |s.refs|
  {
    s.(refs := s.refs[r := rec])
  }

  /** Value moves here. A checked credit that overflows panics and leaves nothing to reason about, so it
      is a separate reply. */
  function Confirm(s: Chain, r: nat): (x: (Chain, Reply))
    requires ValidChain(s)
    ensures ValidChain(x.0)
  {
    if r >= |s.refs| || s.refs[r].level != Submitted then (s, Done)
    else if !CreditsFit(s.world, s.refs[r].op) then (s, Failed(Panic))
    else
      var (w, ap, info) := Perform(s.world, s.refs[r].op);
      (SetRecord(s.(world := w), r, TxRecord(Confirmed, s.refs[r].op, Some(ap), Some(info.(canonical := r)))), Done)
  }

  /** A confirmation that does not panic moves every balance by exactly what the record it leaves says, if
      and only if the debit is covered at that moment. */
  lemma ConfirmExactIff(s: Chain, r: nat)
    requires ValidChain(s) && r < |s.refs| && s.refs[r].level == Submitted && Confirm(s, r).1 == Done
    requires Room(s.world, s.refs[r].op)
    ensures var s' := Confirm(s, r).0;
            && s'.refs[r].level == Confirmed && s'.refs[r].applied.Some?
            && ((forall a :: Bal(s'.world.ledger, a) == Bal(s.world.ledger, a) + Change(s'.refs[r].applied.value, a))
                <==> Covered(s.world, s.refs[r].op))
  {
    hide Perform, CreditsFit, Covered, Change, Room, ValidWorld, ValidApplied, OpValid;
    ExactIffCovered(s.world, s.refs[r].op);
  }

  function Finalize(s: Chain, r: nat): (x: (Chain, Reply))
    requires ValidChain(s)
    ensures ValidChain(x.0)
  {
    if r >= |s.refs| then (s, Done)
    else match s.refs[r].level
      case Confirmed => (SetRecord(s, r, s.refs[r].(level := Finalized)), Done)
      case Submitted =>
        var (s', reply) := Confirm(s, r);
        if s'.refs[r].level == Confirmed then (SetRecord(s', r, s'.refs[r].(level := Finalized)), reply) else (s', reply)
      case _ => (s, Done)
  }

  /** Does the reorg refuse (finalized or already gone) or drop the operation? */
  function Reorg(s: Chain, r: nat): (x: (Chain, bool))
    requires ValidChain(s)
    ensures ValidChain(x.0)
  {
    if r >= |s.refs| then (s, false)
    else match s.refs[r].level
      case Submitted => (SetRecord(s, r, s.refs[r].(level := Dropped)), true)
      case Confirmed =>
        var w := Revert(s.world, s.refs[r].applied.value);
        (SetRecord(s.(world := w), r, TxRecord(Dropped, s.refs[r].op, None, None)), true)
      case _ => (s, false)
  }

  function Drop(s: Chain, r: nat): (s': Chain)
    requires ValidChain(s)
    ensures ValidChain(s')
  {
    if r < |s.refs| && s.refs[r].level == Submitted then SetRecord(s, r, s.refs[r].(level := Dropped)) else s
  }

  function FinalityOf(s: Chain, r: nat): Option<(Level, nat)> {
    if r < |s.refs| && s.refs[r].level != Dropped then Some((s.refs[r].level, s.clock)) else None
  }

  function RefTarget(s: Chain, r: nat): Option<RefInfo> {
    if r < |s.refs| then s.refs[r].info else None
  }
}
