/** Two-leg redemption over every interleaving: what an issued receipt implies, and how often its meed is
    distributed. */
module TwoLegRuns {
  import opened Bytes
  import opened Instance
  import opened Ledger
  import opened VirtualRail
  import opened RailConservation
  import opened RailHistory
  import Disk
  import NonceLog
  import opened TwoLeg

  // ---- the rail side ----------------------------------------------------------------------------

  lemma AttestedStays(rail: Rail, op: Op, q: Quote)
    requires ValidRail(rail) && OpOk(op) && IsAttested(rail, q)
    ensures IsAttested(Apply(rail, op).0, q)
  {
    hide Apply, ValidRail, OpOk;
    StepFollows(rail, op);
    assert InstanceGrows(rail.instances[InstanceAddr(q)], Apply(rail, op).0.instances[InstanceAddr(q)]);
  }

  lemma PostIsCall(m: Merchant, rail: Rail, q: Quote)
    requires ValidRail(rail)
    ensures OpOk(CallOp(InstanceAddr(q), AttestCall(m, q)))
    ensures PostAttestation(m, rail, q) == Apply(rail, CallOp(InstanceAddr(q), AttestCall(m, q)))
  {
  }

  lemma PostAttests(m: Merchant, rail: Rail, q: Quote)
    requires ValidRail(rail)
    ensures !PostAttestation(m, rail, q).1.Failed? ==> IsAttested(PostAttestation(m, rail, q).0, q)
  {
    hide Valid, ValidSplit, CreditAll, Distribute;
  }

  /** Whoever attests an entry, its whole amount enters the pool in that one call and nothing else moves:
      the instance distributes the amount, and the payouts are credited. */
  lemma AttestationDistributes(rail: Rail, op: Op, q: Quote)
    requires ValidRail(rail) && OpOk(op)
    requires EntryStateAt(rail, q).Some? && !IsAttested(rail, q) && IsAttested(Apply(rail, op).0, q)
    ensures op.CallOp? && op.addr == InstanceAddr(q) && op.ev.AttestEv? && op.ev.id == EntryId(q)
    ensures var s := rail.instances[InstanceAddr(q)];
            var (s', ps) := Distribute(Instance.Enter(s, EntryId(q), EntryState.Attested), s.entries[EntryId(q)].amount);
            Apply(rail, op).0 == PutInstance(rail, InstanceAddr(q), s', ps)
  {
    hide ValidRail, Valid, ValidSplit, Distribute, OpOk;
    OnlyCallsAttest(rail, op, q);
    CallDistributes(rail, op, q);
  }

  lemma CallDistributes(rail: Rail, op: Op, q: Quote)
    requires ValidRail(rail) && OpOk(op) && op.CallOp?
    requires EntryStateAt(rail, q).Some? && !IsAttested(rail, q) && IsAttested(Apply(rail, op).0, q)
    ensures op.addr == InstanceAddr(q) && op.ev.AttestEv? && op.ev.id == EntryId(q)
    ensures var s := rail.instances[InstanceAddr(q)];
            var (s', ps) := Distribute(Instance.Enter(s, EntryId(q), EntryState.Attested), s.entries[EntryId(q)].amount);
            Apply(rail, op).0 == PutInstance(rail, InstanceAddr(q), s', ps)
  {
    hide Valid, ValidSplit, CreditAll, Distribute, SigOk;
  }

  lemma OnlyCallsAttest(rail: Rail, op: Op, q: Quote)
    requires ValidRail(rail) && OpOk(op)
    requires EntryStateAt(rail, q).Some? && !IsAttested(rail, q) && IsAttested(Apply(rail, op).0, q)
    ensures op.CallOp?
  {
    hide ValidRail, Apply, OpOk;
    if !op.CallOp? { OthersKeepEntries(rail, op, q); }
  }

  lemma OthersKeepEntries(rail: Rail, op: Op, q: Quote)
    requires ValidRail(rail) && OpOk(op) && !op.CallOp? && EntryStateAt(rail, q).Some?
    ensures EntryStateAt(Apply(rail, op).0, q) == EntryStateAt(rail, q)
  {
    if op.EntryOp? || op.AdvanceOp? || op.ClaimOp? {
      FundingKeepsEntries(rail, op, q);
    } else if op.InstanceOp? {
      hide Valid, ValidSplit, Fresh;
    } else {
      hide Apply, ValidRail;
      InstancesUntouched(rail, op);
    }
  }

  lemma FundingKeepsEntries(rail: Rail, op: Op, q: Quote)
    requires ValidRail(rail) && OpOk(op) && (op.EntryOp? || op.AdvanceOp? || op.ClaimOp?) && EntryStateAt(rail, q).Some?
    ensures EntryStateAt(Apply(rail, op).0, q) == EntryStateAt(rail, q)
  {
    hide Valid, ValidSplit, CreditAll, BpTotal, Payouts, Advance, FundClaimRecord;
    if op.addr in rail.instances {
      var s := rail.instances[op.addr];
      match op
      case AdvanceOp(_, _, c, target, _) => AdvanceFrame(s, c, target);
      case ClaimOp(_, _, c, ckpt, amount, _) => ClaimFrame(s, c, ckpt, amount);
      case _ =>
    }
  }

  lemma ClaimFrame(s: State, c: ChannelId, ckpt: CkptRef, amount: nat)
    requires Valid(s)
    ensures FundClaimRecord(s, c, ckpt, amount).0.entries == s.entries
  {
    hide Valid, Distribute;
  }

  // ---- the store side -----------------------------------------------------------------------------

  lemma ConsumeStore(m: Merchant, s: Store, attempts: set<NonceLog.Entry>, e: NonceLog.Entry, io: Disk.Io)
    requires StoreOk(m, s, attempts) && NonceLog.EntryOk(m.codec, e) && NonceLog.IoFor(m.codec, e, io)
    ensures StoreOk(m, NonceLog.Consume(m.codec, s, e, io).0, attempts + {e})
    ensures NonceLog.Keeps(s.byNonce, NonceLog.Consume(m.codec, s, e, io).0.byNonce)
  {
    hide NonceLog.EntryOk, NonceLog.Consume, NonceLog.IoFor, NonceLog.ByNonce, NonceLog.UsedRefs, NonceLog.Written;
    var es, tail, t :| StoreIs(m, s, attempts, es, tail, t);
    var es', tail' := NonceLog.ConsumeSound(m.codec, s, es, tail, e, io);
    NonceLog.SnocKeeps(es, e);
    var t' := if tail' == tail && es' == es then t else e;
    assert StoreIs(m, NonceLog.Consume(m.codec, s, e, io).0, attempts + {e}, es', tail', t');
  }

  lemma ReopenStore(m: Merchant, s: Store, attempts: set<NonceLog.Entry>)
    requires NonceLog.Faithful(m.codec) && StoreOk(m, s, attempts)
    ensures var o := NonceLog.Open(m.codec, s.file);
            o.Some? && StoreOk(m, o.value, attempts) && NonceLog.Keeps(s.byNonce, o.value.byNonce)
  {
    hide NonceLog.Open, NonceLog.ByNonce, NonceLog.UsedRefs, NonceLog.Written;
    var es, tail, t :| StoreIs(m, s, attempts, es, tail, t);
    var es' := NonceLog.ReopenSound(m.codec, s, es, tail, t);
    NonceLog.SnocKeeps(es, t);
    assert StoreIs(m, NonceLog.Open(m.codec, s.file).value, attempts, es', [], t);
  }

  lemma CrashStore(m: Merchant, s: Store, attempts: set<NonceLog.Entry>, e: NonceLog.Entry, wrote: nat)
    requires NonceLog.Faithful(m.codec) && StoreOk(m, s, attempts)
    requires NonceLog.EntryOk(m.codec, e) && wrote <= |NonceLog.EntryBytes(m.codec, e)|
    ensures var o := NonceLog.Open(m.codec, NonceLog.CrashFile(m.codec, s, e, wrote));
            o.Some? && StoreOk(m, o.value, attempts + {e}) && NonceLog.Keeps(s.byNonce, o.value.byNonce)
  {
    hide NonceLog.Open, NonceLog.ByNonce, NonceLog.UsedRefs, NonceLog.Written, NonceLog.EntryOk, NonceLog.CrashFile;
    var es, tail, t :| StoreIs(m, s, attempts, es, tail, t);
    var es' := NonceLog.CrashSound(m.codec, s, es, tail, t, e, wrote);
    NonceLog.SnocKeeps(es, t);
    NonceLog.SnocKeeps(es, e);
    assert StoreIs(m, NonceLog.Open(m.codec, NonceLog.CrashFile(m.codec, s, e, wrote)).value, attempts + {e}, es', [], t);
  }

  /** A stored nonce comes from an attempted entry for that nonce. */
  lemma {:induction false} StoredIsAttempted(m: Merchant, s: Store, attempts: set<NonceLog.Entry>, n: Octets) returns (e: NonceLog.Entry)
    requires StoreOk(m, s, attempts) && n in s.byNonce
    ensures e in attempts && e.nonce == n && s.byNonce[n] == (e.record, e.receipt)
  {
    var es, tail, t :| StoreIs(m, s, attempts, es, tail, t);
    var k := NonceLog.EntryBehind(es, n);
    e := es[k];
  }

  // ---- one act -------------------------------------------------------------------------------------

  lemma StoreActKeeps(m: Merchant, w: World, a: Act)
    requires Inv(m, w) && ActOk(m, w, a)
    ensures var w' := Do(m, w, a);
            StoreOk(m, w'.store, w'.attempts) && NonceLog.Keeps(w.store.byNonce, w'.store.byNonce)
  {
    hide NonceLog.Open, NonceLog.Consume, NonceLog.CrashFile, NonceLog.EntryOk, NonceLog.IoFor, StoreOk, ValidRail, Look, Apply, PostAttestation;
    match a
    case Consume(i, body, io) => ConsumeStore(m, w.store, w.attempts, EntryFor(m, w.phases[i].r, body), io);
    case CrashConsuming(i, body, wrote) => CrashStore(m, w.store, w.attempts, EntryFor(m, w.phases[i].r, body), wrote);
    case Crash => ReopenStore(m, w.store, w.attempts);
    case _ =>
  }

  lemma BackedStays(m: Merchant, w: World, a: Act)
    requires Inv(m, w) && ActOk(m, w, a)
    ensures forall q: Quote :: IsAttested(w.rail, q) ==> IsAttested(Do(m, w, a).rail, q)
  {
    hide NonceLog.Open, NonceLog.Consume, NonceLog.CrashFile, NonceLog.EntryOk, NonceLog.IoFor, StoreOk, ValidRail, Look, Apply, PostAttestation, IsAttested;
    forall q: Quote | IsAttested(w.rail, q) ensures IsAttested(Do(m, w, a).rail, q) {
      match a
      case RailStep(op) => AttestedStays(w.rail, op, q);
      case Post(i) =>
        PostIsCall(m, w.rail, QuoteFor(m, w.phases[i].r));
        AttestedStays(w.rail, CallOp(InstanceAddr(QuoteFor(m, w.phases[i].r)), AttestCall(m, QuoteFor(m, w.phases[i].r))), q);
      case _ =>
    }
  }

  lemma PhasesKept(m: Merchant, w: World, a: Act)
    requires Inv(m, w) && ActOk(m, w, a)
    ensures forall i <- Do(m, w, a).phases :: PhaseOk(m, Do(m, w, a), Do(m, w, a).phases[i])
  {
    hide NonceLog.Open, NonceLog.Consume, NonceLog.CrashFile, NonceLog.EntryOk, NonceLog.IoFor, StoreOk, ValidRail, Apply, PostAttestation, IsAttested;
    BackedStays(m, w, a);
    if a.Post? { PostAttests(m, w.rail, QuoteFor(m, w.phases[a.i].r)); }
  }

  /** What a read-only step can hand out is already in the store. */
  lemma LookServes(m: Merchant, w: World, p: Phase)
    requires Look(m, w.rail, w.store, p).Served? && !p.Served?
    ensures var n := QuoteFor(m, p.r).nonce;
            n in w.store.byNonce && w.store.byNonce[n].1 == Look(m, w.rail, w.store, p).receipt && Look(m, w.rail, w.store, p).r == p.r
  {
    hide MeedLegCheck, StatusCheck, NetLegCheck, IsAttested;
  }

  lemma IssuedKept(m: Merchant, w: World, a: Act)
    requires Inv(m, w) && ActOk(m, w, a)
    ensures IssuedOk(Do(m, w, a))
  {
    hide NonceLog.Open, NonceLog.Consume, NonceLog.CrashFile, NonceLog.EntryOk, NonceLog.IoFor, StoreOk, ValidRail, Look, Apply, PostAttestation, IsAttested;
    StoreActKeeps(m, w, a);
    match a
    case LookStep(i) => if Look(m, w.rail, w.store, w.phases[i]).Served? { LookServes(m, w, w.phases[i]); }
    case Consume(i, body, io) =>
      var e := EntryFor(m, w.phases[i].r, body);
      if NonceLog.Consume(m.codec, w.store, e, io).1.Accepted? { NonceLog.AcceptedIsStored(m.codec, w.store, e, io); }
    case _ =>
  }

  lemma AttemptsKept(m: Merchant, w: World, a: Act)
    requires Inv(m, w) && ActOk(m, w, a)
    ensures forall e <- Do(m, w, a).attempts :: Backed(m, Do(m, w, a).rail, e)
  {
    hide NonceLog.Open, NonceLog.Consume, NonceLog.CrashFile, NonceLog.EntryOk, NonceLog.IoFor, StoreOk, ValidRail, Look, Apply, PostAttestation, IsAttested;
    BackedStays(m, w, a);
  }

  lemma ActKeeps(m: Merchant, w: World, a: Act)
    requires Inv(m, w) && ActOk(m, w, a)
    ensures Inv(m, Do(m, w, a))
  {
    StoreActKeeps(m, w, a);
    PhasesKept(m, w, a);
    IssuedKept(m, w, a);
    AttemptsKept(m, w, a);
    hide StoreOk, IssuedOk, PhaseOk, Backed, Do;
  }

  // ---- whole runs -------------------------------------------------------------------------------------

  ghost predicate RunOk(m: Merchant, w: World, run: seq<Act>)
    requires Inv(m, w)
  {
    |run| == 0 || (RunOk(m, w, run[..|run| - 1]) && ActOk(m, After(m, w, run[..|run| - 1]), run[|run| - 1]))
  }

  ghost function After(m: Merchant, w: World, run: seq<Act>): (w': World)
    requires Inv(m, w)
    ensures Inv(m, w')
  {
    if |run| == 0 then w
    else
      var mid := After(m, w, run[..|run| - 1]);
      if ActOk(m, mid, run[|run| - 1]) then ActKeeps(m, mid, run[|run| - 1]); Do(m, mid, run[|run| - 1]) else mid
  }

  /** An empty store and no redeemer, on any rail. */
  ghost function Begin(m: Merchant, rail: Rail): (w: World)
    requires ValidRail(rail) && Signs(m)
    ensures Inv(m, w)
  {
    hide ValidRail;
    NonceLog.OpenEmpty(m.codec);
    var w := World(rail, NonceLog.Open(m.codec, []).value, map[], {}, {});
    assert StoreIs(m, w.store, {}, [], [], NonceLog.Entry([], NonceLog.NonceRecord([], [], [], []), NonceLog.Receipt([], [], [], [])));
    w
  }

  /** In any state that keeps the invariant: a receipt was only ever issued for an entry
      that is ATTESTED; all receipts issued for one nonce are the same; and two nonces with receipts
      share no used-reference key. */
  lemma IssuedReceipts(m: Merchant, w: World, x: (Octets, Receipt), y: (Octets, Receipt))
    requires Inv(m, w) && x in w.issued && y in w.issued
    ensures x.0 in w.store.byNonce && y.0 in w.store.byNonce
    ensures var q := Behind(m, w.store.byNonce[x.0].0); IsAttested(w.rail, q) && q.nonce == x.0 && x.1.nonce == x.0
    ensures x.0 == y.0 ==> x.1 == y.1
    ensures x.0 != y.0 ==> NonceLog.UsedRefKeys(w.store.byNonce[x.0].0.paymentRef) !! NonceLog.UsedRefKeys(w.store.byNonce[y.0].0.paymentRef)
  {
    var e := StoredIsAttempted(m, w.store, w.attempts, x.0);
    assert Backed(m, w.rail, e);
    var es, tail, t :| StoreIs(m, w.store, w.attempts, es, tail, t);
    assert NonceLog.Valid(m.codec, w.store);
    NonceLog.ReceiptNamesNonce(m.codec, w.store, x.0);
    if x.0 != y.0 { NonceLog.NoTwoNoncesShare(m.codec, w.store, x.0, y.0); }
  }

  // ---- exactly one distribution -----------------------------------------------------------------------

  /** How often the quote's entry becomes ATTESTED along the run. */
  ghost function Attestations(m: Merchant, w: World, run: seq<Act>, q: Quote): nat
    requires Inv(m, w)
  {
    if |run| == 0 then 0
    else
      Attestations(m, w, run[..|run| - 1], q)
      + if !IsAttested(After(m, w, run[..|run| - 1]).rail, q) && IsAttested(After(m, w, run).rail, q) then 1 else 0
  }

  /** The meed of an entry is released at most once, and exactly once when the entry ends ATTESTED. */
  lemma {:induction false} AttestedOnce(m: Merchant, w: World, run: seq<Act>, q: Quote)
    requires Inv(m, w) && !IsAttested(w.rail, q)
    ensures Attestations(m, w, run, q) == if IsAttested(After(m, w, run).rail, q) then 1 else 0
  {
    hide Do, ActOk, IsAttested, Inv;
    if |run| > 0 {
      var mid, a := After(m, w, run[..|run| - 1]), run[|run| - 1];
      AttestedOnce(m, w, run[..|run| - 1], q);
      if ActOk(m, mid, a) { BackedStays(m, mid, a); }
    }
  }

  /** Over any run of concurrent redeemers, retries, crashes, reopenings and foreign rail calls: an issued
      receipt implies that its entry is ATTESTED and was released exactly once during the run unless it was
      so already, one nonce has one receipt, and two nonces share no used-reference key. */
  lemma ReceiptsOverRuns(m: Merchant, rail: Rail, run: seq<Act>, x: (Octets, Receipt), y: (Octets, Receipt))
    requires ValidRail(rail) && Signs(m)
    requires x in After(m, Begin(m, rail), run).issued && y in After(m, Begin(m, rail), run).issued
    ensures var w := After(m, Begin(m, rail), run);
            && x.0 in w.store.byNonce && y.0 in w.store.byNonce && x.1.nonce == x.0
            && (x.0 == y.0 ==> x.1 == y.1)
            && (x.0 != y.0 ==> NonceLog.UsedRefKeys(w.store.byNonce[x.0].0.paymentRef) !! NonceLog.UsedRefKeys(w.store.byNonce[y.0].0.paymentRef))
            && var q := Behind(m, w.store.byNonce[x.0].0);
               && q.nonce == x.0 && IsAttested(w.rail, q)
               && (!IsAttested(rail, q) ==> Attestations(m, Begin(m, rail), run, q) == 1)
  {
    hide Inv, IsAttested, After, Attestations;
    var w := After(m, Begin(m, rail), run);
    IssuedReceipts(m, w, x, y);
    var q := Behind(m, w.store.byNonce[x.0].0);
    if !IsAttested(rail, q) { AttestedOnce(m, Begin(m, rail), run, q); }
  }
}
