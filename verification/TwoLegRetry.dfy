/** What becomes of a redemption that stopped after its attestation: exactly when the leg checks it passed
    keep passing, and what every later retry is answered. */
module TwoLegRetry {
  import opened Bytes
  import opened Options
  import opened RailTypes
  import opened VirtualRail
  import opened RailHistory
  import Disk
  import NonceLog
  import opened TwoLeg
  import opened TwoLegRuns

  // ---- when a leg check that passed keeps passing ---------------------------------------------------

  function MeedRef(m: Merchant, r: Request): Option<nat> { m.lookup(r.meedRef) }

  function NetRef(m: Merchant, r: Request): Option<nat> { m.lookup(r.netRef) }

  predicate Known(rail: Rail, ref: Option<nat>) { ref.Some? && ref.value < |rail.refs| }

  /** When the reference reaches the rail's strongest level. */
  function FinalTime(rail: Rail, ref: Option<nat>): nat
    requires Known(rail, ref)
  {
    rail.refs[ref.value].0 + rail.delay
  }

  predicate LegsPass(m: Merchant, rail: Rail, r: Request) { MeedLegCheck(m, rail, r).None? && NetLegCheck(m, rail, r).None? }

  /** Both legs reach the strongest level within the quote's honor window. */
  predicate Timely(m: Merchant, rail: Rail, r: Request) {
    && Known(rail, MeedRef(m, r)) && FinalTime(rail, MeedRef(m, r)) <= Deadline(QuoteFor(m, r))
    && Known(rail, NetRef(m, r)) && FinalTime(rail, NetRef(m, r)) <= Deadline(QuoteFor(m, r))
  }

  /** Both legs have reached it. */
  predicate BothFinal(m: Merchant, rail: Rail, r: Request) {
    && Known(rail, MeedRef(m, r)) && FinalTime(rail, MeedRef(m, r)) <= rail.clock
    && Known(rail, NetRef(m, r)) && FinalTime(rail, NetRef(m, r)) <= rail.clock
  }

  /** The reference is known, at the level asked for. */
  predicate LegShown(rail: Rail, ref: Option<nat>, required: Option<Level>) {
    Known(rail, ref) && required.Some? && (required == Some(Final) ==> FinalTime(rail, ref) <= rail.clock)
  }

  /** The meed reference funded this quote's entry. */
  predicate MeedShown(m: Merchant, rail: Rail, r: Request) {
    var q := QuoteFor(m, r);
    && LegShown(rail, MeedRef(m, r), q.finMeed)
    && var info := rail.refs[MeedRef(m, r).value].1;
       info.fundsEntry == Some(EntryId(q)) && info.asset == q.baselineAsset && info.memo == Some(Chosen(q.nonce))
  }

  /** The net reference paid this quote's net. */
  predicate NetShown(m: Merchant, rail: Rail, r: Request) {
    var q := QuoteFor(m, r);
    && LegShown(rail, NetRef(m, r), q.finNet)
    && var info := rail.refs[NetRef(m, r).value].1;
       info.to == q.netPayTo && info.asset == q.netAsset && info.amount >= q.netAmount && info.memo == Some(Chosen(q.nonce))
  }

  lemma PassingShows(m: Merchant, rail: Rail, r: Request)
    ensures MeedLegCheck(m, rail, r).None? ==> MeedShown(m, rail, r)
    ensures NetLegCheck(m, rail, r).None? ==> NetShown(m, rail, r)
  {
  }

  /** Of a leg that was shown only the time is left to judge: it passes where its final time is within the
      window, and is Expired once it is final otherwise. */
  lemma ShownDecides(m: Merchant, rail: Rail, r: Request)
    ensures MeedShown(m, rail, r) ==>
              var check, time := MeedLegCheck(m, rail, r), FinalTime(rail, MeedRef(m, r));
              && (check.None? || check == Some(Expired)) && (time <= Deadline(QuoteFor(m, r)) ==> check.None?)
              && (time <= rail.clock ==> (check.None? <==> time <= Deadline(QuoteFor(m, r))))
    ensures NetShown(m, rail, r) ==>
              var check, time := NetLegCheck(m, rail, r), FinalTime(rail, NetRef(m, r));
              && (check.None? || check == Some(Expired)) && (time <= Deadline(QuoteFor(m, r)) ==> check.None?)
              && (time <= rail.clock ==> (check.None? <==> time <= Deadline(QuoteFor(m, r))))
  {
  }

  /** The same quote and references, presented at any time. */
  predicate SameClaim(r: Request, r': Request) { r' == r.(now := r'.now) }

  lemma ShownStays(m: Merchant, rail: Rail, rail': Rail, r: Request, r': Request)
    requires Grows(rail, rail') && SameClaim(r, r')
    ensures MeedShown(m, rail, r) ==> MeedShown(m, rail', r') && FinalTime(rail', MeedRef(m, r')) == FinalTime(rail, MeedRef(m, r))
    ensures NetShown(m, rail, r) ==> NetShown(m, rail', r') && FinalTime(rail', NetRef(m, r')) == FinalTime(rail, NetRef(m, r))
  {
  }

  /** The checks pass for this claim after every run of rail calls, whenever they are made. */
  ghost predicate KeepPassing(m: Merchant, rail: Rail, r: Request)
    requires ValidRail(rail)
  {
    forall run: seq<Op>, now: nat :: OpsOk(run) ==> LegsPass(m, Run(rail, run), r.(now := now))
  }

  /** Leg checks that passed keep passing if and only if both legs are final within the honor window: a check
      reads the time observed when it is made, and that becomes the final one. */
  lemma LegsStayIff(m: Merchant, rail: Rail, r: Request)
    requires ValidRail(rail) && LegsPass(m, rail, r)
    ensures KeepPassing(m, rail, r) <==> Timely(m, rail, r)
  {
    hide MeedLegCheck, NetLegCheck, ValidRail, Grows, Apply, MeedShown, NetShown;
    PassingShows(m, rail, r);
    ShownKnown(m, rail, r);
    if Timely(m, rail, r) {
      forall run: seq<Op>, now: nat | OpsOk(run) ensures LegsPass(m, Run(rail, run), r.(now := now)) {
        RunGrows(rail, run);
        ShownStays(m, rail, Run(rail, run), r, r.(now := now));
        ShownDecides(m, Run(rail, run), r.(now := now));
      }
    }
    if KeepPassing(m, rail, r) {
      var secs := FinalTime(rail, MeedRef(m, r)) + FinalTime(rail, NetRef(m, r));
      TickRun(rail, secs);
      RunGrows(rail, [Tick(secs)]);
      assert LegsPass(m, Run(rail, [Tick(secs)]), r.(now := r.now));
      ShownStays(m, rail, Run(rail, [Tick(secs)]), r, r);
      ShownDecides(m, Run(rail, [Tick(secs)]), r);
    }
  }

  lemma ShownKnown(m: Merchant, rail: Rail, r: Request)
    ensures MeedShown(m, rail, r) ==> Known(rail, MeedRef(m, r))
    ensures NetShown(m, rail, r) ==> Known(rail, NetRef(m, r))
  {
  }

  lemma TickRun(rail: Rail, secs: nat)
    requires ValidRail(rail)
    ensures OpsOk([Tick(secs)]) && Run(rail, [Tick(secs)]) == rail.(clock := rail.clock + secs)
  {
    hide ValidRail;
    assert [Tick(secs)][..0] == [];
    assert Run(rail, [Tick(secs)][..0]) == rail;
  }

  // ---- what a redeemer past its checks has seen ------------------------------------------------------

  /** What the rail still shows of the checks a redeemer has passed. */
  predicate SeenOk(m: Merchant, rail: Rail, p: Phase) {
    p.Asked? || p.Served? || p.Rejected?
    || (&& !Delimited(p.r) && WindowsOk(QuoteFor(m, p.r))
        && (p.Unspent? || MeedShown(m, rail, p.r))
        && (p.NetSeen? || p.Posted? || p.Ready? ==> NetShown(m, rail, p.r)))
  }

  predicate AllSeen(m: Merchant, w: World) { forall i <- w.phases :: SeenOk(m, w.rail, w.phases[i]) }

  lemma SeenStays(m: Merchant, rail: Rail, rail': Rail, p: Phase)
    requires Grows(rail, rail') && SeenOk(m, rail, p)
    ensures SeenOk(m, rail', p)
  {
    hide MeedShown, NetShown, Grows;
    ShownStays(m, rail, rail', p.r, p.r);
  }

  lemma LookSees(m: Merchant, rail: Rail, store: Store, p: Phase)
    requires SeenOk(m, rail, p)
    ensures SeenOk(m, rail, Look(m, rail, store, p))
  {
    hide StatusCheck, MeedLegCheck, NetLegCheck, MeedShown, NetShown;
    PassingShows(m, rail, p.r);
  }

  lemma ActGrows(m: Merchant, w: World, a: Act)
    requires ValidRail(w.rail) && ActOk(m, w, a)
    ensures Grows(w.rail, Do(m, w, a).rail)
  {
    hide NonceLog.Open, NonceLog.Consume, NonceLog.CrashFile, NonceLog.EntryOk, NonceLog.IoFor, ValidRail, Look, Apply, PostAttestation, Grows;
    GrowsRefl(w.rail);
    match a
    case RailStep(op) => StepFollows(w.rail, op);
    case Post(i) =>
      PostIsCall(m, w.rail, QuoteFor(m, w.phases[i].r));
      StepFollows(w.rail, CallOp(InstanceAddr(QuoteFor(m, w.phases[i].r)), AttestCall(m, QuoteFor(m, w.phases[i].r))));
    case _ =>
  }

  lemma ActSees(m: Merchant, w: World, a: Act)
    requires ValidRail(w.rail) && ActOk(m, w, a) && AllSeen(m, w)
    ensures AllSeen(m, Do(m, w, a))
  {
    hide NonceLog.Open, NonceLog.Consume, NonceLog.CrashFile, NonceLog.EntryOk, NonceLog.IoFor, ValidRail, Look, Apply, PostAttestation, Grows,
         MeedShown, NetShown, WindowsOk, Delimited;
    ActGrows(m, w, a);
    var w' := Do(m, w, a);
    forall i <- w.phases ensures SeenOk(m, w'.rail, w.phases[i]) { SeenStays(m, w.rail, w'.rail, w.phases[i]); }
    if a.LookStep? { LookSees(m, w.rail, w.store, w.phases[a.i]); }
  }

  lemma {:induction false} RunSees(m: Merchant, w: World, run: seq<Act>)
    requires Inv(m, w) && AllSeen(m, w)
    ensures AllSeen(m, After(m, w, run)) && Grows(w.rail, After(m, w, run).rail)
  {
    hide Inv, AllSeen, Do, ActOk, Grows;
    if |run| == 0 {
      GrowsRefl(w.rail);
    } else {
      var mid := After(m, w, run[..|run| - 1]);
      RunSees(m, w, run[..|run| - 1]);
      InvRail(m, mid);
      if ActOk(m, mid, run[|run| - 1]) {
        ActSees(m, mid, run[|run| - 1]);
        ActGrows(m, mid, run[|run| - 1]);
        GrowsTrans(w.rail, mid.rail, Do(m, mid, run[|run| - 1]).rail);
      }
    }
  }

  lemma InvRail(m: Merchant, w: World)
    requires Inv(m, w)
    ensures ValidRail(w.rail)
  {
    hide ValidRail;
  }

  lemma {:induction false} AttestedAfter(m: Merchant, w: World, run: seq<Act>, q: Quote)
    requires Inv(m, w) && IsAttested(w.rail, q)
    ensures IsAttested(After(m, w, run).rail, q)
  {
    hide Inv, Do, ActOk, IsAttested;
    if |run| > 0 {
      var mid := After(m, w, run[..|run| - 1]);
      AttestedAfter(m, w, run[..|run| - 1], q);
      if ActOk(m, mid, run[|run| - 1]) { BackedStays(m, mid, run[|run| - 1]); }
    }
  }

  // ---- one retry, start to end ------------------------------------------------------------------------

  /** A redeemer asks, makes its checks, posts, looks and consumes; acts that no longer apply do nothing. */
  function Retry(i: nat, r: Request, body: Octets, io: Disk.Io): seq<Act> {
    [Ask(i, r), LookStep(i), LookStep(i), LookStep(i), LookStep(i), Post(i), LookStep(i), Consume(i, body, io)]
  }

  /** What the store makes of the claim: free, taken by it, or taken by another. */
  function Peeked(m: Merchant, w: World, r: Request): NonceLog.Peeked {
    NonceLog.Peek(w.store, QuoteFor(m, r).nonce, RecordFor(QuoteFor(m, r), r))
  }

  /** What a retry is answered where the entry is ATTESTED and the disk works. */
  function Answer(m: Merchant, w: World, r: Request, body: Octets): Phase {
    match Peeked(m, w, r)
    case Stored(receipt) => Served(r, receipt)
    case Conflict => Rejected(r, AlreadySpent)
    case FreshNonce =>
      if MeedLegCheck(m, w.rail, r).Some? then Rejected(r, MeedLegCheck(m, w.rail, r).value)
      else if NetLegCheck(m, w.rail, r).Some? then Rejected(r, NetLegCheck(m, w.rail, r).value)
      else Served(r, EntryFor(m, r, body).receipt)
  }

  lemma AfterNext(m: Merchant, w: World, run: seq<Act>, k: nat)
    requires Inv(m, w) && k < |run|
    ensures k == 0 ==> After(m, w, run[..k]) == w
    ensures var mid := After(m, w, run[..k]);
            After(m, w, run[..k + 1]) == if ActOk(m, mid, run[k]) then Do(m, mid, run[k]) else mid
    ensures k + 1 == |run| ==> run[..k + 1] == run
  {
    hide Inv, Do, ActOk;
    assert run[..k + 1][..k] == run[..k];
  }

  lemma AfterNone(m: Merchant, w: World, none: seq<Act>)
    requires Inv(m, w) && |none| == 0
    ensures After(m, w, none) == w
  {
    hide Inv;
  }

  lemma {:induction false} AfterAppend(m: Merchant, w: World, run: seq<Act>, more: seq<Act>)
    requires Inv(m, w)
    ensures After(m, w, run + more) == After(m, After(m, w, run), more)
  {
    hide Inv, Do, ActOk, After;
    if |more| == 0 {
      assert run + more == run;
      AfterNone(m, After(m, w, run), more);
    } else {
      var n := |more| - 1;
      AfterAppend(m, w, run, more[..n]);
      assert (run + more)[..|run| + n] == run + more[..n];
      AfterNext(m, w, run + more, |run| + n);
      AfterNext(m, After(m, w, run), more, n);
    }
  }

  /** Redeemer `i` stands at `p`, with this rail and store. */
  predicate Stands(w: World, i: nat, p: Phase, rail: Rail, store: Store) {
    i in w.phases && w.phases[i] == p && w.rail == rail && w.store == store
  }

  predicate Ended(p: Phase) { p.Served? || p.Rejected? }

  predicate Looks(p: Phase) { p.Asked? || p.Unspent? || p.MeedSeen? || p.StatusSeen? || p.Posted? }

  lemma LookMoves(m: Merchant, w: World, i: nat, p: Phase, rail: Rail, store: Store)
    requires ValidRail(w.rail) && Stands(w, i, p, rail, store) && (Looks(p) || Ended(p))
    ensures ActOk(m, w, LookStep(i)) <==> Looks(p)
    ensures Looks(p) ==> Stands(Do(m, w, LookStep(i)), i, Look(m, rail, store, p), rail, store)
    ensures Ended(p) ==> Look(m, rail, store, p) == p && !ActOk(m, w, LookStep(i))
  {
    hide ValidRail, Look;
    if Ended(p) { EndedLooks(m, rail, store, p); }
  }

  lemma EndedLooks(m: Merchant, rail: Rail, store: Store, p: Phase)
    requires Ended(p)
    ensures Look(m, rail, store, p) == p
  {
  }

  function Chain(m: Merchant, rail: Rail, store: Store, r: Request, k: nat): Phase {
    if k == 0 then Asked(r) else Look(m, rail, store, Chain(m, rail, store, r, k - 1))
  }

  /** The four looks of a claim whose entry is ATTESTED. */
  lemma FourLooks(m: Merchant, w: World, r: Request, body: Octets)
    requires !Delimited(r) && WindowsOk(QuoteFor(m, r)) && IsAttested(w.rail, QuoteFor(m, r))
    ensures forall k :: 0 <= k < 4 ==> Looks(Chain(m, w.rail, w.store, r, k)) || Ended(Chain(m, w.rail, w.store, r, k))
    ensures var p, a := Chain(m, w.rail, w.store, r, 4), Answer(m, w, r, body);
            if Ended(p) then p == a else p == NetSeen(r) && a == Served(r, EntryFor(m, r, body).receipt)
                                         && Peeked(m, w, r).FreshNonce?
  {
    hide MeedLegCheck, NetLegCheck, NonceLog.Peek, RecordFor, EntryFor;
    var c0, c1, c2, c3 := Chain(m, w.rail, w.store, r, 0), Chain(m, w.rail, w.store, r, 1), Chain(m, w.rail, w.store, r, 2), Chain(m, w.rail, w.store, r, 3);
    assert c0 == Asked(r) && c1 == Look(m, w.rail, w.store, c0) && c2 == Look(m, w.rail, w.store, c1) && c3 == Look(m, w.rail, w.store, c2);
  }

  /** A claim whose entry is ATTESTED. */
  ghost predicate Askable(m: Merchant, w: World, r: Request) {
    Inv(m, w) && !Delimited(r) && WindowsOk(QuoteFor(m, r)) && IsAttested(w.rail, QuoteFor(m, r))
  }

  /** The store is open for appends, the entry can be encoded, and the disk takes it. */
  ghost predicate DiskWorks(m: Merchant, w: World, r: Request, body: Octets, io: Disk.Io) {
    && !w.store.poisoned && NonceLog.EntryOk(m.codec, EntryFor(m, r, body))
    && NonceLog.IoFor(m.codec, EntryFor(m, r, body), io) && io.ok
  }

  lemma {:induction false} LookPrefix(m: Merchant, w: World, i: nat, r: Request, body: Octets, io: Disk.Io, k: nat)
    requires Askable(m, w, r) && k <= 4
    ensures Stands(After(m, w, Retry(i, r, body, io)[..k + 1]), i, Chain(m, w.rail, w.store, r, k), w.rail, w.store)
    decreases k
  {
    hide Inv, Do, ActOk, IsAttested, WindowsOk, Delimited, Chain, Looks, Ended;
    var run := Retry(i, r, body, io);
    AfterNext(m, w, run, k);
    if k == 0 {
      AskStands(m, w, i, r);
    } else {
      LookPrefix(m, w, i, r, body, io, k - 1);
      FourLooks(m, w, r, body);
      var mid := After(m, w, run[..k]);
      InvRail(m, mid);
      LookMoves(m, mid, i, Chain(m, w.rail, w.store, r, k - 1), w.rail, w.store);
      ChainNext(m, w.rail, w.store, r, k);
    }
  }

  lemma AskStands(m: Merchant, w: World, i: nat, r: Request)
    requires Inv(m, w)
    ensures ValidRail(w.rail) && ActOk(m, w, Ask(i, r))
    ensures Stands(Do(m, w, Ask(i, r)), i, Chain(m, w.rail, w.store, r, 0), w.rail, w.store)
  {
    hide ValidRail;
  }

  lemma ChainNext(m: Merchant, rail: Rail, store: Store, r: Request, k: nat)
    requires k > 0
    ensures Chain(m, rail, store, r, k) == Look(m, rail, store, Chain(m, rail, store, r, k - 1))
  {
  }

  /** A redeemer that has an answer takes no further step. */
  lemma EndedStays(m: Merchant, w: World, i: nat, body: Octets, io: Disk.Io)
    requires Inv(m, w) && i in w.phases && Ended(w.phases[i])
    ensures !ActOk(m, w, Post(i)) && !ActOk(m, w, LookStep(i)) && !ActOk(m, w, Consume(i, body, io))
  {
    hide Inv;
  }

  /** After its checks: the attestation is there, whoever posted it, and the fresh nonce is consumed. */
  lemma PostedServes(m: Merchant, w: World, i: nat, r: Request, body: Octets, io: Disk.Io)
    requires Askable(m, w, r) && DiskWorks(m, w, r, body, io) && i in w.phases && w.phases[i] == NetSeen(r)
    requires Peeked(m, w, r).FreshNonce?
    ensures ValidRail(w.rail) && ActOk(m, w, Post(i))
    ensures var w1 := Do(m, w, Post(i));
            && ActOk(m, w1, LookStep(i))
            && var w2 := Do(m, w1, LookStep(i));
               && ActOk(m, w2, Consume(i, body, io))
               && var w3 := Do(m, w2, Consume(i, body, io));
                  i in w3.phases && w3.phases[i] == Served(r, EntryFor(m, r, body).receipt)
  {
    hide ValidRail, IsAttested, PostAttestation, NonceLog.Consume, NonceLog.EntryOk, NonceLog.IoFor, NonceLog.Peek, StoreOk, Backed, IssuedOk, PhaseOk;
    var q := QuoteFor(m, r);
    PostIsCall(m, w.rail, q);
    AttestedStays(w.rail, CallOp(InstanceAddr(q), AttestCall(m, q)), q);
    FreshConsumed(m.codec, w.store, EntryFor(m, r, body), io);
  }

  lemma FreshConsumed(c: NonceLog.Codec, s: Store, e: NonceLog.Entry, io: Disk.Io)
    requires !s.poisoned && NonceLog.Peek(s, e.nonce, e.record) == NonceLog.FreshNonce && NonceLog.IoFor(c, e, io) && io.ok
    ensures NonceLog.Consume(c, s, e, io).1 == NonceLog.Accepted(e.receipt)
  {
    hide NonceLog.EntryBytes, NonceLog.UsedRefKeys, Disk.WriteAt;
  }

  lemma RetryAnswered(m: Merchant, w: World, i: nat, r: Request, body: Octets, io: Disk.Io)
    requires Askable(m, w, r) && (Peeked(m, w, r).FreshNonce? ==> DiskWorks(m, w, r, body, io) || Answer(m, w, r, body).Rejected?)
    ensures var w' := After(m, w, Retry(i, r, body, io)); i in w'.phases && w'.phases[i] == Answer(m, w, r, body)
  {
    hide Inv, Do, ActOk, IsAttested, WindowsOk, Delimited, Chain, Ended, Answer, EntryFor, RecordFor, NonceLog.Peek, NonceLog.EntryOk, NonceLog.IoFor;
    var run := Retry(i, r, body, io);
    LookPrefix(m, w, i, r, body, io, 4);
    FourLooks(m, w, r, body);
    AfterNext(m, w, run, 5);
    AfterNext(m, w, run, 6);
    AfterNext(m, w, run, 7);
    var w5 := After(m, w, run[..5]);
    if Ended(w5.phases[i]) {
      EndedStays(m, w5, i, body, io);
    } else {
      InvRail(m, w5);
      PostedServes(m, w5, i, r, body, io);
    }
  }

  // ---- retries over runs ---------------------------------------------------------------------------------

  predicate PastChecks(p: Phase) { p.NetSeen? || p.Posted? || p.Ready? }

  /** In this world of a run from the start, redeemer `i` has passed its checks and its entry is ATTESTED. */
  ghost predicate Attested(m: Merchant, w: World, i: nat) {
    Inv(m, w) && AllSeen(m, w) && i in w.phases && PastChecks(w.phases[i]) && IsAttested(w.rail, QuoteFor(m, w.phases[i].r))
  }

  lemma BeginSeen(m: Merchant, rail: Rail, run: seq<Act>)
    requires ValidRail(rail) && Signs(m)
    ensures Inv(m, After(m, Begin(m, rail), run)) && AllSeen(m, After(m, Begin(m, rail), run))
  {
    hide Inv, After;
    assert AllSeen(m, Begin(m, rail));
    RunSees(m, Begin(m, rail), run);
  }

  /** After any further acts the claim can still be made, and both its legs are still shown. */
  lemma ClaimStays(m: Merchant, w: World, i: nat, run: seq<Act>, r: Request)
    requires Attested(m, w, i) && SameClaim(w.phases[i].r, r)
    ensures var w1 := After(m, w, run);
            && Askable(m, w1, r) && MeedShown(m, w1.rail, r) && NetShown(m, w1.rail, r)
            && (Timely(m, w1.rail, r) <==> Timely(m, w.rail, w.phases[i].r))
  {
    hide Inv, IsAttested, MeedShown, NetShown, Grows, After, WindowsOk, Delimited, AllSeen;
    var p := w.phases[i];
    PhaseSeen(m, w, i);
    RunSees(m, w, run);
    AttestedAfter(m, w, run, QuoteFor(m, p.r));
    ShownStays(m, w.rail, After(m, w, run).rail, p.r, r);
    ShownKnown(m, w.rail, p.r);
    ShownKnown(m, After(m, w, run).rail, r);
    SameDelimited(p.r, r);
  }

  lemma TimelyTimes(m: Merchant, rail: Rail, r: Request)
    requires Timely(m, rail, r)
    ensures Known(rail, MeedRef(m, r)) && FinalTime(rail, MeedRef(m, r)) <= Deadline(QuoteFor(m, r))
    ensures Known(rail, NetRef(m, r)) && FinalTime(rail, NetRef(m, r)) <= Deadline(QuoteFor(m, r))
  {
  }

  lemma PhaseSeen(m: Merchant, w: World, i: nat)
    requires AllSeen(m, w) && i in w.phases
    ensures SeenOk(m, w.rail, w.phases[i])
  {
  }

  lemma SameDelimited(r: Request, r': Request)
    requires SameClaim(r, r')
    ensures Delimited(r') == Delimited(r)
  {
  }

  lemma ServedIsStored(m: Merchant, w: World, i: nat)
    requires Inv(m, w) && i in w.phases && w.phases[i].Served?
    ensures var n := QuoteFor(m, w.phases[i].r).nonce;
            n in w.store.byNonce && w.store.byNonce[n].1 == w.phases[i].receipt && (n, w.phases[i].receipt) in w.issued
  {
    hide ValidRail, StoreOk, Backed;
    assert PhaseOk(m, w, w.phases[i]);
  }

  /** Once a redeemer whose legs are final in time has passed its checks and its entry is ATTESTED, every later
      retry of the claim is served, whatever crashes, consumptions and rail calls came in between and whenever
      it is made: with the stored receipt if there is one, else with its own, which is then stored. Only
      another claim that took the nonce or one of the references stands in its way, or a disk that fails a
      first consumption. */
  lemma RetryConverges(m: Merchant, rail: Rail, before: seq<Act>, i: nat, later: seq<Act>, j: nat, r: Request, body: Octets, io: Disk.Io)
    requires ValidRail(rail) && Signs(m)
    requires var w := After(m, Begin(m, rail), before);
             && i in w.phases && PastChecks(w.phases[i]) && IsAttested(w.rail, QuoteFor(m, w.phases[i].r))
             && Timely(m, w.rail, w.phases[i].r) && SameClaim(w.phases[i].r, r)
             && var w1 := After(m, w, later); (Peeked(m, w1, r).FreshNonce? ==> DiskWorks(m, w1, r, body, io))
    ensures var w1 := After(m, After(m, Begin(m, rail), before), later);
            var w2 := After(m, w1, Retry(j, r, body, io));
            var n := QuoteFor(m, r).nonce;
            && j in w2.phases
            && (Peeked(m, w1, r).Conflict? <==> w2.phases[j] == Rejected(r, AlreadySpent))
            && (!Peeked(m, w1, r).Conflict? ==>
                  && w2.phases[j] == Served(r, if n in w1.store.byNonce then w1.store.byNonce[n].1 else EntryFor(m, r, body).receipt)
                  && n in w2.store.byNonce && w2.store.byNonce[n].1 == w2.phases[j].receipt)
  {
    hide Inv, IsAttested, MeedShown, NetShown, After, Timely, MeedLegCheck, NetLegCheck, DiskWorks, AllSeen, Askable;
    BeginSeen(m, rail, before);
    var w := After(m, Begin(m, rail), before);
    var w1 := After(m, w, later);
    ClaimStays(m, w, i, later, r);
    ShownDecides(m, w1.rail, r);
    TimelyTimes(m, w1.rail, r);
    RetryAnswered(m, w1, j, r, body, io);
    var w2 := After(m, w1, Retry(j, r, body, io));
    if w2.phases[j].Served? { ServedIsStored(m, w2, j); }
  }

  /** Once both legs have reached the strongest level, a retry of an attested claim that passed its checks is
      served exactly when its receipt is stored, or the claim is free and its legs were final in time; a
      free claim whose legs were not is answered Expired. */
  lemma RetryOutcome(m: Merchant, rail: Rail, before: seq<Act>, i: nat, later: seq<Act>, j: nat, r: Request, body: Octets, io: Disk.Io)
    requires ValidRail(rail) && Signs(m)
    requires var w := After(m, Begin(m, rail), before);
             && i in w.phases && PastChecks(w.phases[i]) && IsAttested(w.rail, QuoteFor(m, w.phases[i].r))
             && SameClaim(w.phases[i].r, r) && BothFinal(m, After(m, w, later).rail, r)
    ensures var w1 := After(m, After(m, Begin(m, rail), before), later);
            var w2 := After(m, w1, Retry(j, r, body, io));
            && (Peeked(m, w1, r).FreshNonce? && !Timely(m, w1.rail, r) ==> j in w2.phases && w2.phases[j] == Rejected(r, Expired))
            && ((Peeked(m, w1, r).FreshNonce? ==> DiskWorks(m, w1, r, body, io)) ==>
                  && j in w2.phases
                  && (w2.phases[j].Served? <==> Peeked(m, w1, r).Stored? || (Peeked(m, w1, r).FreshNonce? && Timely(m, w1.rail, r))))
  {
    hide Inv, IsAttested, MeedShown, NetShown, After, MeedLegCheck, NetLegCheck, DiskWorks, AllSeen, Askable;
    BeginSeen(m, rail, before);
    var w := After(m, Begin(m, rail), before);
    var w1 := After(m, w, later);
    ClaimStays(m, w, i, later, r);
    ShownDecides(m, w1.rail, r);
    if !Peeked(m, w1, r).FreshNonce? || DiskWorks(m, w1, r, body, io) || Answer(m, w1, r, body).Rejected? {
      RetryAnswered(m, w1, j, r, body, io);
    }
  }

  // ---- retries among other redeemers -------------------------------------------------------------------

  /** A claim with nothing left to be refused for but what the store and the disk say. */
  ghost predicate Granted(m: Merchant, w: World, r: Request) {
    Askable(m, w, r) && MeedShown(m, w.rail, r) && NetShown(m, w.rail, r) && Timely(m, w.rail, r)
  }

  /** A refusal of the claim since world `w0` is one of these: another claim has taken the nonce or a reference,
      or the redeemer's own append failed. */
  ghost predicate OnlyTaken(m: Merchant, w0: World, w: World, claim: Request) {
    forall j <- w.phases :: SameClaim(claim, w.phases[j].r) && w.phases[j].Rejected? ==>
      || (j in w0.phases && w0.phases[j] == w.phases[j])
      || w.phases[j].e == StoreUnavailable
      || (w.phases[j].e == AlreadySpent && Peeked(m, w, claim).Conflict?)
  }

  lemma GrantedLooks(m: Merchant, w: World, claim: Request, p: Phase)
    requires Granted(m, w, claim) && SameClaim(claim, p.r)
    ensures var p' := Look(m, w.rail, w.store, p);
            p'.Rejected? ==> p' == p || (p'.e == AlreadySpent && Peeked(m, w, claim).Conflict?)
  {
    hide Inv, MeedLegCheck, NetLegCheck, MeedShown, NetShown, Timely, WindowsOk, Delimited, NonceLog.Peek;
    GrowsRefl(w.rail);
    ShownStays(m, w.rail, w.rail, claim, p.r);
    ShownDecides(m, w.rail, p.r);
    TimelyTimes(m, w.rail, claim);
    SameDelimited(claim, p.r);
  }

  lemma LookKeepsClaim(m: Merchant, w: World, p: Phase)
    ensures Look(m, w.rail, w.store, p).r == p.r
  {
    hide MeedLegCheck, NetLegCheck, StatusCheck, NonceLog.Peek;
  }

  lemma ConflictStays(c: NonceLog.Codec, s: Store, e: NonceLog.Entry, io: Disk.Io, n: Octets, record: NonceLog.NonceRecord)
    requires NonceLog.IoFor(c, e, io)
    ensures NonceLog.Peek(s, n, record).Conflict? ==> NonceLog.Peek(NonceLog.Consume(c, s, e, io).0, n, record).Conflict?
    ensures NonceLog.Consume(c, s, e, io).1 == NonceLog.Refused(NonceLog.Replayed) ==>
              NonceLog.Peek(NonceLog.Consume(c, s, e, io).0, e.nonce, e.record).Conflict?
  {
    hide NonceLog.EntryBytes, NonceLog.UsedRefKeys, Disk.WriteAt, Disk.Truncated;
  }

  lemma ActTakes(m: Merchant, w0: World, w: World, a: Act, claim: Request)
    requires ActOk(m, w, a) && Granted(m, w, claim) && OnlyTaken(m, w0, w, claim)
    ensures ValidRail(w.rail) && OnlyTaken(m, w0, Do(m, w, a), claim)
  {
    hide Inv, ValidRail, Granted, Look, Apply, PostAttestation, NonceLog.Open, NonceLog.Consume, NonceLog.Peek, NonceLog.CrashFile,
         NonceLog.EntryOk, NonceLog.IoFor, EntryFor, RecordFor;
    GrantedRail(m, w, claim);
    match a
    case LookStep(i) =>
      LookKeepsClaim(m, w, w.phases[i]);
      if SameClaim(claim, w.phases[i].r) { GrantedLooks(m, w, claim, w.phases[i]); }
    case Consume(i, body, io) =>
      var r := w.phases[i].r;
      ConflictStays(m.codec, w.store, EntryFor(m, r, body), io, QuoteFor(m, claim).nonce, RecordFor(QuoteFor(m, claim), claim));
      if SameClaim(claim, r) { EntryOf(m, r, body, claim); }
    case _ =>
  }

  lemma GrantedRail(m: Merchant, w: World, claim: Request)
    requires Granted(m, w, claim)
    ensures ValidRail(w.rail)
  {
    hide ValidRail;
  }

  lemma EntryOf(m: Merchant, r: Request, body: Octets, claim: Request)
    requires SameClaim(claim, r)
    ensures EntryFor(m, r, body).nonce == QuoteFor(m, claim).nonce
    ensures EntryFor(m, r, body).record == RecordFor(QuoteFor(m, claim), claim)
  {
  }

  /** The same with every redeemer's acts interleaved: once the legs are final in time and the entry is
      ATTESTED, no redeemer of the claim is refused any more, in any run, unless another claim has taken the
      nonce or one of the references or the redeemer's own append failed. */
  lemma {:induction false} NeverRefused(m: Merchant, rail: Rail, before: seq<Act>, i: nat, later: seq<Act>)
    requires ValidRail(rail) && Signs(m)
    requires var w := After(m, Begin(m, rail), before);
             && i in w.phases && PastChecks(w.phases[i]) && IsAttested(w.rail, QuoteFor(m, w.phases[i].r))
             && Timely(m, w.rail, w.phases[i].r)
    ensures var w := After(m, Begin(m, rail), before);
            OnlyTaken(m, w, After(m, w, later), w.phases[i].r)
  {
    hide Inv, IsAttested, MeedShown, NetShown, Timely, AllSeen, Askable, Do, ActOk, After;
    BeginSeen(m, rail, before);
    var w := After(m, Begin(m, rail), before);
    if |later| == 0 {
      AfterNone(m, w, later);
    } else {
      var n := |later| - 1;
      NeverRefused(m, rail, before, i, later[..n]);
      ClaimStays(m, w, i, later[..n], w.phases[i].r);
      AfterNext(m, w, later, n);
      var mid := After(m, w, later[..n]);
      if ActOk(m, mid, later[n]) { ActTakes(m, w, mid, later[n], w.phases[i].r); }
    }
  }

  /** A crash reopens the store, so it is open for appends again whatever a failed one left. */
  lemma CrashHeals(m: Merchant, w: World)
    requires Inv(m, w)
    ensures !Restarted(w, NonceLog.Open(m.codec, w.store.file)).store.poisoned
  {
    hide ValidRail, NonceLog.Open, StoreOk, Backed, PhaseOk;
    ReopenStore(m, w.store, w.attempts);
    OpensClean(m.codec, w.store.file);
  }

  lemma OpensClean(c: NonceLog.Codec, file: Octets)
    ensures NonceLog.Open(c, file).Some? ==> !NonceLog.Open(c, file).value.poisoned
  {
  }
}
