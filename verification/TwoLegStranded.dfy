/** A run in which a payer has paid both legs, the merchant has attested, and no retry is ever served: the
    quote asked for the weakest finality level and the window closes before the strongest one. */
module TwoLegStranded {
  import opened Bytes
  import opened Options
  import Instance
  import opened Ledger
  import opened RailTypes
  import opened VirtualRail
  import Disk
  import NonceLog
  import opened TwoLeg
  import opened TwoLegRuns
  import opened TwoLegRetry

  const T0: nat := 1_000_000_000
  const DELAY: nat := 1000
  const WINDOW: nat := 600
  const KEY: Instance.Key := 7
  const SHARES := [Instance.MeedShare("a", 1)]

  function Blank(n: nat): (s: Octets)
    ensures |s| == n
  {
    if n == 0 then [] else Blank(n - 1) + [0]
  }

  const NONCE: Octets := Blank(32)
  const SIG: Octets := Blank(64)

  /** Both legs are asked for at "pending", and honored until six hundred seconds after the start. */
  function Weak(sig: Octets): Quote {
    Quote(NONCE, [], [], sig, T0, WINDOW, [], 1, 1, 0, "usd", "shop", "usd", 1, Some(Pending), Some(Pending))
  }

  function Shop(c: NonceLog.Codec): Merchant {
    Merchant(KEY, s => Weak(s), ref => if ref == [1] then Some(0) else if ref == [2] then Some(1) else None, 0, c)
  }

  const CLAIM := Request(SIG, [1], [2], T0)

  function Deploying(): Op { InstanceOp([], Some([]), KEY, SHARES) }

  function Funding(): Op { EntryOp(AddressOf([]), Instance.FundEv(NONCE, 1, "payer", T0 + WINDOW, T0 + WINDOW + 1, 0), "usd") }

  function Paying(): Op { SubmitOp(Transfer("shop", "usd", 1, Some(Chosen(NONCE)))) }

  // ---- the rail -----------------------------------------------------------------------------------------

  /** Both legs are on the rail, not yet final, and the entry stands as given. */
  predicate Laid(rail: Rail, st: Instance.EntryState) {
    && |rail.refs| == 2 && rail.delay == DELAY && rail.clock == T0 && rail.refs[0].0 == T0 && rail.refs[1].0 == T0
    && (var i := rail.refs[0].1; i.fundsEntry == Some(EntryId(Weak(SIG))) && i.asset == "usd" && i.memo == Some(Chosen(NONCE)))
    && (var i := rail.refs[1].1; i.to == "shop" && i.asset == "usd" && i.amount == 1 && i.memo == Some(Chosen(NONCE)))
    && AddressOf([]) in rail.instances && rail.instances[AddressOf([])].merchantKey == KEY
    && EntryId(Weak(SIG)) in rail.instances[AddressOf([])].entries
    && rail.instances[AddressOf([])].entries[EntryId(Weak(SIG))].state == st
    && rail.instances[AddressOf([])].entries[EntryId(Weak(SIG))].nonce == NONCE
  }

  /** The instance is deployed and nothing else has happened. */
  predicate Deployed(r: Rail) {
    && r.refs == [] && r.delay == DELAY && r.clock == T0 && !r.outage && r.splits == map[] && r.ledger == map[]
    && AddressOf([]) in r.instances
    && var s := r.instances[AddressOf([])]; s.merchantKey == KEY && s.seed == [] && s.entries == map[]
  }

  /** The entry is funded as well. */
  predicate MeedLaid(r: Rail) {
    && |r.refs| == 1 && r.refs[0].0 == T0 && r.delay == DELAY && r.clock == T0 && !r.outage && r.splits == map[] && r.ledger == map[]
    && (var i := r.refs[0].1; i.fundsEntry == Some(EntryId(Weak(SIG))) && i.asset == "usd" && i.memo == Some(Chosen(NONCE)))
    && AddressOf([]) in r.instances && r.instances[AddressOf([])].merchantKey == KEY
    && EntryId(Weak(SIG)) in r.instances[AddressOf([])].entries
    && var e := r.instances[AddressOf([])].entries[EntryId(Weak(SIG))]; e.state.Funded? && e.nonce == NONCE
  }

  lemma DeployStep()
    ensures OpOk(Deploying()) && Deployed(Apply(Empty(DELAY), Deploying()).0)
  {
    hide AddressOf, Instance.Aggregate, Instance.BpTotal, Instance.Entitlements;
  }

  lemma FundStep(r: Rail)
    requires ValidRail(r) && Deployed(r)
    ensures OpOk(Funding()) && MeedLaid(Apply(r, Funding()).0)
  {
    hide ValidRail, AddressOf;
  }

  lemma PayStep(r: Rail)
    requires ValidRail(r) && MeedLaid(r)
    ensures OpOk(Paying()) && Laid(Apply(r, Paying()).0, Instance.Funded)
  {
    hide ValidRail, AddressOf, EntryId;
  }

  /** At "pending" each leg passes: its time is the one it was submitted at. */
  lemma PendingPasses(m: Merchant, rail: Rail, st: Instance.EntryState)
    requires m == Shop(m.codec) && Laid(rail, st)
    ensures LegsPass(m, rail, CLAIM) && !Delimited(CLAIM) && WindowsOk(QuoteFor(m, CLAIM)) && QuoteFor(m, CLAIM) == Weak(SIG)
    ensures st == Instance.Funded ==> StatusCheck(m, rail, CLAIM).None?
  {
    hide EntryId, AddressOf;
  }

  lemma PostStep(m: Merchant, rail: Rail)
    requires m == Shop(m.codec) && ValidRail(rail) && Laid(rail, Instance.Funded)
    ensures !PostAttestation(m, rail, Weak(SIG)).1.Failed? && IsAttested(PostAttestation(m, rail, Weak(SIG)).0, Weak(SIG))
    ensures var r' := PostAttestation(m, rail, Weak(SIG)).0; r'.refs == rail.refs && r'.delay == rail.delay && r'.clock == rail.clock
  {
    hide AddressOf, EntryId, Instance.Distribute, CreditAll;
    PostAttests(m, rail, Weak(SIG));
  }

  // ---- the run -------------------------------------------------------------------------------------------

  /** The legs are laid, a redeemer checks them and posts the attestation, and the process stops; the clock
      passes the time at which both legs are final. */
  function Stranding(): seq<Act> {
    [RailStep(Deploying()), RailStep(Funding()), RailStep(Paying()), Ask(0, CLAIM),
     LookStep(0), LookStep(0), LookStep(0), LookStep(0), Post(0), Crash, RailStep(Tick(DELAY))]
  }

  lemma ShopSigns(c: NonceLog.Codec)
    requires NonceLog.Faithful(c)
    ensures Signs(Shop(c))
  {
  }

  ghost function Shopping(c: NonceLog.Codec): (w: World)
    requires NonceLog.Faithful(c)
    ensures Inv(Shop(c), w)
  {
    ShopSigns(c);
    Begin(Shop(c), Empty(DELAY))
  }

  /** Nothing is spent and nothing was ever written. */
  predicate Blankly(s: Store) { s.file == [] && s.byNonce == map[] && s.usedRefs == {} }

  lemma BeginsBlank(c: NonceLog.Codec)
    requires NonceLog.Faithful(c)
    ensures NonceLog.Open(c, []).Some? && Blankly(NonceLog.Open(c, []).value)
    ensures Shopping(c).rail == Empty(DELAY) && Blankly(Shopping(c).store)
  {
    NonceLog.OpenEmpty(c);
    NonceLog.NothingReads();
  }

  lemma RailActs(m: Merchant, w: World, op: Op)
    requires ValidRail(w.rail) && OpOk(op)
    ensures ActOk(m, w, RailStep(op)) && Do(m, w, RailStep(op)) == w.(rail := Apply(w.rail, op).0)
  {
    hide ValidRail, Apply, OpOk, PostAttestation, Look, NonceLog.Consume, NonceLog.Open, NonceLog.CrashFile, NonceLog.EntryOk;
  }

  lemma LegsLaid(c: NonceLog.Codec)
    requires NonceLog.Faithful(c)
    ensures var w := After(Shop(c), Shopping(c), Stranding()[..3]); Blankly(w.store) && Laid(w.rail, Instance.Funded)
  {
    hide Inv, Do, Laid, MeedLaid, Deployed, ActOk, NonceLog.Open, Apply, OpOk, Shopping, Shop, Deploying, Funding, Paying, Blankly, After;
    BeginsBlank(c);
    var m, w := Shop(c), Shopping(c);
    var run := Stranding();
    AfterNext(m, w, run, 0); AfterNext(m, w, run, 1); AfterNext(m, w, run, 2);
    InvRail(m, w);
    DeployStep();
    RailActs(m, w, Deploying());
    var w1 := After(m, w, run[..1]);
    InvRail(m, w1);
    FundStep(w1.rail);
    RailActs(m, w1, Funding());
    var w2 := After(m, w, run[..2]);
    InvRail(m, w2);
    PayStep(w2.rail);
    RailActs(m, w2, Paying());
  }

  /** The redeemer's own steps up to the post: it passes every check. */
  lemma ChecksPass(c: NonceLog.Codec, rail: Rail, store: Store)
    requires Laid(rail, Instance.Funded) && Blankly(store)
    ensures var m := Shop(c);
            && Chain(m, rail, store, CLAIM, 0) == Asked(CLAIM) && Chain(m, rail, store, CLAIM, 1) == TwoLeg.Unspent(CLAIM)
            && Chain(m, rail, store, CLAIM, 2) == MeedSeen(CLAIM) && Chain(m, rail, store, CLAIM, 3) == StatusSeen(CLAIM)
            && Chain(m, rail, store, CLAIM, 4) == NetSeen(CLAIM)
  {
    hide Laid, MeedLegCheck, NetLegCheck, StatusCheck, WindowsOk, Delimited, QuoteFor, NonceLog.UsedRefKeys;
    var m := Shop(c);
    PendingPasses(m, rail, Instance.Funded);
    var c0, c1, c2, c3 := Chain(m, rail, store, CLAIM, 0), Chain(m, rail, store, CLAIM, 1), Chain(m, rail, store, CLAIM, 2), Chain(m, rail, store, CLAIM, 3);
    assert c0 == Asked(CLAIM) && c1 == Look(m, rail, store, c0) && c2 == Look(m, rail, store, c1) && c3 == Look(m, rail, store, c2);
  }

  lemma ChecksMade(c: NonceLog.Codec)
    requires NonceLog.Faithful(c)
    ensures var w := After(Shop(c), Shopping(c), Stranding()[..8]);
            Blankly(w.store) && Laid(w.rail, Instance.Funded) && 0 in w.phases && w.phases[0] == NetSeen(CLAIM)
  {
    hide Inv, Do, Laid, ActOk, Shopping, Shop, Blankly, After, Chain, Deploying, Funding, Paying, Look;
    LegsLaid(c);
    var m, w, run := Shop(c), Shopping(c), Stranding();
    var w3 := After(m, w, run[..3]);
    ChecksPass(c, w3.rail, w3.store);
    AfterNext(m, w, run, 3); AfterNext(m, w, run, 4); AfterNext(m, w, run, 5); AfterNext(m, w, run, 6); AfterNext(m, w, run, 7);
    AskStands(m, w3, 0, CLAIM);
    var w4, w5, w6, w7 := After(m, w, run[..4]), After(m, w, run[..5]), After(m, w, run[..6]), After(m, w, run[..7]);
    InvRail(m, w4); InvRail(m, w5); InvRail(m, w6); InvRail(m, w7);
    ChainNext(m, w3.rail, w3.store, CLAIM, 1); ChainNext(m, w3.rail, w3.store, CLAIM, 2);
    ChainNext(m, w3.rail, w3.store, CLAIM, 3); ChainNext(m, w3.rail, w3.store, CLAIM, 4);
    LookMoves(m, w4, 0, Asked(CLAIM), w3.rail, w3.store);
    LookMoves(m, w5, 0, TwoLeg.Unspent(CLAIM), w3.rail, w3.store);
    LookMoves(m, w6, 0, MeedSeen(CLAIM), w3.rail, w3.store);
    LookMoves(m, w7, 0, StatusSeen(CLAIM), w3.rail, w3.store);
  }

  /** The attestation is posted: the redeemer is past its checks, and its entry is ATTESTED. */
  lemma AttestationPosted(c: NonceLog.Codec)
    requires NonceLog.Faithful(c)
    ensures var w := After(Shop(c), Shopping(c), Stranding()[..9]);
            && Blankly(w.store) && 0 in w.phases && PastChecks(w.phases[0]) && w.phases[0].r == CLAIM
            && IsAttested(w.rail, QuoteFor(Shop(c), CLAIM))
            && |w.rail.refs| == 2 && w.rail.refs[0].0 == w.rail.refs[1].0 == T0 && w.rail.delay == DELAY && w.rail.clock == T0
  {
    hide Inv, ActOk, Shopping, Blankly, After, Deploying, Funding, Paying, PostAttestation, IsAttested, NonceLog.Consume, NonceLog.Open;
    ChecksMade(c);
    var m, w, run := Shop(c), Shopping(c), Stranding();
    var w8 := After(m, w, run[..8]);
    AfterNext(m, w, run, 8);
    InvRail(m, w8);
    PostOk(m, w8, 0);
    PostStep(m, w8.rail);
  }

  lemma PostOk(m: Merchant, w: World, i: nat)
    requires i in w.phases && w.phases[i].NetSeen?
    ensures ActOk(m, w, Post(i))
  {
  }

  const STOPPING: seq<Act> := [Crash, RailStep(Tick(DELAY))]

  lemma CrashTick(m: Merchant, w: World)
    requires Inv(m, w) && Blankly(w.store) && NonceLog.Open(m.codec, []).Some? && Blankly(NonceLog.Open(m.codec, []).value)
    ensures var w' := After(m, w, STOPPING);
            Blankly(w'.store) && w'.phases == map[] && w'.rail == w.rail.(clock := w.rail.clock + DELAY)
  {
    hide Inv, After, ActOk, NonceLog.Open, Do, Blankly;
    AfterNext(m, w, STOPPING, 0); AfterNext(m, w, STOPPING, 1);
    CrashBlank(m, w);
    InvRail(m, After(m, w, STOPPING[..1]));
    RailActs(m, After(m, w, STOPPING[..1]), Tick(DELAY));
  }

  /** Then the process stops, and the clock passes the time at which both legs are final. */
  lemma Stopped(c: NonceLog.Codec)
    requires NonceLog.Faithful(c)
    ensures var w9 := After(Shop(c), Shopping(c), Stranding()[..9]);
            var w := After(Shop(c), w9, STOPPING);
            && w == After(Shop(c), Shopping(c), Stranding()) && Blankly(w.store) && w.phases == map[]
            && w.rail == w9.rail.(clock := T0 + DELAY)
  {
    hide Inv, Shopping, After, Deploying, Funding, Paying, IsAttested, NonceLog.Open, Blankly;
    AttestationPosted(c);
    BeginsBlank(c);
    AfterAppend(Shop(c), Shopping(c), Stranding()[..9], STOPPING);
    assert Stranding() == Stranding()[..9] + STOPPING;
    CrashTick(Shop(c), After(Shop(c), Shopping(c), Stranding()[..9]));
  }

  lemma CrashBlank(m: Merchant, w: World)
    requires Inv(m, w) && Blankly(w.store) && NonceLog.Open(m.codec, []).Some? && Blankly(NonceLog.Open(m.codec, []).value)
    ensures ValidRail(w.rail) && ActOk(m, w, Crash)
    ensures var w' := Do(m, w, Crash); Blankly(w'.store) && w'.phases == map[] && w'.rail == w.rail
  {
    hide ValidRail, NonceLog.Open;
  }

  /** The payer has paid both legs and the merchant has released the meed, and the claim is free. Whatever
      happens afterwards, while it is free no retry is served, whenever it is made: it is Expired. */
  lemma NeverServed(c: NonceLog.Codec, later: seq<Act>, j: nat, now: nat, body: Octets, io: Disk.Io)
    requires NonceLog.Faithful(c)
    ensures var m, r := Shop(c), CLAIM.(now := now);
            var stopped := After(m, Shopping(c), Stranding());
            var w := After(m, stopped, later);
            var w' := After(m, w, Retry(j, r, body, io));
            && IsAttested(stopped.rail, QuoteFor(m, r)) && Peeked(m, stopped, r).FreshNonce?
            && (Peeked(m, w, r).FreshNonce? ==> j in w'.phases && w'.phases[j] == Rejected(r, Expired))
  {
    hide Inv, After, Blankly, IsAttested, Timely;
    AttestationPosted(c);
    Stopped(c);
    var m, r := Shop(c), CLAIM.(now := now);
    var w9 := After(m, Shopping(c), Stranding()[..9]);
    var stopped := After(m, w9, STOPPING);
    BlankPeek(m, stopped, r);
    AttestedAfter(m, w9, STOPPING, QuoteFor(m, r));
    AfterAppend(m, w9, STOPPING, later);
    var w := After(m, stopped, later);
    RailAfter(m, stopped, later);
    LateLegs(c, w.rail, r);
    RetryOutcome(m, Empty(DELAY), Stranding()[..9], 0, STOPPING + later, j, r, body, io);
  }

  lemma RailAfter(m: Merchant, w: World, run: seq<Act>)
    requires Inv(m, w) && w.phases == map[] && |w.rail.refs| == 2
    ensures var r := After(m, w, run).rail; |r.refs| >= 2 && r.refs[0] == w.rail.refs[0] && r.refs[1] == w.rail.refs[1] && r.delay == w.rail.delay && r.clock >= w.rail.clock
  {
    hide Inv, After;
    RunSees(m, w, run);
  }

  lemma LateLegs(c: NonceLog.Codec, rail: Rail, r: Request)
    requires |rail.refs| >= 2 && rail.refs[0].0 == rail.refs[1].0 == T0 && rail.delay == DELAY && rail.clock >= T0 + DELAY && SameClaim(CLAIM, r)
    ensures BothFinal(Shop(c), rail, r) && !Timely(Shop(c), rail, r)
  {
  }

  lemma BlankPeek(m: Merchant, w: World, r: Request)
    requires Blankly(w.store)
    ensures Peeked(m, w, r).FreshNonce?
  {
    hide NonceLog.UsedRefKeys;
  }
}
