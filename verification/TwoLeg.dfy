/** Two-leg redemption (F4.4): both legs verified on the rail, the attestation posted, the nonce
    consumed, the receipt returned; any number of redeemers share one rail and one durable store, and
    each may stop between any two steps. */
module TwoLeg {
  import opened Bytes
  import opened Options
  import opened Instance
  import opened RailTypes
  import opened VirtualRail
  import Disk
  import NonceLog

  type Store = NonceLog.Store
  type Receipt = NonceLog.Receipt

  /** What the merchant reads from its own signed quote. */
  datatype Quote = Quote(
    nonce: Octets, idem: Octets, resource: Octets, sig: Octets, exp: nat, grace: nat,
    seed: Seed, meedAmount: nat, reclaim: nat, contest: nat,
    baselineAsset: Asset, netPayTo: Address, netAsset: Asset, netAmount: nat,
    finMeed: Option<Level>, finNet: Option<Level>)

  datatype RedeemError = QuoteInvalid | PaymentUnverified | Expired | AlreadySpent | StoreUnavailable

  /** The merchant's key, its quotes by signature, the rail's lookup of a presented reference, the
      declared inclusion latency and the receipt codec. */
  datatype Merchant = Merchant(
    key: Key, quoteOf: Octets -> Quote, lookup: Octets -> Option<nat>, latency: nat, codec: NonceLog.Codec)

  /** A redemption request: a quote named by its signature, and the two references as presented. */
  datatype Request = Request(sig: Octets, meedRef: Octets, netRef: Octets, now: nat)

  function QuoteFor(m: Merchant, r: Request): Quote { m.quoteOf(r.sig) }

  function Deadline(q: Quote): nat { SatAdd64(q.exp, q.grace) }

  function TOpen(q: Quote): nat { q.exp + q.grace }

  function TLapse(q: Quote): nat { q.exp + q.grace + q.reclaim }

  function EntryId(q: Quote): RecordId { Purchase(q.seed, q.nonce, q.meedAmount, TOpen(q), TLapse(q), q.contest) }

  function InstanceAddr(q: Quote): Address { AddressOf(q.seed) }

  function RecordFor(q: Quote, r: Request): NonceLog.NonceRecord {
    NonceLog.NonceRecord(r.meedRef + [NonceLog.DELIMITER] + r.netRef, q.idem, q.resource, q.sig)
  }

  // ---- the checks, in order ------------------------------------------------------------------------

  predicate Delimited(r: Request) { NonceLog.DELIMITER in r.meedRef || NonceLog.DELIMITER in r.netRef }

  function LegFinal(rail: Rail, ref: Option<nat>, required: Option<Level>, deadline: nat, now: nat): Option<RedeemError> {
    if ref.None? || FinalityOf(rail, ref.value).None? then Some(PaymentUnverified)
    else
      var (level, time) := FinalityOf(rail, ref.value).value;
      if required.None? || (required == Some(Final) && level == Pending)
      then Some(if now > deadline then Expired else PaymentUnverified)
      else if time > deadline then Some(Expired)
      else None
  }

  function MeedLegCheck(m: Merchant, rail: Rail, r: Request): Option<RedeemError> {
    var q, ref := QuoteFor(m, r), m.lookup(r.meedRef);
    if ref.None? || RefTarget(rail, ref.value).None? then Some(PaymentUnverified)
    else
      var info := RefTarget(rail, ref.value).value;
      if info.fundsEntry != Some(EntryId(q)) || info.asset != q.baselineAsset || info.memo != Some(Chosen(q.nonce))
      then Some(PaymentUnverified)
      else LegFinal(rail, ref, q.finMeed, Deadline(q), r.now)
  }

  function EntryStateAt(rail: Rail, q: Quote): Option<EntryState> {
    if InstanceAddr(q) in rail.instances && EntryId(q) in rail.instances[InstanceAddr(q)].entries
    then Some(rail.instances[InstanceAddr(q)].entries[EntryId(q)].state) else None
  }

  predicate IsAttested(rail: Rail, q: Quote) { EntryStateAt(rail, q) == Some(EntryState.Attested) }

  /** FUNDED and ATTESTED pass; RECLAIM_OPEN only with twice the inclusion latency left. */
  function StatusCheck(m: Merchant, rail: Rail, r: Request): Option<RedeemError> {
    match EntryStateAt(rail, QuoteFor(m, r))
    case Some(Funded) => None
    case Some(Attested) => None
    case Some(ReclaimOpen(openedAt)) =>
      var tExec := SatAdd64(openedAt, rail.instances[InstanceAddr(QuoteFor(m, r))].entries[EntryId(QuoteFor(m, r))].contest);
      var margin := if 2 * m.latency <= U64_MAX then 2 * m.latency else U64_MAX;
      if SatAdd64(r.now, margin) >= tExec then Some(PaymentUnverified) else None
    case _ => Some(PaymentUnverified)
  }

  function NetLegCheck(m: Merchant, rail: Rail, r: Request): Option<RedeemError> {
    var q, ref := QuoteFor(m, r), m.lookup(r.netRef);
    var fin := LegFinal(rail, ref, q.finNet, Deadline(q), r.now);
    if fin.Some? then fin
    else if RefTarget(rail, ref.value).None? then Some(PaymentUnverified)
    else
      var info := RefTarget(rail, ref.value).value;
      if info.to != q.netPayTo || info.asset != q.netAsset || info.amount < q.netAmount || info.memo != Some(Chosen(q.nonce))
      then Some(PaymentUnverified) else None
  }

  predicate WindowsOk(q: Quote) { TOpen(q) <= U64_MAX && TLapse(q) <= U64_MAX }

  function AttestCall(m: Merchant, q: Quote): Event {
    AttestEv(EntryId(q), Signed(Kind.Attestation, q.nonce, EntryId(q), m.key))
  }

  function PostAttestation(m: Merchant, rail: Rail, q: Quote): (x: (Rail, Reply))
    requires ValidRail(rail)
    ensures ValidRail(x.0)
  {
    CallEntry(rail, InstanceAddr(q), AttestCall(m, q))
  }

  // ---- one redeemer's steps ---------------------------------------------------------------------------

  /** Where a redeemer stands: what it has seen so far is all it remembers. */
  datatype Phase =
    | Asked(r: Request)
    | Unspent(r: Request)
    | MeedSeen(r: Request)
    | StatusSeen(r: Request)
    | NetSeen(r: Request)
    | Posted(r: Request, accepted: bool)
    | Ready(r: Request)
    | Served(r: Request, receipt: Receipt)
    | Rejected(r: Request, e: RedeemError)

  function Fail(r: Request, e: Option<RedeemError>, next: Phase): Phase {
    if e.Some? then Rejected(r, e.value) else next
  }

  /** The steps that only read. */
  function Look(m: Merchant, rail: Rail, store: Store, p: Phase): Phase {
    match p
    case Asked(r) =>
      if Delimited(r) then Rejected(r, PaymentUnverified)
      else
        (match NonceLog.Peek(store, QuoteFor(m, r).nonce, RecordFor(QuoteFor(m, r), r))
         case Stored(receipt) => Served(r, receipt)
         case Conflict => Rejected(r, AlreadySpent)
         case FreshNonce => if WindowsOk(QuoteFor(m, r)) then Unspent(r) else Rejected(r, QuoteInvalid))
    case Unspent(r) => Fail(r, MeedLegCheck(m, rail, r), MeedSeen(r))
    case MeedSeen(r) => Fail(r, StatusCheck(m, rail, r), StatusSeen(r))
    case StatusSeen(r) => Fail(r, NetLegCheck(m, rail, r), NetSeen(r))
    case Posted(r, accepted) => if accepted || IsAttested(rail, QuoteFor(m, r)) then Ready(r) else Rejected(r, PaymentUnverified)
    case _ => p
  }

  /** The receipt the builder signs: for this quote's nonce, idempotency key and resource. */
  function EntryFor(m: Merchant, r: Request, body: Octets): NonceLog.Entry {
    var q := QuoteFor(m, r);
    NonceLog.Entry(q.nonce, RecordFor(q, r), NonceLog.Receipt(q.nonce, q.idem, q.resource, body))
  }

  // ---- the shared world ---------------------------------------------------------------------------------

  /** The rail, the store, the redeemers in flight, every entry ever handed to an append, and every
      receipt ever returned. */
  datatype World = World(
    rail: Rail, store: Store, phases: map<nat, Phase>, attempts: set<NonceLog.Entry>, issued: set<(Octets, Receipt)>)

  datatype Act =
    | Ask(i: nat, r: Request)
    | LookStep(i: nat)
    | Post(i: nat)
    | Consume(i: nat, body: Octets, io: Disk.Io)
    | CrashConsuming(i: nat, body: Octets, wrote: nat)
    | Crash
    | RailStep(op: Op)

  ghost predicate ActOk(m: Merchant, w: World, a: Act) {
    match a
    case LookStep(i) => i in w.phases && (w.phases[i].Asked? || w.phases[i].Unspent? || w.phases[i].MeedSeen?
                                          || w.phases[i].StatusSeen? || w.phases[i].Posted?)
    case Post(i) => i in w.phases && w.phases[i].NetSeen?
    case Consume(i, body, io) =>
      && i in w.phases && w.phases[i].Ready?
      && NonceLog.EntryOk(m.codec, EntryFor(m, w.phases[i].r, body))
      && NonceLog.IoFor(m.codec, EntryFor(m, w.phases[i].r, body), io)
    case CrashConsuming(i, body, wrote) =>
      && i in w.phases && w.phases[i].Ready?
      && NonceLog.EntryOk(m.codec, EntryFor(m, w.phases[i].r, body))
      && wrote <= |NonceLog.EntryBytes(m.codec, EntryFor(m, w.phases[i].r, body))|
    case RailStep(op) => OpOk(op)
    case _ => true
  }

  ghost function Restarted(w: World, store: Option<Store>): World {
    if store.Some? then w.(store := store.value, phases := map[]) else w.(phases := map[])
  }

  ghost function Returned(p: Phase, m: Merchant): set<(Octets, Receipt)> {
    if p.Served? then {(QuoteFor(m, p.r).nonce, p.receipt)} else {}
  }

  ghost function Do(m: Merchant, w: World, a: Act): (w': World)
    requires ValidRail(w.rail) && ActOk(m, w, a)
    ensures ValidRail(w'.rail)
  {
    match a
    case Ask(i, r) => w.(phases := w.phases[i := Asked(r)])
    case LookStep(i) =>
      var p := Look(m, w.rail, w.store, w.phases[i]);
      w.(phases := w.phases[i := p], issued := w.issued + Returned(p, m))
    case Post(i) =>
      var (rail, reply) := PostAttestation(m, w.rail, QuoteFor(m, w.phases[i].r));
      w.(rail := rail, phases := w.phases[i := Posted(w.phases[i].r, !reply.Failed?)])
    case Consume(i, body, io) =>
      var r := w.phases[i].r;
      var e := EntryFor(m, r, body);
      var (store, out) := NonceLog.Consume(m.codec, w.store, e, io);
      var p := match out
        case Accepted(receipt) => Served(r, receipt)
        case Refused(x) => Rejected(r, if x.Replayed? then AlreadySpent else StoreUnavailable);
      w.(store := store, phases := w.phases[i := p], attempts := w.attempts + {e}, issued := w.issued + Returned(p, m))
    case CrashConsuming(i, body, wrote) =>
      var e := EntryFor(m, w.phases[i].r, body);
      Restarted(w.(attempts := w.attempts + {e}), NonceLog.Open(m.codec, NonceLog.CrashFile(m.codec, w.store, e, wrote)))
    case Crash => Restarted(w, NonceLog.Open(m.codec, w.store.file))
    case RailStep(op) => w.(rail := Apply(w.rail, op).0)
  }

  // ---- what every reachable world keeps -------------------------------------------------------------------

  /** The entry a stored record was issued for. */
  function Behind(m: Merchant, record: NonceLog.NonceRecord): Quote { m.quoteOf(record.quoteSig) }

  /** Quotes are found by their own signature. */
  ghost predicate Signs(m: Merchant) { NonceLog.Faithful(m.codec) && forall s :: m.quoteOf(s).sig == s }

  ghost predicate Backed(m: Merchant, rail: Rail, e: NonceLog.Entry) {
    IsAttested(rail, Behind(m, e.record)) && Behind(m, e.record).nonce == e.nonce
  }

  /** The store is a conforming log of attempted entries, and so is whatever a failed append left. */
  ghost predicate StoreOk(m: Merchant, s: Store, attempts: set<NonceLog.Entry>) {
    exists es, tail, t :: StoreIs(m, s, attempts, es, tail, t)
  }

  ghost predicate StoreIs(m: Merchant, s: Store, attempts: set<NonceLog.Entry>, es: seq<NonceLog.Entry>, tail: Octets, t: NonceLog.Entry) {
    && NonceLog.Sound(m.codec, s, es, tail)
    && (forall i :: 0 <= i < |es| ==> es[i] in attempts)
    && (tail != [] ==> NonceLog.TailOf(m.codec, es, tail, t) && t in attempts)
  }

  ghost predicate IssuedOk(w: World) {
    forall x <- w.issued :: x.0 in w.store.byNonce && w.store.byNonce[x.0].1 == x.1
  }

  ghost predicate PhaseOk(m: Merchant, w: World, p: Phase) {
    match p
    case Posted(r, accepted) => accepted ==> IsAttested(w.rail, QuoteFor(m, r))
    case Ready(r) => IsAttested(w.rail, QuoteFor(m, r))
    case Served(r, receipt) => (QuoteFor(m, r).nonce, receipt) in w.issued
    case _ => true
  }

  ghost predicate Inv(m: Merchant, w: World) {
    && ValidRail(w.rail) && Signs(m)
    && StoreOk(m, w.store, w.attempts)
    && (forall e <- w.attempts :: Backed(m, w.rail, e))
    && IssuedOk(w)
    && (forall i <- w.phases :: PhaseOk(m, w, w.phases[i]))
  }
}
