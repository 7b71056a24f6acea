/** The merchant's carriage: every message handler and draw, over the carriage's maps, the durable
    decision store it shares with its replicas, and the rail. */
module Carriage {
  import opened Sums
  import opened Options
  import opened Instance
  import opened RailTypes
  import opened VirtualRail
  import M = Metering
  import opened Books
  import opened BookMoves
  import F7

  const MAX_PROPOSAL_HASHES: nat := 64

  // ---- decisions ------------------------------------------------------------------------------

  /** A channel's close disposition. Only the last two are terminal; only they are recorded durably. */
  datatype Disp = Intent | Committed(successor: ChannelId) | Reconciled(draw: Option<(CkptRef, nat)>)

  datatype DecKey =
    | FundKey(ref: nat)
    | DispKey(c: ChannelId)
    | ReserveKey(c: ChannelId, ckpt: CkptRef)
    | RefundRefKey(c: ChannelId, ckpt: CkptRef)
    | OpenKey(c: ChannelId)

  datatype DecValue = Bare | DispValue(d: Disp) | RefValue(r: nat)
  datatype Decided = Fresh | Already(v: DecValue) | WriteFailed

  /** The durable store as module DecisionLog proves it: a key is decided once; `ok` is whether the append
      succeeds. */
  function Decide(dec: map<DecKey, DecValue>, k: DecKey, v: DecValue, ok: bool): (map<DecKey, DecValue>, Decided) {
    if k in dec then (dec, Already(dec[k]))
    else if ok then (dec[k := v], Fresh)
    else (dec, WriteFailed)
  }

  // ---- state -----------------------------------------------------------------------------------

  /** A predecessor's position at import time, and what the successor must match. */
  datatype ChainSnapshot = ChainSnapshot(position: Imported, balance: int, payer: Key, prepay: bool, seed: Seed, asset: Asset)

  datatype Config = Config(settlePtr: Address, synthetic: (ChannelId, seq<nat>, nat, nat) -> CkptRef)

  datatype Carriage = Carriage(
    cfg: Config,
    channels: map<ChannelId, Channel>, payers: map<ChannelId, Key>,
    disps: map<ChannelId, Disp>, consumed: set<nat>,
    tombstones: set<ChannelId>, consumedChain: set<(ChannelId, CkptRef)>,
    snapshots: map<(ChannelId, CkptRef), ChainSnapshot>,
    decisions: map<DecKey, DecValue>)

  datatype Response = Ok | Receipt | Notice(target: nat) | Rejected

  /** The carriage and the rail it drives. */
  datatype System = System(c: Carriage, r: Rail)

  function PutChannel(c: Carriage, cid: ChannelId, ch: Channel): Carriage { c.(channels := c.channels[cid := ch]) }

  predicate IsFinal(r: Rail, ref: nat) { FinalityOf(r, ref).Some? && FinalityOf(r, ref).value.0 == Final }

  predicate BarsNewRound(c: Carriage, cid: ChannelId) { cid in c.disps && !c.disps[cid].Reconciled? }

  /** May a funding leg credit this channel now? */
  predicate FundingAdmissible(c: Carriage, cid: ChannelId) {
    cid in c.channels &&
    if c.channels[cid].meter.prepay then cid !in c.disps || c.disps[cid].Intent?
    else cid !in c.disps || !c.disps[cid].Committed?
  }

  /** Follow committed links, `hops` at most. */
  function Follow(disps: map<ChannelId, Disp>, cid: ChannelId, hops: nat): ChannelId
    decreases hops
  {
    if hops == 0 || cid !in disps || !disps[cid].Committed? then cid
    else Follow(disps, disps[cid].successor, hops - 1)
  }

  function ResolveTip(disps: map<ChannelId, Disp>, cid: ChannelId): ChannelId { Follow(disps, cid, |disps| + 1) }

  // ---- opening and chaining ---------------------------------------------------------------------

  datatype OpenReq = OpenReq(
    payer: Key, terms: Terms, prepay: bool, limitL: nat, limitE: nat, bp: seq<nat>,
    predecessor: Option<(ChannelId, CkptRef)>, finalOk: bool, valid: bool)

  /** The basis points of the four base roles, in role order. */
  const SCHEMA_ROLES: seq<nat> := [50, 10, 30, 10]

  /** The authorization verifies, carries exactly the base roles, and names a refund pointer iff it is
      prepay. */
  predicate Conforms(o: OpenReq) { o.valid && o.bp == SCHEMA_ROLES && (o.terms.refundPtr.Some? <==> o.prepay) }

  lemma SchemaTotal()
    ensures |SCHEMA_ROLES| == 4 && Sum(SCHEMA_ROLES) == 100
  {
    var a: seq<nat>, b: seq<nat>, c: seq<nat>, d: seq<nat> := [50], [50, 10], [50, 10, 30], SCHEMA_ROLES;
    assert a[..0] == [] && b[..1] == a && c[..2] == b && d[..3] == c;
    assert Sum(a) == 50 && Sum(b) == 60 && Sum(c) == 90;
  }

  function Clamp(x: int, lo: int, hi: int): int { if x < lo then lo else if x > hi then hi else x }

  /** The imported opening balance: postpay gross unsettled, prepay consumption less deposit, clamped. */
  function ImportedBalance(prepay: bool, cum: nat, settled: seq<nat>, net: nat, funding: nat, lower: int, upper: int): int {
    var paid := if prepay then funding else funding + net + Sum(settled) / UNIT;
    Clamp(cum - paid, lower, upper)
  }

  /** The predecessor's reconciled position on its named checkpoint; a birth is named by its recomputed
      synthetic reference. */
  function ComputeSnapshot(c: Carriage, p: ChannelId, ref: CkptRef): Option<ChainSnapshot> {
    if p !in c.channels || p !in c.payers then None
    else
      var ch := c.channels[p];
      var named: Option<(nat, seq<nat>)> :=
        if ch.operative.Some? then
          if ch.operative.value.ref == ref then Some((ch.operative.value.cum, ch.operative.value.accruals)) else None
        else if ch.meter.cum != 0 || c.cfg.synthetic(p, ch.meter.accruals, ch.ledger.net, ch.ledger.funding) != ref then None
        else Some((0, ch.meter.accruals));
      match named
      case None => None
      case Some((cum, accruals)) =>
        if F7.OutstandingMeedPerRole(accruals, ch.ledger.settled).Err? then None
        else Some(ChainSnapshot(
          Imported(cum, ref, accruals, ch.ledger.settled, ch.ledger.net, ch.ledger.funding),
          ImportedBalance(ch.meter.prepay, cum, ch.ledger.settled, ch.ledger.net, ch.ledger.funding, ch.meter.lower, ch.meter.upper),
          c.payers[p], ch.meter.prepay, ch.terms.seed, ch.terms.asset))
  }

  /** A revocable intent is re-snapshotted at every open naming it; a reconciled position is refused here. */
  function RefreshSnapshot(c: Carriage, pred: (ChannelId, CkptRef)): Carriage
    requires pred.0 in c.disps && c.disps[pred.0].Intent?
  {
    var cleared := c.(snapshots := c.snapshots - {pred});
    match ComputeSnapshot(c, pred.0, pred.1)
    case None => cleared
    case Some(s) => cleared.(snapshots := cleared.snapshots[pred := s])
  }

  function FreshChannel(o: OpenReq): Channel {
    Channel(M.New(o.prepay, o.limitL, o.limitE, o.bp), o.terms, None, Account(Zeros(|o.bp|), 0, 0, 0), None, map[])
  }

  /** The successor built from the recorded snapshot; None where the import fails closed. */
  function ChainedChannel(c: Carriage, o: OpenReq, pred: (ChannelId, CkptRef)): Option<Channel> {
    if pred !in c.snapshots then None
    else
      var s := c.snapshots[pred];
      if s.payer != o.payer || s.prepay != o.prepay || s.seed != o.terms.seed || s.asset != o.terms.asset then None
      else
        var (fits, m) := M.NewImported(o.prepay, o.limitL, o.limitE, o.bp, s.position.cum, s.position.accruals, s.balance);
        if !fits then None
        else Some(Channel(m, o.terms, None, Account(s.position.settled, s.position.net, s.position.funding, 0), Some(s.position), map[]))
  }

  /** The driver's part of an open: nothing is retained or consumed unless the acceptance was recorded. */
  function Establish(c: Carriage, cid: ChannelId, o: OpenReq, openOk: bool, dispOk: bool): (x: (Carriage, Response)) {
    if !Conforms(o) || cid in c.tombstones || cid in c.channels then (c, Rejected)
    else if o.predecessor.Some? && o.predecessor.value in c.consumedChain then (c, Rejected)
    else
      var built := match o.predecessor case None => Some(FreshChannel(o)) case Some(pred) => ChainedChannel(c, o, pred);
      match built
      case None => (c, Rejected)
      case Some(ch) =>
        var (dec, out) := Decide(c.decisions, OpenKey(cid), Bare, openOk);
        if !out.Fresh? then (c.(decisions := dec), Rejected)
        else
          var c1 := c.(channels := c.channels[cid := ch], payers := c.payers[cid := o.payer], decisions := dec);
          match o.predecessor
          case None => (c1, Ok)
          case Some(pred) =>
            var (dec2, _) := Decide(dec, DispKey(pred.0), DispValue(Committed(cid)), dispOk);
            (c1.(consumedChain := c1.consumedChain + {pred}, disps := c1.disps[pred.0 := Committed(cid)], decisions := dec2), Ok)
  }

  function Open(c: Carriage, cid: ChannelId, o: OpenReq, openOk: bool, dispOk: bool): (x: (Carriage, Response)) {
    if !o.finalOk then (c, Rejected)
    else
      match o.predecessor
      case None => Establish(c, cid, o, openOk, dispOk)
      case Some(pred) =>
        if pred.0 in c.disps && c.disps[pred.0].Intent? then Establish(RefreshSnapshot(c, pred), cid, o, openOk, dispOk)
        else if pred.0 in c.disps && c.disps[pred.0].Reconciled? then (c, Rejected)
        else Establish(c, cid, o, openOk, dispOk)
  }

  // ---- metering ------------------------------------------------------------------------------------

  function Batch(c: Carriage, cid: ChannelId, slices: seq<M.Slice>): (x: (Carriage, Response)) {
    if |slices| == 0 || cid !in c.channels || |c.channels[cid].meter.accruals| != |c.channels[cid].meter.bp| then (c, Rejected)
    else
      (PutChannel(c, cid, MeterBatch(c.channels[cid], slices)),
       if M.AcceptBatch(c.channels[cid].meter, slices).1.Accepted? then Ok else Rejected)
  }

  datatype CkptReq = CkptReq(ref: CkptRef, lastSeq: nat, cum: nat, accruals: seq<nat>, signed: bool)

  /** Countersigned iff it recomputes from our own books; re-answered without effect when it is the
      operative one already. */
  ghost function Checkpoint(c: Carriage, cid: ChannelId, q: CkptReq): (x: (Carriage, Response)) {
    if !q.signed || cid !in c.channels || |c.channels[cid].meter.accruals| != |c.channels[cid].meter.bp| then (c, Rejected)
    else if M.Recomputes(c.channels[cid].meter, q.lastSeq, q.cum, q.accruals)
    then (PutChannel(c, cid, Checkpointed(c.channels[cid], q.ref, q.lastSeq, q.cum, q.accruals)), Ok)
    else if c.channels[cid].operative.Some? && c.channels[cid].operative.value.ref == q.ref then (c, Ok)
    else (c, Rejected)
  }

  // ---- settlement rounds ------------------------------------------------------------------------------

  /** `output` 0 stands for no net output; a proposal with another shape of outputs is not `plain`. */
  datatype Proposal = Proposal(ref: CkptRef, hash: nat, plain: bool, output: nat, leg: Option<(nat, seq<nat>)>, signed: bool)

  predicate OtherInFlight(ch: Channel, ref: CkptRef) { exists k <- ch.rounds :: k != ref && !ch.rounds[k].confirmed }

  /** The leg the round must carry: the cumulative target and the recomputed E_r, or none when E = 0. */
  function ExpectedLeg(target: Option<nat>, eR: seq<nat>): Option<(nat, seq<nat>)> {
    if target.Some? then Some((target.value, eR)) else None
  }

  /** The economics a new round is verified against; None where verification cannot be done. */
  function Verified(ch: Channel): Option<(Economics, Option<nat>)> {
    match Recompute(ch)
    case None => None
    case Some(x) =>
      if x.meed.None? then Some((x, None))
      else
        match CumulativeTarget(ch, BasisAccruals(ch))
        case None => None
        case Some(t) => Some((x, Some(t)))
  }

  function ProposeNew(ch: Channel, p: Proposal): Option<Channel> {
    match Verified(ch)
    case None => None
    case Some((x, target)) =>
      if p.output != x.output || p.leg != ExpectedLeg(target, x.eR) then None
      else Some(Start(ch, p.ref, PostpayRound(ch, x, target, p.hash)))
  }

  function ProposeRetry(ch: Channel, p: Proposal): Option<Channel>
    requires p.ref in ch.rounds
  {
    var d := ch.rounds[p.ref];
    if p.output != d.output || p.leg != ExpectedLeg(d.target, d.eR) then None
    else if p.hash !in d.hashes && |d.hashes| >= MAX_PROPOSAL_HASHES then None
    else Some(ch.(rounds := ch.rounds[p.ref := d.(hashes := d.hashes + {p.hash})]))
  }

  function Propose(c: Carriage, cid: ChannelId, p: Proposal): (x: (Carriage, Response)) {
    if BarsNewRound(c, cid) || cid !in c.channels || !p.signed then (c, Rejected)
    else
      var ch := c.channels[cid];
      if ch.meter.prepay || OtherInFlight(ch, p.ref) then (c, Rejected)
      else if !(ch.operative.Some? && ch.operative.value.ref == p.ref) && p.ref !in ch.rounds then (c, Rejected)
      else if !p.plain then (c, Rejected)
      else
        match if p.ref in ch.rounds then ProposeRetry(ch, p) else ProposeNew(ch, p)
        case None => (c, Rejected)
        case Some(ch') => (PutChannel(c, cid, ch'), Ok)
  }

  // ---- settlement proofs ---------------------------------------------------------------------------------

  datatype LegTx = LegTx(leg: nat, ref: nat)
  datatype Proof = Proof(hash: nat, txs: seq<LegTx>, signed: bool)

  /** What the legs read so far amount to. */
  datatype Legs = Legs(meedTime: Option<nat>, netTime: Option<nat>, netRef: Option<nat>, seen: set<nat>)

  /** The distribution fact that satisfies a meed leg: this channel, this instance, the target reached. */
  predicate MeedLegOk(r: Rail, cid: ChannelId, terms: Terms, target: nat, ref: nat) {
    && RefTarget(r, ref).Some?
    && var info := RefTarget(r, ref).value;
       && info.to == AddressOf(terms.seed) && info.asset == terms.asset && IsFinal(r, ref)
       && info.advanced.Some? && info.advanced.value.channel == cid
       && info.advanced.value.seed == terms.seed && info.advanced.value.funded >= target
  }

  predicate NetLegOk(c: Carriage, r: Rail, cid: ChannelId, terms: Terms, ckpt: CkptRef, output: nat, ref: nat) {
    && RefTarget(r, ref).Some?
    && var info := RefTarget(r, ref).value;
       && output > 0 && info.to == c.cfg.settlePtr && info.asset == terms.asset && info.amount == output
       && info.memo == Some(OfRound(cid, ckpt)) && IsFinal(r, ref)
  }

  function FinalTime(r: Rail, ref: nat): Option<nat> {
    if FinalityOf(r, ref).Some? then Some(FinalityOf(r, ref).value.1) else None
  }

  /** The legs in order; any leg that does not match rejects the proof. */
  function ReadLegs(c: Carriage, r: Rail, cid: ChannelId, ch: Channel, ckpt: CkptRef, txs: seq<LegTx>): Option<Legs>
    requires ckpt in ch.rounds
  {
    if |txs| == 0 then Some(Legs(None, None, None, {}))
    else
      var n := |txs| - 1;
      var t, d := txs[n], ch.rounds[ckpt];
      match ReadLegs(c, r, cid, ch, ckpt, txs[..n])
      case None => None
      case Some(l) =>
        if RefTarget(r, t.ref).None? || RefTarget(r, t.ref).value.canonical in l.seen then None
        else
          var seen := l.seen + {RefTarget(r, t.ref).value.canonical};
          if t.leg == 1 then
            if d.target.None? || l.meedTime.Some? || !MeedLegOk(r, cid, ch.terms, d.target.value, t.ref) then None
            else Some(l.(meedTime := FinalTime(r, t.ref), seen := seen))
          else if t.leg == 2 then
            if l.netRef.Some? || !NetLegOk(c, r, cid, ch.terms, ckpt, d.output, t.ref) then None
            else Some(l.(netTime := FinalTime(r, t.ref), netRef := Some(RefTarget(r, t.ref).value.canonical), seen := seen))
          else None
  }

  /** What a proof would fold, once its legs are read. */
  datatype Plan = Plan(meed: bool, net: bool, confirm: bool, time: Option<nat>)

  function PlanOf(d: Round, l: Legs): Option<Plan> {
    var foldMeed := d.meed.Some? && !d.meedFolded && l.meedTime.Some?;
    var meedDone := d.meed.None? || d.meedFolded || foldMeed;
    var netComplete := d.output == 0 || l.netRef.Some?;
    var foldNet := !d.netFolded && netComplete && l.netRef.Some?;
    var confirm := meedDone && (d.netFolded || netComplete);
    var time := if l.meedTime.Some? then l.meedTime else d.meedTime;
    if !foldMeed && !foldNet && !confirm then None
    else if foldNet && time.Some? && l.netTime.Some? && l.netTime.value < time.value then None
    else if foldNet && time.None? && d.meed.Some? then None
    else Some(Plan(foldMeed, foldNet, confirm, l.meedTime))
  }

  /** The round a proof names: one of the channel's, by an authorized hash. */
  predicate NamedBy(ch: Channel, ckpt: CkptRef, hash: nat) { ckpt in ch.rounds && hash in ch.rounds[ckpt].hashes }

  /** A proof for round `ckpt`, which its hash names. */
  function ProveRound(s: System, cid: ChannelId, ckpt: CkptRef, p: Proof, ok: bool): (x: (System, Response))
    requires cid in s.c.channels && ckpt in s.c.channels[cid].rounds
  {
    var ch := s.c.channels[cid];
    var d := ch.rounds[ckpt];
    if d.confirmed then (s, Receipt)
    else if d.version != ch.ledger.version || |d.eR| != |ch.ledger.settled| then (s, Rejected)
    else
      match ReadLegs(s.c, s.r, cid, ch, ckpt, p.txs)
      case None => (s, Rejected)
      case Some(l) =>
        match PlanOf(d, l)
        case None => (s, Rejected)
        case Some(plan) =>
          if plan.net && (l.netRef.value in s.c.consumed || ch.ledger.net + d.output > U128_MAX) then (s, Rejected)
          else
            var done := FoldProof(ch, ckpt, plan.meed, plan.net, plan.confirm, plan.time);
            var answer := if plan.confirm then Receipt else Ok;
            if !plan.net then (s.(c := PutChannel(s.c, cid, done)), answer)
            else
              var (dec, out) := Decide(s.c.decisions, FundKey(l.netRef.value), Bare, ok);
              match out
              case WriteFailed => (s, Rejected)
              case Already(_) => (s.(c := s.c.(decisions := dec, consumed := s.c.consumed + {l.netRef.value})), Ok)
              case Fresh =>
                (s.(c := PutChannel(s.c.(decisions := dec, consumed := s.c.consumed + {l.netRef.value}), cid, done)), answer)
  }

  // ---- funding -------------------------------------------------------------------------------------------

  datatype Funding = Funding(ref: nat, amount: nat, authHash: Word, signed: bool)

  function FundingTarget(c: Carriage, cid: ChannelId): ChannelId {
    if cid in c.disps && c.disps[cid].Committed? then ResolveTip(c.disps, cid) else cid
  }

  predicate FundingLegOk(c: Carriage, r: Rail, ch: Channel, f: Funding) {
    && RefTarget(r, f.ref).Some?
    && var info := RefTarget(r, f.ref).value;
       && info.to == c.cfg.settlePtr && info.asset == ch.terms.asset && info.amount >= f.amount
       && info.memo == Some(ch.terms.authHash) && IsFinal(r, f.ref)
  }

  /** Verified against the channel the proof names, credited to where its position lives now. */
  function FundChannel(s: System, cid: ChannelId, f: Funding, ok: bool): (x: (System, Response)) {
    var target := FundingTarget(s.c, cid);
    if cid !in s.c.channels || !f.signed || f.authHash != s.c.channels[cid].terms.authHash then (s, Rejected)
    else if !FundingAdmissible(s.c, target) || !FundingLegOk(s.c, s.r, s.c.channels[cid], f) then (s, Rejected)
    else
      var info := RefTarget(s.r, f.ref).value;
      var credited := Credited(s.c.channels[target], info.amount);
      if info.canonical in s.c.consumed || s.c.channels[target].ledger.funding + credited > U128_MAX then (s, Rejected)
      else
        var (dec, out) := Decide(s.c.decisions, FundKey(info.canonical), Bare, ok);
        match out
        case WriteFailed => (s, Rejected)
        case Already(_) => (s.(c := s.c.(decisions := dec, consumed := s.c.consumed + {info.canonical})), Ok)
        case Fresh =>
          (s.(c := PutChannel(s.c.(decisions := dec, consumed := s.c.consumed + {info.canonical}), target,
                              Fund(s.c.channels[target], credited))), Ok)
  }

  // ---- interim draws ----------------------------------------------------------------------------------------

  /** The single unconfirmed round, if there is one. */
  ghost function InFlightRef(ch: Channel): Option<CkptRef> {
    if exists k :: k in ch.rounds && !ch.rounds[k].confirmed
    then var k :| k in ch.rounds && !ch.rounds[k].confirmed; Some(k)
    else None
  }

  /** Draw the locked round's target, or re-check the draw already made; fold on finality. */
  function DrawLocked(s: System, cid: ChannelId, ckpt: CkptRef): (x: (System, Response))
    requires ValidRail(s.r) && cid in s.c.channels && ckpt in s.c.channels[cid].rounds
    ensures ValidRail(x.0.r)
  {
    var ch := s.c.channels[cid];
    var d := ch.rounds[ckpt];
    if d.target.None? || d.target.value > U128_MAX || |d.eR| != |ch.ledger.settled| then (s, Rejected)
    else
      var (r', reply) :=
        if d.drawRef.Some? then (s.r, Ref(d.drawRef.value))
        else AdvanceMeed(s.r, Some(s.c.cfg.settlePtr), AddressOf(ch.terms.seed), cid, d.target.value, ch.terms.asset);
      if !reply.Ref? then (s.(r := r'), Rejected)
      else
        var drawn := SetDrawRef(ch, ckpt, reply.r);
        if IsFinal(r', reply.r)
        then (System(PutChannel(s.c, cid, FoldInterim(drawn, ckpt, FinalTime(r', reply.r))), r'), Notice(d.target.value))
        else (System(PutChannel(s.c, cid, drawn), r'), Rejected)
  }

  /** A new round locked against the operative checkpoint; None where nothing can be locked. */
  function LockInterim(ch: Channel): Option<(CkptRef, Channel)> {
    match Verified(ch)
    case None => None
    case Some((x, target)) =>
      if target.None? then None
      else Some((ch.operative.value.ref, Start(ch, ch.operative.value.ref, InterimRound(ch, x, target.value))))
  }

  ghost function InterimDraw(s: System, cid: ChannelId): (x: (System, Response))
    requires ValidRail(s.r)
    ensures ValidRail(x.0.r)
  {
    if cid !in s.c.channels || !s.c.channels[cid].meter.prepay || !s.c.channels[cid].meter.open then (s, Rejected)
    else
      var ch := s.c.channels[cid];
      match InFlightRef(ch)
      case Some(k) => DrawLocked(s, cid, k)
      case None =>
        if ch.operative.None? then (s, Rejected)
        else if ch.operative.value.ref in ch.rounds then
          var d := ch.rounds[ch.operative.value.ref];
          (s, if d.target.Some? && d.drawRef.Some? then Notice(d.target.value) else Rejected)
        else
          match LockInterim(ch)
          case None => (s, Rejected)
          case Some((k, locked)) => DrawLocked(s.(c := PutChannel(s.c, cid, locked)), cid, k)
  }

  // ---- closing ------------------------------------------------------------------------------------------------

  datatype CloseReq = CloseReq(ckpt: CkptRef, chainIntent: bool, signed: bool)

  /** Did this round's own advance move the watermark? */
  predicate DrawnOnRail(r: Rail, cid: ChannelId, terms: Terms, d: Round) {
    && d.target.Some? && d.drawRef.Some? && RefTarget(r, d.drawRef.value).Some?
    && RefTarget(r, d.drawRef.value).value.advanced.Some?
    && var f := RefTarget(r, d.drawRef.value).value.advanced.value;
       f.channel == cid && f.seed == terms.seed && f.funded >= d.target.value
  }

  /** A drawn round is folded and an undrawn one removed, before the close pins its carve. */
  ghost function Drain(ch: Channel, r: Rail, cid: ChannelId): Channel {
    if !ch.meter.prepay then ch
    else
      match InFlightRef(ch)
      case None => ch
      case Some(k) =>
        if DrawnOnRail(r, cid, ch.terms, ch.rounds[k]) && |ch.rounds[k].eR| == |ch.ledger.settled|
        then FoldInterim(ch, k, None) else RemoveRound(ch, k)
  }

  /** The carve owed at a reconciling close, pinned to the evidenced basis. */
  function PendingDraw(ch: Channel): Option<(CkptRef, nat)> {
    if !ch.meter.prepay || (ch.operative.None? && ch.imported.None?) then None
    else
      match CumulativeTarget(ch, BasisAccruals(ch))
      case None => None
      case Some(t) => Some((if ch.operative.Some? then ch.operative.value.ref else ch.imported.value.ref, t))
  }

  /** The unconsumed deposit against the evidenced basis; 0 where none is returned. */
  function RefundOwed(ch: Channel): nat {
    match F7.PrepayUnconsumedDeposit(ch.ledger.funding, BasisCum(ch))
    case Ok(x) => x
    case Err(_) => 0
  }

  /** The durable disposition counts even when this process's memory has none. */
  function PriorDisp(c: Carriage, cid: ChannelId): Option<Disp> {
    if cid in c.disps then Some(c.disps[cid])
    else if DispKey(cid) in c.decisions && c.decisions[DispKey(cid)].DispValue? then Some(c.decisions[DispKey(cid)].d)
    else None
  }

  /** Reserve, then release under the close's key, then remember the reference. */
  function IssueRefund(s: System, cid: ChannelId, ckpt: CkptRef, reserveOk: bool, refOk: bool): (s': System)
    requires ValidRail(s.r) && cid in s.c.channels
    ensures ValidRail(s'.r)
  {
    var ch := s.c.channels[cid];
    var refund := RefundOwed(ch);
    if ch.terms.refundPtr.None? || refund == 0 then s
    else
      var (dec, _) := Decide(s.c.decisions, ReserveKey(cid, ckpt), Bare, reserveOk);
      var (r', reply) := ReleaseKeyed(s.r, cid, ckpt, s.c.cfg.settlePtr, ch.terms.refundPtr.value, ch.terms.asset, refund);
      var dec2 := if reply.Ref? then Decide(dec, RefundRefKey(cid, ckpt), RefValue(reply.r), refOk).0 else dec;
      System(s.c.(decisions := dec2), r')
  }

  /** Draw the pinned carve while it is owed; success clears it, failure leaves it for a retry. */
  function AttemptCloseDraw(s: System, cid: ChannelId): (s': System)
    requires ValidRail(s.r)
    ensures ValidRail(s'.r)
  {
    if cid !in s.c.channels || cid !in s.c.disps || !s.c.disps[cid].Reconciled? || s.c.disps[cid].draw.None? then s
    else
      var target := s.c.disps[cid].draw.value.1;
      if target > U128_MAX then s
      else
        var (r', reply) := AdvanceMeed(s.r, Some(s.c.cfg.settlePtr), AddressOf(s.c.channels[cid].terms.seed), cid, target, s.c.channels[cid].terms.asset);
        if reply.Ref? then System(s.c.(disps := s.c.disps[cid := Reconciled(None)]), r') else s.(r := r')
  }

  function Terminated(c: Carriage, cid: ChannelId): Carriage
    requires cid in c.channels
  {
    PutChannel(c, cid, c.channels[cid].(meter := M.BeginSettling(c.channels[cid].meter)))
  }

  datatype CloseIo = CloseIo(reserveOk: bool, refOk: bool, dispOk: bool)

  /** The first plain close: refund, drain, pin, record. A failed record rejects the close with the refund
      already submitted. */
  ghost function Reconcile(s: System, cid: ChannelId, ckpt: CkptRef, io: CloseIo): (x: (System, Response))
    requires ValidRail(s.r) && cid in s.c.channels
    ensures ValidRail(x.0.r) && cid in x.0.c.channels
  {
    var s1 := IssueRefund(s, cid, ckpt, io.reserveOk, io.refOk);
    var drained := Drain(s1.c.channels[cid], s1.r, cid);
    var c2 := PutChannel(s1.c, cid, drained);
    var rec := Reconciled(PendingDraw(drained));
    var (dec, out) := Decide(c2.decisions, DispKey(cid), DispValue(rec), io.dispOk);
    if out.WriteFailed? then (s1.(c := c2), Rejected)
    else (s1.(c := c2.(decisions := dec, disps := c2.disps[cid := rec])), Ok)
  }

  ghost function Close(s: System, cid: ChannelId, q: CloseReq, io: CloseIo): (x: (System, Response))
    requires ValidRail(s.r)
    ensures ValidRail(x.0.r)
  {
    if cid !in s.c.channels || !q.signed then (s, Rejected)
    else
      var ch := s.c.channels[cid];
      var reconciled := cid in s.c.disps && s.c.disps[cid].Reconciled?;
      if !reconciled && ch.operative.Some? && q.ckpt != ch.operative.value.ref then (s, Rejected)
      else if q.chainIntent && InFlightRef(ch).Some? then (s, Rejected)
      else
        var prior := PriorDisp(s.c, cid);
        if q.chainIntent then
          if ch.meter.cum != BasisCum(ch) || (ch.operative.None? && ch.meter.cum != 0) then (s, Rejected)
          else
            var c1 := if prior.None? then s.c.(disps := s.c.disps[cid := Intent]) else s.c;
            (s.(c := Terminated(c1, cid)), Ok)
        else
          var (s1, answer) := if prior.None? || prior.value.Intent? then Reconcile(s, cid, q.ckpt, io) else (s, Ok);
          if answer.Rejected? then (s1, Rejected)
          else
            var s2 := AttemptCloseDraw(s1, cid);
            (s2.(c := Terminated(s2.c, cid)), Ok)
  }

  // ---- restarts, replicas and the rest of the world -----------------------------------------------------------

  /** A restart keeps only what the durable store holds; live channels and their books are gone. */
  function Restart(c: Carriage): Carriage {
    Carriage(c.cfg, map[], map[],
      map k: ChannelId | k in (set d <- c.decisions | d.DispKey? && c.decisions[d].DispValue? :: d.c) && DispKey(k) in c.decisions && c.decisions[DispKey(k)].DispValue? :: c.decisions[DispKey(k)].d,
      set d <- c.decisions | d.FundKey? :: d.ref,
      set d <- c.decisions | d.OpenKey? :: d.c,
      {}, map[], c.decisions)
  }

  datatype Message =
    | OpenMsg(cid: ChannelId, o: OpenReq, openOk: bool, dispOk: bool)
    | BatchMsg(cid: ChannelId, slices: seq<M.Slice>)
    | CheckpointMsg(cid: ChannelId, q: CkptReq)
    | ProposeMsg(cid: ChannelId, p: Proposal)
    | ProofMsg(cid: ChannelId, ckpt: CkptRef, proof: Proof, ok: bool)
    | FundingMsg(cid: ChannelId, f: Funding, ok: bool)
    | InterimMsg(cid: ChannelId)
    | CloseMsg(cid: ChannelId, close: CloseReq, io: CloseIo)
    | RestartMsg
    | ReplicaMsg(key: DecKey, value: DecValue)
    | RailMsg(op: Op)

  /** A rail call carries what its rail type demands. */
  predicate MessageOk(e: Message) { e.RailMsg? ==> OpOk(e.op) }

  ghost function Handle(s: System, e: Message): (x: (System, Response))
    requires ValidRail(s.r) && MessageOk(e)
    ensures ValidRail(x.0.r)
  {
    match e
    case OpenMsg(cid, o, openOk, dispOk) => var (c, a) := Open(s.c, cid, o, openOk, dispOk); (s.(c := c), a)
    case BatchMsg(cid, slices) => var (c, a) := Batch(s.c, cid, slices); (s.(c := c), a)
    case CheckpointMsg(cid, q) => var (c, a) := Checkpoint(s.c, cid, q); (s.(c := c), a)
    case ProposeMsg(cid, p) => var (c, a) := Propose(s.c, cid, p); (s.(c := c), a)
    case ProofMsg(cid, ckpt, p, ok) =>
      if cid in s.c.channels && p.signed && NamedBy(s.c.channels[cid], ckpt, p.hash) then ProveRound(s, cid, ckpt, p, ok) else (s, Rejected)
    case FundingMsg(cid, f, ok) => FundChannel(s, cid, f, ok)
    case InterimMsg(cid) => InterimDraw(s, cid)
    case CloseMsg(cid, q, io) => Close(s, cid, q, io)
    case RestartMsg => (s.(c := Restart(s.c)), Ok)
    case ReplicaMsg(k, v) => (s.(c := s.c.(decisions := Decide(s.c.decisions, k, v, true).0)), Ok)
    case RailMsg(op) => (s.(r := Apply(s.r, op).0), Ok)
  }

  /** A carriage over an empty store and a new rail. */
  function Born(cfg: Config, delay: nat): (s: System)
    ensures ValidRail(s.r)
  {
    System(Carriage(cfg, map[], map[], map[], {}, {}, {}, map[], map[]), Empty(delay))
  }

  predicate Sendable(msgs: seq<Message>) { forall i :: 0 <= i < |msgs| ==> MessageOk(msgs[i]) }

  ghost function Serve(s: System, msgs: seq<Message>): (s': System)
    requires ValidRail(s.r) && Sendable(msgs)
    ensures ValidRail(s'.r)
  {
    if |msgs| == 0 then s else Handle(Serve(s, msgs[..|msgs| - 1]), msgs[|msgs| - 1]).0
  }
}
