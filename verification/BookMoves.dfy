/** Everything that moves one channel's books, and the invariant that every move keeps. */
module BookMoves {
  import opened Sums
  import opened Options
  import opened Instance
  import opened Metering
  import opened Books
  import F7

  // ---- the moves ----------------------------------------------------------------------------------

  function MeterBatch(ch: Channel, slices: seq<Slice>): Channel
    requires |ch.meter.accruals| == |ch.meter.bp|
  {
    ch.(meter := AcceptBatch(ch.meter, slices).0)
  }

  /** A countersigned checkpoint: the named prefix is committed and becomes operative. */
  ghost function Checkpointed(ch: Channel, ref: CkptRef, lastSeq: nat, cum: nat, accruals: seq<nat>): Channel {
    ch.(meter := CheckpointUpto(ch.meter, lastSeq), operative := Some(Operative(ref, cum, accruals)))
  }

  function Start(ch: Channel, ref: CkptRef, d: Round): Channel { ch.(rounds := ch.rounds[ref := d]) }

  /** A postpay round verified against the operative checkpoint. */
  function PostpayRound(ch: Channel, x: Economics, target: Option<nat>, hash: nat): Round {
    Round(x.output, x.meed, x.eR, target, ch.ledger.version, {hash}, false, false, false, None, None)
  }

  /** A prepay interim round: meed only, locked before the draw. */
  function InterimRound(ch: Channel, x: Economics, target: nat): Round {
    Round(0, x.meed, x.eR, Some(target), ch.ledger.version, {}, false, false, true, None, None)
  }

  function CarveDelta(before: seq<nat>, after: seq<nat>): nat { F7.SatSub(Sum(after) / UNIT, Sum(before) / UNIT) }

  /** What one proof folds: the meed leg, the net leg, or neither when it only confirms. */
  function FoldProof(ch: Channel, ref: CkptRef, meed: bool, net: bool, confirm: bool, time: Option<nat>): Channel
    requires ref in ch.rounds && |ch.rounds[ref].eR| == |ch.ledger.settled|
  {
    var d := ch.rounds[ref];
    var settled := if meed then AddRoles(ch.ledger.settled, d.eR) else ch.ledger.settled;
    var gross := CarveDelta(ch.ledger.settled, settled) + if net then d.output else 0;
    var version := if meed || net then Bump(ch.ledger.version) else ch.ledger.version;
    ch.(ledger := ch.ledger.(settled := settled, net := ch.ledger.net + (if net then d.output else 0), version := version),
        meter := if gross > 0 then ApplySettlementRound(ch.meter, gross) else ch.meter,
        rounds := ch.rounds[ref := d.(meedFolded := d.meedFolded || meed, netFolded := d.netFolded || net,
                                      meedTime := if meed then time else d.meedTime,
                                      version := version, confirmed := d.confirmed || confirm)])
  }

  function SetDrawRef(ch: Channel, ref: CkptRef, r: nat): Channel
    requires ref in ch.rounds
  {
    ch.(rounds := ch.rounds[ref := ch.rounds[ref].(drawRef := Some(r))])
  }

  /** Meed only: neither B nor the window moves. A round already folded is left alone. */
  function FoldInterim(ch: Channel, ref: CkptRef, time: Option<nat>): Channel
    requires ref in ch.rounds && |ch.rounds[ref].eR| == |ch.ledger.settled|
  {
    var d := ch.rounds[ref];
    if d.meedFolded then ch
    else
      var version := Bump(ch.ledger.version);
      ch.(ledger := ch.ledger.(settled := AddRoles(ch.ledger.settled, d.eR), version := version),
          rounds := ch.rounds[ref := d.(meedFolded := true, netFolded := true, confirmed := true, meedTime := time, version := version)])
  }

  function RemoveRound(ch: Channel, ref: CkptRef): Channel { ch.(rounds := ch.rounds - {ref}) }

  /** What a postpay transfer is worth: at most the outstanding merchant-net; a prepay deposit in full. */
  function Credited(ch: Channel, amount: nat): nat {
    if ch.meter.prepay then amount
    else
      var outstanding := F7.OutstandingMerchantNet(ch.meter.cum, ch.meter.accruals, ch.ledger.net, ch.ledger.funding);
      if amount <= outstanding then amount else outstanding
  }

  function Fund(ch: Channel, credited: nat): Channel {
    ch.(meter := CreditFunding(ch.meter, credited), ledger := ch.ledger.(funding := ch.ledger.funding + credited))
  }

  // ---- one general step ------------------------------------------------------------------------------

  /** Two meters with the same metering; only the balance estimate and the pauses may differ. */
  predicate SameMetering(m: Meter, m': Meter) {
    m' == m.(balance := m'.balance, pausedWindow := m'.pausedWindow, open := m'.open)
  }

  function Before(ch: Channel, ref: CkptRef, i: nat): nat
    requires ref in ch.rounds ==> i < |ch.rounds[ref].eR|
  {
    if ref in ch.rounds then FoldedAt(ch.rounds[ref], i) else 0
  }

  ghost predicate Moves(ch: Channel, ch': Channel, ref: CkptRef)
    requires BooksOk(ch)
  {
    && ref in ch'.rounds && ch'.rounds == ch.rounds[ref := ch'.rounds[ref]]
    && ch' == ch.(ledger := ch'.ledger, rounds := ch'.rounds, meter := ch'.meter)
    && SameMetering(ch.meter, ch'.meter) && MeterOk(ch'.meter)
    && |ch'.rounds[ref].eR| == |ch'.ledger.settled| == Roles(ch)
    && (forall i :: 0 <= i < Roles(ch) ==>
          && ch'.ledger.settled[i] + Before(ch, ref, i) == ch.ledger.settled[i] + FoldedAt(ch'.rounds[ref], i)
          && OpeningSettled(ch)[i] <= ch'.ledger.settled[i] <= BasisAccruals(ch)[i])
    && ch'.ledger.net + (if ref in ch.rounds then NetAt(ch.rounds[ref]) else 0) == ch.ledger.net + NetAt(ch'.rounds[ref])
    && Sum(ch'.ledger.settled) % UNIT == 0
    && (forall k <- ch.rounds :: k != ref ==> ch.rounds[k].confirmed)
  }

  lemma FoldedPut(rounds: map<CkptRef, Round>, ref: CkptRef, d: Round, i: nat)
    requires (forall k <- rounds :: i < |rounds[k].eR|) && i < |d.eR|
    ensures MapSum<CkptRef>(FoldedOf(rounds[ref := d], i))
            == MapSum<CkptRef>(FoldedOf(rounds, i)) - (if ref in rounds then FoldedAt(rounds[ref], i) else 0) + FoldedAt(d, i)
  {
    hide MapSum;
    assert FoldedOf(rounds[ref := d], i) == FoldedOf(rounds, i)[ref := FoldedAt(d, i)];
    MapSumPut<CkptRef>(FoldedOf(rounds, i), ref, FoldedAt(d, i));
  }

  lemma NetPut(rounds: map<CkptRef, Round>, ref: CkptRef, d: Round)
    ensures MapSum<CkptRef>(NetOf(rounds[ref := d]))
            == MapSum<CkptRef>(NetOf(rounds)) - (if ref in rounds then NetAt(rounds[ref]) else 0) + NetAt(d)
  {
    hide MapSum;
    assert NetOf(rounds[ref := d]) == NetOf(rounds)[ref := NetAt(d)];
    MapSumPut<CkptRef>(NetOf(rounds), ref, NetAt(d));
  }

  lemma MovesKeepTotals(ch: Channel, ch': Channel, ref: CkptRef)
    requires BooksOk(ch) && Moves(ch, ch', ref)
    ensures Shape(ch') && Totals(ch')
  {
    hide MapSum, MeterOk, InFlight, Whole, Position, Serial, Sum;
    forall i | 0 <= i < Roles(ch) ensures ch'.ledger.settled[i] == OpeningSettled(ch')[i] + MapSum<CkptRef>(FoldedOf(ch'.rounds, i)) {
      FoldedPut(ch.rounds, ref, ch'.rounds[ref], i);
    }
    NetPut(ch.rounds, ref, ch'.rounds[ref]);
  }

  lemma PositionKept(ch: Channel, ch': Channel)
    requires Shape(ch) && Shape(ch') && Position(ch) && SameMetering(ch.meter, ch'.meter) && MeterOk(ch'.meter)
    requires ch'.operative == ch.operative && ch'.imported == ch.imported
    ensures Position(ch')
  {
    hide MapSum, MeterOk;
  }

  lemma SumLeSum(a: seq<nat>, b: seq<nat>)
    requires |a| == |b| && forall i :: 0 <= i < |a| ==> a[i] <= b[i]
    ensures Sum(a) <= Sum(b)
  {
    SumLe(a, b);
  }

  lemma MovesKeepBooks(ch: Channel, ch': Channel, ref: CkptRef)
    requires BooksOk(ch) && Moves(ch, ch', ref)
    ensures Shape(ch') && Whole(ch')
    ensures (ch'.rounds[ref].confirmed || InFlight(ch', ch'.rounds[ref])) ==> BooksOk(ch')
  {
    hide MapSum, MeterOk, InFlight, Sum, Totals, Position;
    MovesKeepTotals(ch, ch', ref);
    PositionKept(ch, ch');
    SumLeSum(OpeningSettled(ch), ch'.ledger.settled);
    assert Whole(ch');
  }

  // ---- each move keeps the books ------------------------------------------------------------------------

  /** A new round against an idle channel. */
  lemma StartKeeps(ch: Channel, ref: CkptRef, d: Round)
    requires BooksOk(ch) && ref !in ch.rounds && (forall k <- ch.rounds :: ch.rounds[k].confirmed)
    requires |d.eR| == Roles(ch) && !d.meedFolded && (d.netFolded ==> d.output == 0)
    requires InFlight(ch, d)
    ensures BooksOk(Start(ch, ref, d))
  {
    hide MapSum, MeterOk, Sum, Totals, Position;
    var ch' := Start(ch, ref, d);
    PositionMeter(ch);
    assert forall i :: 0 <= i < Roles(ch) ==> FoldedAt(d, i) == 0;
    assert Moves(ch, ch', ref);
    MovesKeepBooks(ch, ch', ref);
    SameInFlight(ch, ch', d);
  }

  lemma PositionMeter(ch: Channel)
    requires Shape(ch) && Position(ch)
    ensures MeterOk(ch.meter)
  {
  }

  /** In-flight facts read only the ledger, the basis and the openings. */
  lemma SameInFlight(ch: Channel, ch': Channel, d: Round)
    requires Shape(ch) && Whole(ch) && Shape(ch') && Whole(ch') && |d.eR| == Roles(ch)
    requires InFlight(ch, d)
    requires ch'.ledger.settled == ch.ledger.settled && ch'.ledger.net == ch.ledger.net && ch'.ledger.version == ch.ledger.version
    requires ch'.operative == ch.operative && ch'.imported == ch.imported && ch'.meter.bp == ch.meter.bp && ch'.meter.prepay == ch.meter.prepay
    ensures InFlight(ch', d)
  {
  }

  /** The round the creditor verified at propose time is in flight against the books as they stand. */
  lemma PostpayRoundInFlight(ch: Channel, x: Economics, target: Option<nat>, hash: nat)
    requires BooksOk(ch) && !ch.meter.prepay && Recompute(ch) == Some(x)
    requires if x.meed.Some? then target.Some? && target == CumulativeTarget(ch, BasisAccruals(ch)) else target.None?
    ensures |x.eR| == Roles(ch) && InFlight(ch, PostpayRound(ch, x, target, hash))
  {
    hide MapSum, MeterOk, Sum, Totals, Position, F7.Division, F7.OutstandingMeedPerRole, OpeningSettled;
    TargetIsSettledPlusP(ch);
  }

  lemma InterimRoundInFlight(ch: Channel, x: Economics, target: nat)
    requires BooksOk(ch) && ch.meter.prepay && Recompute(ch) == Some(x) && x.meed.Some?
    requires CumulativeTarget(ch, BasisAccruals(ch)) == Some(target)
    ensures |x.eR| == Roles(ch) && InFlight(ch, InterimRound(ch, x, target))
  {
    hide MapSum, MeterOk, Sum, Totals, Position, F7.Division, F7.OutstandingMeedPerRole, OpeningSettled;
    TargetIsSettledPlusP(ch);
  }

  lemma AddedSum(ch: Channel, d: Round)
    requires BooksOk(ch) && |d.eR| == Roles(ch) && Sum(d.eR) % UNIT == 0
    ensures Sum(AddRoles(ch.ledger.settled, d.eR)) == Sum(ch.ledger.settled) + Sum(d.eR)
    ensures Sum(AddRoles(ch.ledger.settled, d.eR)) % UNIT == 0
  {
    AddRolesSum(ch.ledger.settled, d.eR);
  }

  /** The guard under which a proof may fold: the meed leg is owed and not folded; the net leg is folded
      only once and only when the round then confirms. */
  predicate MayFold(d: Round, meed: bool, net: bool, confirm: bool) {
    && !d.confirmed && (meed ==> d.meed.Some? && !d.meedFolded)
    && (net ==> !d.netFolded && confirm)
    && (confirm ==> d.meed.None? || d.meedFolded || meed)
  }

  lemma UnitsMove(s: nat, o: nat, p: nat)
    requires o <= s && s % UNIT == 0 && o % UNIT == 0
    ensures (s + UNIT * p - o) / UNIT == (s - o) / UNIT + p
  {
  }

  lemma FoldProofMoves(ch: Channel, ref: CkptRef, meed: bool, net: bool, confirm: bool, time: Option<nat>)
    requires BooksOk(ch) && !ch.meter.prepay && ref in ch.rounds && MayFold(ch.rounds[ref], meed, net, confirm)
    requires |ch.rounds[ref].eR| == |ch.ledger.settled|
    ensures Moves(ch, FoldProof(ch, ref, meed, net, confirm, time), ref)
  {
    hide MapSum, MeterOk, Sum, Totals, Position, OpeningSettled, MerchantNet;
    var d := ch.rounds[ref];
    assert InFlight(ch, d);
    var ch' := FoldProof(ch, ref, meed, net, confirm, time);
    PositionMeter(ch);
    SettlementMeter(ch.meter, CarveDelta(ch.ledger.settled, ch'.ledger.settled) + if net then d.output else 0);
    if meed { AddedSum(ch, d); }
  }

  /** A proof's fold keeps the books; with the meed leg folded, the own settled position has reached the
      round's target. */
  lemma FoldProofKeeps(ch: Channel, ref: CkptRef, meed: bool, net: bool, confirm: bool, time: Option<nat>)
    requires BooksOk(ch) && !ch.meter.prepay && ref in ch.rounds && MayFold(ch.rounds[ref], meed, net, confirm)
    requires |ch.rounds[ref].eR| == |ch.ledger.settled|
    ensures BooksOk(FoldProof(ch, ref, meed, net, confirm, time))
    ensures meed ==> OwnUnits(FoldProof(ch, ref, meed, net, confirm, time)) == ch.rounds[ref].target.value
    ensures !meed ==> OwnUnits(FoldProof(ch, ref, meed, net, confirm, time)) == OwnUnits(ch)
  {
    hide MapSum, MeterOk, Sum, Totals, Position, OpeningSettled, MerchantNet, Moves, CarveDelta;
    var d := ch.rounds[ref];
    assert InFlight(ch, d);
    var ch' := FoldProof(ch, ref, meed, net, confirm, time);
    if meed { AddedSum(ch, d); }
    FoldProofMoves(ch, ref, meed, net, confirm, time);
    MovesKeepBooks(ch, ch', ref);
    UnitsMove(Sum(ch.ledger.settled), Sum(OpeningSettled(ch)), if meed then d.meed.value else 0);
    assert OpeningSettled(ch') == OpeningSettled(ch) by { SameOpening(ch, ch'); }
    assert OwnUnits(ch') == OwnUnits(ch) + if meed then d.meed.value else 0;
    if !confirm {
      assert ch'.ledger.net == ch.ledger.net && ch'.rounds[ref].version == ch'.ledger.version;
      if !meed { SameInFlight(ch, ch', d); }
      assert !ch'.meter.prepay && (meed ==> ch'.rounds[ref].target.value == OwnUnits(ch'));
      assert InFlight(ch', ch'.rounds[ref]);
    }
  }

  lemma SameOpening(ch: Channel, ch': Channel)
    requires ch'.imported == ch.imported && ch'.meter.bp == ch.meter.bp
    ensures OpeningSettled(ch') == OpeningSettled(ch)
  {
  }

  lemma SettlementMeter(m: Meter, gross: nat)
    requires MeterOk(m)
    ensures MeterOk(ApplySettlementRound(m, gross)) && SameMetering(m, ApplySettlementRound(m, gross))
  {
    FundingOk(m, gross);
  }

  /** An interim fold keeps the books and brings the own settled position to the round's target. */
  lemma FoldInterimKeeps(ch: Channel, ref: CkptRef, time: Option<nat>)
    requires BooksOk(ch) && ref in ch.rounds && !ch.rounds[ref].confirmed && ch.meter.prepay
    requires |ch.rounds[ref].eR| == |ch.ledger.settled|
    ensures BooksOk(FoldInterim(ch, ref, time))
    ensures ch.rounds[ref].target.Some? && OwnUnits(FoldInterim(ch, ref, time)) == ch.rounds[ref].target.value
  {
    hide MapSum, MeterOk, Sum, Totals, Position, OpeningSettled, MerchantNet;
    var d := ch.rounds[ref];
    assert InFlight(ch, d);
    var ch' := FoldInterim(ch, ref, time);
    PositionMeter(ch);
    AddedSum(ch, d);
    assert Moves(ch, ch', ref);
    MovesKeepBooks(ch, ch', ref);
    UnitsMove(Sum(ch.ledger.settled), Sum(OpeningSettled(ch)), d.meed.value);
    SameOpening(ch, ch');
  }

  lemma SetDrawRefKeeps(ch: Channel, ref: CkptRef, r: nat)
    requires BooksOk(ch) && ref in ch.rounds && !ch.rounds[ref].confirmed
    ensures BooksOk(SetDrawRef(ch, ref, r)) && OwnUnits(SetDrawRef(ch, ref, r)) == OwnUnits(ch)
  {
    hide MapSum, MeterOk, Sum, Totals, Position, OpeningSettled, MerchantNet;
    var d := ch.rounds[ref];
    assert InFlight(ch, d);
    var ch' := SetDrawRef(ch, ref, r);
    PositionMeter(ch);
    assert Moves(ch, ch', ref);
    MovesKeepBooks(ch, ch', ref);
    SameOpening(ch, ch');
    SameInFlight(ch, ch', d);
    assert InFlight(ch', ch'.rounds[ref]);
  }

  lemma SerialKept(ch: Channel, ch': Channel)
    requires Serial(ch)
    requires forall k <- ch'.rounds :: k in ch.rounds && (ch.rounds[k].confirmed ==> ch'.rounds[k].confirmed)
    ensures Serial(ch')
  {
  }

  /** Another authorized hash for the same round. */
  lemma AddHashKeeps(ch: Channel, ref: CkptRef, hash: nat)
    requires BooksOk(ch) && !ch.meter.prepay && ref in ch.rounds
    ensures BooksOk(ch.(rounds := ch.rounds[ref := ch.rounds[ref].(hashes := ch.rounds[ref].hashes + {hash})]))
  {
    hide MapSum, MeterOk, Sum, Position, OpeningSettled, MerchantNet;
    var d := ch.rounds[ref];
    var d' := d.(hashes := d.hashes + {hash});
    var ch' := ch.(rounds := ch.rounds[ref := d']);
    SameOpening(ch, ch');
    SerialKept(ch, ch');
    assert Shape(ch') && Whole(ch');
    PositionMeter(ch);
    PositionKept(ch, ch');
    forall i | 0 <= i < Roles(ch) ensures MapSum<CkptRef>(FoldedOf(ch'.rounds, i)) == MapSum<CkptRef>(FoldedOf(ch.rounds, i)) {
      FoldedPut(ch.rounds, ref, d', i);
    }
    NetPut(ch.rounds, ref, d');
    forall k <- ch'.rounds | !ch'.rounds[k].confirmed ensures InFlight(ch', ch'.rounds[k]) {
      SameInFlight(ch, ch', ch.rounds[k]);
    }
  }

  /** Dropping an unfolded round leaves the totals alone. */
  lemma RemoveKeeps(ch: Channel, ref: CkptRef)
    requires BooksOk(ch) && ref in ch.rounds && !ch.rounds[ref].confirmed && ch.meter.prepay
    ensures BooksOk(RemoveRound(ch, ref)) && OwnUnits(RemoveRound(ch, ref)) == OwnUnits(ch)
  {
    hide MapSum, MeterOk, Sum, Position, OpeningSettled, MerchantNet;
    var d := ch.rounds[ref];
    assert InFlight(ch, d);
    var ch' := RemoveRound(ch, ref);
    SameOpening(ch, ch');
    SerialKept(ch, ch');
    assert Shape(ch') && Whole(ch');
    PositionMeter(ch);
    PositionKept(ch, ch');
    forall i | 0 <= i < Roles(ch) ensures MapSum<CkptRef>(FoldedOf(ch'.rounds, i)) == MapSum<CkptRef>(FoldedOf(ch.rounds, i)) {
      assert FoldedOf(ch'.rounds, i) == FoldedOf(ch.rounds, i) - {ref};
      MapSumRemove<CkptRef>(FoldedOf(ch.rounds, i), ref);
    }
    assert NetOf(ch'.rounds) == NetOf(ch.rounds) - {ref};
    MapSumRemove<CkptRef>(NetOf(ch.rounds), ref);
    assert forall k <- ch'.rounds :: ch'.rounds[k].confirmed;
  }

  // ---- metering moves ---------------------------------------------------------------------------------------

  lemma BatchKeeps(ch: Channel, slices: seq<Slice>)
    requires BooksOk(ch)
    ensures BooksOk(MeterBatch(ch, slices)) && OwnUnits(MeterBatch(ch, slices)) == OwnUnits(ch)
  {
    hide MapSum, Sum;
    PositionMeter(ch);
    BatchOk(ch.meter, slices);
    var ch' := MeterBatch(ch, slices);
    BatchShape(ch.meter, slices);
    SameOpening(ch, ch');
    forall k <- ch'.rounds | !ch'.rounds[k].confirmed ensures InFlight(ch', ch'.rounds[k]) {
      SameInFlight(ch, ch', ch.rounds[k]);
    }
  }

  /** Accepted slices add the same amount to the total and to the window. */
  lemma BatchShape(m: Meter, slices: seq<Slice>)
    requires MeterOk(m)
    ensures var m' := AcceptBatch(m, slices).0;
            && m'.bp == m.bp && m'.prepay == m.prepay && m'.upper == m.upper && |m'.accruals| == |m.accruals|
            && forall i :: 0 <= i < |m.bp| ==>
                 m'.accruals[i] - MapSum<nat>(m'.window) * m.bp[i] == m.accruals[i] - MapSum<nat>(m.window) * m.bp[i]
  {
    TentativeShape(m, slices);
  }

  lemma {:induction false} TentativeShape(m: Meter, slices: seq<Slice>)
    requires MeterOk(m)
    ensures var m' := Tentative(m, slices).0;
            && m'.bp == m.bp && m'.prepay == m.prepay && m'.upper == m.upper && |m'.accruals| == |m.accruals|
            && forall i :: 0 <= i < |m.bp| ==>
                 m'.accruals[i] - MapSum<nat>(m'.window) * m.bp[i] == m.accruals[i] - MapSum<nat>(m.window) * m.bp[i]
    decreases |slices|
  {
    hide MapSum;
    if |slices| > 0 {
      AcceptOk(m, slices[0]);
      AcceptShape(m, slices[0]);
      TentativeShape(AcceptSlice(m, slices[0]).0, slices[1..]);
    }
  }

  lemma AcceptShape(m: Meter, s: Slice)
    requires MeterOk(m)
    ensures var m' := AcceptSlice(m, s).0;
            && m'.bp == m.bp && m'.prepay == m.prepay && m'.upper == m.upper && |m'.accruals| == |m.accruals|
            && forall i :: 0 <= i < |m.bp| ==>
                 m'.accruals[i] - MapSum<nat>(m'.window) * m.bp[i] == m.accruals[i] - MapSum<nat>(m.window) * m.bp[i]
  {
    hide MapSum;
    if AcceptSlice(m, s).1.Accepted? {
      MapSumPut<nat>(m.window, s.seqNo, s.amount);
      var w := MapSum<nat>(m.window);
      forall i | 0 <= i < |m.bp| ensures (w + s.amount) * m.bp[i] == w * m.bp[i] + s.amount * m.bp[i] {}
    }
  }

  lemma MerchantNetGrows(cum: nat, a: seq<nat>, cum2: nat, a2: seq<nat>, bp: seq<nat>)
    requires |a| == |a2| == |bp| && cum <= cum2 && Sum(bp) <= UNIT
    requires forall i :: 0 <= i < |a| ==> a2[i] == a[i] + (cum2 - cum) * bp[i]
    ensures MerchantNet(cum, a) <= MerchantNet(cum2, a2)
    ensures Sum(a2) == Sum(a) + (cum2 - cum) * Sum(bp)
  {
    var x := cum2 - cum;
    var t: seq<nat> := seq(|a|, i requires 0 <= i < |a| => (MulNonNeg(x, bp[i]); x * bp[i]));
    SumScaled(bp, x, t);
    SumAdd(a, t, a2);
    MulLe(Sum(bp), UNIT, x);
    DivLe(Sum(a2), Sum(a) + UNIT * x, UNIT);
    DivShift(Sum(a), x, UNIT);
  }

  /** A checkpoint keeps the books: what is settled and what is in flight stays within the new basis. */
  lemma CheckpointKeeps(ch: Channel, ref: CkptRef, lastSeq: nat, cum: nat, accruals: seq<nat>)
    requires BooksOk(ch) && Recomputes(ch.meter, lastSeq, cum, accruals)
    ensures BooksOk(Checkpointed(ch, ref, lastSeq, cum, accruals))
    ensures OwnUnits(Checkpointed(ch, ref, lastSeq, cum, accruals)) == OwnUnits(ch)
    ensures BasisCum(ch) <= cum && forall i :: 0 <= i < Roles(ch) ==> BasisAccruals(ch)[i] <= accruals[i]
    ensures MerchantNet(BasisCum(ch), BasisAccruals(ch)) <= MerchantNet(cum, accruals)
  {
    hide MapSum, Sum, MerchantNet;
    PositionMeter(ch);
    CheckpointAdvances(ch.meter, lastSeq);
    var ch' := Checkpointed(ch, ref, lastSeq, cum, accruals);
    BasisGrows(ch, lastSeq, cum, accruals);
    SameOpening(ch, ch');
    forall k <- ch'.rounds | !ch'.rounds[k].confirmed ensures InFlight(ch', ch'.rounds[k]) {
      assert InFlight(ch, ch.rounds[k]);
    }
  }

  lemma BasisGrows(ch: Channel, lastSeq: nat, cum: nat, accruals: seq<nat>)
    requires Shape(ch) && Position(ch) && Recomputes(ch.meter, lastSeq, cum, accruals)
    ensures |accruals| == Roles(ch) && BasisCum(ch) <= cum
    ensures forall i :: 0 <= i < Roles(ch) ==> BasisAccruals(ch)[i] <= accruals[i]
    ensures MerchantNet(BasisCum(ch), BasisAccruals(ch)) <= MerchantNet(cum, accruals)
  {
    hide MapSum, Sum, MerchantNet;
    var m := ch.meter;
    CheckpointAdvances(m, lastSeq);
    var w, v := MapSum<nat>(m.window), MapSum<nat>(Newer(m, lastSeq));
    forall i | 0 <= i < Roles(ch) ensures accruals[i] == BasisAccruals(ch)[i] + (cum - BasisCum(ch)) * m.bp[i] {
      assert cum - BasisCum(ch) == w - v;
      assert (w - v) * m.bp[i] == w * m.bp[i] - v * m.bp[i];
    }
    MerchantNetGrows(BasisCum(ch), BasisAccruals(ch), cum, accruals, m.bp);
  }

  lemma FundKeeps(ch: Channel, credited: nat)
    requires BooksOk(ch)
    ensures BooksOk(Fund(ch, credited)) && OwnUnits(Fund(ch, credited)) == OwnUnits(ch)
  {
    hide MapSum, Sum;
    PositionMeter(ch);
    FundingOk(ch.meter, credited);
    var ch' := Fund(ch, credited);
    SameOpening(ch, ch');
    forall k <- ch'.rounds | !ch'.rounds[k].confirmed ensures InFlight(ch', ch'.rounds[k]) {
      SameInFlight(ch, ch', ch.rounds[k]);
    }
  }

  lemma SettlingKeeps(ch: Channel)
    requires BooksOk(ch)
    ensures BooksOk(ch.(meter := BeginSettling(ch.meter))) && OwnUnits(ch.(meter := BeginSettling(ch.meter))) == OwnUnits(ch)
  {
    hide MapSum, Sum;
    PositionMeter(ch);
    FundingOk(ch.meter, 0);
    var ch' := ch.(meter := BeginSettling(ch.meter));
    SameOpening(ch, ch');
    forall k <- ch'.rounds | !ch'.rounds[k].confirmed ensures InFlight(ch', ch'.rounds[k]) {
      SameInFlight(ch, ch', ch.rounds[k]);
    }
  }
}
