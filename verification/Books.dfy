/** One channel's settlement books: rounds recomputed against the operative checkpoint, partial folds of
    the two legs, interim draws, and the own-cumulative watermark target. */
module Books {
  import opened Sums
  import opened Options
  import opened Instance
  import opened RailTypes
  import opened Metering
  import F7

  datatype Terms = Terms(seed: Seed, refundPtr: Option<Address>, asset: Asset, authHash: Word)
  datatype Operative = Operative(ref: CkptRef, cum: nat, accruals: seq<nat>)
  datatype Account = Account(settled: seq<nat>, net: nat, funding: nat, version: nat)

  /** A chained successor's opening position. */
  datatype Imported = Imported(cum: nat, ref: CkptRef, accruals: seq<nat>, settled: seq<nat>, net: nat, funding: nat)

  /** `output` is the net leg owed (0 for none); `meed` is the round's P, `target` the watermark position
      its meed leg must reach. */
  datatype Round = Round(
    output: nat, meed: Option<nat>, eR: seq<nat>, target: Option<nat>, version: nat, hashes: set<nat>,
    confirmed: bool, meedFolded: bool, netFolded: bool, meedTime: Option<nat>, drawRef: Option<nat>)

  datatype Channel = Channel(
    meter: Meter, terms: Terms, operative: Option<Operative>, ledger: Account, imported: Option<Imported>,
    rounds: map<CkptRef, Round>)

  const UNIT: nat := 10_000
  const VERSIONS: nat := 0x1_0000_0000_0000_0000

  function Zeros(n: nat): (s: seq<nat>)
    ensures |s| == n && Sum(s) == 0
  {
    var s := seq(n, i => 0);
    SumZero(s);
    s
  }

  function Roles(ch: Channel): nat { |ch.meter.bp| }

  function OpeningSettled(ch: Channel): seq<nat> { if ch.imported.Some? then ch.imported.value.settled else Zeros(Roles(ch)) }

  function OpeningNet(ch: Channel): nat { if ch.imported.Some? then ch.imported.value.net else 0 }

  /** The bilaterally evidenced position: the own operative checkpoint, else the imported one, else a birth. */
  function BasisAccruals(ch: Channel): seq<nat> {
    if ch.operative.Some? then ch.operative.value.accruals
    else if ch.imported.Some? then ch.imported.value.accruals
    else Zeros(Roles(ch))
  }

  function BasisCum(ch: Channel): nat {
    if ch.operative.Some? then ch.operative.value.cum else if ch.imported.Some? then ch.imported.value.cum else 0
  }

  /** Merchant-net: what is owed beyond the meed carve. */
  function MerchantNet(cum: nat, accruals: seq<nat>): nat { F7.SatSub(cum, F7.MeedCarve(accruals)) }

  // ---- what a round settles -----------------------------------------------------------------------

  datatype Economics = Economics(meed: Option<nat>, eR: seq<nat>, output: nat)

  /** The creditor's recomputation of a unity-rate round; None where the code rejects. */
  function Recompute(ch: Channel): Option<Economics> {
    if ch.operative.None? then None
    else
      var op := ch.operative.value;
      match F7.OutstandingMeedPerRole(op.accruals, ch.ledger.settled)
      case Err(_) => None
      case Ok(nR) =>
        match F7.Division(nR, F7.UNITY)
        case Err(_) => None
        case Ok(d) =>
          Some(Economics(if d.leg then Some(d.p) else None, d.eR,
                         F7.OutstandingMerchantNet(op.cum, op.accruals, ch.ledger.net, ch.ledger.funding)))
  }

  /** floor((sum accruals - sum imported openings) / 10000), or None when nothing is own-accrued. */
  function CumulativeTarget(ch: Channel, accruals: seq<nat>): Option<nat> {
    match F7.OutstandingMeedPerRole(accruals, OpeningSettled(ch))
    case Err(_) => None
    case Ok(nR) =>
      match F7.Division(nR, F7.UNITY)
      case Err(_) => None
      case Ok(d) => if d.leg then Some(d.p) else None
  }

  function Bump(v: nat): nat { (v + 1) % VERSIONS }

  function AddRoles(a: seq<nat>, b: seq<nat>): (c: seq<nat>)
    requires |a| == |b|
    ensures |c| == |a|
  {
    seq(|a|, i requires 0 <= i < |a| => a[i] + b[i])
  }

  // ---- invariants ------------------------------------------------------------------------------------

  predicate Shape(ch: Channel) {
    var n := Roles(ch);
    && |ch.ledger.settled| == n && Sum(ch.meter.bp) <= UNIT && n <= F7.MAX_ROLES
    && (ch.operative.Some? ==> |ch.operative.value.accruals| == n)
    && (ch.imported.Some? ==> |ch.imported.value.accruals| == n && |ch.imported.value.settled| == n)
    && forall k <- ch.rounds :: |ch.rounds[k].eR| == n
  }

  /** The basis is exactly what the last checkpoint committed. */
  ghost predicate Position(ch: Channel)
    requires Shape(ch)
  {
    && MeterOk(ch.meter) && BasisCum(ch) == CommittedCum(ch.meter)
    && forall i :: 0 <= i < Roles(ch) ==> BasisAccruals(ch)[i] == ch.meter.accruals[i] - MapSum<nat>(ch.meter.window) * ch.meter.bp[i]
  }

  /** At most one unconfirmed round. */
  predicate Serial(ch: Channel) {
    forall j, k :: j in ch.rounds && k in ch.rounds && !ch.rounds[j].confirmed && !ch.rounds[k].confirmed ==> j == k
  }

  function FoldedAt(d: Round, i: nat): nat
    requires i < |d.eR|
  {
    if d.meedFolded then d.eR[i] else 0
  }

  function FoldedOf(rounds: map<CkptRef, Round>, i: nat): map<CkptRef, nat>
    requires forall k <- rounds :: i < |rounds[k].eR|
  {
    map k | k in rounds :: FoldedAt(rounds[k], i)
  }

  function NetAt(d: Round): nat { if d.netFolded then d.output else 0 }

  function NetOf(rounds: map<CkptRef, Round>): map<CkptRef, nat> { map k | k in rounds :: NetAt(rounds[k]) }

  /** The ledger is its openings plus what the folded rounds carried, role by role. */
  ghost predicate Totals(ch: Channel)
    requires Shape(ch)
  {
    && (forall i :: 0 <= i < Roles(ch) ==> ch.ledger.settled[i] == OpeningSettled(ch)[i] + MapSum<CkptRef>(FoldedOf(ch.rounds, i)))
    && ch.ledger.net == OpeningNet(ch) + MapSum<CkptRef>(NetOf(ch.rounds))
  }

  /** Every settled sum is a whole number of payable units, and never past the evidenced accruals. */
  predicate Whole(ch: Channel)
    requires Shape(ch)
  {
    && Sum(ch.ledger.settled) % UNIT == 0 && Sum(OpeningSettled(ch)) % UNIT == 0
    && Sum(OpeningSettled(ch)) <= Sum(ch.ledger.settled)
    && forall i :: 0 <= i < Roles(ch) ==> OpeningSettled(ch)[i] <= ch.ledger.settled[i] <= BasisAccruals(ch)[i]
  }

  /** What the channel has settled itself, in payable units. */
  function OwnUnits(ch: Channel): nat
    requires Shape(ch) && Whole(ch)
  {
    (Sum(ch.ledger.settled) - Sum(OpeningSettled(ch))) / UNIT
  }

  /** An unconfirmed round was computed against the books as they stand. */
  predicate InFlight(ch: Channel, d: Round)
    requires Shape(ch) && Whole(ch) && |d.eR| == Roles(ch)
  {
    && d.version == ch.ledger.version
    && (d.meed.Some? <==> d.target.Some?) && (d.meed.None? ==> !d.meedFolded) && (d.meedTime.Some? ==> d.meedFolded)
    && (d.meed.Some? && !d.meedFolded ==>
          && d.meed.value > 0 && Sum(d.eR) == UNIT * d.meed.value
          && d.target.value == OwnUnits(ch) + d.meed.value
          && forall i :: 0 <= i < Roles(ch) ==> ch.ledger.settled[i] + d.eR[i] <= BasisAccruals(ch)[i])
    && (d.meedFolded ==> d.target.value == OwnUnits(ch))
    && (ch.meter.prepay ==> d.meed.Some? && d.output == 0 && d.netFolded && !d.meedFolded && d.hashes == {})
    && (d.output > 0 && !d.netFolded ==> ch.ledger.net + d.output <= MerchantNet(BasisCum(ch), BasisAccruals(ch)))
  }

  ghost predicate BooksOk(ch: Channel) {
    && Shape(ch) && Position(ch) && Serial(ch) && Totals(ch) && Whole(ch)
    && forall k <- ch.rounds :: !ch.rounds[k].confirmed ==> InFlight(ch, ch.rounds[k])
  }

  // ---- arithmetic of one round ---------------------------------------------------------------------------

  lemma RemainingTotal(a: seq<nat>, s: seq<nat>)
    requires F7.OutstandingMeedPerRole(a, s).Ok?
    ensures Sum(F7.OutstandingMeedPerRole(a, s).value) + Sum(s) == Sum(a)
  {
    F7.RemainingSum(a, s);
  }

  /** At unity the round extinguishes exactly ten thousand numerator units per unit of P, per role no more
      than is outstanding. */
  lemma RoundArithmetic(a: seq<nat>, s: seq<nat>)
    requires F7.OutstandingMeedPerRole(a, s).Ok? && F7.Division(F7.OutstandingMeedPerRole(a, s).value, F7.UNITY).Ok?
    ensures var d := F7.Division(F7.OutstandingMeedPerRole(a, s).value, F7.UNITY).value;
            && |d.eR| == |a| == |s|
            && d.p == (Sum(a) - Sum(s)) / UNIT && Sum(d.eR) == UNIT * d.p && (d.leg <==> d.p >= 1)
            && Sum(s) <= Sum(a)
            && forall i :: 0 <= i < |a| ==> s[i] + d.eR[i] <= a[i]
  {
    var nR := F7.OutstandingMeedPerRole(a, s).value;
    RemainingTotal(a, s);
    F7.UnityDivision(nR);
    F7.DivisionConserves(nR, F7.UNITY);
  }

  lemma UnitsApart(a: nat, s: nat, o: nat)
    requires o <= s <= a && s % UNIT == 0 && o % UNIT == 0
    ensures (a - o) / UNIT == (s - o) / UNIT + (a - s) / UNIT
    ensures a / UNIT - o / UNIT == (a - o) / UNIT
  {
  }

  lemma TargetValue(ch: Channel, a: seq<nat>)
    requires CumulativeTarget(ch, a).Some?
    ensures Sum(OpeningSettled(ch)) <= Sum(a)
    ensures CumulativeTarget(ch, a).value == (Sum(a) - Sum(OpeningSettled(ch))) / UNIT > 0
  {
    RoundArithmetic(a, OpeningSettled(ch));
  }

  /** Path independence, one step: the cumulative target is what was settled plus this round's P. */
  lemma TargetIsSettledPlusP(ch: Channel)
    requires Shape(ch) && Whole(ch) && Recompute(ch).Some?
    ensures var x := Recompute(ch).value;
            && |x.eR| == Roles(ch)
            && (x.meed.Some? ==> x.meed.value > 0 && Sum(x.eR) == UNIT * x.meed.value)
            && (x.meed.None? ==> Sum(x.eR) == 0)
            && (forall i :: 0 <= i < Roles(ch) ==> ch.ledger.settled[i] + x.eR[i] <= BasisAccruals(ch)[i])
            && (x.meed.Some? && CumulativeTarget(ch, BasisAccruals(ch)).Some? ==>
                  CumulativeTarget(ch, BasisAccruals(ch)).value == OwnUnits(ch) + x.meed.value)
  {
    hide F7.Division, F7.OutstandingMeedPerRole, F7.OutstandingMerchantNet, Sum, OpeningSettled;
    var a, s, o := BasisAccruals(ch), ch.ledger.settled, OpeningSettled(ch);
    RoundArithmetic(a, s);
    if Recompute(ch).value.meed.Some? && CumulativeTarget(ch, a).Some? {
      TargetValue(ch, a);
      UnitsApart(Sum(a), Sum(s), Sum(o));
    }
  }

  // ---- reconciliation dust ---------------------------------------------------------------------------------

  /** What the whole-chain carve reserves beyond what the channel's own watermark distributes. */
  function ReconciliationDust(ch: Channel): nat {
    var a := BasisAccruals(ch);
    if ch.operative.None? && ch.imported.None? then 0
    else
      var t := match CumulativeTarget(ch, a) case Some(p) => p case None => 0;
      F7.SatSub(F7.SatSub(F7.MeedCarve(a), F7.MeedCarve(OpeningSettled(ch))), t)
  }

  /** Zero or one unit for any inputs the divisions accept; zero whenever the imported openings are whole
      units, as they are in every state the settlement path reaches. */
  lemma DustBound(ch: Channel)
    requires Shape(ch)
    requires F7.OutstandingMeedPerRole(BasisAccruals(ch), OpeningSettled(ch)).Ok?
    requires F7.Division(F7.OutstandingMeedPerRole(BasisAccruals(ch), OpeningSettled(ch)).value, F7.UNITY).Ok?
    ensures ReconciliationDust(ch) <= 1
    ensures Sum(OpeningSettled(ch)) % UNIT == 0 ==> ReconciliationDust(ch) == 0
  {
    var a, o := BasisAccruals(ch), OpeningSettled(ch);
    RoundArithmetic(a, o);
    assert Sum(a) / UNIT - Sum(o) / UNIT <= (Sum(a) - Sum(o)) / UNIT + 1;
    if Sum(o) % UNIT == 0 { UnitsApart(Sum(a), Sum(o), Sum(o)); }
  }

  // ---- whole schedules -----------------------------------------------------------------------------------------

  /** A schedule settles against one accrual vector after another; each round that carries a leg folds. */
  function Settle(accs: seq<seq<nat>>, settled: seq<nat>): Option<(seq<nat>, nat)> {
    if |accs| == 0 then Some((settled, 0))
    else
      match Settle(accs[..|accs| - 1], settled)
      case None => None
      case Some((s, total)) =>
        match F7.OutstandingMeedPerRole(accs[|accs| - 1], s)
        case Err(_) => None
        case Ok(nR) =>
          match F7.Division(nR, F7.UNITY)
          case Err(_) => None
          case Ok(d) => if |d.eR| == |s| then Some((AddRoles(s, d.eR), total + d.p)) else None
  }

  lemma AddRolesSum(a: seq<nat>, b: seq<nat>)
    requires |a| == |b|
    ensures Sum(AddRoles(a, b)) == Sum(a) + Sum(b)
  {
    SumAdd(a, b, AddRoles(a, b));
  }

  /** The total drawn depends only on the last evidenced accruals: any number and timing of interim
      rounds draws floor((sum A - sum settled at the start) / 10000). */
  lemma {:induction false} DrawsArePathIndependent(accs: seq<seq<nat>>, settled: seq<nat>)
    requires |accs| > 0 && Settle(accs, settled).Some?
    ensures var (s, total) := Settle(accs, settled).value;
            && Sum(settled) <= Sum(accs[|accs| - 1])
            && total == (Sum(accs[|accs| - 1]) - Sum(settled)) / UNIT
            && Sum(s) == Sum(settled) + UNIT * total
  {
    var n := |accs| - 1;
    var (s, total) := Settle(accs[..n], settled).value;
    var a := accs[n];
    RoundArithmetic(a, s);
    var d := F7.Division(F7.OutstandingMeedPerRole(a, s).value, F7.UNITY).value;
    AddRolesSum(s, d.eR);
    if n > 0 {
      DrawsArePathIndependent(accs[..n], settled);
      assert (Sum(a) - Sum(settled) - UNIT * total) / UNIT == (Sum(a) - Sum(settled)) / UNIT - total;
    }
  }
}
