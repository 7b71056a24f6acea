/** One channel's metering: slice acceptance in the authenticate-before-state order, the two pauses,
    and checkpoints over a prefix of the accepted slices. */
module Metering {
  import opened Sums

  const BP_DENOM: nat := 10_000

  /** `window` holds the accepted slices above the checkpoint floor, by sequence number. */
  datatype Meter = Meter(
    prepay: bool, upper: int, lower: int, limitE: nat, bp: seq<nat>,
    balance: int, cum: nat, accruals: seq<nat>, unevidenced: nat, floor: nat, window: map<nat, nat>,
    open: bool, pausedWindow: bool, pausedEvidence: bool)

  datatype Refusal = BadMac | NotOpen | SeqInvalid | WindowExceeded | EvidenceRequired
  datatype Answer = Accepted | Refused(why: Refusal)

  datatype Slice = Slice(genuine: bool, seqNo: nat, amount: nat)

  function New(prepay: bool, limitL: nat, limitE: nat, bp: seq<nat>): Meter {
    Meter(prepay, if prepay then 0 else limitL, if prepay then -(limitL as int) else 0, limitE, bp,
          0, 0, seq(|bp|, i => 0), 0, 0, map[], true, false, false)
  }

  /** A chained successor: the position is imported, the slice plane is fresh. None when the position does
      not fit the successor's window. */
  function NewImported(prepay: bool, limitL: nat, limitE: nat, bp: seq<nat>, cum: nat, accruals: seq<nat>, balance: int): (r: (bool, Meter))
  {
    var m := New(prepay, limitL, limitE, bp);
    if |accruals| != |bp| || balance > m.upper || balance < m.lower then (false, m)
    else (true, m.(cum := cum, accruals := accruals, balance := balance))
  }

  function Accrued(m: Meter, amount: nat): (a: seq<nat>)
    requires |m.accruals| == |m.bp|
    ensures |a| == |m.bp|
  {
    seq(|m.bp|, i requires 0 <= i < |m.bp| => (MulNonNeg(amount, m.bp[i]); m.accruals[i] + amount * m.bp[i]))
  }

  function AcceptSlice(m: Meter, s: Slice): (r: (Meter, Answer))
    requires |m.accruals| == |m.bp|
    ensures |r.0.accruals| == |r.0.bp| && r.0.bp == m.bp
  {
    if !s.genuine then (m, Refused(BadMac))
    else if !m.open then (m, Refused(NotOpen))
    else if s.seqNo <= m.floor || s.seqNo in m.window then (m, Refused(SeqInvalid))
    else if m.pausedWindow then (m, Refused(WindowExceeded))
    else if m.balance + s.amount > m.upper then (m.(pausedWindow := true), Refused(WindowExceeded))
    else if m.unevidenced + s.amount > m.limitE then (m, Refused(EvidenceRequired))
    else
      (m.(balance := m.balance + s.amount, cum := m.cum + s.amount, accruals := Accrued(m, s.amount),
          unevidenced := m.unevidenced + s.amount, window := m.window[s.seqNo := s.amount],
          pausedEvidence := m.pausedEvidence || m.unevidenced + s.amount >= m.limitE), Accepted)
  }

  /** All slices, or the first refusal with the state it was refused in. */
  function Tentative(m: Meter, slices: seq<Slice>): (r: (Meter, Answer))
    requires |m.accruals| == |m.bp|
    ensures |r.0.accruals| == |r.0.bp| && r.0.bp == m.bp
    decreases |slices|
  {
    if |slices| == 0 then (m, Accepted)
    else
      var (m', a) := AcceptSlice(m, slices[0]);
      if a.Refused? then (m', a) else Tentative(m', slices[1..])
  }

  /** A batch commits whole or meters nothing; only a window breach leaves its pause behind. */
  function AcceptBatch(m: Meter, slices: seq<Slice>): (r: (Meter, Answer))
    requires |m.accruals| == |m.bp|
    ensures |r.0.accruals| == |r.0.bp| && r.0.bp == m.bp
    ensures r.1.Refused? ==> r.0 == m.(pausedWindow := m.pausedWindow || r.1.why == WindowExceeded)
  {
    var (m', a) := Tentative(m, slices);
    if a.Accepted? then (m', a)
    else (if a.why == WindowExceeded then m.(pausedWindow := true) else m, a)
  }

  function Max(a: int, b: int): int { if a >= b then a else b }

  function CreditFunding(m: Meter, credited: nat): Meter {
    m.(balance := Max(m.balance - credited, m.lower), pausedWindow := m.pausedWindow && credited == 0)
  }

  function ApplySettlementRound(m: Meter, gross: nat): Meter {
    if m.prepay then m
    else m.(balance := Max(m.balance - gross, m.lower), pausedWindow := m.pausedWindow && gross == 0)
  }

  function Newer(m: Meter, cutoff: nat): map<nat, nat> { map s | s in m.window && s > cutoff :: m.window[s] }

  /** The metering as of `cutoff`: the running totals less the slices above it. */
  ghost function CumAt(m: Meter, cutoff: nat): int { m.cum - MapSum<nat>(Newer(m, cutoff)) }

  ghost function AccrualsAt(m: Meter, cutoff: nat): (a: seq<int>)
    requires |m.accruals| == |m.bp|
    ensures |a| == |m.bp|
  {
    seq(|m.bp|, i requires 0 <= i < |m.bp| => m.accruals[i] - MapSum<nat>(Newer(m, cutoff)) * m.bp[i])
  }

  /** A proposal's LAST_SEQ must be an accepted sequence number, or the floor. */
  predicate NamesPrefix(m: Meter, lastSeq: nat) { lastSeq in m.window || lastSeq == m.floor }

  /** The proposal recomputes from our own books. */
  ghost predicate Recomputes(m: Meter, lastSeq: nat, cum: nat, accruals: seq<nat>)
    requires |m.accruals| == |m.bp|
  {
    NamesPrefix(m, lastSeq) && CumAt(m, lastSeq) == cum && AccrualsAt(m, lastSeq) == accruals
  }

  ghost function CheckpointUpto(m: Meter, cutoff: nat): Meter {
    var w := Newer(m, cutoff);
    m.(window := w, floor := cutoff, unevidenced := MapSum<nat>(w), pausedEvidence := MapSum<nat>(w) >= m.limitE)
  }

  function BeginSettling(m: Meter): Meter { m.(open := false) }

  // ---- invariants -------------------------------------------------------------------------------

  /** The position covered by the last checkpoint. */
  ghost function CommittedCum(m: Meter): int { m.cum - MapSum<nat>(m.window) }

  ghost predicate MeterOk(m: Meter) {
    && |m.accruals| == |m.bp|
    && m.lower <= m.balance <= m.upper
    && m.unevidenced == MapSum<nat>(m.window) <= m.cum
    && (forall s <- m.window :: s > m.floor)
    && forall i :: 0 <= i < |m.bp| ==> MapSum<nat>(m.window) * m.bp[i] <= m.accruals[i]
  }

  lemma NewOk(prepay: bool, limitL: nat, limitE: nat, bp: seq<nat>)
    ensures MeterOk(New(prepay, limitL, limitE, bp))
  {
    var m := New(prepay, limitL, limitE, bp);
    assert MapSum<nat>(m.window) == 0;
  }

  lemma NewImportedOk(prepay: bool, limitL: nat, limitE: nat, bp: seq<nat>, cum: nat, accruals: seq<nat>, balance: int)
    ensures var (ok, m) := NewImported(prepay, limitL, limitE, bp, cum, accruals, balance);
            MeterOk(m) && (ok ==> m.cum == cum && m.accruals == accruals && |accruals| == |bp|)
  {
    NewOk(prepay, limitL, limitE, bp);
    assert MapSum<nat>(New(prepay, limitL, limitE, bp).window) == 0;
  }

  lemma AcceptOk(m: Meter, s: Slice)
    requires MeterOk(m)
    ensures var m' := AcceptSlice(m, s).0;
            MeterOk(m') && CommittedCum(m') == CommittedCum(m) && m.cum <= m'.cum
  {
    hide MapSum;
    if AcceptSlice(m, s).1.Accepted? {
      MapSumPut<nat>(m.window, s.seqNo, s.amount);
      forall i | 0 <= i < |m.bp| ensures (MapSum<nat>(m.window) + s.amount) * m.bp[i] <= m.accruals[i] + s.amount * m.bp[i] {
        assert (MapSum<nat>(m.window) + s.amount) * m.bp[i] == MapSum<nat>(m.window) * m.bp[i] + s.amount * m.bp[i];
      }
    }
  }

  lemma {:induction false} TentativeOk(m: Meter, slices: seq<Slice>)
    requires MeterOk(m)
    ensures var m' := Tentative(m, slices).0;
            MeterOk(m') && CommittedCum(m') == CommittedCum(m) && m.cum <= m'.cum
    decreases |slices|
  {
    hide MeterOk, MapSum;
    if |slices| > 0 {
      LengthsOk(m);
      AcceptOk(m, slices[0]);
      TentativeOk(AcceptSlice(m, slices[0]).0, slices[1..]);
    }
  }

  lemma LengthsOk(m: Meter)
    requires MeterOk(m)
    ensures |m.accruals| == |m.bp|
  {
  }

  lemma BatchOk(m: Meter, slices: seq<Slice>)
    requires MeterOk(m)
    ensures var m' := AcceptBatch(m, slices).0;
            MeterOk(m') && CommittedCum(m') == CommittedCum(m) && m.cum <= m'.cum
  {
    hide MapSum;
    TentativeOk(m, slices);
  }

  lemma NewerLe(m: Meter, cutoff: nat)
    ensures MapSum<nat>(Newer(m, cutoff)) <= MapSum<nat>(m.window)
  {
    MapSumLe<nat>(Newer(m, cutoff), m.window);
  }

  /** Checkpoints only move forward: each covers at least what the one before it covered, in total and
      per role, and never more than the live metering. */
  lemma CheckpointAdvances(m: Meter, cutoff: nat)
    requires MeterOk(m)
    ensures MeterOk(CheckpointUpto(m, cutoff))
    ensures CommittedCum(m) <= CumAt(m, cutoff) == CommittedCum(CheckpointUpto(m, cutoff)) <= m.cum
    ensures forall i :: 0 <= i < |m.bp| ==>
              0 <= m.accruals[i] - MapSum<nat>(m.window) * m.bp[i] <= AccrualsAt(m, cutoff)[i] <= m.accruals[i]
  {
    hide MapSum;
    NewerLe(m, cutoff);
    var a, b := MapSum<nat>(Newer(m, cutoff)), MapSum<nat>(m.window);
    forall i | 0 <= i < |m.bp| ensures a * m.bp[i] <= b * m.bp[i] && 0 <= a * m.bp[i] {
      MulLe(a, b, m.bp[i]);
      MulNonNeg(a, m.bp[i]);
    }
  }

  lemma FundingOk(m: Meter, credited: nat)
    requires MeterOk(m)
    ensures MeterOk(CreditFunding(m, credited)) && MeterOk(ApplySettlementRound(m, credited)) && MeterOk(BeginSettling(m))
  {
    hide MapSum;
  }

  /** Per-role accruals are the metered total at each role's basis points, over the imported base. */
  predicate Linear(m: Meter, base: nat, start: seq<nat>) {
    && |m.accruals| == |m.bp| == |start| && base <= m.cum
    && forall i :: 0 <= i < |m.bp| ==> m.accruals[i] == start[i] + (m.cum - base) * m.bp[i]
  }

  lemma AcceptLinear(m: Meter, s: Slice, base: nat, start: seq<nat>)
    requires Linear(m, base, start)
    ensures Linear(AcceptSlice(m, s).0, base, start)
  {
    forall i | 0 <= i < |m.bp| ensures (m.cum - base) * m.bp[i] + s.amount * m.bp[i] == (m.cum + s.amount - base) * m.bp[i] {
      assert (m.cum + s.amount - base) == (m.cum - base) + s.amount;
    }
  }

  lemma {:induction false} BatchLinear(m: Meter, slices: seq<Slice>, base: nat, start: seq<nat>)
    requires Linear(m, base, start)
    ensures Linear(Tentative(m, slices).0, base, start) && Linear(AcceptBatch(m, slices).0, base, start)
    decreases |slices|
  {
    hide Linear;
    LinearLengths(m, base, start);
    if |slices| > 0 {
      AcceptLinear(m, slices[0], base, start);
      BatchLinear(AcceptSlice(m, slices[0]).0, slices[1..], base, start);
    }
    PauseLinear(m, base, start);
  }

  lemma LinearLengths(m: Meter, base: nat, start: seq<nat>)
    requires Linear(m, base, start)
    ensures |m.accruals| == |m.bp|
  {
  }

  lemma PauseLinear(m: Meter, base: nat, start: seq<nat>)
    requires Linear(m, base, start)
    ensures Linear(m.(pausedWindow := true), base, start)
  {
  }

  // ---- consumption never passes the deposit --------------------------------------------------------

  /** The balance is at least metered minus credited: a clamp only ever raises it. */
  predicate Covered(m: Meter, credited: nat) { m.balance >= m.cum - credited }

  lemma CoveredKept(m: Meter, credited: nat, slices: seq<Slice>, more: nat)
    requires MeterOk(m) && Covered(m, credited)
    ensures Covered(AcceptBatch(m, slices).0, credited)
    ensures Covered(CreditFunding(m, more), credited + more)
  {
    hide MeterOk;
    LengthsOk(m);
    TentativeCovered(m, slices, credited);
  }

  lemma {:induction false} TentativeCovered(m: Meter, slices: seq<Slice>, credited: nat)
    requires |m.accruals| == |m.bp| && Covered(m, credited)
    ensures Covered(Tentative(m, slices).0, credited)
    decreases |slices|
  {
    if |slices| > 0 {
      TentativeCovered(AcceptSlice(m, slices[0]).0, slices[1..], credited);
    }
  }

  /** A prepay channel never meters more than was deposited. */
  lemma PrepayWithinDeposit(m: Meter, credited: nat)
    requires MeterOk(m) && m.prepay && m.upper == 0 && Covered(m, credited)
    ensures m.cum <= credited
  {
  }
}
