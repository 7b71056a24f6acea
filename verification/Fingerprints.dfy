/** The preimages of the two settlement fingerprints and the keys of the decision store: what they
    bind, and what they leave out on purpose. */
module Fingerprints {
  import opened Bytes
  import opened Options
  import opened Framing
  import opened Integers
  import Envelope

  // ---- the round-terms fingerprint -------------------------------------------------------------

  datatype Output = Output(amount: nat, asset: Octets, dest: Octets)
  datatype Extinguish = Extinguish(role: Byte, e: nat)
  datatype InstanceLeg = InstanceLeg(amount: nat, extinguished: seq<Extinguish>, credited: seq<Octets>)
  datatype Conversion = Conversion(rate: Octets, rateTime: nat, rateExp: nat, rateGrace: nat)
  datatype Proposal = Proposal(
    channel: Octets, ckpt: Octets, outputs: seq<Output>, leg: Option<InstanceLeg>, conversion: Option<Conversion>, signature: Octets)

  function PutOutput(o: Output): Octets { Frame(EncodeUint(o.amount)) + Frame(o.asset) + Frame(o.dest) }

  function PutExtinguish(x: Extinguish): Octets { [x.role] + Frame(EncodeUint(x.e)) }

  function PutAll<T>(xs: seq<T>, put: T -> Octets): Octets {
    if |xs| == 0 then [] else put(xs[0]) + PutAll(xs[1..], put)
  }

  function PutLeg(l: Option<InstanceLeg>): Octets {
    match l
    case None => [0]
    case Some(x) => [1] + Frame(EncodeUint(x.amount)) + Be32(|x.extinguished|) + PutAll(x.extinguished, PutExtinguish)
  }

  function PutConversion(c: Option<Conversion>): Octets {
    match c
    case None => [0]
    case Some(x) => [1] + Frame(x.rate) + Fixed(8, x.rateTime) + Fixed(8, x.rateExp) + Fixed(8, x.rateGrace)
  }

  /** CREDITED, which grows across a round's retries, and the signatures are not in it. */
  function TermsPreimage(p: Proposal): Octets {
    p.channel + p.ckpt + Be32(|p.outputs|) + PutAll(p.outputs, PutOutput) + PutLeg(p.leg) + PutConversion(p.conversion)
  }

  // ---- sizes ------------------------------------------------------------------------------------

  predicate OutputOk(o: Output) { |EncodeUint(o.amount)| < WORD && |o.asset| < WORD && |o.dest| < WORD }

  predicate ExtinguishOk(x: Extinguish) { |EncodeUint(x.e)| < WORD }

  predicate ProposalOk(p: Proposal) {
    && |p.channel| == 8 && |p.ckpt| == 32
    && |p.outputs| < WORD && (forall i :: 0 <= i < |p.outputs| ==> OutputOk(p.outputs[i]))
    && (p.leg.Some? ==> LegOk(p.leg.value))
    && (p.conversion.Some? ==> ConversionOk(p.conversion.value))
  }

  predicate LegOk(l: InstanceLeg) {
    && |EncodeUint(l.amount)| < WORD && |l.extinguished| < WORD
    && forall i :: 0 <= i < |l.extinguished| ==> ExtinguishOk(l.extinguished[i])
  }

  predicate ConversionOk(c: Conversion) {
    |c.rate| < WORD && c.rateTime < Pow256(8) && c.rateExp < Pow256(8) && c.rateGrace < Pow256(8)
  }

  /** The terms: everything but CREDITED and the signature. */
  function Terms(p: Proposal): Proposal {
    p.(leg := if p.leg.Some? then Some(p.leg.value.(credited := [])) else None, signature := [])
  }

  // ---- one part at a time: what follows a part does not matter -------------------------------------

  lemma FrameEnds(a: Octets, r: Octets, b: Octets, s: Octets)
    requires |a| < WORD && |b| < WORD && Frame(a) + r == Frame(b) + s
    ensures a == b && r == s
  {
    ReadFrame(a, r);
    ReadFrame(b, s);
    assert (Frame(a) + r)[|Frame(a)|..] == r && (Frame(b) + s)[|Frame(b)|..] == s;
  }

  lemma UintFrameEnds(m: nat, r: Octets, n: nat, s: Octets)
    requires |EncodeUint(m)| < WORD && |EncodeUint(n)| < WORD && Frame(EncodeUint(m)) + r == Frame(EncodeUint(n)) + s
    ensures m == n && r == s
  {
    FrameEnds(EncodeUint(m), r, EncodeUint(n), s);
    UintBijection(m, []);
    UintBijection(n, []);
  }

  lemma CountEnds(m: nat, r: Octets, n: nat, s: Octets)
    requires m < WORD && n < WORD && Be32(m) + r == Be32(n) + s
    ensures m == n && r == s
  {
    hide Be32, FromBe32;
    Be32Value(m);
    Be32Value(n);
    assert (Be32(m) + r)[..4] == Be32(m) && (Be32(n) + s)[..4] == Be32(n);
    assert (Be32(m) + r)[4..] == r && (Be32(n) + s)[4..] == s;
  }

  lemma SameLengthEnds(a: Octets, r: Octets, b: Octets, s: Octets)
    requires |a| == |b| && a + r == b + s
    ensures a == b && r == s
  {
    assert (a + r)[..|a|] == a && (b + s)[..|b|] == b && (a + r)[|a|..] == r && (b + s)[|b|..] == s;
  }

  lemma OutputEnds(x: Output, r: Octets, y: Output, s: Octets)
    requires OutputOk(x) && OutputOk(y) && PutOutput(x) + r == PutOutput(y) + s
    ensures x == y && r == s
  {
    hide EncodeUint, Frame;
    var x1, y1 := Frame(x.asset) + (Frame(x.dest) + r), Frame(y.asset) + (Frame(y.dest) + s);
    assert PutOutput(x) + r == Frame(EncodeUint(x.amount)) + x1;
    assert PutOutput(y) + s == Frame(EncodeUint(y.amount)) + y1;
    UintFrameEnds(x.amount, x1, y.amount, y1);
    FrameEnds(x.asset, Frame(x.dest) + r, y.asset, Frame(y.dest) + s);
    FrameEnds(x.dest, r, y.dest, s);
  }

  lemma ExtinguishEnds(x: Extinguish, r: Octets, y: Extinguish, s: Octets)
    requires ExtinguishOk(x) && ExtinguishOk(y) && PutExtinguish(x) + r == PutExtinguish(y) + s
    ensures x == y && r == s
  {
    hide EncodeUint, Frame;
    var x1, y1 := Frame(EncodeUint(x.e)) + r, Frame(EncodeUint(y.e)) + s;
    assert PutExtinguish(x) + r == [x.role] + x1 && PutExtinguish(y) + s == [y.role] + y1;
    SameLengthEnds([x.role], x1, [y.role], y1);
    assert [x.role][0] == [y.role][0];
    UintFrameEnds(x.e, r, y.e, s);
  }

  lemma {:induction false} OutputsEnd(xs: seq<Output>, r: Octets, ys: seq<Output>, s: Octets)
    requires |xs| == |ys| && PutAll(xs, PutOutput) + r == PutAll(ys, PutOutput) + s
    requires forall i :: 0 <= i < |xs| ==> OutputOk(xs[i]) && OutputOk(ys[i])
    ensures xs == ys && r == s
  {
    hide PutOutput, OutputOk;
    if |xs| == 0 {
      assert PutAll(xs, PutOutput) + r == r && PutAll(ys, PutOutput) + s == s;
    } else {
      var x1, y1 := PutAll(xs[1..], PutOutput) + r, PutAll(ys[1..], PutOutput) + s;
      assert PutAll(xs, PutOutput) + r == PutOutput(xs[0]) + x1 && PutAll(ys, PutOutput) + s == PutOutput(ys[0]) + y1;
      OutputEnds(xs[0], x1, ys[0], y1);
      OutputsEnd(xs[1..], r, ys[1..], s);
      assert xs == [xs[0]] + xs[1..] && ys == [ys[0]] + ys[1..];
    }
  }

  lemma {:induction false} ExtinguishedEnd(xs: seq<Extinguish>, r: Octets, ys: seq<Extinguish>, s: Octets)
    requires |xs| == |ys| && PutAll(xs, PutExtinguish) + r == PutAll(ys, PutExtinguish) + s
    requires forall i :: 0 <= i < |xs| ==> ExtinguishOk(xs[i]) && ExtinguishOk(ys[i])
    ensures xs == ys && r == s
  {
    hide PutExtinguish, ExtinguishOk;
    if |xs| == 0 {
      assert PutAll(xs, PutExtinguish) + r == r && PutAll(ys, PutExtinguish) + s == s;
    } else {
      var x1, y1 := PutAll(xs[1..], PutExtinguish) + r, PutAll(ys[1..], PutExtinguish) + s;
      assert PutAll(xs, PutExtinguish) + r == PutExtinguish(xs[0]) + x1 && PutAll(ys, PutExtinguish) + s == PutExtinguish(ys[0]) + y1;
      ExtinguishEnds(xs[0], x1, ys[0], y1);
      ExtinguishedEnd(xs[1..], r, ys[1..], s);
      assert xs == [xs[0]] + xs[1..] && ys == [ys[0]] + ys[1..];
    }
  }

  lemma LegEnds(x: Option<InstanceLeg>, r: Octets, y: Option<InstanceLeg>, s: Octets)
    requires x.Some? ==> LegOk(x.value)
    requires y.Some? ==> LegOk(y.value)
    requires PutLeg(x) + r == PutLeg(y) + s
    ensures x.Some? == y.Some? && r == s
    ensures x.Some? ==> x.value.(credited := []) == y.value.(credited := [])
  {
    hide EncodeUint, Frame, Be32, PutAll;
    assert (PutLeg(x) + r)[0] == if x.Some? then 1 else 0;
    assert (PutLeg(y) + s)[0] == if y.Some? then 1 else 0;
    if x.None? {
      SameLengthEnds([0], r, [0], s);
    } else {
      LegPartsEnd(x.value, r, y.value, s);
    }
  }

  lemma Regroup(a: Octets, b: Octets, c: Octets, d: Octets, r: Octets)
    ensures a + b + c + d + r == a + (b + (c + (d + r)))
  {
  }

  lemma LegPartsEnd(x: InstanceLeg, r: Octets, y: InstanceLeg, s: Octets)
    requires LegOk(x) && LegOk(y) && PutLeg(Some(x)) + r == PutLeg(Some(y)) + s
    ensures r == s && x.(credited := []) == y.(credited := [])
  {
    hide EncodeUint, Frame, Be32, PutAll, ExtinguishOk;
    var x3, y3 := PutAll(x.extinguished, PutExtinguish) + r, PutAll(y.extinguished, PutExtinguish) + s;
    var x2, y2 := Be32(|x.extinguished|) + x3, Be32(|y.extinguished|) + y3;
    var x1, y1 := Frame(EncodeUint(x.amount)) + x2, Frame(EncodeUint(y.amount)) + y2;
    Regroup([1], Frame(EncodeUint(x.amount)), Be32(|x.extinguished|), PutAll(x.extinguished, PutExtinguish), r);
    Regroup([1], Frame(EncodeUint(y.amount)), Be32(|y.extinguished|), PutAll(y.extinguished, PutExtinguish), s);
    SameLengthEnds([1], x1, [1], y1);
    UintFrameEnds(x.amount, x2, y.amount, y2);
    CountEnds(|x.extinguished|, x3, |y.extinguished|, y3);
    ExtinguishedEnd(x.extinguished, r, y.extinguished, s);
  }

  lemma ConversionsAgree(x: Option<Conversion>, y: Option<Conversion>)
    requires x.Some? ==> ConversionOk(x.value)
    requires y.Some? ==> ConversionOk(y.value)
    requires PutConversion(x) == PutConversion(y)
    ensures x == y
  {
    hide Frame, Fixed, Pow256;
    assert PutConversion(x)[0] == if x.Some? then 1 else 0;
    assert PutConversion(y)[0] == if y.Some? then 1 else 0;
    if x.Some? {
      var x3, y3 := Fixed(8, x.value.rateExp) + Fixed(8, x.value.rateGrace), Fixed(8, y.value.rateExp) + Fixed(8, y.value.rateGrace);
      var x2, y2 := Fixed(8, x.value.rateTime) + x3, Fixed(8, y.value.rateTime) + y3;
      assert PutConversion(x) == [1] + (Frame(x.value.rate) + x2) && PutConversion(y) == [1] + (Frame(y.value.rate) + y2);
      SameLengthEnds([1], Frame(x.value.rate) + x2, [1], Frame(y.value.rate) + y2);
      FrameEnds(x.value.rate, x2, y.value.rate, y2);
      SameLengthEnds(Fixed(8, x.value.rateTime), x3, Fixed(8, y.value.rateTime), y3);
      SameLengthEnds(Fixed(8, x.value.rateExp), Fixed(8, x.value.rateGrace), Fixed(8, y.value.rateExp), Fixed(8, y.value.rateGrace));
      FixedInjective(8, x.value.rateTime, y.value.rateTime);
      FixedInjective(8, x.value.rateExp, y.value.rateExp);
      FixedInjective(8, x.value.rateGrace, y.value.rateGrace);
    }
  }

  /** Two proposals have one terms preimage exactly when they agree on everything but CREDITED and the
      signature. */
  lemma TermsPreimageBinds(p: Proposal, q: Proposal)
    requires ProposalOk(p) && ProposalOk(q)
    ensures TermsPreimage(p) == TermsPreimage(q) <==> Terms(p) == Terms(q)
  {
    if TermsPreimage(p) == TermsPreimage(q) {
      PartsAgree(p, q);
    }
  }

  lemma PartsAgree(p: Proposal, q: Proposal)
    requires ProposalOk(p) && ProposalOk(q) && TermsPreimage(p) == TermsPreimage(q)
    ensures Terms(p) == Terms(q)
  {
    hide PutAll, PutLeg, PutConversion, Be32, EncodeUint, Pow256;
    var p4, q4 := PutLeg(p.leg) + PutConversion(p.conversion), PutLeg(q.leg) + PutConversion(q.conversion);
    var p3, q3 := PutAll(p.outputs, PutOutput) + p4, PutAll(q.outputs, PutOutput) + q4;
    var p2, q2 := Be32(|p.outputs|) + p3, Be32(|q.outputs|) + q3;
    assert TermsPreimage(p) == p.channel + (p.ckpt + p2) && TermsPreimage(q) == q.channel + (q.ckpt + q2);
    SameLengthEnds(p.channel, p.ckpt + p2, q.channel, q.ckpt + q2);
    SameLengthEnds(p.ckpt, p2, q.ckpt, q2);
    CountEnds(|p.outputs|, p3, |q.outputs|, q3);
    OutputsEnd(p.outputs, p4, q.outputs, q4);
    LegEnds(p.leg, PutConversion(p.conversion), q.leg, PutConversion(q.conversion));
    ConversionsAgree(p.conversion, q.conversion);
  }

  // ---- the chain-terms fingerprint ------------------------------------------------------------------

  datatype ChainTerms = ChainTerms(
    prepay: bool, seed: Octets, denom: Octets, baselineNet: Octets, finMeed: Octets, finDenom: Octets, thValue: nat, thTime: nat)

  predicate ChainTermsOk(t: ChainTerms) {
    && |t.seed| == 32 && |t.denom| < WORD && |t.baselineNet| < WORD && |t.finMeed| < WORD && |t.finDenom| < WORD
    && t.thValue < Pow256(16) && t.thTime < Pow256(8)
  }

  function ChainPreimage(t: ChainTerms): Octets {
    [if t.prepay then 0 else 1] + t.seed + Encode([t.denom, t.baselineNet, t.finMeed, t.finDenom])
    + Fixed(16, t.thValue) + Fixed(8, t.thTime)
  }

  lemma ChainTermsBind(t: ChainTerms, u: ChainTerms)
    requires ChainTermsOk(t) && ChainTermsOk(u) && ChainPreimage(t) == ChainPreimage(u)
    ensures t == u
  {
    hide Encode, Fixed, Pow256;
    var ft, fu := [t.denom, t.baselineNet, t.finMeed, t.finDenom], [u.denom, u.baselineNet, u.finMeed, u.finDenom];
    var t3, u3 := Fixed(16, t.thValue) + Fixed(8, t.thTime), Fixed(16, u.thValue) + Fixed(8, u.thTime);
    var t2, u2 := t.seed + (Encode(ft) + t3), u.seed + (Encode(fu) + u3);
    assert ChainPreimage(t) == [if t.prepay then 0 else 1] + t2 && ChainPreimage(u) == [if u.prepay then 0 else 1] + u2;
    SameLengthEnds([if t.prepay then 0 else 1], t2, [if u.prepay then 0 else 1], u2);
    assert [if t.prepay then 0 else 1][0] == [if u.prepay then 0 else 1][0];
    SameLengthEnds(t.seed, Encode(ft) + t3, u.seed, Encode(fu) + u3);
    ReadWhole(ft, t3);
    ReadWhole(fu, u3);
    assert ft[0] == fu[0] && ft[1] == fu[1] && ft[2] == fu[2] && ft[3] == fu[3];
    SameLengthEnds(Encode(ft), t3, Encode(fu), u3);
    SameLengthEnds(Fixed(16, t.thValue), Fixed(8, t.thTime), Fixed(16, u.thValue), Fixed(8, u.thTime));
    FixedInjective(16, t.thValue, u.thValue);
    FixedInjective(8, t.thTime, u.thTime);
  }

  // ---- decision keys and dispositions ------------------------------------------------------------------

  /** What one durable store decides: a funding reference, a disposition, a refund reservation, a refund's
      reference, and a channel's establishment. */
  datatype DecisionKey =
    | FundKey(ref: Octets)
    | DispKey(channel: Octets)
    | ReserveKey(channel: Octets, ckpt: Octets)
    | RefundRefKey(channel: Octets, ckpt: Octets)
    | OpenKey(channel: Octets)

  predicate KeyOk(k: DecisionKey) {
    match k
    case FundKey(_) => true
    case DispKey(c) => |c| == 8
    case ReserveKey(c, r) => |c| == 8 && |r| == 32
    case RefundRefKey(c, r) => |c| == 8 && |r| == 32
    case OpenKey(c) => |c| == 8
  }

  function Namespace(k: DecisionKey): (s: string)
    ensures Envelope.Printable(s)
  {
    match k
    case FundKey(_) => "fund:"
    case DispKey(_) => "disp:"
    case ReserveKey(_, _) => "rfnd:"
    case RefundRefKey(_, _) => "rref:"
    case OpenKey(_) => "chopen:"
  }

  function KeyBytes(k: DecisionKey): Octets {
    Envelope.Ascii(Namespace(k)) +
    match k
    case FundKey(r) => r
    case DispKey(c) => c
    case ReserveKey(c, r) => c + r
    case RefundRefKey(c, r) => c + r
    case OpenKey(c) => c
  }

  /** One store holds all five kinds: no two decisions share a key. */
  lemma KeysBind(a: DecisionKey, b: DecisionKey)
    requires KeyOk(a) && KeyOk(b) && KeyBytes(a) == KeyBytes(b)
    ensures a == b
  {
    var x, y := KeyBytes(a), KeyBytes(b);
    assert x[0] == Namespace(a)[0] as int && y[0] == Namespace(b)[0] as int;
    assert x[1] == Namespace(a)[1] as int && y[1] == Namespace(b)[1] as int;
    assert Namespace(a) == Namespace(b);
    var n := |Namespace(a)|;
    assert x[n..] == y[n..];
    match a
    case FundKey(r) => assert x[n..] == r && y[n..] == b.ref;
    case DispKey(c) => assert x[n..] == c && y[n..] == b.channel;
    case OpenKey(c) => assert x[n..] == c && y[n..] == b.channel;
    case ReserveKey(c, r) => assert x[n..] == c + r && y[n..] == b.channel + b.ckpt; SameLengthEnds(c, r, b.channel, b.ckpt);
    case RefundRefKey(c, r) => assert x[n..] == c + r && y[n..] == b.channel + b.ckpt; SameLengthEnds(c, r, b.channel, b.ckpt);
  }

  datatype Disposition =
    | PendingDisp
    | CommittedDisp(successor: Octets)
    | ReconciledDisp(draw: Option<(Octets, nat)>)

  predicate DispOk(d: Disposition) {
    match d
    case PendingDisp => true
    case CommittedDisp(s) => |s| == 8
    case ReconciledDisp(draw) => draw.Some? ==> |draw.value.0| == 32 && draw.value.1 < Pow256(16)
  }

  function EncodeDisp(d: Disposition): Octets {
    match d
    case CommittedDisp(s) => [1] + s
    case ReconciledDisp(None) => [2]
    case ReconciledDisp(Some((ckpt, p))) => [3] + ckpt + Fixed(16, p)
    case PendingDisp => []
  }

  function DecodeDisp(b: Octets): Option<Disposition> {
    if |b| == 0 then None
    else if b[0] == 1 && |b| == 9 then Some(CommittedDisp(b[1..9]))
    else if b[0] == 2 && |b| == 1 then Some(ReconciledDisp(None))
    else if b[0] == 3 && |b| == 49 then Some(ReconciledDisp(Some((b[1..33], Value(b[33..49])))))
    else None
  }

  /** Terminal dispositions survive the store exactly; the revocable one is never recorded; and nothing
      padded or truncated decodes. */
  lemma DispositionRoundTrip(d: Disposition, b: Octets)
    requires DispOk(d)
    ensures DecodeDisp(EncodeDisp(d)) == if d.PendingDisp? then None else Some(d)
    ensures DecodeDisp(b).Some? ==> DispOk(DecodeDisp(b).value) && EncodeDisp(DecodeDisp(b).value) == b
  {
    match d {
      case ReconciledDisp(Some((ckpt, p))) =>
        FixedValue(16, p);
        var e := EncodeDisp(d);
        assert e[1..33] == ckpt && e[33..49] == Fixed(16, p);
      case CommittedDisp(s) => assert EncodeDisp(d)[1..9] == s;
      case _ =>
    }
    if DecodeDisp(b).Some? {
      if b[0] == 3 {
        FixedBack(b[33..49]);
        ValueRange(b[33..49]);
        assert b == [3] + b[1..33] + b[33..49];
      } else if b[0] == 1 {
        assert b == [1] + b[1..9];
      } else {
        assert b == [2];
      }
    }
  }
}
