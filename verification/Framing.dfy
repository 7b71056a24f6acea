/** Length-prefixed frames on an append-only log: [u32 length, big-endian][bytes], a fixed number of
    frames to a record, and a scan that stops at the first incomplete record. */
module Framing {
  import opened Bytes
  import opened Options

  const WORD: nat := 0x1_0000_0000

  type Fields = seq<Octets>

  /** The low 32 bits of a length, big-endian: the cast truncates. */
  function Be32(n: nat): (b: Octets)
    ensures |b| == 4
  {
    [n / 0x100_0000 % 256, n / 0x1_0000 % 256, n / 0x100 % 256, n % 256]
  }

  function FromBe32(b: Octets): nat
    requires |b| == 4
  {
    b[0] as int * 0x100_0000 + b[1] as int * 0x1_0000 + b[2] as int * 0x100 + b[3] as int
  }

  lemma Be32Value(n: nat)
    ensures FromBe32(Be32(n)) == n % WORD
  {
    var q := n / 0x100;
    assert n == 0x100 * q + n % 0x100;
    var p := n / 0x1_0000;
    assert q == 0x100 * p + q % 0x100;
    var o := n / 0x100_0000;
    assert p == 0x100 * o + p % 0x100;
    var k := n / WORD;
    assert o == 0x100 * k + o % 0x100;
  }

  function Frame(d: Octets): Octets { Be32(|d|) + d }

  /** One frame at the front of `b`, and how many bytes it takes; None when less than a whole one remains. */
  function ReadField(b: Octets): (r: Option<(Octets, nat)>)
    ensures r.Some? ==> 4 <= r.value.1 <= |b|
  {
    if |b| < 4 then None
    else
      var end := 4 + FromBe32(b[..4]);
      if |b| < end then None else Some((b[4..end], end))
  }

  lemma ReadFrame(d: Octets, rest: Octets)
    requires |d| < WORD
    ensures ReadField(Frame(d) + rest) == Some((d, |Frame(d)|))
  {
    Be32Value(|d|);
    var b := Frame(d) + rest;
    assert b[..4] == Be32(|d|);
    assert b[4..4 + |d|] == d;
  }

  /** A frame is read back as written exactly when its length fits 32 bits. */
  lemma FrameRoundTripIff(d: Octets, rest: Octets)
    ensures ReadField(Frame(d) + rest) == Some((d, |Frame(d)|)) <==> |d| < WORD
  {
    if |d| < WORD {
      ReadFrame(d, rest);
    } else {
      Be32Value(|d|);
      var b := Frame(d) + rest;
      assert b[..4] == Be32(|d|);
      assert |d| % WORD < |d|;
    }
  }

  /** Nothing shorter than the whole frame reads as one. */
  lemma ReadTorn(d: Octets, k: nat)
    requires |d| < WORD && k < |Frame(d)|
    ensures ReadField(Frame(d)[..k]) == None
  {
    if k >= 4 {
      Be32Value(|d|);
      assert Frame(d)[..k][..4] == Be32(|d|);
    }
  }

  // ---- records -----------------------------------------------------------------------------------

  function Encode(fs: Fields): Octets {
    if |fs| == 0 then [] else Frame(fs[0]) + Encode(fs[1..])
  }

  predicate Fits(fs: Fields) { forall i :: 0 <= i < |fs| ==> |fs[i]| < WORD }

  function ReadRecord(b: Octets, n: nat): (r: Option<(Fields, nat)>)
    ensures r.Some? ==> |r.value.0| == n && 4 * n <= r.value.1 <= |b|
  {
    if n == 0 then Some(([], 0))
    else
      match ReadField(b)
      case None => None
      case Some((f, k)) =>
        match ReadRecord(b[k..], n - 1)
        case None => None
        case Some((fs, j)) => Some(([f] + fs, k + j))
  }

  lemma {:induction false} ReadWhole(fs: Fields, rest: Octets)
    requires Fits(fs)
    ensures ReadRecord(Encode(fs) + rest, |fs|) == Some((fs, |Encode(fs)|))
  {
    if |fs| > 0 {
      var b := Encode(fs) + rest;
      assert b == Frame(fs[0]) + (Encode(fs[1..]) + rest);
      ReadFrame(fs[0], Encode(fs[1..]) + rest);
      assert b[|Frame(fs[0])|..] == Encode(fs[1..]) + rest;
      ReadWhole(fs[1..], rest);
      assert [fs[0]] + fs[1..] == fs;
    }
  }

  /** A proper prefix of a record is never read as a record. */
  lemma {:induction false} ReadPartial(fs: Fields, k: nat)
    requires Fits(fs) && k < |Encode(fs)|
    ensures ReadRecord(Encode(fs)[..k], |fs|) == None
  {
    if |fs| > 0 {
      var f, rest := Frame(fs[0]), Encode(fs[1..]);
      var b := Encode(fs)[..k];
      if k < |f| {
        assert b == f[..k];
        ReadTorn(fs[0], k);
      } else {
        assert b == f + rest[..k - |f|];
        ReadFrame(fs[0], rest[..k - |f|]);
        assert b[|f|..] == rest[..k - |f|];
        ReadPartial(fs[1..], k - |f|);
      }
    }
  }

  lemma FromBe32Back(b: Octets)
    requires |b| == 4
    ensures Be32(FromBe32(b)) == b && FromBe32(b) < WORD
  {
    var x, y, z, w := b[0] as int, b[1] as int, b[2] as int, b[3] as int;
    var n := FromBe32(b);
    assert n == (x * 0x1_0000 + y * 0x100 + z) * 0x100 + w;
    assert n / 0x100 == x * 0x1_0000 + y * 0x100 + z && n % 0x100 == w;
    assert n / 0x1_0000 == x * 0x100 + y && n / 0x100_0000 == x;
  }

  lemma FieldBack(b: Octets)
    requires ReadField(b).Some?
    ensures var (f, k) := ReadField(b).value; |f| < WORD && Frame(f) == b[..k]
  {
    FromBe32Back(b[..4]);
    var (f, k) := ReadField(b).value;
    assert b[..k] == b[..4] + b[4..k];
  }

  /** Frames are canonical: what was read encodes to exactly the bytes it was read from. */
  lemma {:induction false} ReadBack(b: Octets, n: nat)
    requires ReadRecord(b, n).Some?
    ensures var (fs, k) := ReadRecord(b, n).value; Fits(fs) && Encode(fs) == b[..k]
  {
    if n > 0 {
      FieldBack(b);
      var (f, k) := ReadField(b).value;
      ReadBack(b[k..], n - 1);
      var (fs, j) := ReadRecord(b[k..], n - 1).value;
      assert ([f] + fs)[1..] == fs;
      assert b[..k + j] == b[..k] + b[k..][..j];
    }
  }

  // ---- logs --------------------------------------------------------------------------------------

  /** Every complete record of `n` frames from the front, and the length of what they take up. */
  function Scan(b: Octets, n: nat): (r: (seq<Fields>, nat))
    requires n > 0
    ensures r.1 <= |b|
    decreases |b|
  {
    match ReadRecord(b, n)
    case None => ([], 0)
    case Some((fs, k)) => var (rest, j) := Scan(b[k..], n); ([fs] + rest, k + j)
  }

  function EncodeAll(recs: seq<Fields>): Octets {
    if |recs| == 0 then [] else Encode(recs[0]) + EncodeAll(recs[1..])
  }

  predicate WellFramed(recs: seq<Fields>, n: nat) {
    forall i :: 0 <= i < |recs| ==> |recs[i]| == n && Fits(recs[i])
  }

  lemma {:induction false} EncodeAllSnoc(recs: seq<Fields>, fs: Fields)
    ensures EncodeAll(recs + [fs]) == EncodeAll(recs) + Encode(fs)
  {
    if |recs| == 0 {
      assert recs + [fs] == [fs];
      assert EncodeAll([fs]) == Encode(fs) + EncodeAll([fs][1..]);
    } else {
      assert (recs + [fs])[1..] == recs[1..] + [fs];
      EncodeAllSnoc(recs[1..], fs);
    }
  }

  /** Replaying a log of whole records followed by bytes that are no record gives exactly the records. */
  lemma {:induction false} ScanLog(recs: seq<Fields>, n: nat, tail: Octets)
    requires n > 0 && WellFramed(recs, n) && ReadRecord(tail, n) == None
    ensures Scan(EncodeAll(recs) + tail, n) == (recs, |EncodeAll(recs)|)
  {
    hide ReadRecord, Encode;
    if |recs| == 0 {
      assert EncodeAll(recs) + tail == tail;
    } else {
      RecordTakesSpace(recs[0], EncodeAll(recs[1..]) + tail, n);
      var b := EncodeAll(recs) + tail;
      assert b == Encode(recs[0]) + (EncodeAll(recs[1..]) + tail);
      ReadWhole(recs[0], EncodeAll(recs[1..]) + tail);
      assert b[|Encode(recs[0])|..] == EncodeAll(recs[1..]) + tail;
      ScanLog(recs[1..], n, tail);
      assert [recs[0]] + recs[1..] == recs;
    }
  }

  lemma RecordTakesSpace(fs: Fields, rest: Octets, n: nat)
    requires |fs| == n > 0 && Fits(fs)
    ensures |Encode(fs)| > 0
  {
  }

  /** A crash while one record is being appended: the scan finds the records before it, and that record
      only if it was written to its last byte. */
  lemma ScanAfterCrash(recs: seq<Fields>, fs: Fields, n: nat, k: nat)
    requires n > 0 && WellFramed(recs, n) && |fs| == n && Fits(fs) && k <= |Encode(fs)|
    ensures Scan(EncodeAll(recs) + Encode(fs)[..k], n)
            == if k < |Encode(fs)| then (recs, |EncodeAll(recs)|)
               else (recs + [fs], |EncodeAll(recs + [fs])|)
  {
    if k < |Encode(fs)| {
      ReadPartial(fs, k);
      ScanLog(recs, n, Encode(fs)[..k]);
    } else {
      EncodeAllSnoc(recs, fs);
      assert Encode(fs)[..k] == Encode(fs);
      assert ReadRecord([], n) == None;
      ScanLog(recs + [fs], n, []);
      assert EncodeAll(recs + [fs]) + [] == EncodeAll(recs + [fs]);
    }
  }

  lemma ReadOne(b: Octets)
    ensures var f := ReadField(b);
            ReadRecord(b, 1) == if f.None? then None else Some(([f.value.0], f.value.1))
  {
    var f := ReadField(b);
    if f.Some? {
      assert ReadRecord(b[f.value.1..], 0) == Some(([], 0));
      assert [f.value.0] + [] == [f.value.0];
    }
  }

  /** One more frame in front: a record is complete when every frame of it is. */
  lemma ReadNext(b: Octets, n: nat)
    requires n > 0
    ensures var f := ReadField(b);
            ReadRecord(b, n) ==
              if f.None? then None
              else
                var rest := ReadRecord(b[f.value.1..], n - 1);
                if rest.None? then None else Some(([f.value.0] + rest.value.0, f.value.1 + rest.value.1))
  {
  }

  // ---- the reading loop ---------------------------------------------------------------------------

  /** One frame at offset `off`, as the code reads it: bounds first, then the slice, then the new offset. */
  method ReadFieldAt(b: Octets, off: nat) returns (r: Option<Octets>, off': nat)
    requires off <= |b|
    ensures off' <= |b|
    ensures var f := ReadField(b[off..]);
            if f.None? then r == None && off' == off else r == Some(f.value.0) && off' == off + f.value.1
  {
    if off + 4 > |b| { return None, off; }
    assert b[off..][..4] == b[off..off + 4];
    var end := off + 4 + FromBe32(b[off..off + 4]);
    if end > |b| { return None, off; }
    assert b[off..][4..end - off] == b[off + 4..end];
    return Some(b[off + 4..end]), end;
  }

  /** Append one frame to a buffer. */
  method AppendFrame(out: Octets, d: Octets) returns (out': Octets)
    ensures out' == out + Frame(d)
  {
    out' := out + Be32(|d|);
    out' := out' + d;
    assert out + Be32(|d|) + d == out + (Be32(|d|) + d);
  }
}
