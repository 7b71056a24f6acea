/** The consumed-nonce store object: the log is replayed at open, or the open fails closed; a nonce is
    consumed by one synced append before the receipt is handed out. */
module NonceStore {
  import opened Bytes
  import opened Disk
  import opened Framing
  import opened Options
  import DecisionStore
  import Spec = NonceLog
  import opened NonceLog

  /** Three frames at `off`; a torn one makes the whole record incomplete. */
  method ReadTriple(b: Octets, off: nat) returns (fs: Option<Fields>, off': nat)
    requires off <= |b|
    ensures var r := ReadRecord(b[off..], 3);
            if fs.None? then r.None? else r.Some? && |fs.value| == 3 && r.value.0 == fs.value && off' == off + r.value.1 <= |b|
  {
    hide ReadRecord;
    ReadNext(b[off..], 3);
    var f, mid := ReadFieldAt(b, off);
    if f.None? { return None, off; }
    assert b[off..][mid - off..] == b[mid..];
    var g, h, end := DecisionStore.ReadPair(b, mid);
    if g.None? { return None, off; }
    assert [f.value] + [g.value, h] == [f.value, g.value, h];
    return Some([f.value, g.value, h]), end;
  }

  lemma {:induction false} CorruptPrefix(c: Codec, recs: seq<Fields>, more: seq<Fields>)
    requires Triples(recs) && Triples(more) && DecodeAll(c, recs).None?
    ensures Triples(recs + more) && DecodeAll(c, recs + more).None?
  {
    if |more| == 0 {
      assert recs + more == recs;
    } else {
      var n := |more| - 1;
      CorruptPrefix(c, recs, more[..n]);
      DecodeSnoc(c, recs + more[..n], more[n]);
      assert recs + more[..n] + [more[n]] == recs + more;
    }
  }

  datatype Replayed = Corrupt | Maps(byNonce: map<Octets, (NonceRecord, Receipt)>, used: set<Octets>, valid: nat)

  /** A torn tail ends the scan; a complete record that does not decode fails it. */
  method Replay(c: Codec, b: Octets) returns (r: Replayed)
    ensures r.Corrupt? <==> Spec.Open(c, b).None?
    ensures r.Maps? ==> var s := Spec.Open(c, b).value; s.byNonce == r.byNonce && s.usedRefs == r.used && s.len == r.valid
    ensures r.Maps? ==> r.valid <= |b|
  {
    hide ReadRecord, Scan, DecodeEntry, DecodeAll, ByNonce, UsedRefs, UsedRefKeys;
    var byNonce: map<Octets, (NonceRecord, Receipt)>, used: set<Octets>, off := map[], {}, 0;
    ghost var recs: seq<Fields>, es: seq<Entry> := [], [];
    StartFacts(c);
    ScanTriples(b);
    assert b[0..] == b && [] + Scan(b, 3).0 == Scan(b, 3).0;
    var fs, end := ReadTriple(b, off);
    while fs.Some?
      invariant off <= |b|
      invariant var r := ReadRecord(b[off..], 3);
                if fs.None? then r.None? else r.Some? && |fs.value| == 3 && r.value.0 == fs.value && end == off + r.value.1 <= |b|
      invariant Triples(recs) && DecodeAll(c, recs) == Some(es) && byNonce == ByNonce(es) && used == UsedRefs(es)
      invariant Scan(b, 3).0 == recs + Scan(b[off..], 3).0 && Scan(b, 3).1 == off + Scan(b[off..], 3).1
      decreases |b| - off
    {
      DecisionStore.ScanStep(b, off, recs, 3);
      DecodeSnoc(c, recs, fs.value);
      ReadsSomething(b[off..]);
      match DecodeEntry(c, fs.value) {
        case None =>
          ScanTriples(b[end..]);
          CorruptPrefix(c, recs + [fs.value], Scan(b[end..], 3).0);
          return Corrupt;
        case Some(e) =>
          IndexSnoc(es, e);
          used := used + UsedRefKeys(e.record.paymentRef);
          byNonce := if e.nonce in byNonce then byNonce else byNonce[e.nonce := (e.record, e.receipt)];
          recs, es := recs + [fs.value], es + [e];
          off := end;
          fs, end := ReadTriple(b, off);
      }
    }
    DecisionStore.ScanStep(b, off, recs, 3);
    return Maps(byNonce, used, off);
  }

  lemma StartFacts(c: Codec)
    ensures DecodeAll(c, []) == Some([]) && ByNonce([]) == map[] && UsedRefs([]) == {}
  {
  }

  lemma ReadsSomething(b: Octets)
    requires ReadRecord(b, 3).Some?
    ensures ReadRecord(b, 3).value.1 > 0
  {
  }

  class WalMerchantStore {
    const codec: Codec
    var byNonce: map<Octets, (NonceRecord, Receipt)>
    var usedRefs: set<Octets>
    var file: Octets
    var len: nat
    var cursor: nat
    var poisoned: bool

    ghost function Abs(): Store
      reads this
    {
      Store(byNonce, usedRefs, file, len, cursor, poisoned)
    }

    /** From what `Replay` read; a corrupt log yields no store. */
    constructor FromReplay(c: Codec, onDisk: Octets, maps: Replayed)
      requires maps.Maps? && maps.valid <= |onDisk|
      ensures codec == c
      ensures Abs() == Store(maps.byNonce, maps.used, onDisk[..maps.valid], maps.valid, maps.valid, false)
    {
      codec, byNonce, usedRefs := c, maps.byNonce, maps.used;
      file, len, cursor, poisoned := onDisk[..maps.valid], maps.valid, maps.valid, false;
    }

    static method Open(c: Codec, onDisk: Octets) returns (s: WalMerchantStore?)
      ensures s == null <==> Spec.Open(c, onDisk).None?
      ensures s != null ==> fresh(s) && s.codec == c && s.Abs() == Spec.Open(c, onDisk).value
    {
      var r := Replay(c, onDisk);
      if r.Corrupt? { return null; }
      s := new WalMerchantStore.FromReplay(c, onDisk, r);
    }

    method Peek(nonce: Octets, record: NonceRecord) returns (p: Peeked)
      ensures p == Spec.Peek(Abs(), nonce, record)
    {
      if nonce in byNonce {
        if byNonce[nonce].0 == record { return Stored(byNonce[nonce].1); }
        return Conflict;
      }
      if UsedRefKeys(record.paymentRef) * usedRefs != {} { return Conflict; }
      return FreshNonce;
    }

    /** `e.receipt` is the value the builder closure yields, called only for a fresh nonce. */
    method ConsumeNonce(e: Entry, io: Io) returns (r: Consumed)
      requires IoFor(codec, e, io)
      modifies this
      ensures (Abs(), r) == Spec.Consume(codec, old(Abs()), e, io)
    {
      if poisoned { return Refused(Unavailable); }
      if e.nonce in byNonce {
        if byNonce[e.nonce].0 == e.record { return Accepted(byNonce[e.nonce].1); }
        return Refused(StoreError.Replayed);
      }
      var refKeys := UsedRefKeys(e.record.paymentRef);
      if refKeys * usedRefs != {} { return Refused(StoreError.Replayed); }
      var rec := AppendFrame([], e.nonce);
      rec := AppendFrame(rec, EncodeRecord(e.record));
      rec := AppendFrame(rec, codec.enc(e.receipt));
      assert rec == EntryBytes(codec, e) by { ThreeFrames(e.nonce, EncodeRecord(e.record), codec.enc(e.receipt)); }
      file := WriteAt(file, cursor, rec[..io.wrote]);
      cursor := cursor + io.wrote;
      if !io.ok {
        if io.truncated { file := Truncated(file, len); }
        if io.sought { cursor := len; }
        if !io.truncated || !io.sought { poisoned := true; }
        return Refused(Unavailable);
      }
      assert rec[..io.wrote] == rec;
      len := len + |rec|;
      byNonce := byNonce[e.nonce := (e.record, e.receipt)];
      usedRefs := usedRefs + refKeys;
      return Accepted(e.receipt);
    }
  }

  lemma ThreeFrames(a: Octets, b: Octets, d: Octets)
    ensures [] + Frame(a) + Frame(b) + Frame(d) == Encode([a, b, d])
  {
    assert [a, b, d][1..] == [b, d] && [b, d][1..] == [d] && [d][1..] == [];
    assert Encode([d]) == Frame(d) + [];
    assert Encode([b, d]) == Frame(b) + Frame(d);
  }
}
