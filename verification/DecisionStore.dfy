/** The store object: `open` replays the log with a moving offset, `decide` appends before it answers. */
module DecisionStore {
  import opened Bytes
  import opened Disk
  import opened Framing
  import opened Options
  import Spec = DecisionLog
  import opened DecisionLog

  lemma ScanStep(b: Octets, off: nat, recs: seq<Fields>, n: nat)
    requires n > 0 && off <= |b| && Scan(b, n).0 == recs + Scan(b[off..], n).0 && Scan(b, n).1 == off + Scan(b[off..], n).1
    ensures var r := ReadRecord(b[off..], n);
            if r.None? then Scan(b, n) == (recs, off)
            else
              && off + r.value.1 <= |b|
              && Scan(b, n).0 == (recs + [r.value.0]) + Scan(b[off + r.value.1..], n).0
              && Scan(b, n).1 == off + r.value.1 + Scan(b[off + r.value.1..], n).1
  {
    var r := ReadRecord(b[off..], n);
    if r.None? {
      assert recs + [] == recs;
    } else {
      var rest := b[off..][r.value.1..];
      assert rest == b[off + r.value.1..];
      assert (recs + [r.value.0]) + Scan(rest, n).0 == recs + ([r.value.0] + Scan(rest, n).0);
    }
  }

  /** One (key, value) record at `off`; a torn value makes the whole record incomplete. */
  method ReadPair(b: Octets, off: nat) returns (key: Option<Octets>, val: Octets, off': nat)
    requires off <= |b|
    ensures var r := ReadRecord(b[off..], 2);
            if key.None? then r.None?
            else r.Some? && r.value.0 == [key.value, val] && off' == off + r.value.1 <= |b|
  {
    ReadNext(b[off..], 2);
    var f, mid := ReadFieldAt(b, off);
    if f.None? { return None, [], off; }
    assert b[off..][mid - off..] == b[mid..];
    ReadOne(b[mid..]);
    var g, end := ReadFieldAt(b, mid);
    if g.None? { return None, [], off; }
    assert [f.value] + [g.value] == [f.value, g.value];
    return f, g.value, end;
  }

  /** The whole log into a map; `valid` is the length of its complete records. */
  method Replay(b: Octets) returns (m: map<Octets, Octets>, valid: nat)
    ensures (m, valid) == Replayed(b)
  {
    hide ReadRecord, Scan;
    m, valid := map[], 0;
    var off := 0;
    ghost var recs: seq<Fields> := [];
    assert b[0..] == b && [] + Scan(b, 2).0 == Scan(b, 2).0;
    var key, val, end := ReadPair(b, off);
    while key.Some?
      invariant valid == off <= |b|
      invariant var r := ReadRecord(b[off..], 2);
                if key.None? then r.None? else r.Some? && r.value.0 == [key.value, val] && end == off + r.value.1 <= |b|
      invariant WellSized(recs) && m == FirstWins(recs)
      invariant Scan(b, 2).0 == recs + Scan(b[off..], 2).0 && Scan(b, 2).1 == off + Scan(b[off..], 2).1
      decreases |b| - off
    {
      ScanStep(b, off, recs, 2);
      FirstWinsPairs(recs, [key.value, val]);
      m := if key.value in m then m else m[key.value := val];
      recs := recs + [[key.value, val]];
      off, valid := end, end;
      key, val, end := ReadPair(b, off);
    }
    ScanStep(b, off, recs, 2);
  }

  ghost predicate WellSized(recs: seq<Fields>) { forall i :: 0 <= i < |recs| ==> |recs[i]| == 2 }

  lemma FirstWinsPairs(recs: seq<Fields>, fs: Fields)
    requires WellSized(recs) && |fs| == 2
    ensures WellSized(recs + [fs])
    ensures FirstWins(recs + [fs]) == if fs[0] in FirstWins(recs) then FirstWins(recs) else FirstWins(recs)[fs[0] := fs[1]]
  {
    assert (recs + [fs])[..|recs|] == recs;
  }

  class WalOneDecision {
    var decisions: map<Octets, Octets>
    var file: Octets
    var len: nat
    var cursor: nat
    var poisoned: bool

    ghost function Abs(): Store
      reads this
    {
      Store(decisions, file, len, cursor, poisoned)
    }

    constructor Open(onDisk: Octets)
      ensures Abs() == Spec.Open(onDisk)
    {
      var m, valid := Replay(onDisk);
      decisions, len, cursor, poisoned := m, valid, valid, false;
      file := if valid != |onDisk| then onDisk[..valid] else onDisk;
    }

    /** Fresh only after the record is written and synced; a failure records nothing, and poisons the
        store when the torn tail could not be removed. */
    method Decide(k: Octets, v: Octets, io: Io) returns (d: Decision)
      requires IoOk(io, RecordBytes(k, v))
      modifies this
      ensures (Abs(), d) == Spec.Decide(old(Abs()), k, v, io)
    {
      if poisoned { return Failed; }
      if k in decisions { return AlreadyDecided(decisions[k]); }
      var rec := AppendFrame([], k);
      rec := AppendFrame(rec, v);
      assert rec == RecordBytes(k, v) by { TwoFrames(k, v); }
      file := WriteAt(file, cursor, rec[..io.wrote]);
      cursor := cursor + io.wrote;
      if !io.ok {
        if io.truncated { file := Truncated(file, len); }
        if io.sought { cursor := len; }
        if !io.truncated || !io.sought { poisoned := true; }
        return Failed;
      }
      assert rec[..io.wrote] == rec;
      len := len + |rec|;
      decisions := decisions[k := v];
      return Fresh;
    }

    method Get(k: Octets) returns (v: Option<Octets>)
      ensures v == if k in decisions then Some(decisions[k]) else None
    {
      v := if k in decisions then Some(decisions[k]) else None;
    }
  }

  lemma TwoFrames(k: Octets, v: Octets)
    ensures [] + Frame(k) + Frame(v) == RecordBytes(k, v)
  {
    assert Pair(k, v)[1..] == [v] && [v][1..] == [];
    assert Encode([v]) == Frame(v) + [];
  }
}
