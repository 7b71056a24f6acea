/** The durable one-decision store: an append-only log of (key, value) records, each synced before the
    decision is reported, replayed at open, and poisoned when a failed append cannot be undone. */
module DecisionLog {
  import opened Bytes
  import opened Disk
  import opened Framing
  import opened Options

  datatype Decision = Fresh | AlreadyDecided(value: Octets) | Failed

  datatype Store = Store(decided: map<Octets, Octets>, file: Octets, len: nat, cursor: nat, poisoned: bool)

  function Pair(k: Octets, v: Octets): Fields { [k, v] }

  function RecordBytes(k: Octets, v: Octets): Octets { Encode(Pair(k, v)) }

  /** The first record of a key is the decision. */
  function FirstWins(recs: seq<Fields>): map<Octets, Octets>
    requires forall i :: 0 <= i < |recs| ==> |recs[i]| == 2
  {
    if |recs| == 0 then map[]
    else
      var m := FirstWins(recs[..|recs| - 1]);
      var fs := recs[|recs| - 1];
      if fs[0] in m then m else m[fs[0] := fs[1]]
  }

  lemma {:induction false} ScanPairs(b: Octets, n: nat)
    requires n > 0
    ensures forall i :: 0 <= i < |Scan(b, n).0| ==> |Scan(b, n).0[i]| == n
    decreases |b|
  {
    match ReadRecord(b, n)
    case None =>
    case Some((_, k)) => ScanPairs(b[k..], n);
  }

  function Replayed(b: Octets): (map<Octets, Octets>, nat) {
    var (recs, valid) := Scan(b, 2);
    ScanPairs(b, 2);
    (FirstWins(recs), valid)
  }

  /** Replay, drop the torn tail, and stand at the end. */
  function Open(file: Octets): Store {
    var (m, valid) := Replayed(file);
    Store(m, if valid == |file| then file else Truncated(file, valid), valid, valid, false)
  }

  function Decide(s: Store, k: Octets, v: Octets, io: Io): (Store, Decision)
    requires IoOk(io, RecordBytes(k, v))
  {
    if s.poisoned then (s, Failed)
    else if k in s.decided then (s, AlreadyDecided(s.decided[k]))
    else
      var rec := RecordBytes(k, v);
      var file := WriteAt(s.file, s.cursor, rec[..io.wrote]);
      if !io.ok then
        (s.(file := if io.truncated then Truncated(file, s.len) else file,
            cursor := if io.sought then s.len else s.cursor + io.wrote,
            poisoned := !io.truncated || !io.sought), Failed)
      else
        (s.(file := file, cursor := s.cursor + |rec|, len := s.len + |rec|, decided := s.decided[k := v]), Fresh)
  }

  // ---- what every store state is ------------------------------------------------------------------

  /** The whole records, and what a failed append may have left behind them. */
  ghost predicate Sound(s: Store, recs: seq<Fields>, tail: Octets) {
    && WellFramed(recs, 2)
    && s.file == EncodeAll(recs) + tail
    && s.len == |EncodeAll(recs)|
    && s.decided == FirstWins(recs)
    && (!s.poisoned ==> tail == [] && s.cursor == s.len)
    && (tail != [] ==> exists k, v :: TailOf(s, tail, k, v))
  }

  ghost predicate TailOf(s: Store, tail: Octets, k: Octets, v: Octets) {
    Fits(Pair(k, v)) && k !in s.decided && tail <= RecordBytes(k, v)
  }

  ghost predicate Valid(s: Store) { exists recs, tail :: Sound(s, recs, tail) }

  lemma FirstWinsSnoc(recs: seq<Fields>, fs: Fields)
    requires WellFramed(recs, 2) && |fs| == 2
    ensures FirstWins(recs + [fs]) == if fs[0] in FirstWins(recs) then FirstWins(recs) else FirstWins(recs)[fs[0] := fs[1]]
  {
    assert (recs + [fs])[..|recs|] == recs;
  }

  lemma OpenEmpty()
    ensures Valid(Open([])) && Open([]).decided == map[]
  {
    assert Scan([], 2) == ([], 0);
    assert Sound(Open([]), [], []);
  }

  /** Opening what a store left: the same decisions, plus the one that was being appended if and only
      if it had been written to its last byte. */
  lemma OpenAfter(recs: seq<Fields>, k: Octets, v: Octets, wrote: nat)
    requires WellFramed(recs, 2) && Fits(Pair(k, v)) && k !in FirstWins(recs) && wrote <= |RecordBytes(k, v)|
    ensures var m := FirstWins(recs);
            var s := Open(EncodeAll(recs) + RecordBytes(k, v)[..wrote]);
            Valid(s) && !s.poisoned && s.decided == if wrote < |RecordBytes(k, v)| then m else m[k := v]
  {
    hide Encode, ReadRecord, Scan, FirstWins;
    var file := EncodeAll(recs) + RecordBytes(k, v)[..wrote];
    ScanAfterCrash(recs, Pair(k, v), 2, wrote);
    var s := Open(file);
    if wrote < |RecordBytes(k, v)| {
      assert file[..|EncodeAll(recs)|] == EncodeAll(recs) + [];
      assert Sound(s, recs, []);
    } else {
      FirstWinsSnoc(recs, Pair(k, v));
      EncodeAllSnoc(recs, Pair(k, v));
      assert RecordBytes(k, v)[..wrote] == RecordBytes(k, v);
      assert file == EncodeAll(recs + [Pair(k, v)]) + [];
      assert Sound(s, recs + [Pair(k, v)], []);
    }
  }

  lemma OpenWhole(recs: seq<Fields>)
    requires WellFramed(recs, 2)
    ensures var s := Open(EncodeAll(recs)); Valid(s) && !s.poisoned && s.decided == FirstWins(recs)
  {
    hide Encode, EncodeAll, FirstWins;
    assert ReadRecord([], 2) == None;
    ScanLog(recs, 2, []);
    assert EncodeAll(recs) + [] == EncodeAll(recs);
    assert Sound(Open(EncodeAll(recs)), recs, []);
  }

  /** A map with the same decisions and at most one more. */
  predicate AtMostOneMore(m: map<Octets, Octets>, m': map<Octets, Octets>) {
    m' == m || exists k <- m' :: k !in m && m' == m[k := m'[k]]
  }

  lemma Reopened(s: Store)
    requires Valid(s)
    ensures var s' := Open(s.file);
            && Valid(s') && !s'.poisoned && AtMostOneMore(s.decided, s'.decided)
            && (!s.poisoned ==> s'.decided == s.decided)
  {
    hide Encode, EncodeAll, FirstWins, Open;
    var recs, tail :| Sound(s, recs, tail);
    if tail == [] {
      assert s.file == EncodeAll(recs);
      OpenWhole(recs);
    } else {
      var k, v :| TailOf(s, tail, k, v);
      assert tail == RecordBytes(k, v)[..|tail|];
      OpenAfter(recs, k, v, |tail|);
    }
  }

  lemma {:induction false} EncodeAppend(recs: seq<Fields>, fs: Fields)
    requires WellFramed(recs, 2) && |fs| == 2 && Fits(fs)
    ensures WellFramed(recs + [fs], 2) && EncodeAll(recs + [fs]) == EncodeAll(recs) + Encode(fs)
  {
    EncodeAllSnoc(recs, fs);
  }

  lemma DecideValid(s: Store, k: Octets, v: Octets, io: Io)
    requires Valid(s) && Fits(Pair(k, v)) && IoOk(io, RecordBytes(k, v))
    ensures Valid(Decide(s, k, v, io).0)
  {
    hide Encode, EncodeAll, FirstWins;
    var recs, tail :| Sound(s, recs, tail);
    if !s.poisoned && k !in s.decided {
      var s' := Decide(s, k, v, io).0;
      var rec := RecordBytes(k, v);
      assert s.file == EncodeAll(recs);
      assert WriteAt(s.file, s.cursor, rec[..io.wrote]) == EncodeAll(recs) + rec[..io.wrote];
      if io.ok {
        EncodeAppend(recs, Pair(k, v));
        FirstWinsSnoc(recs, Pair(k, v));
        assert rec[..io.wrote] == rec;
        assert s'.file == EncodeAll(recs + [Pair(k, v)]) + [];
        assert Sound(s', recs + [Pair(k, v)], []);
      } else if io.truncated {
        assert (EncodeAll(recs) + rec[..io.wrote])[..s.len] == EncodeAll(recs) + [];
        assert Sound(s', recs, []);
      } else {
        assert TailOf(s', rec[..io.wrote], k, v);
        assert Sound(s', recs, rec[..io.wrote]);
      }
    }
  }

  // ---- histories ------------------------------------------------------------------------------------

  /** A call that returned, a crash in the middle of an append after `wrote` bytes, or a restart. */
  datatype Event =
    | Call(k: Octets, v: Octets, io: Io)
    | CrashIn(k: Octets, v: Octets, wrote: nat)
    | Restart

  predicate EventOk(e: Event) {
    match e
    case Call(k, v, io) => Fits(Pair(k, v)) && IoOk(io, RecordBytes(k, v))
    case CrashIn(k, v, wrote) => Fits(Pair(k, v)) && wrote <= |RecordBytes(k, v)|
    case Restart => true
  }

  function Step(s: Store, e: Event): Store
    requires EventOk(e)
  {
    match e
    case Call(k, v, io) => Decide(s, k, v, io).0
    case CrashIn(k, v, wrote) =>
      Open(if s.poisoned || k in s.decided then s.file else WriteAt(s.file, s.cursor, RecordBytes(k, v)[..wrote]))
    case Restart => Open(s.file)
  }

  predicate HistoryOk(h: seq<Event>) { forall i :: 0 <= i < |h| ==> EventOk(h[i]) }

  function After(h: seq<Event>): Store
    requires HistoryOk(h)
  {
    if |h| == 0 then Open([]) else Step(After(h[..|h| - 1]), h[|h| - 1])
  }

  /** The answer the `i`-th event's caller received. */
  function Answer(h: seq<Event>, i: nat): Option<Decision>
    requires HistoryOk(h) && i < |h|
  {
    if h[i].Call? then Some(Decide(After(h[..i]), h[i].k, h[i].v, h[i].io).1) else None
  }

  /** A failed append, or a crash during one. */
  predicate Fault(s: Store, e: Event)
    requires EventOk(e)
  {
    match e
    case Call(k, v, io) => !s.poisoned && k !in s.decided && !io.ok
    case CrashIn(k, _, _) => !s.poisoned && k !in s.decided
    case Restart => false
  }

  predicate Extends(m: map<Octets, Octets>, m': map<Octets, Octets>) {
    forall k <- m :: k in m' && m'[k] == m[k]
  }

  /** No event loses or changes a decision. */
  lemma StepKeeps(s: Store, e: Event)
    requires Valid(s) && EventOk(e)
    ensures var s' := Step(s, e);
            && Valid(s') && Extends(s.decided, s'.decided)
            && (if e.Call? && Decide(s, e.k, e.v, e.io).1.Fresh?
                then e.k !in s.decided && s'.decided == s.decided[e.k := e.v]
                else AtMostOneMore(s.decided, s'.decided))
  {
    hide Encode, EncodeAll, FirstWins, Open, Valid;
    match e
    case Call(k, v, io) => DecideValid(s, k, v, io);
    case Restart => Reopened(s);
    case CrashIn(k, v, wrote) =>
      if s.poisoned || k in s.decided {
        Reopened(s);
      } else {
        CrashKeeps(s, k, v, wrote);
      }
  }

  lemma CrashKeeps(s: Store, k: Octets, v: Octets, wrote: nat)
    requires Valid(s) && !s.poisoned && k !in s.decided && Fits(Pair(k, v)) && wrote <= |RecordBytes(k, v)|
    ensures var s' := Open(WriteAt(s.file, s.cursor, RecordBytes(k, v)[..wrote]));
            && Valid(s') && !s'.poisoned
            && s'.decided == if wrote < |RecordBytes(k, v)| then s.decided else s.decided[k := v]
  {
    hide Encode, EncodeAll, FirstWins, Open;
    var recs, tail :| Sound(s, recs, tail);
    assert s.file == EncodeAll(recs);
    assert WriteAt(s.file, s.cursor, RecordBytes(k, v)[..wrote]) == EncodeAll(recs) + RecordBytes(k, v)[..wrote];
    OpenAfter(recs, k, v, wrote);
  }

  lemma {:induction false} AfterValid(h: seq<Event>)
    requires HistoryOk(h)
    ensures Valid(After(h))
  {
    if |h| == 0 {
      OpenEmpty();
    } else {
      AfterValid(h[..|h| - 1]);
      StepKeeps(After(h[..|h| - 1]), h[|h| - 1]);
    }
  }

  /** Decisions made by event `i` are there after every later event `j`. */
  lemma {:induction false} DecisionsLast(h: seq<Event>, i: nat, j: nat)
    requires HistoryOk(h) && i <= j <= |h|
    ensures Extends(After(h[..i]).decided, After(h[..j]).decided)
    decreases j
  {
    hide Step, Valid;
    if i < j {
      DecisionsLast(h, i, j - 1);
      AfterValid(h[..j - 1]);
      StepKeeps(After(h[..j - 1]), h[j - 1]);
      assert h[..j][..j - 1] == h[..j - 1];
    }
  }

  /** Exactly once: over any history of calls, failed appends, poisonings, crashes and reopenings, a key
      is reported Fresh at most once, and from the first time any value is reported for it, Fresh or
      AlreadyDecided, every later answer for that key is that value or a failure. */
  lemma ExactlyOnce(h: seq<Event>, i: nat, j: nat)
    requires HistoryOk(h) && i < j < |h| && h[i].Call? && h[j].Call? && h[i].k == h[j].k
    requires Answer(h, i) != Some(Failed)
    ensures var v := if Answer(h, i) == Some(Fresh) then h[i].v else Answer(h, i).value.value;
            Answer(h, j) == Some(AlreadyDecided(v)) || Answer(h, j) == Some(Failed)
  {
    assert h[..i + 1][..i] == h[..i];
    AfterValid(h[..i]);
    StepKeeps(After(h[..i]), h[i]);
    DecisionsLast(h, i + 1, j);
  }

  // ---- what a reopened store holds ------------------------------------------------------------------

  /** The decisions reported Fresh. */
  function Acked(h: seq<Event>): map<Octets, Octets>
    requires HistoryOk(h)
  {
    if |h| == 0 then map[]
    else
      var n := |h| - 1;
      assert HistoryOk(h[..n]);
      if Answer(h, n) == Some(Fresh) then Acked(h[..n])[h[n].k := h[n].v] else Acked(h[..n])
  }

  function Faults(h: seq<Event>): nat
    requires HistoryOk(h)
  {
    if |h| == 0 then 0
    else Faults(h[..|h| - 1]) + if Fault(After(h[..|h| - 1]), h[|h| - 1]) then 1 else 0
  }

  /** Faults that may still surface: a poisoned store is the only one whose file holds an unreported
      record. */
  function Latent(s: Store): nat { if s.poisoned then 1 else 0 }

  /** Every acknowledged decision is in the store, and what else it holds is at most one unacknowledged
      record per fault. */
  lemma {:induction false} OneStrayPerFault(h: seq<Event>)
    requires HistoryOk(h)
    ensures Extends(Acked(h), After(h).decided)
    ensures |After(h).decided| + Latent(After(h)) <= |Acked(h)| + Faults(h)
  {
    hide Open, Encode, EncodeAll, FirstWins, Valid;
    if |h| == 0 {
      OpenEmpty();
      OpensClean([]);
    } else {
      var n := |h| - 1;
      var s, e := After(h[..n]), h[n];
      OneStrayPerFault(h[..n]);
      AfterValid(h[..n]);
      StepKeeps(s, e);
      assert h[..n + 1] == h;
      match e
      case Call(k, v, io) =>
      case Restart => Reopened(s);
      case CrashIn(k, v, wrote) =>
        if s.poisoned || k in s.decided { Reopened(s); } else { CrashKeeps(s, k, v, wrote); }
    }
  }

  lemma OpensClean(file: Octets)
    ensures !Open(file).poisoned
  {
  }
}
