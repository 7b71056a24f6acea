/** The durable consumed-nonce store (F4.4): one atomic record per consumption, and a used-reference
    index that is derived from the same records. */
module NonceLog {
  import opened Bytes
  import opened Disk
  import opened Framing
  import opened Options

  const DELIMITER: Byte := 0x7C

  datatype NonceRecord = NonceRecord(paymentRef: Octets, idem: Octets, resource: Octets, quoteSig: Octets)
  datatype Receipt = Receipt(nonce: Octets, idem: Octets, resource: Octets, body: Octets)
  datatype Entry = Entry(nonce: Octets, record: NonceRecord, receipt: Receipt)

  /** The receipt's signed JSON form, its verified parse, and the test that bytes are UTF-8. */
  datatype Codec = Codec(enc: Receipt -> Octets, dec: Octets -> Option<Receipt>, text: Octets -> bool)

  ghost predicate Faithful(c: Codec) { forall r :: c.dec(c.enc(r)) == Some(r) }

  // ---- used references ------------------------------------------------------------------------

  function AfterLastDelimiter(p: Octets): Option<Octets> {
    if |p| == 0 then None
    else if p[|p| - 1] == DELIMITER then Some([])
    else
      match AfterLastDelimiter(p[..|p| - 1])
      case None => None
      case Some(s) => Some(s + [p[|p| - 1]])
  }

  function UsedRefKeys(p: Octets): set<Octets> {
    {p} + match AfterLastDelimiter(p) case None => {} case Some(s) => {s}
  }

  /** For a combined reference `meed|net` whose parts are free of the delimiter the keys are the whole
      and the net reference. */
  lemma {:induction false} CombinedKeys(meed: Octets, net: Octets)
    requires DELIMITER !in net
    ensures UsedRefKeys(meed + [DELIMITER] + net) == {meed + [DELIMITER] + net, net}
  {
    NetPart(meed, net);
  }

  lemma {:induction false} NetPart(meed: Octets, net: Octets)
    requires DELIMITER !in net
    ensures AfterLastDelimiter(meed + [DELIMITER] + net) == Some(net)
  {
    var p := meed + [DELIMITER] + net;
    if |net| == 0 {
      assert p == meed + [DELIMITER];
    } else {
      var n := |net| - 1;
      assert p[..|p| - 1] == meed + [DELIMITER] + net[..n] && p[|p| - 1] == net[n];
      NetPart(meed, net[..n]);
      assert net[..n] + [net[n]] == net;
    }
  }

  // ---- record bytes -----------------------------------------------------------------------------

  function EncodeRecord(r: NonceRecord): Octets { Encode([r.paymentRef, r.idem, r.resource]) + r.quoteSig }

  function DecodeRecord(c: Codec, b: Octets): Option<NonceRecord> {
    match ReadRecord(b, 3)
    case None => None
    case Some((fs, k)) =>
      if !c.text(fs[0]) || !c.text(fs[2]) || k + 64 != |b| then None
      else Some(NonceRecord(fs[0], fs[1], fs[2], b[k..]))
  }

  predicate RecordOk(c: Codec, r: NonceRecord) {
    && |r.paymentRef| < WORD && |r.idem| < WORD && |r.resource| < WORD && |r.quoteSig| == 64
    && c.text(r.paymentRef) && c.text(r.resource)
  }

  lemma RecordRoundTrip(c: Codec, r: NonceRecord)
    requires RecordOk(c, r)
    ensures DecodeRecord(c, EncodeRecord(r)) == Some(r)
  {
    var fs := [r.paymentRef, r.idem, r.resource];
    ReadWhole(fs, r.quoteSig);
    assert EncodeRecord(r)[|Encode(fs)|..] == r.quoteSig;
  }

  /** Only the encoding of a record decodes to it: no trailing byte and no second form is accepted. */
  lemma RecordCanonical(c: Codec, b: Octets)
    requires DecodeRecord(c, b).Some?
    ensures RecordOk(c, DecodeRecord(c, b).value) && EncodeRecord(DecodeRecord(c, b).value) == b
  {
    var r := DecodeRecord(c, b).value;
    var (fs, k) := ReadRecord(b, 3).value;
    ReadBack(b, 3);
    assert fs == [r.paymentRef, r.idem, r.resource];
    assert b == b[..k] + b[k..];
  }

  // ---- entries ------------------------------------------------------------------------------------

  function FieldsOf(c: Codec, e: Entry): Fields { [e.nonce, EncodeRecord(e.record), c.enc(e.receipt)] }

  predicate Matches(e: Entry) {
    e.receipt.nonce == e.nonce && e.receipt.idem == e.record.idem && e.receipt.resource == e.record.resource
  }

  predicate EntryOk(c: Codec, e: Entry) {
    && |e.nonce| == 32 && RecordOk(c, e.record) && Matches(e)
    && Fits(FieldsOf(c, e))
  }

  /** A complete record whose payload does not parse, or whose receipt is for something else, is
      corruption. */
  function DecodeEntry(c: Codec, fs: Fields): Option<Entry>
    requires |fs| == 3
  {
    if |fs[0]| != 32 then None
    else
      match (DecodeRecord(c, fs[1]), c.dec(fs[2]))
      case (Some(record), Some(receipt)) =>
        var e := Entry(fs[0], record, receipt);
        if Matches(e) then Some(e) else None
      case _ => None
  }

  lemma EntryRoundTrip(c: Codec, e: Entry)
    requires Faithful(c) && EntryOk(c, e)
    ensures DecodeEntry(c, FieldsOf(c, e)) == Some(e)
  {
    RecordRoundTrip(c, e.record);
  }

  function DecodeAll(c: Codec, recs: seq<Fields>): Option<seq<Entry>>
    requires forall i :: 0 <= i < |recs| ==> |recs[i]| == 3
  {
    if |recs| == 0 then Some([])
    else
      match (DecodeAll(c, recs[..|recs| - 1]), DecodeEntry(c, recs[|recs| - 1]))
      case (Some(es), Some(e)) => Some(es + [e])
      case _ => None
  }

  function ByNonce(es: seq<Entry>): map<Octets, (NonceRecord, Receipt)> {
    if |es| == 0 then map[]
    else
      var m, e := ByNonce(es[..|es| - 1]), es[|es| - 1];
      if e.nonce in m then m else m[e.nonce := (e.record, e.receipt)]
  }

  function UsedRefs(es: seq<Entry>): set<Octets> {
    if |es| == 0 then {} else UsedRefs(es[..|es| - 1]) + UsedRefKeys(es[|es| - 1].record.paymentRef)
  }

  // ---- the store ------------------------------------------------------------------------------------

  datatype Store = Store(
    byNonce: map<Octets, (NonceRecord, Receipt)>, usedRefs: set<Octets>,
    file: Octets, len: nat, cursor: nat, poisoned: bool)

  datatype StoreError = Replayed | Unavailable
  datatype Consumed = Accepted(receipt: Receipt) | Refused(e: StoreError)
  datatype Peeked = FreshNonce | Stored(receipt: Receipt) | Conflict

  lemma {:induction false} ScanTriples(b: Octets)
    ensures forall i :: 0 <= i < |Scan(b, 3).0| ==> |Scan(b, 3).0[i]| == 3
    decreases |b|
  {
    var r := ReadRecord(b, 3);
    if r.Some? { ScanTriples(b[r.value.1..]); }
  }

  /** None: the log is corrupt and the store refuses to open. */
  function Open(c: Codec, file: Octets): Option<Store> {
    var (recs, valid) := Scan(file, 3);
    ScanTriples(file);
    match DecodeAll(c, recs)
    case None => None
    case Some(es) => Some(Store(ByNonce(es), UsedRefs(es), file[..valid], valid, valid, false))
  }

  function Peek(s: Store, nonce: Octets, record: NonceRecord): Peeked {
    if nonce in s.byNonce then
      if s.byNonce[nonce].0 == record then Stored(s.byNonce[nonce].1) else Conflict
    else if UsedRefKeys(record.paymentRef) * s.usedRefs != {} then Conflict
    else FreshNonce
  }

  function EntryBytes(c: Codec, e: Entry): Octets { Encode(FieldsOf(c, e)) }

  /** An outcome the disk can have for this entry's append. */
  predicate IoFor(c: Codec, e: Entry, io: Io) { IoOk(io, EntryBytes(c, e)) }

  /** Would this call append? */
  predicate Appends(s: Store, e: Entry) {
    !s.poisoned && e.nonce !in s.byNonce && UsedRefKeys(e.record.paymentRef) * s.usedRefs == {}
  }

  /** `e.receipt` is what the caller's builder returns; it is stored only if the nonce is fresh. */
  function Consume(c: Codec, s: Store, e: Entry, io: Io): (Store, Consumed)
    requires IoFor(c, e, io)
  {
    if s.poisoned then (s, Refused(Unavailable))
    else if e.nonce in s.byNonce then
      (s, if s.byNonce[e.nonce].0 == e.record then Accepted(s.byNonce[e.nonce].1) else Refused(Replayed))
    else if UsedRefKeys(e.record.paymentRef) * s.usedRefs != {} then (s, Refused(Replayed))
    else
      var rec := EntryBytes(c, e);
      var file := WriteAt(s.file, s.cursor, rec[..io.wrote]);
      if !io.ok then
        (s.(file := if io.truncated then Truncated(file, s.len) else file,
            cursor := if io.sought then s.len else s.cursor + io.wrote,
            poisoned := !io.truncated || !io.sought), Refused(Unavailable))
      else
        (s.(byNonce := s.byNonce[e.nonce := (e.record, e.receipt)],
            usedRefs := s.usedRefs + UsedRefKeys(e.record.paymentRef),
            file := file, cursor := s.cursor + |rec|, len := s.len + |rec|), Accepted(e.receipt))
  }

  // ---- invariant --------------------------------------------------------------------------------------

  function AllFields(c: Codec, es: seq<Entry>): (recs: seq<Fields>)
    ensures |recs| == |es|
  {
    seq(|es|, i requires 0 <= i < |es| => FieldsOf(c, es[i]))
  }

  /** Entries as a conforming writer appends them: each against the index of the ones before. */
  predicate Written(c: Codec, es: seq<Entry>) {
    |es| == 0 ||
    var init, e := es[..|es| - 1], es[|es| - 1];
    Written(c, init) && EntryOk(c, e) && e.nonce !in ByNonce(init) && UsedRefKeys(e.record.paymentRef) * UsedRefs(init) == {}
  }

  ghost predicate Sound(c: Codec, s: Store, es: seq<Entry>, tail: Octets) {
    && Written(c, es)
    && s.byNonce == ByNonce(es) && s.usedRefs == UsedRefs(es)
    && s.file == EncodeAll(AllFields(c, es)) + tail && s.len == |EncodeAll(AllFields(c, es))|
    && (!s.poisoned ==> tail == [] && s.cursor == s.len)
    && (tail != [] ==> exists e :: TailOf(c, es, tail, e))
  }

  ghost predicate TailOf(c: Codec, es: seq<Entry>, tail: Octets, e: Entry) {
    Written(c, es + [e]) && tail <= EntryBytes(c, e)
  }

  ghost predicate Valid(c: Codec, s: Store) { exists es, tail :: Sound(c, s, es, tail) }

  lemma IndexSnoc(es: seq<Entry>, e: Entry)
    ensures ByNonce(es + [e]) == if e.nonce in ByNonce(es) then ByNonce(es) else ByNonce(es)[e.nonce := (e.record, e.receipt)]
    ensures UsedRefs(es + [e]) == UsedRefs(es) + UsedRefKeys(e.record.paymentRef)
  {
    assert (es + [e])[..|es|] == es;
  }

  lemma WrittenSnoc(c: Codec, es: seq<Entry>, e: Entry)
    ensures Written(c, es + [e]) <==>
              Written(c, es) && EntryOk(c, e) && e.nonce !in ByNonce(es) && UsedRefKeys(e.record.paymentRef) * UsedRefs(es) == {}
    ensures ByNonce(es + [e]) == if e.nonce in ByNonce(es) then ByNonce(es) else ByNonce(es)[e.nonce := (e.record, e.receipt)]
    ensures UsedRefs(es + [e]) == UsedRefs(es) + UsedRefKeys(e.record.paymentRef)
  {
    IndexSnoc(es, e);
    assert (es + [e])[..|es|] == es;
  }

  lemma AllFieldsSnoc(c: Codec, es: seq<Entry>)
    requires |es| > 0
    ensures AllFields(c, es) == AllFields(c, es[..|es| - 1]) + [FieldsOf(c, es[|es| - 1])]
  {
    hide FieldsOf;
  }

  lemma {:induction false} WrittenFramed(c: Codec, es: seq<Entry>)
    requires Written(c, es)
    ensures WellFramed(AllFields(c, es), 3)
  {
    if |es| > 0 {
      var n := |es| - 1;
      WrittenFramed(c, es[..n]);
      AllFieldsSnoc(c, es);
    }
  }

  ghost predicate Triples(recs: seq<Fields>) { forall i :: 0 <= i < |recs| ==> |recs[i]| == 3 }

  lemma DecodeSnoc(c: Codec, recs: seq<Fields>, fs: Fields)
    requires Triples(recs) && |fs| == 3
    ensures Triples(recs + [fs])
    ensures DecodeAll(c, recs + [fs]) ==
              if DecodeAll(c, recs).Some? && DecodeEntry(c, fs).Some?
              then Some(DecodeAll(c, recs).value + [DecodeEntry(c, fs).value]) else None
  {
    assert (recs + [fs])[..|recs|] == recs;
  }

  lemma WrittenLast(c: Codec, es: seq<Entry>)
    requires Written(c, es) && |es| > 0
    ensures Written(c, es[..|es| - 1]) && EntryOk(c, es[|es| - 1])
  {
  }

  lemma {:induction false} DecodeWritten(c: Codec, es: seq<Entry>)
    requires Faithful(c) && Written(c, es)
    ensures DecodeAll(c, AllFields(c, es)) == Some(es)
  {
    if |es| > 0 {
      hide EntryOk, DecodeEntry, FieldsOf, ByNonce, UsedRefs, UsedRefKeys, Faithful, DecodeAll, Written;
      var n := |es| - 1;
      WrittenLast(c, es);
      DecodeWritten(c, es[..n]);
      EntryRoundTrip(c, es[n]);
      AllFieldsSnoc(c, es);
      DecodeSnoc(c, AllFields(c, es[..n]), FieldsOf(c, es[n]));
      assert es[..n] + [es[n]] == es;
    }
  }

  lemma OpenWritten(c: Codec, es: seq<Entry>, tail: Octets)
    requires Faithful(c) && Written(c, es) && ReadRecord(tail, 3) == None
    ensures var o := Open(c, EncodeAll(AllFields(c, es)) + tail);
            o.Some? && !o.value.poisoned && Sound(c, o.value, es, [])
  {
    hide ReadRecord, EncodeAll, Encode, ByNonce, UsedRefs, Written;
    WrittenFramed(c, es);
    ScanLog(AllFields(c, es), 3, tail);
    DecodeWritten(c, es);
    var b := EncodeAll(AllFields(c, es));
    assert (b + tail)[..|b|] == b + [];
  }

  /** Reopening never finds a conforming log corrupt; it holds the consumptions there were, plus the one
      being appended if and only if it was written to its last byte. */
  lemma OpenAfter(c: Codec, es: seq<Entry>, e: Entry, wrote: nat)
    requires Faithful(c) && Written(c, es + [e]) && wrote <= |EntryBytes(c, e)|
    ensures var o := Open(c, EncodeAll(AllFields(c, es)) + EntryBytes(c, e)[..wrote]);
            o.Some? && !o.value.poisoned && Sound(c, o.value, if wrote < |EntryBytes(c, e)| then es else es + [e], [])
  {
    hide ReadRecord, EncodeAll, Encode, ByNonce, UsedRefs, Written;
    WrittenSnoc(c, es, e);
    if wrote < |EntryBytes(c, e)| {
      ReadPartial(FieldsOf(c, e), wrote);
      OpenWritten(c, es, EntryBytes(c, e)[..wrote]);
    } else {
      assert EntryBytes(c, e)[..wrote] == EntryBytes(c, e);
      assert AllFields(c, es + [e]) == AllFields(c, es) + [FieldsOf(c, e)];
      EncodeAllSnoc(AllFields(c, es), FieldsOf(c, e));
      assert EncodeAll(AllFields(c, es + [e])) + [] == EncodeAll(AllFields(c, es)) + EntryBytes(c, e);
      NothingReads();
      OpenWritten(c, es + [e], []);
    }
  }

  lemma NothingReads()
    ensures ReadRecord([], 3) == None
  {
  }

  lemma OpenEmpty(c: Codec)
    requires Faithful(c)
    ensures Open(c, []).Some? && Sound(c, Open(c, []).value, [], [])
  {
    NothingReads();
    assert AllFields(c, []) == [] && EncodeAll([]) + [] == [];
    OpenWritten(c, [], []);
  }

  // ---- exactly-once over histories ---------------------------------------------------------------------

  predicate Keeps(m: map<Octets, (NonceRecord, Receipt)>, m': map<Octets, (NonceRecord, Receipt)>) {
    forall n <- m :: n in m' && m'[n] == m[n]
  }

  /** A consumption adds its entry, or leaves it behind as a torn tail, or changes nothing. */
  lemma ConsumeSound(c: Codec, s: Store, es: seq<Entry>, tail: Octets, e: Entry, io: Io) returns (es': seq<Entry>, tail': Octets)
    requires Sound(c, s, es, tail) && EntryOk(c, e) && IoFor(c, e, io)
    ensures Sound(c, Consume(c, s, e, io).0, es', tail')
    ensures es' == es || es' == es + [e]
    ensures tail' == [] || (es' == es && (tail' == tail || TailOf(c, es, tail', e)))
  {
    hide ReadRecord, EncodeAll, Encode, ByNonce, UsedRefs, Written, UsedRefKeys, EntryOk;
    es', tail' := es, tail;
    if Appends(s, e) {
      var s' := Consume(c, s, e, io).0;
      var rec, log := EntryBytes(c, e), EncodeAll(AllFields(c, es));
      WrittenSnoc(c, es, e);
      assert s.file == log;
      assert WriteAt(s.file, s.cursor, rec[..io.wrote]) == log + rec[..io.wrote];
      if io.ok {
        assert rec[..io.wrote] == rec;
        assert AllFields(c, es + [e]) == AllFields(c, es) + [FieldsOf(c, e)];
        EncodeAllSnoc(AllFields(c, es), FieldsOf(c, e));
        assert s'.file == EncodeAll(AllFields(c, es + [e])) + [];
        es', tail' := es + [e], [];
      } else if io.truncated {
        assert (log + rec[..io.wrote])[..s.len] == log + [];
        tail' := [];
      } else {
        assert TailOf(c, es, rec[..io.wrote], e);
        tail' := rec[..io.wrote];
      }
    }
  }

  /** `t` is the entry whose append left the tail, if there is one. */
  lemma ReopenSound(c: Codec, s: Store, es: seq<Entry>, tail: Octets, t: Entry) returns (es': seq<Entry>)
    requires Faithful(c) && Sound(c, s, es, tail) && (tail != [] ==> TailOf(c, es, tail, t))
    ensures Open(c, s.file).Some? && Sound(c, Open(c, s.file).value, es', [])
    ensures es' == es || (tail != [] && es' == es + [t])
  {
    hide ReadRecord, EncodeAll, Encode, ByNonce, UsedRefs, Written, Open;
    if tail == [] {
      NothingReads();
      OpenWritten(c, es, []);
      es' := es;
    } else {
      assert tail == EntryBytes(c, t)[..|tail|];
      OpenAfter(c, es, t, |tail|);
      es' := if |tail| < |EntryBytes(c, t)| then es else es + [t];
    }
  }

  /** The file a crash leaves. */
  function CrashFile(c: Codec, s: Store, e: Entry, wrote: nat): Octets
    requires wrote <= |EntryBytes(c, e)|
  {
    if Appends(s, e) then WriteAt(s.file, s.cursor, EntryBytes(c, e)[..wrote]) else s.file
  }

  lemma CrashSound(c: Codec, s: Store, es: seq<Entry>, tail: Octets, t: Entry, e: Entry, wrote: nat) returns (es': seq<Entry>)
    requires Faithful(c) && Sound(c, s, es, tail) && (tail != [] ==> TailOf(c, es, tail, t))
    requires EntryOk(c, e) && wrote <= |EntryBytes(c, e)|
    ensures var o := Open(c, CrashFile(c, s, e, wrote)); o.Some? && Sound(c, o.value, es', [])
    ensures es' == es || (tail != [] && es' == es + [t]) || es' == es + [e]
  {
    hide ReadRecord, EncodeAll, Encode, ByNonce, UsedRefs, Written, Open, UsedRefKeys, EntryOk;
    if Appends(s, e) {
      WrittenSnoc(c, es, e);
      assert s.file == EncodeAll(AllFields(c, es));
      assert CrashFile(c, s, e, wrote) == EncodeAll(AllFields(c, es)) + EntryBytes(c, e)[..wrote];
      OpenAfter(c, es, e, wrote);
      es' := if wrote < |EntryBytes(c, e)| then es else es + [e];
    } else {
      es' := ReopenSound(c, s, es, tail, t);
    }
  }

  /** A receipt handed out is the one stored. */
  lemma AcceptedIsStored(c: Codec, s: Store, e: Entry, io: Io)
    requires IoFor(c, e, io) && Consume(c, s, e, io).1.Accepted?
    ensures var (s', out) := Consume(c, s, e, io); e.nonce in s'.byNonce && s'.byNonce[e.nonce].1 == out.receipt
  {
  }

  lemma SnocKeeps(es: seq<Entry>, e: Entry)
    ensures Keeps(ByNonce(es), ByNonce(es + [e]))
  {
    assert (es + [e])[..|es|] == es;
  }

  datatype Event =
    | Call(e: Entry, io: Io)
    | CrashIn(e: Entry, wrote: nat)
    | Restart

  predicate EventOk(c: Codec, ev: Event) {
    match ev
    case Call(e, io) => EntryOk(c, e) && IoFor(c, e, io)
    case CrashIn(e, wrote) => EntryOk(c, e) && wrote <= |EntryBytes(c, e)|
    case Restart => true
  }

  /** A reopening that finds corruption yields no store; the lemmas show that it never does. */
  function Step(c: Codec, s: Store, ev: Event): Option<Store>
    requires EventOk(c, ev)
  {
    match ev
    case Call(e, io) => Some(Consume(c, s, e, io).0)
    case CrashIn(e, wrote) => Open(c, CrashFile(c, s, e, wrote))
    case Restart => Open(c, s.file)
  }

  /** Every event leaves an open store with all consumptions it had. */
  lemma StepKeeps(c: Codec, s: Store, ev: Event)
    requires Faithful(c) && Valid(c, s) && EventOk(c, ev)
    ensures Step(c, s, ev).Some? && Valid(c, Step(c, s, ev).value) && Keeps(s.byNonce, Step(c, s, ev).value.byNonce)
  {
    hide Open, CrashFile, Consume, EntryOk, ByNonce, UsedRefs, EncodeAll, Written;
    var es, tail :| Sound(c, s, es, tail);
    var t: Entry := Entry([], NonceRecord([], [], [], []), Receipt([], [], [], []));
    if tail != [] { t :| TailOf(c, es, tail, t); }
    SnocKeeps(es, t);
    match ev
    case Call(e, io) =>
      var es', tail' := ConsumeSound(c, s, es, tail, e, io);
      SnocKeeps(es, e);
    case CrashIn(e, wrote) =>
      var es' := CrashSound(c, s, es, tail, t, e, wrote);
      SnocKeeps(es, e);
    case Restart =>
      var es' := ReopenSound(c, s, es, tail, t);
  }

  ghost predicate HistoryOk(c: Codec, h: seq<Event>) { Faithful(c) && forall i :: 0 <= i < |h| ==> EventOk(c, h[i]) }

  ghost function After(c: Codec, s: Store, h: seq<Event>): (s': Store)
    requires HistoryOk(c, h) && Valid(c, s)
    ensures Valid(c, s') && Keeps(s.byNonce, s'.byNonce)
  {
    if |h| == 0 then s
    else
      var mid := After(c, s, h[..|h| - 1]);
      StepKeeps(c, mid, h[|h| - 1]);
      Step(c, mid, h[|h| - 1]).value
  }

  /** Once a nonce was answered with a receipt, every later success for it is that receipt, over any
      history of calls, failures, crashes and reopenings. */
  lemma SameReceipt(c: Codec, s: Store, e: Entry, io: Io, h: seq<Event>, e2: Entry, io2: Io)
    requires HistoryOk(c, h) && Valid(c, s) && EntryOk(c, e) && IoFor(c, e, io) && IoFor(c, e2, io2)
    requires Consume(c, s, e, io).1.Accepted? && e2.nonce == e.nonce
    ensures Valid(c, Consume(c, s, e, io).0)
    ensures var last := After(c, Consume(c, s, e, io).0, h);
            var again := Consume(c, last, e2, io2).1;
            again.Accepted? ==> again == Consume(c, s, e, io).1
  {
    hide Valid, EntryOk;
    StepKeeps(c, s, Call(e, io));
    assert e.nonce in Consume(c, s, e, io).0.byNonce;
  }

  // ---- no payment backs two nonces --------------------------------------------------------------------

  lemma {:induction false} IndexComplete(c: Codec, es: seq<Entry>, n: Octets)
    requires Written(c, es) && n in ByNonce(es)
    ensures UsedRefKeys(ByNonce(es)[n].0.paymentRef) <= UsedRefs(es)
    ensures ByNonce(es)[n].1.nonce == n
  {
    var k := |es| - 1;
    if n in ByNonce(es[..k]) { IndexComplete(c, es[..k], n); }
  }

  lemma {:induction false} NoSharedRef(c: Codec, es: seq<Entry>, a: Octets, b: Octets)
    requires Written(c, es) && a in ByNonce(es) && b in ByNonce(es) && a != b
    ensures UsedRefKeys(ByNonce(es)[a].0.paymentRef) !! UsedRefKeys(ByNonce(es)[b].0.paymentRef)
  {
    var k := |es| - 1;
    var init := es[..k];
    if a in ByNonce(init) && b in ByNonce(init) {
      NoSharedRef(c, init, a, b);
    } else if a in ByNonce(init) {
      IndexComplete(c, init, a);
    } else if b in ByNonce(init) {
      IndexComplete(c, init, b);
    }
  }

  /** In every state, replayed or live, two consumed nonces share no used-reference key, and every stored
      receipt names its own nonce. */
  lemma NoTwoNoncesShare(c: Codec, s: Store, a: Octets, b: Octets)
    requires Valid(c, s) && a in s.byNonce && b in s.byNonce && a != b
    ensures UsedRefKeys(s.byNonce[a].0.paymentRef) !! UsedRefKeys(s.byNonce[b].0.paymentRef)
    ensures s.byNonce[a].1.nonce == a
  {
    var es, tail :| Sound(c, s, es, tail);
    NoSharedRef(c, es, a, b);
    IndexComplete(c, es, a);
  }

  lemma ReceiptNamesNonce(c: Codec, s: Store, n: Octets)
    requires Valid(c, s) && n in s.byNonce
    ensures s.byNonce[n].1.nonce == n
  {
    var es, tail :| Sound(c, s, es, tail);
    IndexComplete(c, es, n);
  }

  /** The entry a nonce was consumed by. */
  lemma {:induction false} EntryBehind(es: seq<Entry>, n: Octets) returns (k: nat)
    requires n in ByNonce(es)
    ensures k < |es| && es[k].nonce == n && ByNonce(es)[n] == (es[k].record, es[k].receipt)
  {
    var last := |es| - 1;
    if n in ByNonce(es[..last]) { k := EntryBehind(es[..last], n); } else { k := last; }
  }
}
