/** The preimages behind addresses and record ids: each determines everything it commits. */
module Derive {
  import opened Bytes
  import opened Options
  import opened Integers
  import Leb128
  import Sorting
  import Tlv
  import Envelope
  import Instance

  datatype VecEntry = VecEntry(role: nat, bp: nat, dest: Octets)

  datatype AddressInputs = AddressInputs(
    merchantKey: Octets, asset: Octets, schema: nat, vector: seq<VecEntry>, contract: nat, merchantNet: Option<Octets>)

  // ---- the meed vector --------------------------------------------------------------------------

  predicate EntryOk(e: VecEntry) { e.role < 256 && e.bp < Pow256(2) && |e.dest| <= Leb128.MAX }

  function EncodeItem(e: VecEntry): Octets
    requires e.role < 256
  {
    [e.role] + Fixed(2, e.bp) + Leb128.Encode(|e.dest|) + e.dest
  }

  /** Any total extension will do: only well-formed entries are ever encoded. */
  function Item(e: VecEntry): Octets { if e.role < 256 then EncodeItem(e) else [] }

  function ReadItem(b: Octets): Tlv.Result<(VecEntry, nat)> {
    if |b| < 3 then Tlv.Err(Tlv.LengthOverrun)
    else
      match Leb128.Decode(b[3..])
      case Err(e) => Tlv.Err(Tlv.Length(e))
      case Ok((len, used)) =>
        if 3 + used + len > |b| then Tlv.Err(Tlv.LengthOverrun)
        else Tlv.Ok((VecEntry(b[0], Value(b[1..3]), b[3 + used..3 + used + len]), 3 + used + len))
  }

  lemma ItemReads(e: VecEntry, rest: Octets)
    requires EntryOk(e)
    ensures Item(e) != [] && ReadItem(Item(e) + rest) == Tlv.Ok((e, |Item(e)|))
  {
    var b := Item(e) + rest;
    FixedValue(2, e.bp);
    assert b[1..3] == Fixed(2, e.bp);
    assert b[3..] == Leb128.Encode(|e.dest|) + (e.dest + rest);
    Leb128.RoundTrip(|e.dest|, e.dest + rest);
    var used := |Leb128.Encode(|e.dest|)|;
    assert b[3 + used..3 + used + |e.dest|] == e.dest;
  }

  lemma ReadItems(b: Octets)
    requires ReadItem(b).Ok?
    ensures var (e, k) := ReadItem(b).value; k <= |b| && EntryOk(e) && Item(e) == b[..k]
  {
    Leb128.Canonical(b[3..]);
    var (len, used) := Leb128.Decode(b[3..]).value;
    ValueRange(b[1..3]);
    FixedBack(b[1..3]);
    var (e, k) := ReadItem(b).value;
    assert b[..k] == [b[0]] + b[1..3] + b[3..][..used] + b[3 + used..k];
  }

  lemma VectorCodec()
    ensures Tlv.ItemCodec(Item, ReadItem, EntryOk)
  {
    var enc, item, ok := Item, ReadItem, EntryOk;
    forall e: VecEntry, rest: Octets | ok(e) ensures enc(e) != [] && item(enc(e) + rest) == Tlv.Ok((e, |enc(e)|)) {
      ItemReads(e, rest);
    }
    forall b: Octets | item(b).Ok?
      ensures item(b).value.1 <= |b| && ok(item(b).value.0) && enc(item(b).value.0) == b[..item(b).value.1]
    {
      ReadItems(b);
    }
    assert Tlv.ItemCodec(enc, item, ok);
  }

  function Role(e: VecEntry): int { e.role }

  function VectorValue(v: seq<VecEntry>): Octets {
    Tlv.BuildCountPrefixed(Tlv.EncodeItems(Sorting.Sorted(v, Role), Item))
  }

  // ---- ADDRESS_INPUTS -----------------------------------------------------------------------------

  /** A key of 32 bytes (`[u8; 32]`), schema and contract ids of 32 bits (`u32`), and every length within the
      LEB128 domain. */
  predicate Sized(a: AddressInputs) {
    && |a.merchantKey| == 32 && |a.asset| <= Leb128.MAX && a.schema < Pow256(4) && a.contract < Pow256(4)
    && |a.vector| <= Leb128.MAX && (forall i :: 0 <= i < |a.vector| ==> EntryOk(a.vector[i]))
    && |VectorValue(a.vector)| <= Leb128.MAX
    && (a.merchantNet.Some? ==> |a.merchantNet.value| <= Leb128.MAX)
  }

  predicate DistinctRoles(v: seq<VecEntry>) { Sorting.Ascending(Sorting.Sorted(v, Role), Role) }

  /** Every text is valid, and no role appears twice. */
  predicate WellFormed(a: AddressInputs, text: Octets -> bool) {
    && text(a.asset) && DistinctRoles(a.vector)
    && (forall i :: 0 <= i < |a.vector| ==> text(a.vector[i].dest))
    && (a.merchantNet.Some? ==> text(a.merchantNet.value))
  }

  function FieldsOf(a: AddressInputs): (fs: seq<Tlv.Field>)
    ensures Tlv.Typed(fs) && Tlv.Ascending(fs)
  {
    [Tlv.Field(0, false, a.merchantKey), Tlv.Field(1, false, a.asset), Tlv.Field(2, false, EncodeUint(a.schema)),
     Tlv.Field(3, false, VectorValue(a.vector)), Tlv.Field(4, false, EncodeUint(a.contract))]
    + if a.merchantNet.Some? then [Tlv.Field(5, false, a.merchantNet.value)] else []
  }

  function CanonicalBytes(a: AddressInputs, text: Octets -> bool): Option<Octets> {
    if !WellFormed(a, text) then None
    else
      var fs := Tlv.FromFields(FieldsOf(a));
      Tlv.FromFieldsFixed(FieldsOf(a));
      Some(Tlv.Encode(fs.value))
  }

  /** The same inputs up to the order the vector is given in. */
  predicate SameInputs(a: AddressInputs, b: AddressInputs) {
    a.(vector := []) == b.(vector := []) && multiset(a.vector) == multiset(b.vector)
  }

  lemma SmallUint(n: nat)
    requires n < Pow256(4)
    ensures |EncodeUint(n)| <= Leb128.MAX
  {
    Digits4(n);
  }

  lemma Digits4(n: nat)
    requires n < Pow256(4)
    ensures |Digits(n)| <= 4
  {
    assert Pow256(1) == 256 && Pow256(2) == 256 * Pow256(1) && Pow256(3) == 256 * Pow256(2) && Pow256(4) == 256 * Pow256(3);
    var a, b, c := n / 256, n / 256 / 256, n / 256 / 256 / 256;
    assert c < 256;
    assert |Digits(c)| <= 1 by { assert Digits(c / 256) == []; }
    assert |Digits(b)| <= 2;
    assert |Digits(a)| <= 3;
  }

  lemma FieldsParse(a: AddressInputs)
    requires Sized(a)
    ensures Tlv.Parse(Tlv.Encode(FieldsOf(a))) == Tlv.Ok(FieldsOf(a))
  {
    SmallUint(a.schema);
    SmallUint(a.contract);
    var fs := FieldsOf(a);
    assert Tlv.FieldsOk(fs);
    Tlv.ParseInvertsEncode(fs);
  }

  lemma FieldsDetermine(a: AddressInputs, b: AddressInputs)
    requires FieldsOf(a) == FieldsOf(b)
    ensures a.(vector := []) == b.(vector := []) && VectorValue(a.vector) == VectorValue(b.vector)
  {
    hide VectorValue, EncodeUint;
    var x, y := FieldsOf(a), FieldsOf(b);
    assert x[0].value == a.merchantKey && y[0].value == b.merchantKey;
    assert x[1].value == a.asset && y[1].value == b.asset;
    assert x[2].value == EncodeUint(a.schema) && y[2].value == EncodeUint(b.schema);
    assert x[3].value == VectorValue(a.vector) && y[3].value == VectorValue(b.vector);
    assert x[4].value == EncodeUint(a.contract) && y[4].value == EncodeUint(b.contract);
    assert |x| == if a.merchantNet.Some? then 6 else 5;
    assert |y| == if b.merchantNet.Some? then 6 else 5;
    assert a.merchantNet.Some? ==> x[5].value == a.merchantNet.value;
    assert b.merchantNet.Some? ==> y[5].value == b.merchantNet.value;
    UintBijection(a.schema, []);
    UintBijection(b.schema, []);
    UintBijection(a.contract, []);
    UintBijection(b.contract, []);
  }

  lemma VectorDetermines(v: seq<VecEntry>, w: seq<VecEntry>)
    requires |v| <= Leb128.MAX && |w| <= Leb128.MAX
    requires (forall i :: 0 <= i < |v| ==> EntryOk(v[i])) && (forall i :: 0 <= i < |w| ==> EntryOk(w[i]))
    requires VectorValue(v) == VectorValue(w)
    ensures multiset(v) == multiset(w)
  {
    VectorCodec();
    var sv, sw := Sorting.Sorted(v, Role), Sorting.Sorted(w, Role);
    SortedItems(v);
    SortedItems(w);
    Tlv.CountPrefixedRoundTrip(sv, Item, ReadItem, EntryOk);
    Tlv.CountPrefixedRoundTrip(sw, Item, ReadItem, EntryOk);
  }

  lemma SortedItems(v: seq<VecEntry>)
    requires forall i :: 0 <= i < |v| ==> EntryOk(v[i])
    ensures var s := Sorting.Sorted(v, Role);
            multiset(s) == multiset(v) && |s| == |v| && forall i :: 0 <= i < |s| ==> EntryOk(s[i])
  {
    var s := Sorting.Sorted(v, Role);
    Sorting.SortedContents(v, Role);
    assert |multiset(s)| == |s| && |multiset(v)| == |v|;
    forall i | 0 <= i < |s| ensures EntryOk(s[i]) {
      assert s[i] in multiset(v);
    }
  }

  /** Canonical bytes agree exactly when the inputs agree up to the order of the meed vector. */
  lemma CanonicalBytesBind(a: AddressInputs, b: AddressInputs, text: Octets -> bool)
    requires Sized(a) && Sized(b) && WellFormed(a, text) && WellFormed(b, text)
    ensures CanonicalBytes(a, text) == CanonicalBytes(b, text) <==> SameInputs(a, b)
  {
    hide Tlv.Encode, Tlv.Parse, VectorValue, WellFormed;
    Tlv.FromFieldsFixed(FieldsOf(a));
    Tlv.FromFieldsFixed(FieldsOf(b));
    if CanonicalBytes(a, text) == CanonicalBytes(b, text) {
      FieldsParse(a);
      FieldsParse(b);
      FieldsDetermine(a, b);
      VectorDetermines(a.vector, b.vector);
    }
    if SameInputs(a, b) {
      SameVectorValue(a, b, text);
      assert FieldsOf(a) == FieldsOf(b);
    }
  }

  lemma SameVectorValue(a: AddressInputs, b: AddressInputs, text: Octets -> bool)
    requires WellFormed(a, text) && SameInputs(a, b)
    ensures VectorValue(a.vector) == VectorValue(b.vector)
  {
    Sorting.SortsAlike(a.vector, b.vector, Role);
  }

  // ---- seeds ----------------------------------------------------------------------------------------

  datatype Form = SplitForm | InstanceForm

  function FormLabel(f: Form): (s: string)
    ensures Envelope.Printable(s)
  {
    if f.SplitForm? then "PayTPv1-split" else "PayTPv1-instance"
  }

  /** A split must commit its merchant-net seat; an instance must not carry one. */
  function SeedPreimage(f: Form, a: AddressInputs, text: Octets -> bool): Option<Octets> {
    if f.SplitForm? != a.merchantNet.Some? then None
    else
      match CanonicalBytes(a, text)
      case None => None
      case Some(c) => Some(Envelope.Labelled(Envelope.Ascii(FormLabel(f)), c))
  }

  /** Equal seed preimages: the same contract form and the same inputs. Splits and instances never share
      a seed. */
  lemma SeedsBind(f: Form, a: AddressInputs, g: Form, b: AddressInputs, text: Octets -> bool)
    requires Sized(a) && Sized(b)
    requires SeedPreimage(f, a, text).Some? && SeedPreimage(f, a, text) == SeedPreimage(g, b, text)
    ensures f == g && SameInputs(a, b)
  {
    hide WellFormed, FieldsOf, Tlv.Encode;
    Envelope.AsciiHasNoZero(FormLabel(f));
    Envelope.AsciiHasNoZero(FormLabel(g));
    var x, y := CanonicalBytes(a, text).value, CanonicalBytes(b, text).value;
    Envelope.LabelEnds(Envelope.Ascii(FormLabel(f)), x, Envelope.Ascii(FormLabel(g)), y);
    Envelope.AsciiInjective(FormLabel(f), FormLabel(g));
    assert |FormLabel(f)| == |FormLabel(g)|;
    CanonicalBytesBind(a, b, text);
  }

  // ---- record ids -----------------------------------------------------------------------------------

  const ENTRY := "PayTPv1-entry"
  const NET := "PayTPv1-net"

  /** Widths of the committed fields. */
  predicate IdOk(id: Instance.RecordId) {
    match id
    case Purchase(seed, nonce, amount, tOpen, tLapse, contest) =>
      |seed| == 32 && |nonce| == 32 && amount < Pow256(16) && tOpen < Pow256(8) && tLapse < Pow256(8) && contest < Pow256(8)
    case Claim(seed, channel, ckpt, p) =>
      |seed| == 32 && channel.raw < Pow256(8) && ckpt < Pow256(32) && p < Pow256(16)
  }

  function IdBody(id: Instance.RecordId): Octets {
    match id
    case Purchase(seed, nonce, amount, tOpen, tLapse, contest) =>
      seed + nonce + Fixed(16, amount) + Fixed(8, tOpen) + Fixed(8, tLapse) + Fixed(8, contest)
    case Claim(seed, channel, ckpt, p) => seed + Fixed(8, channel.raw) + Fixed(32, ckpt) + Fixed(16, p)
  }

  function IdPreimage(id: Instance.RecordId): Octets { Envelope.Labelled(Envelope.Ascii(ENTRY), IdBody(id)) }

  function NetMemoPreimage(c: Instance.ChannelId, ckpt: nat): Octets {
    Envelope.Labelled(Envelope.Ascii(NET), Fixed(8, c.raw) + Fixed(32, ckpt))
  }

  lemma PurchaseBodies(a: Instance.RecordId, b: Instance.RecordId)
    requires IdOk(a) && IdOk(b) && a.Purchase? && b.Purchase? && IdBody(a) == IdBody(b)
    ensures a == b
  {
    var x, y := IdBody(a), IdBody(b);
    assert x[..32] == a.seed && y[..32] == b.seed;
    assert x[32..64] == a.nonce && y[32..64] == b.nonce;
    assert x[64..80] == Fixed(16, a.amount) && y[64..80] == Fixed(16, b.amount);
    assert x[80..88] == Fixed(8, a.tOpen) && y[80..88] == Fixed(8, b.tOpen);
    assert x[88..96] == Fixed(8, a.tLapse) && y[88..96] == Fixed(8, b.tLapse);
    assert x[96..] == Fixed(8, a.contest) && y[96..] == Fixed(8, b.contest);
    FixedInjective(16, a.amount, b.amount);
    FixedInjective(8, a.tOpen, b.tOpen);
    FixedInjective(8, a.tLapse, b.tLapse);
    FixedInjective(8, a.contest, b.contest);
  }

  lemma ClaimBodies(a: Instance.RecordId, b: Instance.RecordId)
    requires IdOk(a) && IdOk(b) && a.Claim? && b.Claim? && IdBody(a) == IdBody(b)
    ensures a == b
  {
    var x, y := IdBody(a), IdBody(b);
    assert x[..32] == a.seed && y[..32] == b.seed;
    assert x[32..40] == Fixed(8, a.channel.raw) && y[32..40] == Fixed(8, b.channel.raw);
    assert x[40..72] == Fixed(32, a.ckpt) && y[40..72] == Fixed(32, b.ckpt);
    assert x[72..] == Fixed(16, a.p) && y[72..] == Fixed(16, b.p);
    FixedInjective(8, a.channel.raw, b.channel.raw);
    FixedInjective(32, a.ckpt, b.ckpt);
    FixedInjective(16, a.p, b.p);
  }

  /** A record id's preimage determines the record: every committed field, and whether it is a purchase
      entry (a 104-byte body) or a claim record (an 88-byte body). */
  lemma IdsBind(a: Instance.RecordId, b: Instance.RecordId)
    requires IdOk(a) && IdOk(b) && IdPreimage(a) == IdPreimage(b)
    ensures a == b
  {
    hide Fixed, Pow256;
    Envelope.AsciiHasNoZero(ENTRY);
    Envelope.LabelEnds(Envelope.Ascii(ENTRY), IdBody(a), Envelope.Ascii(ENTRY), IdBody(b));
    assert |IdBody(a)| == if a.Purchase? then 104 else 88;
    assert |IdBody(b)| == if b.Purchase? then 104 else 88;
    if a.Purchase? { PurchaseBodies(a, b); } else { ClaimBodies(a, b); }
  }

  /** A round's net memo names exactly one (channel, checkpoint), and is never a record's preimage. */
  lemma NetMemosBind(c: Instance.ChannelId, k: nat, d: Instance.ChannelId, j: nat, id: Instance.RecordId)
    requires c.raw < Pow256(8) && d.raw < Pow256(8) && k < Pow256(32) && j < Pow256(32)
    ensures NetMemoPreimage(c, k) == NetMemoPreimage(d, j) ==> c == d && k == j
    ensures NetMemoPreimage(c, k) != IdPreimage(id)
  {
    hide Fixed, Pow256, IdBody;
    Envelope.AsciiHasNoZero(ENTRY);
    Envelope.AsciiHasNoZero(NET);
    var x, y := Fixed(8, c.raw) + Fixed(32, k), Fixed(8, d.raw) + Fixed(32, j);
    if NetMemoPreimage(c, k) == NetMemoPreimage(d, j) {
      Envelope.LabelEnds(Envelope.Ascii(NET), x, Envelope.Ascii(NET), y);
      assert x[..8] == Fixed(8, c.raw) && y[..8] == Fixed(8, d.raw) && x[8..] == Fixed(32, k) && y[8..] == Fixed(32, j);
      FixedInjective(8, c.raw, d.raw);
      FixedInjective(32, k, j);
    }
    LabelsApart(x, IdBody(id));
  }

  lemma LabelsApart(x: Octets, y: Octets)
    ensures Envelope.Labelled(Envelope.Ascii(NET), x) != Envelope.Labelled(Envelope.Ascii(ENTRY), y)
  {
    assert Envelope.Labelled(Envelope.Ascii(NET), x)[|NET|] == 0;
    assert Envelope.Labelled(Envelope.Ascii(ENTRY), y)[|NET|] == Envelope.Ascii(ENTRY)[|NET|];
  }
}
