/** Canonical TLV objects, count-prefixed lists and framed bodies: parsing accepts exactly what encoding
    produces. */
module Tlv {
  import opened Bytes
  import Leb128
  import Sorting

  datatype Field = Field(typeNum: nat, critical: bool, value: Octets)

  datatype TlvError = Length(e: Leb128.LebError) | LengthOverrun | DuplicateType | TypeOrder | CountMismatch | Framing
  datatype Result<+T> = Ok(value: T) | Err(error: TlvError)

  function TypeByte(f: Field): Byte
    requires f.typeNum < 128
  {
    if f.critical then f.typeNum + 128 else f.typeNum
  }

  predicate FieldOk(f: Field) { f.typeNum < 128 && |f.value| <= Leb128.MAX }

  function EncodeField(f: Field): Octets
    requires f.typeNum < 128
  {
    [TypeByte(f)] + Leb128.Encode(|f.value|) + f.value
  }

  predicate Typed(fs: seq<Field>) { forall i :: 0 <= i < |fs| ==> fs[i].typeNum < 128 }

  predicate FieldsOk(fs: seq<Field>) { forall i :: 0 <= i < |fs| ==> FieldOk(fs[i]) }

  predicate Ascending(fs: seq<Field>) { forall i :: 0 < i < |fs| ==> fs[i - 1].typeNum < fs[i].typeNum }

  function Encode(fs: seq<Field>): Octets
    requires Typed(fs)
  {
    if |fs| == 0 then [] else EncodeField(fs[0]) + Encode(fs[1..])
  }

  /** One field from the front of a non-empty buffer. */
  function ReadField(b: Octets): (r: Result<(Field, nat)>)
    requires |b| > 0
    ensures r.Ok? ==> 0 < r.value.1 <= |b| && FieldOk(r.value.0)
  {
    match Leb128.Decode(b[1..])
    case Err(e) => Err(Length(e))
    case Ok((len, used)) =>
      if 1 + used + len > |b| then Err(LengthOverrun)
      else
        Leb128.Canonical(b[1..]);
        Ok((Field(b[0] % 128, b[0] >= 128, b[1 + used..1 + used + len]), 1 + used + len))
  }

  /** Parse from here, the previous type number being `prev` (-1 at the start). */
  function ParseFrom(b: Octets, prev: int): Result<seq<Field>>
    decreases |b|
  {
    if |b| == 0 then Ok([])
    else
      match ReadField(b)
      case Err(e) => Err(e)
      case Ok((f, k)) =>
        if f.typeNum == prev then Err(DuplicateType)
        else if f.typeNum < prev then Err(TypeOrder)
        else
          match ParseFrom(b[k..], f.typeNum)
          case Err(e) => Err(e)
          case Ok(fs) => Ok([f] + fs)
  }

  function Parse(b: Octets): Result<seq<Field>> { ParseFrom(b, -1) }

  // ---- mutual inverses ------------------------------------------------------------------------

  lemma ReadWritten(f: Field, rest: Octets)
    requires FieldOk(f)
    ensures ReadField(EncodeField(f) + rest) == Ok((f, |EncodeField(f)|))
  {
    var b := EncodeField(f) + rest;
    assert b[1..] == Leb128.Encode(|f.value|) + (f.value + rest);
    Leb128.RoundTrip(|f.value|, f.value + rest);
    var used := |Leb128.Encode(|f.value|)|;
    assert b[1 + used..1 + used + |f.value|] == f.value;
  }

  lemma WriteRead(b: Octets)
    requires |b| > 0 && ReadField(b).Ok?
    ensures var (f, k) := ReadField(b).value; EncodeField(f) == b[..k]
  {
    Leb128.Canonical(b[1..]);
    var (len, used) := Leb128.Decode(b[1..]).value;
    var (f, k) := ReadField(b).value;
    assert b[..k] == [b[0]] + b[1..][..used] + b[1 + used..k];
  }

  predicate Above(fs: seq<Field>, prev: int) { |fs| > 0 ==> fs[0].typeNum > prev }

  lemma {:induction false} ParseEncoded(fs: seq<Field>, prev: int)
    requires FieldsOk(fs) && Ascending(fs) && Above(fs, prev)
    ensures ParseFrom(Encode(fs), prev) == Ok(fs)
  {
    if |fs| > 0 {
      ReadWritten(fs[0], Encode(fs[1..]));
      var b := Encode(fs);
      assert b[|EncodeField(fs[0])|..] == Encode(fs[1..]);
      forall i | 0 < i < |fs[1..]| ensures fs[1..][i - 1].typeNum < fs[1..][i].typeNum { assert fs[i + 1 - 1].typeNum < fs[i + 1].typeNum; }
      ParseEncoded(fs[1..], fs[0].typeNum);
      assert [fs[0]] + fs[1..] == fs;
    }
  }

  lemma {:induction false} EncodeParsed(b: Octets, prev: int)
    requires ParseFrom(b, prev).Ok?
    ensures var fs := ParseFrom(b, prev).value;
            FieldsOk(fs) && Ascending(fs) && Above(fs, prev) && Encode(fs) == b
    decreases |b|
  {
    if |b| > 0 {
      WriteRead(b);
      var (f, k) := ReadField(b).value;
      EncodeParsed(b[k..], f.typeNum);
      var fs := ParseFrom(b[k..], f.typeNum).value;
      assert ([f] + fs)[1..] == fs;
      assert b == b[..k] + b[k..];
    }
  }

  /** A field list parses back from its encoding exactly when it is ascending and every value's length
      is a LEB128 value. */
  lemma ParseInvertsEncode(fs: seq<Field>)
    requires Typed(fs)
    ensures Parse(Encode(fs)) == Ok(fs) <==> FieldsOk(fs) && Ascending(fs)
  {
    if FieldsOk(fs) && Ascending(fs) { ParseEncoded(fs, -1); }
    if Parse(Encode(fs)) == Ok(fs) { EncodeParsed(Encode(fs), -1); }
  }

  /** Whatever parses is canonical: it re-encodes to itself. */
  lemma EncodeInvertsParse(b: Octets)
    requires Parse(b).Ok?
    ensures var fs := Parse(b).value; FieldsOk(fs) && Ascending(fs) && Encode(fs) == b
  {
    EncodeParsed(b, -1);
  }

  // ---- building from any order -------------------------------------------------------------------

  function TypeNum(f: Field): int { f.typeNum }

  function FromFields(fs: seq<Field>): Result<seq<Field>> {
    var sorted := Sorting.Sorted(fs, TypeNum);
    if Ascending(sorted) then Ok(sorted) else Err(DuplicateType)
  }

  lemma SameOrder(fs: seq<Field>)
    ensures Ascending(fs) <==> Sorting.Ascending(fs, TypeNum)
  {
    if Sorting.Ascending(fs, TypeNum) {
      assert forall i :: 0 < i < |fs| ==> TypeNum(fs[i - 1]) < TypeNum(fs[i]);
    }
  }

  /** Building keeps exactly the given fields, and the order they were given in does not matter. */
  lemma FromFieldsOrderFree(a: seq<Field>, b: seq<Field>)
    requires multiset(a) == multiset(b) && FromFields(a).Ok?
    ensures FromFields(b) == FromFields(a)
    ensures multiset(FromFields(a).value) == multiset(a) && Ascending(FromFields(a).value)
  {
    SameOrder(Sorting.Sorted(a, TypeNum));
    Sorting.SortsAlike(a, b, TypeNum);
    Sorting.SortedContents(a, TypeNum);
  }

  /** Fields already in ascending order are built as they stand. */
  lemma FromFieldsFixed(fs: seq<Field>)
    requires Ascending(fs)
    ensures FromFields(fs) == Ok(fs)
  {
    SameOrder(fs);
    Sorting.SortedFixed(fs, TypeNum);
  }

  lemma RestAscending(fs: seq<Field>)
    requires Ascending(fs) && |fs| > 0
    ensures Ascending(fs[1..])
  {
    SameOrder(fs);
    Sorting.Tail(fs, TypeNum);
    SameOrder(fs[1..]);
  }

  // ---- covered bytes --------------------------------------------------------------------------------

  predicate Authenticator(f: Field, extra: set<nat>) { 0x70 <= f.typeNum <= 0x7F || f.typeNum in extra }

  function CoveredFields(fs: seq<Field>, extra: set<nat>): (r: seq<Field>)
    ensures Typed(fs) ==> Typed(r)
    ensures FieldsOk(fs) ==> FieldsOk(r)
  {
    if |fs| == 0 then []
    else (if Authenticator(fs[0], extra) then [] else [fs[0]]) + CoveredFields(fs[1..], extra)
  }

  function CoveredBytes(fs: seq<Field>, extra: set<nat>): Octets
    requires Typed(fs)
  {
    Encode(CoveredFields(fs, extra))
  }

  lemma {:induction false} CoveredAscending(fs: seq<Field>, extra: set<nat>, prev: int)
    requires Ascending(fs) && Above(fs, prev)
    ensures Ascending(CoveredFields(fs, extra)) && Above(CoveredFields(fs, extra), prev)
  {
    if |fs| > 0 {
      RestAscending(fs);
      assert Above(fs[1..], fs[0].typeNum) by { if |fs| > 1 { assert fs[1 - 1].typeNum < fs[1].typeNum; } }
      CoveredAscending(fs[1..], extra, fs[0].typeNum);
      var rest := CoveredFields(fs[1..], extra);
      assert CoveredFields(fs, extra) == (if Authenticator(fs[0], extra) then [] else [fs[0]]) + rest;
    }
  }

  /** Equal covered bytes force the same non-authenticator fields. */
  lemma CoveredBinds(a: seq<Field>, b: seq<Field>, extra: set<nat>)
    requires FieldsOk(a) && Ascending(a) && FieldsOk(b) && Ascending(b)
    requires CoveredBytes(a, extra) == CoveredBytes(b, extra)
    ensures CoveredFields(a, extra) == CoveredFields(b, extra)
  {
    CoveredAscending(a, extra, -1);
    CoveredAscending(b, extra, -1);
    ParseEncoded(CoveredFields(a, extra), -1);
    ParseEncoded(CoveredFields(b, extra), -1);
  }

  // ---- framed bodies -----------------------------------------------------------------------------------

  function FrameObjects(objs: seq<Octets>): Octets {
    if |objs| == 0 then [] else Leb128.Encode(|objs[0]|) + objs[0] + FrameObjects(objs[1..])
  }

  /** Every fault, in a length or in an object, rejects the whole body with the same error. */
  function ParseFrames(b: Octets, valid: Octets -> bool): Result<seq<Octets>>
    decreases |b|
  {
    if |b| == 0 then Ok([])
    else
      match Leb128.Decode(b)
      case Err(_) => Err(Framing)
      case Ok((len, used)) =>
        if used + len > |b| || !valid(b[used..used + len]) then Err(Framing)
        else
          match ParseFrames(b[used + len..], valid)
          case Err(e) => Err(e)
          case Ok(objs) => Ok([b[used..used + len]] + objs)
  }

  predicate Frameable(objs: seq<Octets>, valid: Octets -> bool) {
    forall i :: 0 <= i < |objs| ==> |objs[i]| <= Leb128.MAX && valid(objs[i])
  }

  lemma {:induction false} FramesRoundTrip(objs: seq<Octets>, valid: Octets -> bool)
    requires Frameable(objs, valid)
    ensures ParseFrames(FrameObjects(objs), valid) == Ok(objs)
  {
    if |objs| > 0 {
      var b, rest := FrameObjects(objs), FrameObjects(objs[1..]);
      assert b == Leb128.Encode(|objs[0]|) + (objs[0] + rest);
      Leb128.RoundTrip(|objs[0]|, objs[0] + rest);
      var used := |Leb128.Encode(|objs[0]|)|;
      assert b[used..used + |objs[0]|] == objs[0] && b[used + |objs[0]|..] == rest;
      FramesRoundTrip(objs[1..], valid);
      assert [objs[0]] + objs[1..] == objs;
    }
  }

  lemma FrameFirst(o: Octets, objs: seq<Octets>)
    ensures FrameObjects([o] + objs) == Leb128.Encode(|o|) + o + FrameObjects(objs)
    ensures FrameObjects([]) == []
  {
    assert ([o] + objs)[1..] == objs;
  }

  /** What one accepted frame looks like. */
  lemma FirstFrame(b: Octets, valid: Octets -> bool) returns (o: Octets, rest: Octets)
    requires |b| > 0 && ParseFrames(b, valid).Ok?
    ensures b == Leb128.Encode(|o|) + o + rest && |rest| < |b|
    ensures |o| <= Leb128.MAX && valid(o) && ParseFrames(rest, valid).Ok?
    ensures ParseFrames(b, valid).value == [o] + ParseFrames(rest, valid).value
  {
    Leb128.Canonical(b);
    var (len, used) := Leb128.Decode(b).value;
    o, rest := b[used..used + len], b[used + len..];
    hide Leb128.Encode, Leb128.Decode;
    assert b == b[..used] + o + rest;
  }

  lemma {:induction false} FramesCanonical(b: Octets, valid: Octets -> bool)
    requires ParseFrames(b, valid).Ok?
    ensures var objs := ParseFrames(b, valid).value; Frameable(objs, valid) && FrameObjects(objs) == b
    decreases |b|
  {
    if |b| > 0 {
      var o, rest := FirstFrame(b, valid);
      FramesCanonical(rest, valid);
      hide ParseFrames, FrameObjects, Leb128.Encode;
      FrameFirst(o, ParseFrames(rest, valid).value);
    }
  }

  // ---- count-prefixed lists ------------------------------------------------------------------------------

  function Concat(items: seq<Octets>): Octets {
    if |items| == 0 then [] else items[0] + Concat(items[1..])
  }

  function BuildCountPrefixed(items: seq<Octets>): Octets { Leb128.Encode(|items|) + Concat(items) }

  /** `n` items from the front, nothing left over; an item that takes no byte, or too many, is a mismatch. */
  function ParseItems<T>(b: Octets, n: nat, item: Octets -> Result<(T, nat)>): Result<seq<T>> {
    if n == 0 then if |b| == 0 then Ok([]) else Err(CountMismatch)
    else
      match item(b)
      case Err(e) => Err(e)
      case Ok((x, k)) =>
        if k == 0 || k > |b| then Err(CountMismatch)
        else
          match ParseItems(b[k..], n - 1, item)
          case Err(e) => Err(e)
          case Ok(xs) => Ok([x] + xs)
  }

  function ParseCountPrefixed<T>(b: Octets, item: Octets -> Result<(T, nat)>): Result<seq<T>> {
    match Leb128.Decode(b)
    case Err(e) => Err(Length(e))
    case Ok((count, used)) => ParseItems(b[used..], count, item)
  }

  /** An item codec: parsing the encoding gives the item back, and only encodings are accepted. */
  ghost predicate ItemCodec<T(!new)>(enc: T -> Octets, item: Octets -> Result<(T, nat)>, ok: T -> bool) {
    && (forall x, rest :: ok(x) ==> enc(x) != [] && item(enc(x) + rest) == Ok((x, |enc(x)|)))
    && (forall b :: item(b).Ok? ==> item(b).value.1 <= |b| && ok(item(b).value.0) && enc(item(b).value.0) == b[..item(b).value.1])
  }

  function EncodeItems<T>(xs: seq<T>, enc: T -> Octets): (r: seq<Octets>)
    ensures |r| == |xs|
  {
    seq(|xs|, i requires 0 <= i < |xs| => enc(xs[i]))
  }

  lemma {:induction false} ItemsRoundTrip<T(!new)>(xs: seq<T>, enc: T -> Octets, item: Octets -> Result<(T, nat)>, ok: T -> bool)
    requires ItemCodec(enc, item, ok) && forall i :: 0 <= i < |xs| ==> ok(xs[i])
    ensures ParseItems(Concat(EncodeItems(xs, enc)), |xs|, item) == Ok(xs)
  {
    if |xs| > 0 {
      var rest := EncodeItems(xs[1..], enc);
      assert EncodeItems(xs, enc)[1..] == rest;
      var b := Concat(EncodeItems(xs, enc));
      assert b == enc(xs[0]) + Concat(rest) && b[|enc(xs[0])|..] == Concat(rest);
      ItemsRoundTrip(xs[1..], enc, item, ok);
      assert [xs[0]] + xs[1..] == xs;
    }
  }

  lemma {:induction false} ItemsCanonical<T(!new)>(b: Octets, n: nat, enc: T -> Octets, item: Octets -> Result<(T, nat)>, ok: T -> bool)
    requires ItemCodec(enc, item, ok) && ParseItems(b, n, item).Ok?
    ensures var xs := ParseItems(b, n, item).value; |xs| == n && Concat(EncodeItems(xs, enc)) == b
    decreases n
  {
    if n > 0 {
      var (x, k) := item(b).value;
      ItemsCanonical(b[k..], n - 1, enc, item, ok);
      var xs := ParseItems(b[k..], n - 1, item).value;
      assert EncodeItems([x] + xs, enc)[1..] == EncodeItems(xs, enc);
      assert b == b[..k] + b[k..];
    }
  }

  /** Count-prefixed lists are mutual inverses with their encoding, for every item codec. */
  lemma CountPrefixedRoundTrip<T(!new)>(xs: seq<T>, enc: T -> Octets, item: Octets -> Result<(T, nat)>, ok: T -> bool)
    requires ItemCodec(enc, item, ok) && |xs| <= Leb128.MAX && forall i :: 0 <= i < |xs| ==> ok(xs[i])
    ensures ParseCountPrefixed(BuildCountPrefixed(EncodeItems(xs, enc)), item) == Ok(xs)
  {
    Leb128.RoundTrip(|xs|, Concat(EncodeItems(xs, enc)));
    var b := BuildCountPrefixed(EncodeItems(xs, enc));
    assert b[|Leb128.Encode(|xs|)|..] == Concat(EncodeItems(xs, enc));
    ItemsRoundTrip(xs, enc, item, ok);
  }

  lemma CountPrefixedCanonical<T(!new)>(b: Octets, enc: T -> Octets, item: Octets -> Result<(T, nat)>, ok: T -> bool)
    requires ItemCodec(enc, item, ok) && ParseCountPrefixed(b, item).Ok?
    ensures BuildCountPrefixed(EncodeItems(ParseCountPrefixed(b, item).value, enc)) == b
  {
    Leb128.Canonical(b);
    var (count, used) := Leb128.Decode(b).value;
    ItemsCanonical(b[used..], count, enc, item, ok);
    assert b == b[..used] + b[used..];
  }

  // ---- the parsing loop ------------------------------------------------------------------------------------

  method ParseLoop(b: Octets) returns (r: Result<seq<Field>>)
    ensures r == Parse(b)
  {
    var rest, fs: seq<Field>, prev := b, [], -1;
    assert Parse(b).Ok? ==> [] + Parse(b).value == Parse(b).value;
    while |rest| > 0
      invariant var more := ParseFrom(rest, prev);
                Parse(b) == if more.Ok? then Ok(fs + more.value) else Err(more.error)
      invariant -1 <= prev
      decreases |rest|
    {
      var read := ReadField(rest);
      match read {
        case Err(e) => return Err(e);
        case Ok(fk) =>
          if fk.0.typeNum == prev { return Err(DuplicateType); }
          if fk.0.typeNum < prev { return Err(TypeOrder); }
          ghost var more := ParseFrom(rest[fk.1..], fk.0.typeNum);
          assert more.Ok? ==> fs + ([fk.0] + more.value) == (fs + [fk.0]) + more.value;
          fs, prev, rest := fs + [fk.0], fk.0.typeNum, rest[fk.1..];
      }
    }
    assert fs + [] == fs;
    return Ok(fs);
  }
}
