/** Domain separation: a label, a zero byte, then the content. */
module Envelope {
  import opened Bytes
  import Tlv

  datatype DomainLabel =
    | Slice | ChanAuth | ChanAck | Ckpt | CkptReq | Funding | SettlePropose | SettleProof | SettleConfirm
    | Close | PrepayDraw | Reqs | ReceiptLabel | Artifact | AckReq | Attest | CancelLabel | Registry

  function Name(l: DomainLabel): string {
    match l
    case Slice => "slice"
    case ChanAuth => "chan-auth"
    case ChanAck => "chan-ack"
    case Ckpt => "ckpt"
    case CkptReq => "ckpt-req"
    case Funding => "funding"
    case SettlePropose => "settle-propose"
    case SettleProof => "settle-proof"
    case SettleConfirm => "settle-confirm"
    case Close => "close"
    case PrepayDraw => "prepay-draw"
    case Reqs => "reqs"
    case ReceiptLabel => "receipt"
    case Artifact => "artifact"
    case AckReq => "ack-req"
    case Attest => "attest"
    case CancelLabel => "cancel"
    case Registry => "registry"
  }

  predicate Printable(s: string) { forall i :: 0 <= i < |s| ==> ' ' <= s[i] <= '~' }

  /** The bytes of an ASCII text. */
  function Ascii(s: string): (b: Octets)
    requires Printable(s)
    ensures |b| == |s| && forall i :: 0 <= i < |s| ==> b[i] == s[i] as int
  {
    seq(|s|, i requires 0 <= i < |s| => s[i] as int)
  }

  lemma NamesPrintable(l: DomainLabel)
    ensures Printable("PayTPv1-" + Name(l))
  {
  }

  lemma NamesDistinct(a: DomainLabel, b: DomainLabel)
    requires Name(a) == Name(b)
    ensures a == b
  {
    assert |Name(a)| == |Name(b)| && Name(a)[0] == Name(b)[0] && Name(a)[1] == Name(b)[1];
    assert a.SettlePropose? || b.SettlePropose? ==> Name(a)[|Name(a)| - 1] == Name(b)[|Name(b)| - 1];
  }

  function LabelBytes(l: DomainLabel): Octets {
    NamesPrintable(l);
    Ascii("PayTPv1-" + Name(l))
  }

  function Labelled(tag: Octets, content: Octets): Octets { tag + [0] + content }

  function Covered(l: DomainLabel, content: Octets): Octets { Labelled(LabelBytes(l), content) }

  /** The first zero byte ends the label, also when one label is a prefix of another. */
  lemma LabelEnds(a: Octets, x: Octets, b: Octets, y: Octets)
    requires 0 !in a && 0 !in b && Labelled(a, x) == Labelled(b, y)
    ensures a == b && x == y
  {
    var p, q := Labelled(a, x), Labelled(b, y);
    assert p[|a|] == 0 && q[|b|] == 0;
    assert forall i :: 0 <= i < |a| ==> p[i] == a[i] && a[i] != 0;
    assert forall i :: 0 <= i < |b| ==> q[i] == b[i] && b[i] != 0;
    assert p[..|a|] == a && q[..|b|] == b && p[|a| + 1..] == x && q[|b| + 1..] == y;
  }

  lemma AsciiHasNoZero(s: string)
    requires Printable(s)
    ensures 0 !in Ascii(s)
  {
  }

  lemma AsciiInjective(s: string, t: string)
    requires Printable(s) && Printable(t) && Ascii(s) == Ascii(t)
    ensures s == t
  {
    forall i | 0 <= i < |s| ensures s[i] == t[i] {
      assert Ascii(s)[i] == Ascii(t)[i];
      assert s[i] as int == t[i] as int;
    }
  }

  lemma LabelsDiffer(a: DomainLabel, b: DomainLabel)
    requires LabelBytes(a) == LabelBytes(b)
    ensures a == b
  {
    hide Name;
    NamesPrintable(a);
    NamesPrintable(b);
    var p := "PayTPv1-";
    AsciiInjective(p + Name(a), p + Name(b));
    assert (p + Name(a))[|p|..] == Name(a) && (p + Name(b))[|p|..] == Name(b);
    NamesDistinct(a, b);
  }

  /** Equal covered bytes: the same object type and the same content. */
  lemma CoveredBinds(a: DomainLabel, x: Octets, b: DomainLabel, y: Octets)
    requires Covered(a, x) == Covered(b, y)
    ensures a == b && x == y
  {
    hide Name;
    NamesPrintable(a);
    NamesPrintable(b);
    AsciiHasNoZero("PayTPv1-" + Name(a));
    AsciiHasNoZero("PayTPv1-" + Name(b));
    LabelEnds(LabelBytes(a), x, LabelBytes(b), y);
    LabelsDiffer(a, b);
  }

  /** The slice's tag is an authenticator outside the reserved range. */
  function Extra(l: DomainLabel): set<nat> { if l.Slice? then {2} else {} }

  /** A signature over one object verifies for another only if both are of the same type and agree on
      every non-authenticator field. */
  lemma SignedObjectsAgree(a: DomainLabel, x: seq<Tlv.Field>, b: DomainLabel, y: seq<Tlv.Field>)
    requires Tlv.FieldsOk(x) && Tlv.Ascending(x) && Tlv.FieldsOk(y) && Tlv.Ascending(y)
    requires Covered(a, Tlv.CoveredBytes(x, Extra(a))) == Covered(b, Tlv.CoveredBytes(y, Extra(b)))
    ensures a == b && Tlv.CoveredFields(x, Extra(a)) == Tlv.CoveredFields(y, Extra(a))
  {
    CoveredBinds(a, Tlv.CoveredBytes(x, Extra(a)), b, Tlv.CoveredBytes(y, Extra(b)));
    Tlv.CoveredBinds(x, y, Extra(a));
  }
}
