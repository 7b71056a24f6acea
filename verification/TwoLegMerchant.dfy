/** One redemption run to its end, on the rail object and the store object. */
module TwoLegMerchant {
  import opened Bytes
  import opened RailTypes
  import opened VirtualRail
  import RailContract
  import Disk
  import NonceLog
  import NonceStore
  import opened TwoLeg

  datatype Result = Redeemed(receipt: Receipt) | Declined(e: RedeemError)

  /** The steps of `TwoLeg` taken by one redeemer with nobody in between. */
  function Redeem(m: Merchant, rail: Rail, store: Store, r: Request, body: Octets, io: Disk.Io): (x: (Rail, Store, Result))
    requires ValidRail(rail) && NonceLog.IoFor(m.codec, EntryFor(m, r, body), io)
    ensures ValidRail(x.0)
  {
    var p := Look(m, rail, store, Look(m, rail, store, Look(m, rail, store, Look(m, rail, store, Asked(r)))));
    match p
    case Served(_, receipt) => (rail, store, Redeemed(receipt))
    case Rejected(_, e) => (rail, store, Declined(e))
    case _ =>
      var (rail', reply) := PostAttestation(m, rail, QuoteFor(m, r));
      match Look(m, rail', store, Posted(r, !reply.Failed?))
      case Rejected(_, e) => (rail', store, Declined(e))
      case _ =>
        var (store', out) := NonceLog.Consume(m.codec, store, EntryFor(m, r, body), io);
        match out
        case Accepted(receipt) => (rail', store', Redeemed(receipt))
        case Refused(e) => (rail', store', Declined(if e.Replayed? then AlreadySpent else StoreUnavailable))
  }

  method RedeemTwoLeg(m: Merchant, rail: RailContract.VirtualRailNode, store: NonceStore.WalMerchantStore,
                      r: Request, body: Octets, io: Disk.Io) returns (out: Result)
    requires rail.Ok() && store.codec == m.codec && NonceLog.IoFor(m.codec, EntryFor(m, r, body), io)
    modifies rail, store
    ensures rail.Ok() && (rail.Abs(), store.Abs(), out) == Redeem(m, old(rail.Abs()), old(store.Abs()), r, body, io)
  {
    hide MeedLegCheck, StatusCheck, NetLegCheck, PostAttestation, ValidRail, NonceLog.Consume, NonceLog.IoFor;
    var q := QuoteFor(m, r);
    ghost var seen := Look(m, rail.Abs(), store.Abs(), Asked(r));
    if Delimited(r) { return Declined(PaymentUnverified); }
    var peeked := store.Peek(q.nonce, RecordFor(q, r));
    match peeked {
      case Stored(receipt) => return Redeemed(receipt);
      case Conflict => return Declined(AlreadySpent);
      case FreshNonce =>
    }
    if !WindowsOk(q) { return Declined(QuoteInvalid); }
    assert seen == Unspent(r);
    ghost var before := rail.Abs();
    var view := rail.View();
    var meed := MeedLegCheck(m, view, r);
    if meed.Some? { return Declined(meed.value); }
    var status := StatusCheck(m, view, r);
    if status.Some? { return Declined(status.value); }
    var net := NetLegCheck(m, view, r);
    if net.Some? { return Declined(net.value); }
    assert Look(m, before, store.Abs(), Look(m, before, store.Abs(), Look(m, before, store.Abs(), seen))) == NetSeen(r);
    var reply := Post(m, rail, q);
    view := rail.View();
    if reply.Failed? && !IsAttested(view, q) { return Declined(PaymentUnverified); }
    var consumed := store.ConsumeNonce(EntryFor(m, r, body), io);
    match consumed {
      case Accepted(receipt) => return Redeemed(receipt);
      case Refused(e) => return Declined(if e.Replayed? then AlreadySpent else StoreUnavailable);
    }
  }

  method Post(m: Merchant, rail: RailContract.VirtualRailNode, q: Quote) returns (reply: Reply)
    requires rail.Ok()
    modifies rail
    ensures rail.Ok() && (rail.Abs(), reply) == PostAttestation(m, old(rail.Abs()), q)
  {
    reply := rail.CallEntry(InstanceAddr(q), AttestCall(m, q));
  }
}
