/** What every rail reports about a transaction, and why it refuses one. */
module RailTypes {
  import opened Bytes
  import opened Instance
  import opened Options

  type Asset = string

  /** A 32-byte word carried on a transfer: chosen by the sender, or derived by an injective,
      domain-separated hash of what it names. */
  datatype Word =
    | Chosen(word: Octets)
    | OfRecord(id: RecordId)
    | OfRound(channel: ChannelId, ckpt: CkptRef)

  datatype AdvancedFact = AdvancedFact(channel: ChannelId, seed: Seed, funded: nat, delta: nat, asset: Asset)

  /** `canonical` is the reference every alias resolves to; on both rails it is the reference itself. */
  datatype RefInfo = RefInfo(
    to: Address, asset: Asset, amount: nat, memo: Option<Word>,
    fundsEntry: Option<RecordId>, fundsClaim: Option<RecordId>,
    advanced: Option<AdvancedFact>, canonical: nat)

  datatype Transfer = Transfer(to: Address, asset: Asset, amount: nat, memo: Option<Word>)

  datatype RailError =
    | NoSuchAccount
    | InsufficientEscrow
    | SplitOverflow
    | UnboundSeed
    | MeedOverBase
    | RefusedEntry(e: EntryError)
    | AlreadyFunded
    | Outage
    | Panic

  datatype Reply =
    | Ref(r: nat)
    | Keyed(r: nat, id: RecordId)
    | At(addr: Address)
    | Done
    | Failed(e: RailError)

  function MapEntryError(e: EntryError): RailError {
    if e == Duplicate then AlreadyFunded else RefusedEntry(e)
  }

  /** The rendered half of a seed is the address; two seeds share one exactly when their first 16
      bytes agree. */
  function AddressOf(seed: Seed): Address { "virt:0x" + Hex(Prefix16(seed)) }

  function Prefix16(seed: Seed): Octets { if |seed| <= 16 then seed else seed[..16] }

  lemma AddressBindsHalfTheSeed(a: Seed, b: Seed)
    ensures AddressOf(a) == AddressOf(b) <==> Prefix16(a) == Prefix16(b)
  {
    if AddressOf(a) == AddressOf(b) {
      var n := |"virt:0x"|;
      assert AddressOf(a)[n..] == Hex(Prefix16(a)) && AddressOf(b)[n..] == Hex(Prefix16(b));
      HexInjective(Prefix16(a), Prefix16(b));
    }
  }
}
