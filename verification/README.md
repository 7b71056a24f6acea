# The money path, verified

This project models the money path of the channel and two-leg settlement plane in Dafny 4.11 and proves
what it promises: the settlement arithmetic, the on-rail contracts that pay out, the merchant's books that
must agree with them, and the logs that survive a crash. `dafny verify dfyconfig.toml` checks all of it.

## How it is laid out

- **Arithmetic.** `F7` divides a round into P, E and the per-role E_r with explicit 128- and 256-bit bounds;
  `Sums` holds the shared facts about sums and floors.
- **Contracts and rails.** `Instance` is the meed instance as a value with its operations, `VirtualRail` the
  synchronous rail, `AsyncRail` the rail that confirms, finalizes and reorgs. `InstanceContract`,
  `RailContract` and `AsyncContract` are the same three as objects updated in place, each method proved to do
  what the function does. `Ledger`, `RailConservation` and `RailHistory`, and `AsyncReorg`, `AsyncHistory` and
  `AsyncOutOfOrder`, prove the theorems over runs.
- **Merchant carriage.** `Metering`, `Books` and `BookMoves` are one channel; `Carriage` is every handler over
  the carriage's maps, the durable decisions and the rail, plus restarts, other replicas' records and everyone
  else's calls on the rail; `CarriageContract` is the carriage as an object. `CarriageBooks`, `CarriageDraws`
  and `CarriageRuns` prove that the books never outrun the rail; `Escrow*` that one shared settle pointer is
  solvent; `Dispositions`, `Chains` and `Refunds` what closing, chaining and refunding keep; `Credits` that
  every credit is backed; `NetBounds` and `NetTogether` how far a postpay channel can be paid, and `NetOverrun`
  the run that passes it. `CarriageHistory` is what no run forgets, and `CarriageSteps` holds the facts about
  single messages that these share.
- **Durable logs and redemption.** `Disk`, `Framing`, `DecisionLog`, `NonceLog` and the objects in
  `DecisionStore` and `NonceStore`; `TwoLeg`, `TwoLegRuns` and `TwoLegMerchant` for the redemption, `TwoLegRetry`
  for what a redemption that stopped half-way comes to, and `TwoLegStranded` the run in which it comes to nothing.
- **Codecs.** `Leb128`, `Tlv`, `Integers`, `Envelope`, `Derive`, `Fingerprints`.

SHA-256 is an injective constructor over its preimage, and the codec modules prove that the preimages bind
what they name. A signature check is a boolean of the message or the identity of the signing key. A map with
an absent balance reads as zero. The success or failure of each durable write, and the bytes a failed one
leaves, are parameters, so every lemma covers them all.

## What the proofs found

Where the code and its comments differ, the model follows the code. Every result of this kind has its exact
condition and an input that shows it; the inputs that are runs start from an empty carriage, rail or chain
and open channels over the four schema roles.

- **Imports.** Import uniqueness is per (predecessor, reference). A position recorded earlier under another
  reference stays importable after the predecessor is committed (`Chains.SecondImport`), exactly while an
  unconsumed position of it is recorded (`Chains.ReimportIff`, `Chains.NeverReimported`).
- **Refunds.** A close refunds exactly under `Refunds.RefundsIff`, in which no durable write takes part, and the
  refund key is the reference the close names. With disposition records written a channel is refunded at most
  once (`Refunds.RefundedOnce`). A second refund needs a record that failed and another reference
  (`Refunds.SecondRefundNeeds`); `EscrowLimits.RefundedTwice` is a run with both.
- **Two ways to pay a postpay channel.** Funding and net legs are each within the merchant-net
  (`NetBounds.PostpayWithinMetered`). A round's net leg is not re-checked against funding credited meanwhile.
  Over a run their sum, on channels and recorded positions, stays within the merchant-net at every point if and
  only if every net leg was covered by what was left when its proof folded it (`NetTogether.SumIff`); otherwise
  it can reach twice what was metered (`NetOverrun.PaidTwice`). The sum with the leg in flight stays within it if
  and only if every credit left room for that leg (`NetTogether.TogetherIff`), which is enough for the first and
  not needed for it (`NetTogether.RoomCovers`, `NetOverrun.RoomTakenUnproved`).
- **Redemption retries.** The finality time a leg check reads is the submission until the leg is final and the
  delay later from then on (`crates/paytp-rail/src/virtual_rail.rs:953-966`), so a leg quoted at the weakest
  level can pass and later be Expired. Checks that passed keep passing if and only if both legs are final within
  the honor window (`TwoLegRetry.LegsStayIff`). Then every retry after the attestation is served, unless another
  claim took the nonce or a reference or the disk fails (`TwoLegRetry.RetryConverges`, and with every redeemer's
  acts interleaved `TwoLegRetry.NeverRefused`). Otherwise the entry is attested and, once the legs are final, no
  retry is served unless its receipt is stored (`TwoLegRetry.RetryOutcome`); `TwoLegStranded.NeverServed` is such
  a run.
- **Confirmation on the reorg-capable rail.** A confirmation moves exactly what its operation says if and only
  if its debit is covered then (`AsyncRail.ConfirmExactIff`); it was checked at submission only, and a run can
  mint (`AsyncOutOfOrder.UncheckedDebitMints`).
- **Reorgs.** Out of confirmation order a reorg is sound if and only if no later advance on its channel passed
  the position it started from and the shortfalls balance (`AsyncOutOfOrder.OutOfOrderReorg`). With every debit
  covered as executed, the second half asks that the reorg finds what it takes back and that the later
  operations would have been covered without it: each is needed given the other
  (`AsyncOutOfOrder.CoveredReorg`), and neither when the two shortfalls cancel
  (`AsyncOutOfOrder.SpentThenReorged`, `AsyncOutOfOrder.ShortfallsCancel`).
- **Conservation.** A call destroys value exactly under `RailConservation.DestroysIff`, and a run from a new rail
  destroys none if and only if each instance it pours into has shares and takes in no more than 128 bits over
  the whole run (`RailConservation.NothingDestroyed`). A bound on the inflow alone is not enough
  (`RailConservation.CirculationDestroys`).
- **Watermarks.** An advance reaches its target if and only if the instance has shares to pay or was there
  already (`CarriageDraws.AdvanceReaches`); an instance without shares answers all the same, so the books
  theorem asks the channel's own instance for shares, as a seed derived from the four roles gives it.
- **Dust.** Reconciliation dust of one unit, which the comment at
  `crates/paytp-merchant/src/carriage.rs:2602` allows for chained successors, does not occur: every reached
  settled sum is a whole number of units (`CarriageRuns.CloseDrawsTheRest`).
- **Widths.** An address shows only the first half of its seed (`RailTypes.AddressBindsHalfTheSeed`), and a log
  frame truncates its length at 2^32 (`Framing.FrameRoundTripIff`). The sum under a carve saturates at 256 bits,
  so carving once takes less than carving in parts exactly when the parts no longer fit
  (`F7.CarveOnceDominates`, `F7.FullCarves`).

## Model

| member | source | states |
|---|---|---|
| CarriageRuns.BooksNeverOutrun | crates/paytp-merchant/src/carriage.rs:1398-1427 | In every state any run of carriage and rail reaches, whatever else is deployed: what a channel has settled itself is funded on its watermark, and each destination of its instance has already been paid at least its floored share of it, if the channel's own instance has any share to pay |
| CarriageRuns.RoundLedger | crates/paytp-merchant/src/carriage.rs:1102-1108 | In every reachable state: at most one unconfirmed round per channel; per role settled = opening + sum of E_r over meed-folded rounds; net legs = opening + sum of outputs over net-folded rounds; settled <= evidenced basis <= metered, per role |
| CarriageRuns.RoundsAreCurrent | crates/paytp-merchant/src/carriage.rs:1366-1368 | In every reachable state an unconfirmed round captured the ledger's present version (the staleness rejection is unreachable), its target is what is settled plus its P, and folding it carves exactly P out of the window |
| CarriageRuns.CloseDrawsTheRest | crates/paytp-merchant/src/carriage.rs:2532-2552 | In every reachable state a close's pinned carve is floor((sum of evidenced accruals - sum of imported openings)/10000), at least what is already settled, equal to the whole-chain carve less the imported one, with no reconciliation dust |
| CarriageRuns.HandleKeeps | crates/paytp-merchant/src/carriage.rs:751-2524 | Every handler, restart, replica record and foreign rail call keeps the joint invariant of books, watermarks, recorded draws and recorded positions |
| CarriageRuns.ServeKeeps | crates/paytp-merchant/src/carriage.rs:666-749 | The joint invariant holds after every sequence of messages from an empty carriage and a new rail |
| CarriageDraws.AdvanceReaches | crates/paytp-rail/src/virtual_rail.rs:874-951 | An advance that is answered with a reference has brought the watermark to its target if and only if the instance has a positive share total or was there already |
| CarriageDraws.DrawStep | crates/paytp-merchant/src/carriage.rs:2364-2470 | Drawing a locked round, or re-checking the draw already made, keeps the joint invariant: a fold happens only with the target funded |
| CarriageDraws.InterimStep | crates/paytp-merchant/src/carriage.rs:2232-2470 | An interim draw, whatever it finds in flight and however the rail answers, keeps the joint invariant |
| CarriageDraws.DrainKeeps | crates/paytp-merchant/src/carriage.rs:2171-2220 | Draining before a close folds a drawn round and removes an undrawn one without the books outrunning the rail |
| CarriageDraws.CloseStep | crates/paytp-merchant/src/carriage.rs:1833-2120 | A close of either kind, replayed or not, with any disposition write failing, keeps the joint invariant |
| CarriageBooks.OpenKeeps | crates/paytp-merchant/src/channel.rs:484-612 | An open, fresh or chained from a recorded position, establishes only channels whose books satisfy the invariant |
| CarriageBooks.ProposeStep | crates/paytp-merchant/src/carriage.rs:1035-1276 | A proposal, new or retried, locks only rounds that are current against the books |
| CarriageBooks.ProveStep | crates/paytp-merchant/src/carriage.rs:1278-1638 | A settlement proof, with its legs in any order and its durable write fresh, repeated or failed, keeps the joint invariant |
| CarriageBooks.FundingStep | crates/paytp-merchant/src/carriage.rs:1640-1831 | Funding, credited directly or rolled to the tip of a chain, keeps the joint invariant |
| CarriageBooks.RailKeeps | crates/paytp-rail/src/virtual_rail.rs:803-977 | Any call any other party makes on the rail keeps the joint invariant |
| Books.TargetIsSettledPlusP | crates/paytp-merchant/src/carriage.rs:970-1033 | The recomputed round extinguishes 10000 numerator units per unit of P and never more than is outstanding per role, and the cumulative target is the own settled units plus that P |
| Books.DustBound | crates/paytp-merchant/src/carriage.rs:2602-2628 | Reconciliation dust is 0 or 1 for all inputs the divisions accept, and 0 whenever the imported openings are whole units |
| Books.DrawsArePathIndependent | crates/paytp-merchant/src/carriage.rs:2563-2587 | Any number and timing of rounds draws, in total, floor((sum of last accruals - sum settled at the start)/10000) |
| Books.RoundArithmetic | crates/paytp-f7/src/lib.rs:214-229 | At unity P is the floored outstanding sum, sum of E_r is 10000 P, and no role is settled past its accrual |
| BookMoves.PostpayRoundInFlight | crates/paytp-merchant/src/carriage.rs:1200-1276 | The round the creditor verified at propose time is current against the books, prepay or postpay rules included |
| BookMoves.StartKeeps | crates/paytp-merchant/src/carriage.rs:1102-1108 | Locking a current round on an idle channel keeps the books |
| BookMoves.FoldProofKeeps | crates/paytp-merchant/src/carriage.rs:1508-1638 | Folding the meed leg, the net leg, both or neither keeps the books; the meed fold brings the own settled units exactly to the round's target and no other fold moves them |
| BookMoves.FoldInterimKeeps | crates/paytp-merchant/src/carriage.rs:2127-2159 | An interim fold keeps the books and brings the own settled units exactly to the round's target |
| BookMoves.RemoveKeeps | crates/paytp-merchant/src/carriage.rs:2171-2220 | Removing an undrawn round leaves every total as it was |
| BookMoves.CheckpointKeeps | crates/paytp-merchant/src/carriage.rs:892-962 | A countersigned checkpoint never shrinks the evidenced basis, in total or per role, nor its merchant-net, and keeps what is in flight within it |
| BookMoves.BatchKeeps | crates/paytp-merchant/src/carriage.rs:707-749 | Metering keeps the books and the evidenced basis |
| Metering.CheckpointAdvances | crates/paytp-merchant/src/carriage.rs:892-962 | The position at any accepted cutoff lies between the last checkpoint's and the live one, in total and per role |
| Metering.BatchOk | crates/paytp-merchant/src/carriage.rs:707-749 | A batch commits whole or not at all, keeps the metering within its window and leaves the checkpointed position alone |
| Metering.BatchLinear | crates/paytp-f7/src/lib.rs:154-160 | Per-role accruals are the metered total times the role's basis points, over any imported base |
| Metering.CoveredKept | crates/paytp-merchant/src/carriage.rs:1770-1831 | The balance is never below metered minus credited, whatever the clamps do |
| EscrowRuns.BalanceCoversClaims | crates/paytp-merchant/src/carriage.rs:1990-2111 | Over any interleaving of unchained channels on one settle pointer that nobody else debits, disposition records written: the pointer's balance covers the sum of every channel's remaining refund plus carve and all payments not yet credited |
| EscrowRuns.InterimNeverShort | crates/paytp-merchant/src/carriage.rs:2364-2400 | Under those conditions the draw of an in-flight interim round is never refused for insufficient escrow |
| EscrowRuns.LockedNeverShort | crates/paytp-merchant/src/carriage.rs:2305-2400 | Nor is the draw made right after a new interim round is locked |
| EscrowRuns.RefundNeverShort | crates/paytp-merchant/src/carriage.rs:2011-2062 | Nor is the refund of a reconciling close, under any checkpoint reference |
| EscrowRuns.CloseDrawNeverShort | crates/paytp-merchant/src/carriage.rs:2481-2524 | Nor is the pinned carve's draw, in the reconciling close itself or in any retry |
| EscrowRuns.HandleEscrow | crates/paytp-merchant/src/carriage.rs:751-2524 | Every message keeps the escrow invariant |
| EscrowRuns.RefundArithmetic | crates/paytp-merchant/src/carriage.rs:1990-2088 | What a reconciling close releases is at most what the channel's claim sheds, the pinned carve staying covered |
| Escrow.CarveWithin | crates/paytp-merchant/src/carriage.rs:1940-1948 | For an unchained prepay channel carve <= evidenced total <= deposit, so the refund is exactly the deposit less the evidenced total |
| Escrow.TargetWithin | crates/paytp-merchant/src/carriage.rs:2563-2587 | No in-flight round targets past the evidenced carve |
| EscrowRail.AdvanceServes | crates/paytp-rail/src/virtual_rail.rs:874-951 | An advance charged to an account takes out at most what the watermark rises by, and is refused for escrow only when the balance is below what is missing to the target |
| EscrowRail.OthersServe | crates/paytp-rail/src/virtual_rail.rs:417-457 | No call that does not debit an account lowers its balance, and a payment into it raises the balance by what it adds to the claimable payments |
| EscrowLimits.RefundedTwice | crates/paytp-merchant/src/carriage.rs:2051-2095 | A run from an empty carriage and a new rail, over the four schema roles, in which the first close's disposition record fails and the retry names another reference: a channel that deposited ten is refunded twenty; Refunds.SecondRefundNeeds says that both are needed |
| Refunds.RefundsIff | crates/paytp-merchant/src/carriage.rs:1990-2062 | A close makes the rail execute a refund for its channel if and only if nothing terminal is known of the channel, the close names its operative checkpoint, a refund pointer is set, an unconsumed deposit is left and payable, the rail is up and the named reference was not released before; no durable write plays a part |
| Refunds.RefundedOnce | crates/paytp-merchant/src/carriage.rs:1926-2104 | With disposition records written, a channel is refunded at most once, whatever references its closes name and whatever runs, restarts and failures of other writes lie in between |
| Refunds.SecondRefundNeeds | crates/paytp-merchant/src/carriage.rs:2051-2104 | With no record assumed written: a second refund of a channel, after any run, needs that the first close left no terminal disposition in the store (from a clean store: that its record failed) and that the second names another reference |
| Refunds.RefundRecords | crates/paytp-merchant/src/carriage.rs:2063-2104 | What a refunding close leaves recorded: a terminal disposition in the store only together with one in memory, and from a clean store exactly when the record was written |
| CarriageHistory.ServeHistory | crates/paytp-merchant/src/carriage.rs:751-2524 | Over any run the rail's references, idempotency records and watermarks only grow and no durable decision is forgotten or changed |
| Dispositions.TerminalDispositionsLast | crates/paytp-merchant/src/carriage.rs:1926-1945 | With disposition records written, Reconciled and Committed are never left and no recorded decision changes, over any run with restarts |
| Dispositions.RefundExcludesImport | crates/paytp-merchant/src/carriage.rs:1985-2104 | No channel is both refunded and imported, in either order, whatever runs in between |
| Dispositions.ImportedOnce | crates/paytp-merchant/src/channel.rs:484-612 | Each (predecessor, reference) is imported at most once and each channel id established at most once, over any run with restarts |
| Dispositions.HandleDisp | crates/paytp-merchant/src/carriage.rs:751-2120 | Every message keeps memory and store agreeing on terminal dispositions and committed links going to channels opened later |
| Dispositions.RestartDisp | crates/paytp-merchant/src/carriage.rs:440-471 | A restart recovers every terminal disposition, accepted id and import bar |
| Dispositions.RunsAreKept | crates/paytp-merchant/src/carriage.rs:666-749 | Every run from an empty carriage with its disposition records written keeps memory and store agreeing and committed links acyclic |
| Chains.TipIsLive | crates/paytp-merchant/src/carriage.rs:540-551 | The bounded walk along committed links always ends at a channel that is not committed |
| Chains.ReimportIff | crates/paytp-merchant/src/channel.rs:506-510 | A committed predecessor can be imported again if and only if an unconsumed position of it is still recorded under some reference |
| Chains.NeverReimported | crates/paytp-merchant/src/channel.rs:506-510 | Once no unconsumed position of a committed predecessor is recorded, no later message imports it |
| Chains.SecondImport | crates/paytp-merchant/src/carriage.rs:766-880 | A run from an empty carriage, over the four schema roles, in which a predecessor is imported under two references, memory then naming the second successor and the store the first |
| Credits.CreditNeedsPayment | crates/paytp-merchant/src/carriage.rs:496-518 | A message that credits any channel consumes, in a decision recorded for the first time, one final payment to the merchant's pointer of at least that amount |
| Credits.CreditedOnce | crates/paytp-merchant/src/carriage.rs:496-518 | A reference is credited at most once, across channels, net legs and funding, failed writes, restarts and replicas |
| Credits.CreditsAreBacked | crates/paytp-merchant/src/carriage.rs:1681-1816 | Over any run, everything credited is at most the on-rail amounts of the references consumed, each counted once |
| NetBounds.PostpayWithinMetered | crates/paytp-merchant/src/carriage.rs:1745-1816 | In every reachable state a postpay channel's funding and its net legs are each at most its live metered merchant-net, chained openings included |
| NetBounds.RestingSnapshot | crates/paytp-merchant/src/carriage.rs:1949-1980 | A position recorded for a closed, fully evidenced channel carries funding and net within its own merchant-net |
| NetTogether.CreditFitsIff | crates/paytp-merchant/src/carriage.rs:1745-1816 | Crediting a transfer to a postpay channel keeps funding + net legs + the output of the round in flight within the live merchant-net if and only if the credited amount is at most what those leave of it, which is the case if and only if the whole transfer is |
| NetTogether.FoldFitsIff | crates/paytp-merchant/src/carriage.rs:1508-1604 | Folding a net leg leaves funding + net legs within the live merchant-net if and only if the leg fitted before |
| NetTogether.HandleSumIff | crates/paytp-merchant/src/carriage.rs:751-2524 | Any one message keeps funding and net legs together within the merchant-net, on every channel and every recorded position, if and only if it is not the proof of a net leg larger than what they leave of it |
| NetTogether.SumIff | crates/paytp-merchant/src/carriage.rs:1278-1638 | Over any run from an empty carriage the sum of funding and net legs, on every channel and every recorded position, stays within the merchant-net at every point if and only if every net leg was covered by what was left when it was folded |
| NetTogether.HandleFitsIff | crates/paytp-merchant/src/carriage.rs:751-2524 | Any one message keeps funding, net legs and the leg in flight together within the merchant-net, on every channel and every recorded position, if and only if it is not a credit that takes the room of a leg in flight |
| NetTogether.TogetherIff | crates/paytp-merchant/src/carriage.rs:1640-1831 | Over any run from an empty carriage the same sum with the net leg in flight stays within the merchant-net at every point if and only if every credit left room for that leg when it was handled |
| NetTogether.RoomCovers | crates/paytp-merchant/src/carriage.rs:1508-1816 | A run in which every credit left room folds only covered legs |
| NetTogether.BothWithinMetered | crates/paytp-merchant/src/carriage.rs:1508-1816 | After a run that folded only covered legs no postpay channel has been paid, by funding and net legs together, more than the merchant-net it metered |
| NetTogether.NoProofNoOverrun | crates/paytp-merchant/src/carriage.rs:1508-1604 | A run without settlement proofs folds only covered legs, whatever is credited |
| NetOverrun.RoomTakenUnproved | crates/paytp-merchant/src/carriage.rs:1745-1816 | For every 0 < x < 100 a run from an empty carriage whose credit takes the room of the leg in flight, and in which the sum has not passed the merchant-net: the two conditions differ |
| NetOverrun.PaidTwice | crates/paytp-merchant/src/carriage.rs:1508-1816 | The same run with the leg proved: a channel that metered x ends with x of funding and x of net legs |
| CarriageContract.CarriageNode.OnOpen | crates/paytp-merchant/src/carriage.rs:751-890 | The handler, updating its maps in place, moves carriage and rail exactly as the specification and keeps the invariant |
| CarriageContract.CarriageNode.OnPropose | crates/paytp-merchant/src/carriage.rs:1035-1276 | The same for a settlement proposal |
| CarriageContract.CarriageNode.ReadAll | crates/paytp-merchant/src/carriage.rs:1378-1470 | The loop over a proof's legs reads exactly what the leg-by-leg specification reads |
| CarriageContract.CarriageNode.OnProof | crates/paytp-merchant/src/carriage.rs:1278-1638 | The same for a settlement proof |
| CarriageContract.CarriageNode.TipOf | crates/paytp-merchant/src/carriage.rs:540-551 | The hop loop computes the specified tip |
| CarriageContract.CarriageNode.OnFunding | crates/paytp-merchant/src/carriage.rs:1640-1831 | The same for funding |
| CarriageContract.CarriageNode.FindInFlight | crates/paytp-merchant/src/carriage.rs:2171-2220 | The scan finds the one unconfirmed round exactly when there is one |
| CarriageContract.CarriageNode.OnInterim | crates/paytp-merchant/src/carriage.rs:2232-2470 | The same for an interim draw |
| CarriageContract.CarriageNode.OnClose | crates/paytp-merchant/src/carriage.rs:1833-2120 | The same for a close: refund, drain, pin, record, draw, terminate, in that order |
| F7.ExtinguishPerRole | crates/paytp-f7/src/lib.rs:238-286 | For every input: a domain error iff the numerators leave the domain, an inconsistency iff E exceeds their sum, else floor(E N_r/N) plus one for exactly the first shortfall roles with N_r > 0; no other error branch or assertion is reachable |
| F7.Sweep | crates/paytp-f7/src/lib.rs:262-276 | One sweep places the whole shortfall |
| F7.DivideRound | crates/paytp-f7/src/lib.rs:214-229 | For every input equals the specified division, including which inputs are errors |
| F7.ComputePExact | crates/paytp-f7/src/lib.rs:169-179 | In domain P is the exact quotient, refused exactly when it needs more than 128 bits |
| F7.ComputeEExact | crates/paytp-f7/src/lib.rs:183-189 | For an accepted P the product is exact and never an error |
| F7.ShortfallBound | crates/paytp-f7/src/lib.rs:255-283 | The shortfall is below the number of positive numerators, so one sweep suffices |
| F7.AttributionConserves | crates/paytp-f7/src/lib.rs:238-286 | The attribution sums to E and gives no role more than its numerator |
| F7.DivisionConserves | crates/paytp-f7/src/lib.rs:214-229 | Sum of E_r is E <= N, E_r <= N_r, P < 2^128, and a leg is carried iff E >= 1 |
| F7.UnityDivision | crates/paytp-f7/src/lib.rs:214-229 | At unity P = floor(N/10000) and E = 10000 P |
| F7.RoundStaysInDomain | crates/paytp-f7/src/lib.rs:214-229 | What a round leaves is again divisible without error and smaller by exactly E |
| F7.RepeatedRoundsEnd | crates/paytp-f7/src/lib.rs:194-229 | Repeated rounds end with E = 0 and strictly shrink N while a leg is carried |
| F7.UnityNeedsOneRound | crates/paytp-f7/src/lib.rs:214-229 | At unity repeated rounds pay floor(N/10000) in all and leave N mod 10000 |
| F7.Accrue | crates/paytp-f7/src/lib.rs:154-160 | In place, each role's accrual rises by amount times basis points, saturating at 256 bits |
| F7.AccrualIsLinear | crates/paytp-f7/src/lib.rs:154-160 | Any sequence of amounts accrues the basis points times their sum while that fits |
| F7.Claimable | crates/paytp-f7/src/lib.rs:295-311 | What is claimable plus what is paid is the floored share; nothing is claimable outside the share's domain |
| F7.CloseReversionCredit | crates/paytp-f7/src/lib.rs:379-387 | Refused exactly when more was extinguished than accrued; else credit plus floored extinction is the carve of the saturating sum |
| F7.CarveOnceDominates | crates/paytp-f7/src/lib.rs:325-327 | Carving once takes at most one unit more than carving in two parts, and never less if and only if the two carves together fit the width; sums that fit 256 bits are such a case |
| Instance.AggregateMeaning | crates/paytp-rail/src/instance.rs:145-181 | Aggregation keeps every named destination once, at the capped sum of its roles' basis points |
| Instance.ResidueBound | crates/paytp-rail/src/instance.rs:207-232 | The floored shares never exceed V and leave less than one unit per destination |
| Instance.PayoutsReach | crates/paytp-rail/src/instance.rs:207-232 | A payout gives each destination exactly the rise of its own paid counter and no one else anything |
| Instance.WatermarkConvergence | crates/paytp-rail/src/instance.rs:465-510 | Any sequence of advances leaves a channel as one advance to the largest target would, and changes nothing outside the watermarks |
| Instance.PayoutsTelescope | crates/paytp-rail/src/instance.rs:465-510 | The payouts of all advances add up, per destination, to the floored share of the funded position less that of the starting one |
| Instance.WatermarkConserves | crates/paytp-rail/src/instance.rs:465-532 | Paid plus residue is funded, the residue below the destination count, each paid counter the floored share |
| Instance.RestoreUndoesChannel | crates/paytp-rail/src/instance.rs:538-572 | Restoring a channel's snapshot after any advances leaves exactly the other channels' advances |
| Instance.ExitIsWhole | crates/paytp-rail/src/instance.rs:307-415 | A leaving entry's whole amount goes to the recipients' pool or to its refund pointer, never both, never in part |
| Instance.NoExitNoValue | crates/paytp-rail/src/instance.rs:239-415 | A call that takes no entry out moves no value |
| Instance.EntryFate | crates/paytp-rail/src/instance.rs:239-415 | Over any run an entry leaves at most once, and once out it never changes |
| Instance.ReclaimHistory | crates/paytp-rail/src/instance.rs:346-396 | On a non-decreasing clock a reclaim was opened within [T_open, T_lapse] and executed strictly after opening plus the contest period |
| Instance.LapsedIsClaimable | crates/paytp-rail/src/instance.rs:400-415 | A FUNDED entry past its lapse can only be claimed, attested or cancelled away, and while it stands the claim succeeds |
| Instance.FundingCannotSquat | crates/paytp-rail/src/instance.rs:239-286 | Funding creates an entry only under the id its own terms determine and touches no other |
| InstanceContract.MeedInstance.Distribute | crates/paytp-rail/src/instance.rs:207-232 | The loop over destinations, in place, is the specified distribution |
| InstanceContract.MeedInstance.AdvanceChannelMeed | crates/paytp-rail/src/instance.rs:465-510 | The loop over destinations, in place, is the specified advance |
| InstanceContract.MeedInstance.RestoreChannelWatermark | crates/paytp-rail/src/instance.rs:552-572 | In place, the specified restore |
| InstanceContract.MeedInstance.FundEntry | crates/paytp-rail/src/instance.rs:239-286 | In place, the specified funding with its error order |
| InstanceContract.MeedInstance.Attest | crates/paytp-rail/src/instance.rs:307-321 | In place, the specified attestation |
| InstanceContract.MeedInstance.ClaimLapsed | crates/paytp-rail/src/instance.rs:400-415 | In place, the specified claim |
| Ledger.StepHeld | crates/paytp-rail/src/instance.rs:207-510 | For every instance call: held + paid out + destroyed = held before + taken in |
| RailTypes.AddressBindsHalfTheSeed | crates/paytp-rail/src/virtual_rail.rs:808-814 | Two seeds render to one address exactly when their first 16 bytes agree |
| VirtualRail.SplitSharesAreWhole | crates/paytp-rail/src/virtual_rail.rs:224-263 | A split's shares add up to exactly the base with the merchant last, and the vector is refused exactly when its meed exceeds the base |
| RailConservation.StepConserves | crates/paytp-rail/src/virtual_rail.rs:417-951 | One rail call conserves value exactly up to what it destroys, and reaches no overflow panic, while everything offered fits 128 bits |
| RailConservation.RunConserves | crates/paytp-rail/src/virtual_rail.rs:417-951 | The same over any sequence of calls; a payment refused for outage or for a split's width offers nothing |
| RailConservation.DestroysIff | crates/paytp-rail/src/instance.rs:207-232 | A call destroys value iff it pours some into an instance without shares or past the width of its running total |
| RailConservation.NothingDestroyed | crates/paytp-rail/src/virtual_rail.rs:650-800 | From a new rail a run destroys nothing if and only if every instance it pours anything into has shares to pay and takes in no more, over the whole run, than its running total's 128 bits; every running total is what was poured in, up to that width |
| RailConservation.ExactlyHeld | crates/paytp-rail/src/virtual_rail.rs:417-951 | With shares everywhere and what was poured into each instance within 128 bits, what the rail holds after any run from a new rail is exactly what came in |
| RailConservation.CirculationDestroys | crates/paytp-rail/src/instance.rs:207-232 | A run from a new rail (one deployment, one payment, the same money drawn into the instance twice) in which the inflow fits 128 bits and one unit of it is destroyed, so a bound on inflow alone is not enough |
| RailHistory.RunGrows | crates/paytp-rail/src/virtual_rail.rs:400-951 | References, idempotency records and recipients never change, running totals and watermarks only rise |
| RailHistory.SettledOnce | crates/paytp-rail/src/virtual_rail.rs:824-835 | Once settled, an authorization is answered with the same reference and moves nothing, after any run and for any transfer |
| RailHistory.ReleasedOnce | crates/paytp-rail/src/virtual_rail.rs:848-872 | The same for keyed releases |
| RailHistory.FinalStays | crates/paytp-rail/src/virtual_rail.rs:953-973 | A final observation and its target are never withdrawn |
| RailHistory.FactsNeverOverstate | crates/paytp-rail/src/virtual_rail.rs:874-951 | In every reachable state no advance fact reports more than the watermark at that instance |
| RailContract.VirtualRailNode.RecordPayment | crates/paytp-rail/src/virtual_rail.rs:755-800 | In place, with the split loop, the specified payment |
| RailContract.VirtualRailNode.DistributeSplit | crates/paytp-rail/src/virtual_rail.rs:739-753 | The recipient loop pays the specified shares or reports the overflow |
| RailContract.VirtualRailNode.Settle | crates/paytp-rail/src/virtual_rail.rs:824-835 | In place, the specified settlement |
| RailContract.VirtualRailNode.ReleaseKeyed | crates/paytp-rail/src/virtual_rail.rs:848-872 | In place, the specified keyed release |
| RailContract.VirtualRailNode.FundClaim | crates/paytp-rail/src/virtual_rail.rs:650-737 | In place, the specified claim record, duplicate check before escrow check before commit |
| RailContract.VirtualRailNode.AdvanceMeed | crates/paytp-rail/src/virtual_rail.rs:874-951 | In place, the specified advance, never debiting more than the escrow check covered |
| AsyncRail.RevertUndoes | crates/paytp-rail/src/async_rail.rs:370-407 | A reorg right after a covered confirmation restores every balance, watermark and residue |
| AsyncRail.ExactIffCovered | crates/paytp-rail/src/async_rail.rs:255-366 | Confirming an operation moves every balance by exactly what the operation says if and only if its debit is covered at that moment, credits fitting 128 bits |
| AsyncRail.ConfirmExactIff | crates/paytp-rail/src/async_rail.rs:463-478 | The same for the confirmation of a submitted reference: every balance moves by what the record it leaves says, if and only if the debit is covered then |
| AsyncReorg.ReorgSoundness | crates/paytp-rail/src/async_rail.rs:255-540 | Over any run whose reorgs hit the latest survivor and whose debits are covered, balances and watermarks are those of confirming only the survivors, once, in order |
| AsyncHistory.MovesAtMostOnce | crates/paytp-rail/src/async_rail.rs:463-502 | Value moves for a reference at most once, and never before it is confirmed or finalized |
| AsyncHistory.SettleIdMovesOnce | crates/paytp-rail/src/async_rail.rs:571-592 | A settle id names one reference for good, whose value moves at most once |
| AsyncHistory.ReleaseKeyMovesOnce | crates/paytp-rail/src/async_rail.rs:677-701 | A release key names one reference for good; once dropped it is answered again and never moves value |
| AsyncHistory.FinalizedSurvives | crates/paytp-rail/src/async_rail.rs:507-530 | A finalized operation stays and its reorg is refused without effect |
| AsyncOutOfOrder.ReplayMoves | crates/paytp-rail/src/async_rail.rs:255-366 | Confirming any log of operations moves each balance by what they say plus what their debits lacked, each at its turn |
| AsyncOutOfOrder.MintsNothingIff | crates/paytp-rail/src/async_rail.rs:287-290 | A log mints nothing if and only if every debit in it is covered at its turn |
| AsyncOutOfOrder.OutOfOrderReorg | crates/paytp-rail/src/async_rail.rs:370-407 | A reorg of any earlier operation, debits covered or not, restores exactly the balances and watermarks of never having confirmed it if and only if no later advance on its channel passed the position it started from and, account by account, what the executed run and the reorg lacked is what the later operations alone would have lacked |
| AsyncOutOfOrder.CoveredReorg | crates/paytp-rail/src/async_rail.rs:370-407 | When every debit was covered as executed: if the reorg finds what it takes back, it is sound iff harmless and the later operations would have been covered without the operation; if they would, it is sound iff harmless and the reorg finds what it takes back |
| AsyncOutOfOrder.SpentThenReorged | crates/paytp-rail/src/async_rail.rs:370-407 | A run from an empty chain, harmless and covered as executed, whose reorg leaves 0 where its survivors alone give 3: a receipt passed on before it is reorged away |
| AsyncOutOfOrder.ShortfallsCancel | crates/paytp-rail/src/async_rail.rs:370-407 | A run from an empty chain in which neither half of the coverage holds and the reorg leaves exactly what its survivor alone gives: each half is needed only given the other |
| AsyncOutOfOrder.UncheckedDebitMints | crates/paytp-rail/src/async_rail.rs:287-290 | A run from an empty chain: one unit paid in, two releases of it accepted and then confirmed, two units at the destination; AsyncRail.ConfirmExactIff says when |
| AsyncContract.AsyncRailNode.ApplyOp | crates/paytp-rail/src/async_rail.rs:255-366 | In place, the specified deferred movement |
| AsyncContract.AsyncRailNode.RevertOp | crates/paytp-rail/src/async_rail.rs:370-407 | In place, the specified undo |
| AsyncContract.AsyncRailNode.Confirm | crates/paytp-rail/src/async_rail.rs:463-478 | In place, the specified confirmation |
| AsyncContract.AsyncRailNode.Reorg | crates/paytp-rail/src/async_rail.rs:507-530 | In place, the specified reorg |
| Framing.FrameRoundTripIff | crates/paytp-merchant/src/one_decision.rs:201-262 | A frame reads back iff its payload is shorter than 2^32 |
| Framing.ScanAfterCrash | crates/paytp-merchant/src/one_decision.rs:186-210 | After any prefix of an append the scan yields the records before it, plus the new one iff it was written to its last byte |
| Framing.ScanLog | crates/paytp-merchant/src/one_decision.rs:186-198 | A log with a torn tail scans to exactly its complete records and their length |
| DecisionLog.ExactlyOnce | crates/paytp-merchant/src/one_decision.rs:213-262 | Over any history of calls, failures, crashes and reopenings: once a key was answered, every later call gets that value or a failure, so Fresh comes at most once |
| DecisionLog.DecisionsLast | crates/paytp-merchant/src/one_decision.rs:213-262 | The map only grows along any history |
| DecisionLog.OneStrayPerFault | crates/paytp-merchant/src/one_decision.rs:156-262 | The map holds every acknowledged record and at most one unacknowledged one per failure or crash |
| DecisionLog.Reopened | crates/paytp-merchant/src/one_decision.rs:156-180 | Reopening gives the map in memory plus at most one fully-written record, and none if the store was not poisoned |
| DecisionLog.CrashKeeps | crates/paytp-merchant/src/one_decision.rs:156-210 | A crash inside an append leaves the old map, or with the last byte written the extended one |
| DecisionStore.Replay | crates/paytp-merchant/src/one_decision.rs:186-198 | The offset loop computes the specified replay |
| DecisionStore.WalOneDecision.Open | crates/paytp-merchant/src/one_decision.rs:156-180 | Opening truncates to the specified state |
| DecisionStore.WalOneDecision.Decide | crates/paytp-merchant/src/one_decision.rs:213-262 | In place, with failed append, truncation and seek, the specified decision |
| NonceLog.CombinedKeys | crates/paytp-merchant/src/store.rs:105-115 | A combined reference yields itself and its net part as used keys, nothing else |
| NonceLog.RecordRoundTrip | crates/paytp-merchant/src/store.rs:302-328 | Records decode from their encoding |
| NonceLog.RecordCanonical | crates/paytp-merchant/src/store.rs:311-328 | Only encodings decode, each to its own record |
| NonceLog.StepKeeps | crates/paytp-merchant/src/store.rs:253-448 | Every call, failure, crash and reopening keeps all consumptions, and a conforming log never opens as corrupt |
| NonceLog.SameReceipt | crates/paytp-merchant/src/store.rs:400-448 | Once a nonce was answered with a receipt every later success is that receipt, over any history |
| NonceLog.NoTwoNoncesShare | crates/paytp-merchant/src/store.rs:339-448 | In every state, replayed or live, two nonces share no used-reference key |
| NonceStore.Replay | crates/paytp-merchant/src/store.rs:339-376 | The offset loop computes the specified replay, refusing exactly the corrupt logs |
| NonceStore.WalMerchantStore.ConsumeNonce | crates/paytp-merchant/src/store.rs:400-448 | In place, the specified consumption with its error order |
| NonceStore.WalMerchantStore.Open | crates/paytp-merchant/src/store.rs:253-277 | Opens exactly the logs that are not corrupt, to the specified state |
| TwoLegRuns.ActKeeps | crates/paytp-merchant/src/twoleg.rs:231-464 | Every step of every concurrent redeemer, crash, reopening and rail call keeps the invariant behind issued receipts |
| TwoLegRuns.IssuedReceipts | crates/paytp-merchant/src/twoleg.rs:231-464 | An issued receipt implies the entry is ATTESTED and the nonce stored; one nonce has one receipt; two nonces share no used-reference key |
| TwoLegRuns.ReceiptsOverRuns | crates/paytp-merchant/src/twoleg.rs:231-464 | Over any run of concurrent redeemers, retries, crashes, reopenings and foreign rail calls: an issued receipt implies an ATTESTED entry attested exactly once in the run (unless it was so before), one nonce has one receipt, and two nonces share no used-reference key |
| TwoLegRuns.AttestedOnce | crates/paytp-merchant/src/twoleg.rs:400-420 | Along any run an entry becomes ATTESTED at most once, and exactly once when it ends so |
| TwoLegRuns.AttestationDistributes | crates/paytp-rail/src/virtual_rail.rs:515-531 | Whoever attests an entry, its whole amount is distributed in that one call and nothing else on the rail moves |
| TwoLegRetry.LegsStayIff | crates/paytp-merchant/src/twoleg.rs:336-352 | Leg checks that passed keep passing after every run of rail calls, whenever they are repeated, if and only if both references reach the strongest finality level within the quote's honor window |
| TwoLegRetry.RetryConverges | crates/paytp-merchant/src/twoleg.rs:231-464 | In any run from the start: once a redeemer has passed its checks on legs that are final in time and its entry is ATTESTED, then after any further acts (crashes, half-done consumptions, other redeemers, foreign rail calls) a retry at any time is served the stored receipt, or its own, which is then stored; it is refused exactly when another claim took the nonce or a reference, the disk working where it is needed |
| TwoLegRetry.NeverRefused | crates/paytp-merchant/src/twoleg.rs:231-464 | From there on no redeemer of the claim is refused any more, whatever acts of whomever are interleaved with its own, unless another claim has taken the nonce or one of the references or its own append failed |
| TwoLegRetry.RetryOutcome | crates/paytp-merchant/src/twoleg.rs:231-464 | Once both legs are at the strongest level, a retry after any such run is served exactly when its receipt is stored or the claim is free and its legs were final in time; a free claim whose legs were not is answered Expired |
| TwoLegRetry.CrashHeals | crates/paytp-merchant/src/store.rs:253-277 | A crash reopens the store, and the reopened store takes appends again |
| TwoLegStranded.NeverServed | crates/paytp-merchant/src/twoleg.rs:231-464 | A run from a new rail and an empty store, over any faithful receipt codec: legs quoted at the weakest level pass, the entry is attested, the process stops and the clock moves on; while the claim is free, every later retry, after any further acts, is Expired |
| TwoLegMerchant.RedeemTwoLeg | crates/paytp-merchant/src/twoleg.rs:231-464 | The redemption, on rail and store objects, runs the specified steps in order |
| Leb128.RoundTrip | crates/paytp-core/src/leb128.rs:20-69 | A number decodes from its encoding iff it is at most 2^32-1, with anything following it |
| Leb128.Canonical | crates/paytp-core/src/leb128.rs:45-69 | Whatever decodes is in range and is the encoding of its value |
| Leb128.EncodeInto | crates/paytp-core/src/leb128.rs:20-32 | The push loop appends the specified bytes |
| Leb128.DecodeLoop | crates/paytp-core/src/leb128.rs:45-69 | The shift loop computes the specified decoding |
| Tlv.ParseInvertsEncode | crates/paytp-core/src/tlv.rs:85-126 | A field list parses back from its encoding iff it is ascending with encodable lengths |
| Tlv.EncodeInvertsParse | crates/paytp-core/src/tlv.rs:85-126 | Whatever parses re-encodes to itself |
| Tlv.FromFieldsOrderFree | crates/paytp-core/src/tlv.rs:71-79 | Building keeps exactly the given fields and does not depend on their order |
| Tlv.CoveredBinds | crates/paytp-core/src/tlv.rs:132-140 | Equal covered bytes force the same non-authenticator fields |
| Tlv.FramesRoundTrip | crates/paytp-core/src/tlv.rs:419-454 | Framed objects parse back |
| Tlv.FramesCanonical | crates/paytp-core/src/tlv.rs:435-454 | Whatever parses as frames re-frames to itself |
| Tlv.CountPrefixedRoundTrip | crates/paytp-core/src/tlv.rs:375-409 | Count-prefixed lists parse back, for every item codec |
| Tlv.CountPrefixedCanonical | crates/paytp-core/src/tlv.rs:387-409 | Whatever parses as a count-prefixed list rebuilds to itself |
| Tlv.ParseLoop | crates/paytp-core/src/tlv.rs:85-117 | The buffer loop computes the specified parse |
| Integers.UintBijection | crates/paytp-core/src/tlv.rs:226-297 | Minimal unsigned integers: decode inverts encode on all naturals and accepted bytes re-encode to themselves |
| Integers.SintBijection | crates/paytp-core/src/tlv.rs:303-356 | Minimal signed integers: decode inverts encode on all integers, accepted bytes re-encode to themselves, and the width is the unique minimal one |
| Integers.EncodeNegative | crates/paytp-core/src/tlv.rs:303-333 | The search for the width terminates and the bytes decode back |
| Envelope.CoveredBinds | crates/paytp-core/src/envelope.rs:104-111 | Equal covered bytes force the same domain label and object bytes |
| Envelope.SignedObjectsAgree | crates/paytp-core/src/envelope.rs:54-111 | Equal signed bytes force the same label and the same non-authenticator fields |
| Derive.CanonicalBytesBind | crates/paytp-core/src/derive.rs:74-110 | Canonical bytes agree iff the inputs agree up to the order of the meed vector |
| Derive.SeedsBind | crates/paytp-core/src/derive.rs:115-130 | Split and instance preimages never coincide and each binds its inputs |
| Derive.IdsBind | crates/paytp-core/src/derive.rs:150-187 | Purchase and claim-record preimages never coincide and each binds its fields |
| Derive.NetMemosBind | crates/paytp-core/src/derive.rs:203-208 | A net memo binds its channel and checkpoint and is no entry id |
| Fingerprints.TermsPreimageBinds | crates/paytp-merchant/src/carriage.rs:2911-2949 | Round-terms preimages agree iff the proposals agree except for credited amounts and signatures |
| Fingerprints.ChainTermsBind | crates/paytp-merchant/src/channel.rs:147-174 | Chain-terms preimages are injective |
| Fingerprints.KeysBind | crates/paytp-merchant/src/carriage.rs:272-288 | Decision keys of all kinds are pairwise distinct |
| Fingerprints.DispositionRoundTrip | crates/paytp-merchant/src/carriage.rs:292-322 | Terminal dispositions decode from their encoding and only encodings decode; a revocable intent is never recorded |

## Left out

- CarriageRuns.BooksNeverOutrun: asks the channel's own instance for shares. The open derives the seed from its four-role vector (`crates/paytp-merchant/src/channel.rs:519-543`), which gives it a hundred; the model leaves the seed free, and two seeds may render to one address.
- EscrowRuns.BalanceCoversClaims: assumes a settle pointer that is a plain account and disposition records written; channels chained from a predecessor are outside it.
- Dispositions.TerminalDispositionsLast: assumes disposition records are written and by this carriage alone; a second carriage writing dispositions for the same channel is not covered.
- NetBounds.PostpayWithinMetered: assumes replicas record terminal dispositions only, as the code does; so does NetTogether.
- RailConservation.RunConserves: states what holds while everything offered in payments the rail does not refuse fits 128 bits; beyond that the rail's checked credits panic, modelled as a reply, and partial state after a panic is not.
- AsyncRail.ConfirmExactIff: asks that a release's credit fits 128 bits, where the code would cut it off; every other credit that does not fit panics, and the state after a panic is not modelled.
- F7.MeedCarve: the carve over unbounded sums, as the carriage's books use it; `F7.CarveOf` is the saturating one and agrees while the sum fits 256 bits.
- Carriage.Conforms: an authorization is a boolean for its signatures together with the role vector and the presence of the refund pointer; its other fields are not modelled.
- Metering.AcceptBatch: the metering record is not among the modelled files, so its slices, pauses and checkpoint arithmetic follow its observable contract on unbounded integers; saturation at 128 bits is not modelled. Batches and checkpoints therefore have no in-place handler.
- CarriageContract.CarriageNode.OnClose: one handler at a time, as under the carriage's lock; the map lookups that cannot fail in the original are preconditions of its helper methods.
- Conversion rounds (a baseline other than the denomination), rounds with more than one net output and the rail-less demonstration path: rejected or feature-gated in the code; a proposal of another shape is simply not plain.
- The drain before a close folds without asking for finality; on the synchronous rail that is exact, and the carriage over the asynchronous rail is not modelled.
- File systems below the append: page cache and platter are one; a crash keeps a prefix of the last write.
- Signatures, key derivation, sealed envelopes, JSON and HTTP: their outcome is a parameter.
- Quote, receipt and checkpoint codecs: opaque values with the equalities the callers check.
- Registry, pointer, host, slice, transcript and acknowledgement handling: small grammars and table lookups.
- Off-path views (status, balance and pointer getters, batch wrappers that loop over one modelled call).
- The synthetic checkpoint reference of a birth channel is a parameter of the configuration.
