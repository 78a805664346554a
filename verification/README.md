# CrownFi: settlement, proofs and payment protocols

Dafny models of the parts of CrownFi where money, votes and tickets change hands, with proofs of
what those parts promise. `dafny verify dfyconfig.toml` checks everything.

| part | modules | source |
|---|---|---|
| numbers and maps | `Wrappers`, `MapSums`, `Bits`, `Radix` | sums over maps, bits and positional notation used by the rest |
| prediction market contract | `MarketLedger`, `MarketSolvency`, `MarketClaims`, `MarketRuns`, `MarketPayouts`, `MarketRules`, `MarketContract`, `MarketOverflow` | `contracts/prediction-market/src/lib.rs` |
| vote snapshots | `Merkle`, `MerkleShape`, `Snapshots` | `services/api/src/voting_proofs.rs` |
| account addresses | `Crc16`, `CrcResidue`, `StrKey`, `AddressForm`, `AddressCode` | `services/api/src/stellar_intents.rs` |
| payment envelopes | `Base64`, `Base64Form`, `UnicodeText`, `Envelope`, `EnvelopeProofs`, `EnvelopeLayout`, `EnvelopeCode` | `services/api/src/stellar_intents.rs` |
| off-chain market settlement | `SettlementPlan`, `SettlementRules`, `SettlementRun`, `SettlementRunRules` | `services/api/src/market_positions.rs`, `market_settlement.rs` |
| tickets | `Tickets`, `TicketsProofs`, `TicketsRules`, `TicketsOwners`, `TicketsLapse`, `TicketsTables` | `services/api/src/ticketing.rs`, `ticket_operations.rs`, `orders.rs` |
| fulfilment | `Fulfilment`, `FulfilmentProofs`, `FulfilmentRules`, `FulfilmentTables` | `services/api/src/fulfillment.rs` |
| payouts | `Payouts`, `PayoutsProofs`, `PayoutRules`, `PayoutsTables` | `services/api/src/payouts.rs` |
| payments | `Decimal`, `Reconciliation`, `ReconciliationProofs`, `ReconciliationRules`, `ReconciliationSigned`, `ReconciliationLate`, `ReconciliationTables` | `services/api/src/stellar_reconciliation.rs`, `orders.rs`, `stellar_intents.rs` |

Each part has the same shape. The specification is a set of functions: an entry point of the
contract or a request handler maps a state to a new state or an error, and `Run` folds a list of
steps, which includes what the rest of the world may do in between. Beside it stands the code in
the source's own form: a class whose methods update its fields or tables one after the other, a
loop that grows a buffer or moves a cursor. Its methods are proved equal to the specification,
error for error, and the theorems about the specification, mostly invariants over every run and
consequences of them, then hold of the methods.

The specification itself is held to statements that share nothing with it. The `Rules` modules say
in plain numbers and rows when exactly each call succeeds and what it leaves; `CrcResidue`,
`AddressForm`, `Base64Form`, `UnicodeText` and `EnvelopeLayout` say which bytes are meant, with
every constant written out; `MerkleShape` builds the tree again from the top.

A call of the contract is atomic because an abort rolls it back. A handler locks its rows with
`FOR UPDATE` inside a transaction, so it is one atomic step as well; two handlers commit a change
before they refuse, and so do their models. Cryptographic hashes are parameters. Where a property
needs a hash to be collision free, the theorem computes two different texts with one digest from
any counterexample, so nothing is assumed of the hash but the width of its output.

Some of the results are about limits of the code:

- A reservation whose fifteen minutes have passed lapses at the next request for the product even
  when its order is already paid; the order stays paid and can never be issued
  (`TicketsProofs.PaidReservationLapses`, `TicketsProofs.LapsedIsNeverIssued`; a run in which it
  happens is `TicketsLapse.FirstBuyerLoses`). Issuing a paid and proven order succeeds exactly when
  its reservation has not lapsed (`TicketsProofs.IssueSucceedsIff`).
- Evidence that was recorded as rejected blocks its transaction and index for good
  (`FulfilmentProofs.RejectionIsFinal`, `PayoutsProofs.RejectedNeverConfirms`,
  `ReconciliationProofs.JudgementIsFinal`).
- Chain evidence that matches its intent in every respect is refused exactly when a provider event
  has closed the attempt, or the order no longer awaits payment
  (`ReconciliationProofs.MatchingEvidenceIff`; a run in which it happens is
  `ReconciliationLate.FiveLumensComeLate`).
- The settlement planner takes its fee from the whole pool, so a winner may get less than the
  stake: nobody does exactly when the distributable amount covers the winning stake
  (`SettlementPlan.NobodyLosesIff`; a plan in which the winner does is
  `SettlementPlan.SoleWinnerLoses`). The contract, with its fee on the profit, never pays a winner
  less than the stake (`MarketRuns.ClaimSucceeds`).
- A claim can abort on a very large market: exactly when one of two products exceeds 128 bits
  (`MarketRuns.ClaimSucceeds`; a run in which it happens is `MarketOverflow.HugeClaimsOverflow`), and
  never when the square of the pot fits (`MarketRuns.ClaimAlwaysEnabled`).
- The base64 decoder accepts texts whose discarded bits are not zero; encoding again gives the
  text back exactly when they are (`Base64.ReencodeIff`; a text for which it does not is in
  `Base64.NonCanonicalIsAccepted`).
- A Merkle root alone does not tell a list of leaves from the same list with its last leaf repeated
  (`Snapshots.OddListSharesRoot`). The table of votes keeps receipts apart, so a snapshot has no
  repeated leaf, and its root does fix the votes, whatever their number
  (`Snapshots.SnapshotBindsVotes`).
- A comment in the migrations says that one transaction may carry several settlement items, but a
  unique index on the submitted hash of the items forbids it. The model follows the index,
  as it follows the indexes that allow an order one active payment attempt and an attempt one active
  intent.

## Model

| member | source | states |
|---|---|---|
| `MarketRuns.SolventAfterEveryRun` | contracts/prediction-market/src/lib.rs:266-464 | After any interleaving of calls on any number of markets (aborted calls included, clock and token moving freely), the books balance and the token balance covers the sum over all markets of what is still owed: the total pool while open or pending, less the gross already claimed once resolved, less the stakes already refunded once cancelled. |
| `MarketRuns.StepKeepsInv` | contracts/prediction-market/src/lib.rs:196-482 | Every entry point, whether it succeeds or aborts, keeps the invariant behind solvency: pool = sum of positions, total = sum of pools, claimed stake = sum of the claimed winning stakes, claimed gross = sum of their floor shares until the last claim and the whole pot after it. |
| `MarketRuns.TotalIsSumOfPools` | contracts/prediction-market/src/lib.rs:283-287 | The recorded total is the sum of the option pools. |
| `MarketRuns.MarketIsCovered` | contracts/prediction-market/src/lib.rs:395-464 | The shared balance covers what any single market owes, whatever the other markets owe. |
| `MarketRuns.ClaimSucceeds` | contracts/prediction-market/src/lib.rs:395-438 | In a reachable state a claim succeeds exactly when the caller signed, the market is resolved, the caller has a positive winning stake, has not claimed, and the two products the code computes fit 128 bits; it then pays the net of at least the stake, after a fee of the market's basis points of the profit, rounded down, in plain numbers. Lack of balance is never a reason. |
| `MarketRuns.ClaimAlwaysEnabled` | contracts/prediction-market/src/lib.rs:395-438 | If the square of the pot fits 128 bits, the claim of an unclaimed winner never aborts. |
| `MarketOverflow.LargeClaimsOverflow` | contracts/prediction-market/src/lib.rs:414-419 | The overflow is reachable: a run from the empty contract in which two users stake the same large amount ends with both entitled and the first claim of either aborting with Arithmetic. |
| `MarketOverflow.HugeClaimsOverflow` | contracts/prediction-market/src/lib.rs:414-419 | For instance with stakes of 2 to the 100 each. |
| `MarketRuns.ClaimDelivers` | contracts/prediction-market/src/lib.rs:425-436 | A claim adds the net to the winner and the fee to the treasury, takes both from the contract and touches no other balance, whichever of these three addresses coincide. |
| `MarketRuns.UnstakeSucceeds` | contracts/prediction-market/src/lib.rs:297-324 | While the market is open, unstaking succeeds exactly for a positive position, returns it whole, and never lacks balance. |
| `MarketRuns.RefundSucceeds` | contracts/prediction-market/src/lib.rs:440-464 | In a cancelled market a refund succeeds exactly for a signed, unrefunded user with a positive holding and pays the whole holding over all options; the summing loop never overflows. |
| `MarketRuns.TermsFrozen` | contracts/prediction-market/src/lib.rs:395-464 | No single step changes status, winner, pools, positions or fee of a resolved or cancelled market, or un-marks a claim. |
| `MarketRuns.TermsFrozenForever` | contracts/prediction-market/src/lib.rs:395-464 | The same over every later run. |
| `MarketRuns.PaidAtMostOnce` | contracts/prediction-market/src/lib.rs:395-464 | After a successful claim or refund, no claim and no refund of that user in that market succeeds again, after any further run. |
| `MarketRuns.ClaimKeepsInv` | contracts/prediction-market/src/lib.rs:395-438 | A successful claim keeps the invariant, through the fee transfer and the payout. |
| `MarketRuns.BookStepKeepsInv` | contracts/prediction-market/src/lib.rs:126-130 | A step on one market keeps the invariant of the whole contract when the balance moves with what that market owes. |
| `MarketRules.ClaimChargesTheRate` | contracts/prediction-market/src/lib.rs:405-427 | On the receipt of a claim in a reachable state, in plain numbers: fee * 10,000 <= profit * rate < (fee + 1) * 10,000, the fee is a tenth of the profit at most, and gross is the pro-rata share rounded down, or for the last claim what is left. |
| `MarketRules.WinnersHaveWaited` | contracts/prediction-market/src/lib.rs:326-380 | After every run a market with a winner was closed before the winner was named, the winner has a stake, and a resolved market has waited its whole delay. |
| `MarketRules.StakesFreezeAtClose` | contracts/prediction-market/src/lib.rs:266-324 | From its closing time on the stakes and pools of a market stay the same over every later run. |
| `MarketRules.StepIsTimely` | contracts/prediction-market/src/lib.rs:196-482 | No step shortens a wait, changes the times, options or resolver of a market, or moves a stake from the closing time on. |
| `MarketRules.CreateIff` | contracts/prediction-market/src/lib.rs:210-264 | When exactly a market is made, with 2 to 32 options, a fee of ten percent at most and a closing time ahead, and what it is. |
| `MarketRules.StakeIff` | contracts/prediction-market/src/lib.rs:266-295 | When exactly a stake succeeds, and that it moves the amount from the user to the contract, the position, the pool and the total, and nothing else. |
| `MarketRules.UnstakeIff` | contracts/prediction-market/src/lib.rs:297-324 | When exactly a stake is taken back, and that all of it moves. |
| `MarketRules.ProposeIff` | contracts/prediction-market/src/lib.rs:326-357 | When exactly a winner is named, and what changes. |
| `MarketRules.FinalizeIff` | contracts/prediction-market/src/lib.rs:359-380 | When exactly a market is resolved, and what changes. |
| `MarketRules.CancelIff` | contracts/prediction-market/src/lib.rs:382-393 | When exactly a market is cancelled, and what changes. |
| `MarketRules.AdminIff` | contracts/prediction-market/src/lib.rs:466-482 | When exactly staking is paused or the admin replaced, and what changes. |
| `MarketClaims.GrossIsFair` | contracts/prediction-market/src/lib.rs:414-419 | Before a claim the payout is at least the floor share, which is at least the stake, and within what is left of the pot, for the last claimant too. |
| `MarketClaims.LastClaimSurplus` | contracts/prediction-market/src/lib.rs:415-416 | The last claimant takes less than (number of winners) units more than the floor share. |
| `MarketClaims.SharesNearlyExhaust` | contracts/prediction-market/src/lib.rs:414-419 | The floor shares of all winners add up to at most the pot, and leave less than one unit per winner. |
| `MarketClaims.ClaimPays` | contracts/prediction-market/src/lib.rs:405-427 | The arithmetic of a claim: what gross, fee and net are, that fee plus net is gross, that the fee is the rate over 10,000 of the profit rounded down and a tenth of it at most, and exactly when the multiplications stay in range. |
| `MarketClaims.ClaimKeepsBook` | contracts/prediction-market/src/lib.rs:405-427 | A claim keeps the book consistent and lowers what the market owes by exactly the gross. |
| `MarketClaims.AllHaveClaimed` | contracts/prediction-market/src/lib.rs:414-416 | When the claimed stake reaches the winning pool, every winner has claimed. |
| `MarketSolvency.RefundTotalIsHolding` | contracts/prediction-market/src/lib.rs:450-453 | The refund loop never overflows and sums exactly the positions it has visited. |
| `MarketSolvency.RefundPaysWholeHolding` | contracts/prediction-market/src/lib.rs:450-453 | The refund is the whole holding of the user, at most the total pool. |
| `MarketSolvency.StakeKeepsBook` | contracts/prediction-market/src/lib.rs:266-295 | A stake keeps pool and total equal to the sums of the positions and raises what is owed by the amount. |
| `MarketSolvency.UnstakeKeepsBook` | contracts/prediction-market/src/lib.rs:297-324 | Unstaking keeps the sums and lowers what is owed by the position returned. |
| `MarketSolvency.RefundKeepsBook` | contracts/prediction-market/src/lib.rs:440-464 | A refund lowers what is owed by exactly the holding of the user. |
| `MarketPayouts.PotIsPaidOutExactly` | contracts/prediction-market/src/lib.rs:405-427 | Over a whole run: once every positive winning stake has claimed, the nets and fees paid add up to the total pool exactly; before that they never exceed it. |
| `MarketPayouts.GrossIsWhatWasPaid` | contracts/prediction-market/src/lib.rs:420-427 | The recorded claimed gross is the sum of nets and fees paid by the claims of the run. |
| `MarketPayouts.ExhaustedIffAllClaimed` | contracts/prediction-market/src/lib.rs:413-416 | The claimed stake equals the winning pool if and only if every winner has claimed. |
| `MarketPayouts.EveryWinnerIsFairlyPaid` | contracts/prediction-market/src/lib.rs:395-438 | Whatever the order of claims, a user is paid nothing before claiming, and afterwards the floor share plus less than (number of winners) units, exactly the floor share while others still have to claim. |
| `MarketPayouts.OnlyOneSurplus` | contracts/prediction-market/src/lib.rs:414-419 | Of any two claimants of a market at least one was paid the floor share exactly. |
| `MarketPayouts.OrderHardlyMatters` | contracts/prediction-market/src/lib.rs:414-419 | Two runs that reach the same resolved terms pay a user amounts that differ by less than the number of winners. |
| `MarketPayouts.RefundsAreHoldings` | contracts/prediction-market/src/lib.rs:440-464 | The refunds a run has paid on a market are exactly the holdings of the users it marks as refunded. |
| `MarketPayouts.RefundsReturnEverything` | contracts/prediction-market/src/lib.rs:440-464 | When everybody in a cancelled market has been refunded, the refunds add up to the total pool. |
| `MarketContract.Contract.constructor` | contracts/prediction-market/src/lib.rs:43-61 | The contract starts with empty storage, which satisfies the invariant. |
| `MarketContract.Contract.Initialize` | contracts/prediction-market/src/lib.rs:197-208 | The stored state after the call is that of the specification; a second initialisation changes nothing and reports AlreadyInitialized; the invariant is kept. |
| `MarketContract.Contract.CreateMarket` | contracts/prediction-market/src/lib.rs:210-264 | New market under the next number, or the first failing check and unchanged storage; invariant kept. |
| `MarketContract.Contract.Stake` | contracts/prediction-market/src/lib.rs:266-295 | Field-by-field updates of pool, position and total end in the specified state, or abort with the specified error and nothing changed; invariant kept. |
| `MarketContract.Contract.Unstake` | contracts/prediction-market/src/lib.rs:297-324 | The same for the return of a position. |
| `MarketContract.Contract.ProposeResolution` | contracts/prediction-market/src/lib.rs:326-357 | The same for a proposal by the resolver. |
| `MarketContract.Contract.FinalizeResolution` | contracts/prediction-market/src/lib.rs:359-380 | The same for the end of the delay, including the overflow of its sum. |
| `MarketContract.Contract.CancelMarket` | contracts/prediction-market/src/lib.rs:382-393 | The same for a cancellation by the admin. |
| `MarketContract.Contract.Claim` | contracts/prediction-market/src/lib.rs:395-438 | The same for a claim: claimed stake, claimed gross, the claimed mark and up to two transfers, or nothing; and on the receipt fee * 10,000 <= profit * rate < (fee + 1) * 10,000. |
| `MarketContract.Contract.Refund` | contracts/prediction-market/src/lib.rs:440-464 | The loop over options, against the recursive sum of the specification, then the mark and the transfer, or nothing. |
| `MarketContract.Contract.SetPaused` | contracts/prediction-market/src/lib.rs:466-476 | Only the admin changes the pause flag. |
| `MarketContract.Contract.TransferAdmin` | contracts/prediction-market/src/lib.rs:478-482 | Only the admin names a new admin. |
| `Merkle.MerkleRoot` | services/api/src/voting_proofs.rs:316-331 | The root loop over rebuilt levels computes the recursive root. |
| `Merkle.MerkleProof` | services/api/src/voting_proofs.rs:333-359 | The proof loop returns the sibling path, and an error exactly for an index out of range. |
| `Merkle.VerifyProof` | services/api/src/voting_proofs.rs:361-371 | The verification loop accepts exactly when climbing the proof from the leaf ends in the root. |
| `Merkle.ProofsVerify` | services/api/src/voting_proofs.rs:316-371 | For every leaf list and every index the generated proof climbs to the independently computed root, through odd levels whose last node is paired with itself. |
| `Merkle.ProofLength` | services/api/src/voting_proofs.rs:333-359 | The proof has as many steps as the logarithm of the leaf count, rounded up. |
| `Merkle.RootBinds` | services/api/src/voting_proofs.rs:316-331 | Two different leaf lists of equal length with the same root yield, by an explicit search, two different texts with the same digest. |
| `Merkle.ClimbBinds` | services/api/src/voting_proofs.rs:361-371 | Two different (leaf, proof) pairs with the same positions that climb to the same node yield such a collision. |
| `Merkle.ProofBinds` | services/api/src/voting_proofs.rs:333-371 | A proof with the generated position pattern that verifies carries the true leaf and the true siblings, or exhibits a collision. |
| `Snapshots.SnapshotBindsVotes` | services/api/src/voting_proofs.rs:133-166 | Two different vote lists of any two lengths, none at all included, each with distinct receipts, or the same votes in two rounds, with the same snapshot root: an explicit search among the texts hashed for the two snapshots finds two that collide. The root fixes the round, the votes, their order and their number. |
| `Snapshots.SameHeightSameLevel` | services/api/src/voting_proofs.rs:316-331 | Where nothing collides, two lists of different leaves with trees of one height and one root are equal, also when one is odd. |
| `Snapshots.LeafMeetsNode` | services/api/src/voting_proofs.rs:316-331 | Where one tree is higher, the first leaf of the lower one has the digest of a node text of the higher one, which the tag of a leaf text excludes. |
| `Snapshots.VerifiedVoteWasCounted` | services/api/src/voting_proofs.rs:133-371 | A proof of whatever length and positions that verifies against a snapshot root for a vote that was not counted exhibits two colliding texts among those hashed for the snapshot and for the verification. |
| `Snapshots.ClimbStartsInTree` | services/api/src/voting_proofs.rs:361-371 | Where nothing collides, whatever climbs to a node of the tree is a leaf or a node of the tree itself. |
| `Merkle.NodeTextBinds` | services/api/src/voting_proofs.rs:373-375 | The text hashed for a node can be split back into its halves. |
| `Snapshots.LeafTextBinds` | services/api/src/voting_proofs.rs:157-165 | The text hashed for a leaf can be split back into round, receipt and contestant. |
| `Snapshots.OddListSharesRoot` | services/api/src/voting_proofs.rs:316-331 | An odd list of three or more leaves and the same list with its last leaf repeated share a root; no snapshot has a repeated leaf. |
| `MerkleShape.RootIsTree` | services/api/src/voting_proofs.rs:316-331 | The root is that of a balanced tree built from the top, in which a missing right half repeats the left one and every hashed text is written out. |
| `MerkleShape.EmptyRoot` | services/api/src/voting_proofs.rs:317-319 | The root of no leaves is the digest of the text for it. |
| `MerkleShape.ProofSteps` | services/api/src/voting_proofs.rs:337-357 | Step j of a proof goes with bit j of the index: a zero bit names the tree over the block of leaves to the right, or the block itself if there is none, and a one bit the tree over the block to the left. |
| `MerkleShape.PairingKeepsTree` | services/api/src/voting_proofs.rs:321-329 | One level of pairing, with an odd last node paired with itself, does not change the tree. |
| `MerkleShape.ClimbsUp` | services/api/src/voting_proofs.rs:361-375 | Verification hashes the tagged text of the step and the current digest, each on its side. |
| `MerkleShape.VoteLeaf` | services/api/src/voting_proofs.rs:157-165 | The leaf of a vote is the digest of its tagged round, receipt and contestant. |
| `CrcResidue.CrcIsResidue` | services/api/src/stellar_intents.rs:744-757 | The checksum is the residue of the message, sixteen bits further left, in carry-less division by x^16 + x^12 + x^5 + 1. |
| `CrcResidue.ResidueIsUnique` | services/api/src/stellar_intents.rs:744-757 | A message has one such residue. |
| `CrcResidue.CheckValue` | services/api/src/stellar_intents.rs:744-757 | The checksum of "123456789" is 0x31C3. |
| `AddressForm.AcceptsExactlyAddresses` | services/api/src/stellar_intents.rs:711-742 | A text decodes to a key if and only if its 56 letters spell the number of the byte 48, the 32 bytes of the key and their residue, low byte first. |
| `AddressForm.StartsWithG` | services/api/src/stellar_intents.rs:735-737 | Every accepted address starts with a G. |
| `AddressCode.Crc16Xmodem` | services/api/src/stellar_intents.rs:744-757 | The loops over bytes and bits compute the recursive checksum, which is the residue of the message. |
| `AddressCode.MixByte` | services/api/src/stellar_intents.rs:746-755 | Eight conditional shifts of the loop body are eight steps of the register, and leave the residue of the register mixed with the byte and moved eight bits. |
| `Crc16.StepsLinear` | services/api/src/stellar_intents.rs:748-754 | Any number of register steps is linear over exclusive or. |
| `Crc16.StepsInjective` | services/api/src/stellar_intents.rs:748-754 | Register steps lose nothing: they are injective. |
| `Crc16.CrcInjective` | services/api/src/stellar_intents.rs:744-757 | Equal bytes keep different registers different. |
| `Crc16.TwoByteChangeDetected` | services/api/src/stellar_intents.rs:744-757 | Any change confined to two neighbouring bytes, anywhere in a message, changes the checksum. |
| `Crc16.LastNibbleShows` | services/api/src/stellar_intents.rs:744-757 | A change in the low half of the last byte shows in the low half of the checksum. |
| `AddressCode.DecodeStellarAccount` | services/api/src/stellar_intents.rs:711-742 | The decoder with its accumulator, length, alphabet, version and checksum checks computes the arithmetic reading of the address, with the same error for each failure, and accepts exactly addresses. |
| `AddressCode.Regroup` | services/api/src/stellar_intents.rs:715-731 | The accumulator loop turns base-32 letters into the bytes of the same number, with fewer than eight bits pending. |
| `StrKey.NothingLeft` | services/api/src/stellar_intents.rs:715-734 | After 56 letters exactly 35 bytes and no bits remain. |
| `StrKey.AcceptsExactlyEncodings` | services/api/src/stellar_intents.rs:711-742 | A text decodes to a key if and only if the key has 32 bytes and the text is its StrKey encoding. |
| `StrKey.EncodingsDecode` | services/api/src/stellar_intents.rs:711-742 | Every encoding of a 32-byte key decodes to that key. |
| `StrKey.KeysAreDistinct` | services/api/src/stellar_intents.rs:711-742 | Different accepted addresses stand for different keys. |
| `StrKey.SubstitutionRejected` | services/api/src/stellar_intents.rs:711-757 | Changing one character of an accepted address, to any other byte, always makes it unacceptable, across the boundary of key and checksum too. |
| `StrKey.OneLetterApart` | services/api/src/stellar_intents.rs:715-757 | Two checksummed payloads whose letter lists differ at one position at most are equal. |
| `Base64.EncodeBase64` | services/api/src/stellar_intents.rs:759-780 | The loop over chunks computes the recursive encoding. |
| `Base64.DecodeBase64` | services/api/src/stellar_intents.rs:782-823 | The loop over groups accepts and decodes exactly what the recursive reading does. |
| `Base64.DecodeFour` | services/api/src/stellar_intents.rs:787-821 | The loop body rejects exactly the groups with a bad symbol or misplaced padding and yields the 1 to 3 bytes of the others. |
| `Base64.RoundTrip` | services/api/src/stellar_intents.rs:759-823 | Decoding undoes encoding for every non-empty byte string; the empty text is rejected. |
| `Base64.ReencodeIff` | services/api/src/stellar_intents.rs:800-820 | Encoding a decoded text gives the text back if and only if the bits discarded by its padding are zero; the decoder accepts others. |
| `Base64.NonCanonicalIsAccepted` | services/api/src/stellar_intents.rs:800-820 | For instance QR== is accepted and stands for the byte that is encoded as QQ==. |
| `Base64.SymbolRoundTrip` | services/api/src/stellar_intents.rs:825-834 | The value of a symbol undoes the alphabet. |
| `Base64Form.TextStands` | services/api/src/stellar_intents.rs:759-780 | For every three bytes of a text four symbols of the alphabet stand, whose base-64 number is that of the bytes, with zero bits and "=" behind one or two bytes at the end. |
| `Base64Form.DecodesIff` | services/api/src/stellar_intents.rs:782-823 | A text decodes to some bytes if and only if every four symbols are base-64 digits of the number of their bytes, fewer than three only at the end, whatever the bits that are discarded. |
| `EnvelopeLayout.ParsesExactly` | services/api/src/stellar_intents.rs:550-624 | The parser accepts exactly the byte strings of one layout, written with its literal bytes, and reports what they hold: type 2, key, fee, sequence, times, memo of up to 28 bytes of Unicode text, one payment without a source of its own, asset, amount, at most twenty signatures of a hint and up to 64 bytes, and nothing behind. |
| `EnvelopeLayout.BuildsThisLayout` | services/api/src/stellar_intents.rs:513-533 | Every built body has one layout, byte by byte: key type and key, fee, sequence, times from zero to the expiry, memo with its length and zero padding, one payment operation, destination, asset, amount and the closing zeros. |
| `EnvelopeLayout.UnsignedLayout` | services/api/src/stellar_intents.rs:535-541 | The unsigned envelope is the body between the type 2 and four zeros. |
| `EnvelopeLayout.BuildsIff` | services/api/src/stellar_intents.rs:507-513 | The builder builds exactly for a positive amount and expiry, a memo of 1 to 28 bytes, two account addresses, and lumens without an issuer or 1 to 12 capital letters and digits with one. |
| `EnvelopeLayout.AssetIsLaid` | services/api/src/stellar_intents.rs:667-703 | Four zeros for lumens; otherwise the type 1 or 2, the code padded with zeros to four or twelve bytes, and the key behind the address of the issuer. |
| `EnvelopeLayout.SignaturesRead` | services/api/src/stellar_intents.rs:599-606 | The signature loop reads exactly lists of hints and zero-padded opaque values of up to 64 bytes. |
| `UnicodeText.Utf8IsText` | services/api/src/stellar_intents.rs:908-912 | The test for UTF-8 accepts exactly the encodings of sequences of Unicode scalar values. |
| `EnvelopeProofs.BodyRoundTrip` | services/api/src/stellar_intents.rs:513-597 | Wherever the bytes of a built body stand, the reader returns exactly the fields they were built from and stops at their end. |
| `EnvelopeProofs.ParseUndoesBuild` | services/api/src/stellar_intents.rs:496-624 | For every payment the builder accepts, the envelope with any list of up to 20 well-formed signatures, none included, parses to the same body, fields and number of signatures. |
| `EnvelopeProofs.TextRoundTrip` | services/api/src/stellar_intents.rs:496-624 | The same through the base64 text. |
| `EnvelopeProofs.BodyFixesFields` | services/api/src/stellar_intents.rs:550-624 | Two envelopes that parse and have the same body have the same fields: the fields depend on the body slice only. |
| `EnvelopeProofs.BodyDecides` | services/api/src/stellar_intents.rs:550-624 | Any envelope with the body of a built payment parses to the fields of that payment, whatever follows the body. |
| `EnvelopeProofs.HashDecides` | services/api/src/stellar_intents.rs:626-656 | Against the intent made with the builder, an envelope is accepted if and only if its body has the hash of the built body and every field it parses to is that of the payment, so not even a colliding body could say anything else; the built body itself always passes, and a wrong hash is refused as such. |
| `EnvelopeProofs.AssetAt` | services/api/src/stellar_intents.rs:667-703 | The asset reader undoes the asset writer: native, four and twelve byte codes. |
| `EnvelopeProofs.SignaturesAt` | services/api/src/stellar_intents.rs:599-606 | The signature loop skips exactly the encoded signatures. |
| `EnvelopeCode.BuildUnsignedPaymentEnvelope` | services/api/src/stellar_intents.rs:496-548 | The buffer-growing builder produces the base64 of the envelope around a body of the layout, the two hashes, or the first error in the order of the checks. |
| `EnvelopeCode.WriteBody` | services/api/src/stellar_intents.rs:516-533 | The writes build the specified body, laid out byte by byte. |
| `EnvelopeCode.ParsePaymentEnvelope` | services/api/src/stellar_intents.rs:550-624 | The cursor-driven parser computes the specified result, error for error, and accepts exactly the byte strings of the layout. |
| `EnvelopeCode.ReadSignedText` | services/api/src/stellar_intents.rs:363-369 | A submitted text is considered exactly when it decodes, parses and carries a signature. |
| `EnvelopeCode.Output.WriteU32` | services/api/src/stellar_intents.rs:969-971 | Appends the big-endian word. |
| `EnvelopeCode.Output.WriteI32` | services/api/src/stellar_intents.rs:965-967 | Appends the two's complement word. |
| `EnvelopeCode.Output.WriteU64` | services/api/src/stellar_intents.rs:977-979 | Appends the big-endian long. |
| `EnvelopeCode.Output.WriteI64` | services/api/src/stellar_intents.rs:973-975 | Appends the two's complement long. |
| `EnvelopeCode.Output.WriteXdrString` | services/api/src/stellar_intents.rs:981-990 | Appends length, bytes and zero padding, or refuses a text that is too long and appends nothing. |
| `EnvelopeCode.Output.WriteAsset` | services/api/src/stellar_intents.rs:667-703 | Appends the encoded asset or reports the first failing check of code and issuer. |
| `EnvelopeCode.XdrReader.constructor` | services/api/src/stellar_intents.rs:842-844 | The cursor starts at zero. |
| `EnvelopeCode.XdrReader.ReadFixed` | services/api/src/stellar_intents.rs:854-865 | Returns the slice and advances, or fails and stays inside the input. |
| `EnvelopeCode.XdrReader.ReadI32` | services/api/src/stellar_intents.rs:867-873 | Reads a signed word at the cursor. |
| `EnvelopeCode.XdrReader.ReadU32` | services/api/src/stellar_intents.rs:875-881 | Reads an unsigned word at the cursor. |
| `EnvelopeCode.XdrReader.ReadI64` | services/api/src/stellar_intents.rs:883-889 | Reads a signed long at the cursor. |
| `EnvelopeCode.XdrReader.ReadU64` | services/api/src/stellar_intents.rs:891-897 | Reads an unsigned long at the cursor. |
| `EnvelopeCode.XdrReader.ReadEd25519Account` | services/api/src/stellar_intents.rs:899-906 | Accepts only the plain key type. |
| `EnvelopeCode.XdrReader.ReadXdrString` | services/api/src/stellar_intents.rs:908-912 | Variable opaque that must be UTF-8. |
| `EnvelopeCode.XdrReader.ReadVarOpaque` | services/api/src/stellar_intents.rs:914-926 | Length limit, slice, and padding that must be zero. |
| `EnvelopeCode.XdrReader.ReadAsset` | services/api/src/stellar_intents.rs:928-943 | Native or issued asset, other types refused. |
| `EnvelopeCode.XdrReader.ReadBody` | services/api/src/stellar_intents.rs:557-598 | All parts of the body in order, with the error of the first that fails; what is accepted has the layout. |
| `EnvelopeCode.XdrReader.ReadSignatures` | services/api/src/stellar_intents.rs:599-609 | At most 20 signatures, each skipped, and nothing after them. |
| `SettlementPlan.PlanSettlement` | services/api/src/market_positions.rs:385-481 | Refused exactly without positions, on an overflowing total, without a winner or without winning positions; otherwise a plan as specified. The conservation check and the integer conversions never fail. |
| `SettlementPlan.PlanPayouts` | services/api/src/market_positions.rs:425-463 | With at least one winner the payouts are non-negative and sum to the distributable amount. |
| `SettlementPlan.Allocate` | services/api/src/market_positions.rs:441-463 | The floor loop and the remainder loop give every winner the floor share, and one unit more to exactly the earliest rows. |
| `SettlementPlan.RoundRobin` | services/api/src/market_positions.rs:456-462 | The remainder loop ends without wrapping around the rows. |
| `SettlementPlan.RemainderIsSmall` | services/api/src/market_positions.rs:441-456 | What floor division leaves is non-negative and less than the number of winners. |
| `SettlementPlan.PayoutsSumUp` | services/api/src/market_positions.rs:441-463 | Floor shares and extra units add up to the distributable amount. |
| `SettlementPlan.PlanConserves` | services/api/src/market_positions.rs:395-481 | In every plan, payout or refund, the sorted rows pay exactly total stake less fee, and the fee is between zero and the total. |
| `SettlementPlan.PayoutIsFair` | services/api/src/market_positions.rs:441-463 | Every payout is within one unit of the exact proportional share. |
| `SettlementPlan.NobodyLosesIff` | services/api/src/market_positions.rs:412-463 | Every winner gets at least the stake back if and only if the distributable amount is at least the winning stake; with the fee on the whole pool it may not be. |
| `SettlementPlan.SoleWinnerLoses` | services/api/src/market_positions.rs:412-463 | For instance the only player stakes 100 at a fee of ten percent, wins, and is paid 90. |
| `SettlementPlan.CheckedTotal` | services/api/src/market_positions.rs:395-401 | The checked sum is the total, or an overflow exactly when the total does not fit. |
| `SettlementPlan.SortOrders` | services/api/src/market_positions.rs:473 | The rows come out ordered by position. |
| `SettlementPlan.SortPays` | services/api/src/market_positions.rs:473-481 | Ordering the rows changes no payment. |
| `SettlementRules.PayoutPlanIs` | services/api/src/market_positions.rs:395-481 | In plain numbers: the fee is the rate over 10,000 of all stakes rounded down; what is left is divided among exactly the positions on the winning outcome, each with its part rounded down, the units that are left going one each to the earliest of them; rows come ordered by position. |
| `SettlementRules.RefundPlanIs` | services/api/src/market_positions.rs:412-472 | A refund takes no fee and pays every position its stake. |
| `SettlementRules.NobodyWinsIff` | services/api/src/market_positions.rs:426-433 | There are no winners exactly if no position is on the winning outcome. |
| `SettlementRules.WinnersAre` | services/api/src/market_positions.rs:426-430 | The winners are the positions on the outcome, all of them, in their order. |
| `SettlementRunRules.SubmitIff` | services/api/src/market_settlement.rs:113-180 | An item is submitted exactly while it is planned, by an allowed caller, with a transaction nobody else has; the same submission again changes nothing. |
| `SettlementRunRules.AcceptIff` | services/api/src/market_settlement.rs:182-286 | An item is confirmed exactly by evidence of its own transaction that pays its payout to its recipient and that no other item has; the same evidence again changes nothing. |
| `SettlementRunRules.AcceptDoes` | services/api/src/market_settlement.rs:268-376 | A confirmation touches its item only; that of the last item closes the run, the active positions and the market if it is settling. |
| `SettlementRunRules.ConfirmedByEvidence` | services/api/src/market_settlement.rs:113-376 | Over every run each confirmed item was confirmed by a step that brought evidence of its payout to its recipient in its own transaction. |
| `SettlementRun.StepKeepsInv` | services/api/src/market_settlement.rs:113-376 | Every step keeps the run consistent: an item is submitted with a hash of its own, confirmed exactly with a proof of the same hash and the planned amount, and the run is confirmed exactly when all items are; items only move forward and proofs stay. |
| `SettlementRun.RunIsSound` | services/api/src/market_settlement.rs:113-376 | The same over every run of requests and outside changes. |
| `SettlementRun.RunPaysThePlan` | services/api/src/market_settlement.rs:182-376 | From fresh rows, after any run: every proof carries the planned amount of its item, the run is confirmed if and only if every item has one, and then the proofs add up to what was planned. |
| `SettlementRun.ConfirmedIsFinal` | services/api/src/market_settlement.rs:303-376 | A confirmed run keeps its status, items and proofs whatever follows. |
| `SettlementRun.ConfirmedRunPaysStakeLessFee` | services/api/src/market_positions.rs:395-514 | From the plan to the last confirmation, a confirmed run has paid out exactly the total stake less the fee. |
| `SettlementRun.Tables.RecordSubmission` | services/api/src/market_settlement.rs:113-180 | The row updates of a submission end in the specified rows or leave them alone with the specified error; consistency is kept and nothing moves back. |
| `SettlementRun.Tables.AcceptSettlementEvidence` | services/api/src/market_settlement.rs:182-286 | The same for accepted evidence. |
| `SettlementRun.Tables.FinalizeRun` | services/api/src/market_settlement.rs:303-376 | Run, positions and market are closed exactly when every item is confirmed. |
| `TicketsProofs.InventoryHolds` | services/api/src/ticketing.rs:427-635 | After every run of reservations, expiries, direct orders, payments, issues and catalogue changes: reserved = sum of reserved reservations and direct orders, fulfilled = number of tickets, both within the supply; per buyer reserved and converted within the limit; serials are 1 to N; reservations, orders and tickets stay linked. |
| `TicketsProofs.StepKeepsInv` | services/api/src/ticketing.rs:427-635 | Every step keeps that invariant. |
| `TicketsProofs.CounterCovers` | services/api/src/ticketing.rs:616-633 | A reservation about to expire is covered by the counter, so the clamp at zero never takes effect. |
| `TicketsProofs.ReleaseAllKeepsInv` | services/api/src/ticketing.rs:605-635 | The expiry loop, in whatever order the rows come, keeps the invariant and expires exactly the listed reservations. |
| `TicketsProofs.NoDrift` | services/api/src/ticket_operations.rs:193-203 | The drift check of the issue never fails. |
| `TicketsProofs.IssueSucceedsIff` | services/api/src/ticket_operations.rs:114-236 | With a paid, proven order and a wallet, issuing succeeds if and only if the reservation has not lapsed. |
| `TicketsProofs.PaidReservationLapses` | services/api/src/ticketing.rs:605-635 | A reservation that ran out lapses at the next request for the product even though its order is paid, and the order stays paid. |
| `TicketsProofs.LapseIsFinal` | services/api/src/ticketing.rs:605-635 | No step revives a lapsed reservation. |
| `TicketsProofs.LapsedIsNeverIssued` | services/api/src/ticket_operations.rs:114-236 | Over every later run a lapsed reservation, paid for or not, is refused as not ready. |
| `TicketsLapse.PaidReservationCanLapse` | services/api/src/ticketing.rs:605-635 | The lapse is reachable: a run from empty tables in which the first buyer reserves and pays with indexed evidence, and a second buyer comes a quarter of an hour later. |
| `TicketsLapse.FirstBuyerLoses` | services/api/src/ticketing.rs:605-635 | For instance with two named requests for one product. |
| `TicketsOwners.OwnersHold` | services/api/src/ticket_operations.rs:238-345 | After every run a ticket is issued exactly when its mint was reported, no two tickets share a token, a transaction or a contract event, and an order with tickets is fulfilled exactly when all of them are issued. |
| `TicketsOwners.StepKeepsOwners` | services/api/src/ticket_operations.rs:114-345 | Every step, from reservation to ownership evidence, keeps that. |
| `TicketsProofs.TicketsAdded` | services/api/src/ticket_operations.rs:173-191 | The serial loop adds exactly the serials after the greatest one, each once, and touches no other ticket. |
| `TicketsProofs.MaxSerialIsCount` | services/api/src/ticket_operations.rs:165-171 | The greatest serial is the number of tickets. |
| `TicketsTables.Tables.ReleaseExpired` | services/api/src/ticketing.rs:605-635 | The loop over the expired rows ends in the specified rows. |
| `TicketsTables.Tables.QuantityTaken` | services/api/src/ticketing.rs:492-499 | The sum over the rows of the buyer. |
| `TicketsTables.Tables.CreateReservation` | services/api/src/ticketing.rs:427-590 | Expiry and reservation together: committed as specified, or nothing of either, with the error of the first failing check. |
| `TicketsTables.Tables.PlaceReservation` | services/api/src/ticketing.rs:475-573 | The checks and inserts after the expiry, as specified. |
| `TicketsTables.Tables.CreateOrder` | services/api/src/orders.rs:162-309 | A direct order reserves its quantity as specified, or nothing changes. |
| `TicketsTables.Tables.GreatestSerial` | services/api/src/ticket_operations.rs:165-171 | The greatest serial in use, or zero. |
| `TicketsTables.Tables.InsertTickets` | services/api/src/ticket_operations.rs:173-191 | The loop inserts the specified tickets. |
| `TicketsTables.Tables.PrepareIssuance` | services/api/src/ticket_operations.rs:114-236 | Issue with the greatest serial as read from the table: committed as specified or not at all, and never with the drift error. |
| `TicketsTables.Tables.AcceptOwnershipEvidence` | services/api/src/ticket_operations.rs:238-360 | Recorded evidence is answered again or conflicts; new evidence is checked against the wallet and the mints of other tickets, issues the ticket, and with the last one fulfils the order, as specified. |
| `TicketsRules.ReserveIff` | services/api/src/ticketing.rs:427-573 | A reservation succeeds exactly if the product is on sale, the buyer may buy, and supply, limit and amount cover it, summed over the rows as they are before the expiry and not counting reservations whose time is up; a repeated key must be the same request. |
| `TicketsRules.ReserveDoes` | services/api/src/ticketing.rs:427-573 | What it leaves: the lapsed reservations of the product expired and their unpaid orders with them, the counter recounted, and for a new key the reservation for 15 minutes with its order. |
| `TicketsRules.ExpiryTidies` | services/api/src/ticketing.rs:605-635 | The expiry loop, in whatever order the rows come, expires exactly the reservations whose time is up and their unpaid orders, and leaves the counter at what is still held. |
| `TicketsRules.OrderIff` | services/api/src/orders.rs:162-309 | When exactly a direct order succeeds, and what it leaves. |
| `TicketsRules.IssueIff` | services/api/src/ticket_operations.rs:114-203 | Tickets are issued, or were, exactly for a reservation that is still held, paid and proven, of a buyer with a wallet, while there are serial numbers. |
| `TicketsRules.IssueDoes` | services/api/src/ticket_operations.rs:165-236 | They are the next serials, as many as the quantity, and the quantity moves from the reserved to the fulfilled counter. |
| `TicketsRules.OwnershipIff` | services/api/src/ticket_operations.rs:238-345 | When exactly the report of a mint is taken, that it issues its ticket, and that the last ticket of an order being delivered fulfils the order. |
| `FulfilmentRules.FulfilledByTheChain` | services/api/src/fulfillment.rs:191-814 | Over every run a fulfilled job was fulfilled by a step that brought the chain's own record of its mint, and no job has been attempted more than 20 times. |
| `FulfilmentRules.StepMoves` | services/api/src/fulfillment.rs:390-814 | Whatever step is taken, a job changes status only by the request made for this change: a claim when its time has come, a submission or failure by the worker that has it, or the proof it waits for. |
| `FulfilmentRules.CreateIff` | services/api/src/fulfillment.rs:191-332 | When exactly a job is made. |
| `FulfilmentRules.CreateDoes` | services/api/src/fulfillment.rs:333-370 | What a new job is, and that its order is being fulfilled. |
| `FulfilmentRules.ClaimIff` | services/api/src/fulfillment.rs:390-442 | When exactly a worker gets a job, and that every claim counts as an attempt. |
| `FulfilmentRules.SubmitIff` | services/api/src/fulfillment.rs:444-515 | When exactly a mint is submitted, and what that leaves. |
| `FulfilmentRules.FailIff` | services/api/src/fulfillment.rs:517-584 | When exactly a failure is taken, with a delay of a day at most, and when the job is retried or dead and its order failed. |
| `FulfilmentRules.ProveIff` | services/api/src/fulfillment.rs:586-733 | When exactly evidence of a mint is recorded, or was. |
| `FulfilmentRules.ProveDoes` | services/api/src/fulfillment.rs:586-814 | New evidence is judged once: it fulfils job and order and moves the stock exactly if report and raw event are the mint the job waits for. |
| `FulfilmentProofs.LockstepHolds` | services/api/src/fulfillment.rs:191-814 | After every run job, mint and order are in lockstep (fulfilled, confirmed and fulfilled together; dead-lettered exactly when the order failed; queued or failed only with attempts left), one job per order, stock counters are the sums over the orders, and each fulfilled job has exactly one accepted proof. |
| `FulfilmentProofs.StepKeepsInv` | services/api/src/fulfillment.rs:191-814 | Every handler keeps that invariant. |
| `FulfilmentProofs.ProofNeverConflicts` | services/api/src/fulfillment.rs:736-814 | Accepting evidence never fails half-way: refusals are only those made before anything is compared. |
| `FulfilmentProofs.ConfirmSucceeds` | services/api/src/fulfillment.rs:736-814 | For a job awaiting the chain, confirmation updates mint, job, ownership, stock and order, and every conditional update hits its row. |
| `FulfilmentProofs.StatusChangesDescend` | services/api/src/fulfillment.rs:390-814 | Every status change of a job lowers three times the attempts left plus a rank of the status. |
| `FulfilmentProofs.StatusChangesAreBounded` | services/api/src/fulfillment.rs:390-814 | So over any run a job changes status at most as often as that measure says at the start: the number of changes plus the measure left never exceeds it. |
| `FulfilmentProofs.RejectionIsFinal` | services/api/src/fulfillment.rs:617-674 | Evidence once recorded for an event, rejected evidence included, is never replaced. |
| `FulfilmentProofs.StockCovers` | services/api/src/fulfillment.rs:783-792 | The reserved counter covers every unfulfilled order. |
| `FulfilmentTables.Tables.CreateFulfillmentJob` | services/api/src/fulfillment.rs:191-370 | Creation as specified, replay of a key included, or refusal with nothing changed. |
| `FulfilmentTables.Tables.ClaimFulfillmentJob` | services/api/src/fulfillment.rs:390-442 | Claim as specified; in a consistent state the committed refusal does not occur. |
| `FulfilmentTables.Tables.RecordMintSubmission` | services/api/src/fulfillment.rs:444-515 | Submission as specified. |
| `FulfilmentTables.Tables.RecordFulfillmentFailure` | services/api/src/fulfillment.rs:517-584 | Retry or dead letter as specified. |
| `FulfilmentTables.Tables.RecordMintEvidence` | services/api/src/fulfillment.rs:586-733 | Evidence recorded, accepted or refused as specified. |
| `FulfilmentTables.Tables.ConfirmMint` | services/api/src/fulfillment.rs:736-814 | Five row updates, all or none, as specified. |
| `Payouts.SplitIsExact` | services/api/src/payouts.rs:922-965 | For a positive amount and valid basis points the candidate and the organizer get their basis points of the amount, rounded down, and the platform the rest, at most two units more than its own floor share; the shares lie between zero and the amount and add up to it exactly. |
| `Payouts.SplitRefusedIff` | services/api/src/payouts.rs:922-965 | There is no split exactly for an amount that is not positive, or basis points that are negative or do not add up to 10,000. |
| `PayoutsProofs.PayoutsHold` | services/api/src/payouts.rs:276-770 | After every run: counts, statuses, hashes and amounts of every batch agree, one batch per order, and accepted proofs and settled transfers correspond one to one. |
| `PayoutsProofs.BatchesPayTheirOrder` | services/api/src/payouts.rs:276-770 | In every reachable state the confirmed count is the number of confirmed transfers, and the confirmed amounts sum to at most the amount of the order, with equality exactly when the batch is confirmed. |
| `PayoutsProofs.OperationsConfirmOnce` | services/api/src/payouts.rs:575-661 | No ledger operation ever confirms two transfers, in one batch or across batches. |
| `PayoutsProofs.FailureStays` | services/api/src/payouts.rs:690-741 | A recorded failure stays with its batch. |
| `PayoutsProofs.FailedIsNeverConfirmed` | services/api/src/payouts.rs:690-770 | Over every later run a batch that recorded a failure is never confirmed. |
| `PayoutsProofs.RejectedNeverConfirms` | services/api/src/payouts.rs:575-661 | An operation once recorded as rejected never confirms a transfer, whatever evidence comes later. |
| `PayoutsProofs.RejectionIsFinal` | services/api/src/payouts.rs:575-643 | Recorded evidence is never replaced. |
| `PayoutsProofs.StepKeepsInv` | services/api/src/payouts.rs:276-770 | Every handler keeps the invariant. |
| `PayoutsProofs.ProveKeepsInv` | services/api/src/payouts.rs:520-688 | Evidence keeps the invariant, and the conditional update of the transfer always hits its row. |
| `PayoutsTables.Tables.RecordPayoutSubmission` | services/api/src/payouts.rs:446-518 | Submission as specified. |
| `PayoutsTables.Tables.RecordTransferEvidence` | services/api/src/payouts.rs:520-688 | Evidence recorded, and on a match transfer and batch updated, as specified. |
| `PayoutsTables.Tables.RecordPayoutFailure` | services/api/src/payouts.rs:690-741 | Failure as specified: settled transfers stay. |
| `PayoutRules.BatchesPayTheirSale` | services/api/src/payouts.rs:276-770 | Over every run each batch pays a sale it was requested for: the candidate, the organizer and the platform of the sale, each with the share of the sale, together the whole amount. |
| `PayoutRules.ConfirmedPaysTheSale` | services/api/src/payouts.rs:276-770 | A confirmed batch has paid every party of its sale the planned share, each by a ledger operation. |
| `PayoutRules.CreateIff` | services/api/src/payouts.rs:276-426 | A batch is added exactly for an eligible sale that can be divided, with a new key and no batch yet; its three transfers go to the parties of the sale with their shares in plain numbers. |
| `PayoutRules.SubmitIff` | services/api/src/payouts.rs:446-518 | When exactly a submission is taken, and what it leaves. |
| `PayoutRules.ProveIff` | services/api/src/payouts.rs:520-688 | Evidence of a ledger operation is judged once: it settles its transfer, and counts, exactly if report and raw record are the planned payment, and is recorded as refused otherwise. |
| `PayoutRules.NumbersOk` | services/api/src/payouts.rs:520-602 | When exactly evidence is recorded, or was. |
| `PayoutRules.FailIff` | services/api/src/payouts.rs:690-741 | When exactly a failure is taken, that it drops what is in flight and leaves what is settled. |
| `Decimal.MinorIff` | services/api/src/stellar_reconciliation.rs:821-845 | The reader returns v if and only if the scale is 0 to 7 and the text is an unsigned decimal with a non-empty whole part and at most scale fraction digits whose exact value is v minor units, and v fits 64 bits. |
| `Decimal.ReadsFormatted` | services/api/src/payouts.rs:1066-1090 | Reading undoes a fixed-point formatter for every amount and every scale 0 to 7. |
| `Decimal.TrailingZeroIgnored` | services/api/src/payouts.rs:1066-1090 | A trailing zero within the scale does not change what is read. |
| `ReconciliationProofs.PaymentsHold` | services/api/src/stellar_reconciliation.rs:246-608 | After every run: intent and transaction statuses are in step; of the attempts of an order all but one have failed; a paid order has a confirmed attempt and an order with a confirmed attempt does not await payment; confirmed intents are exactly those with accepted evidence and belong to the confirmed attempt; at most one acceptance per order; and the cursor is the lexicographic maximum of the accepted positions. |
| `ReconciliationProofs.OneLiveAttempt` | services/api/src/orders.rs:329-568 | Over every run, of any two attempts of one order at least one has failed. |
| `ReconciliationProofs.PaidOnce` | services/api/src/orders.rs:329-568 | Over every run a paid order has exactly one confirmed attempt, an order with a confirmed attempt does not await payment, and evidence accepted for the order is that of this attempt. |
| `ReconciliationProofs.AcceptedOncePerOrder` | services/api/src/stellar_reconciliation.rs:388-498 | Over any number of attempts and intents of an order at most one reconciliation is ever accepted. |
| `ReconciliationProofs.MatchingEvidenceIff` | services/api/src/stellar_reconciliation.rs:388-498 | Matching evidence of a submitted transaction is accepted if and only if the attempt is still active and the order still awaits payment; otherwise nothing at all changes. |
| `ReconciliationLate.MatchingEvidenceComesLate` | services/api/src/orders.rs:536-542 | The refusal is reachable for every genuine payment: a run from empty tables in which the provider reports a failure while the signed payment is on its way. |
| `ReconciliationLate.FiveLumensComeLate` | services/api/src/orders.rs:536-542 | For instance for a payment of five lumens. |
| `ReconciliationSigned.SignedAsAsked` | services/api/src/stellar_intents.rs:411-433 | After every run each recorded transaction says exactly what its intent asks for, with the keys behind its addresses: source, destination, sequence, fee, amount, asset, memo and expiry, whatever the hash. |
| `ReconciliationSigned.PaidAsSigned` | services/api/src/stellar_reconciliation.rs:399-498 | In every reachable state, evidence that confirms a payment has the hash of the transaction signed for the intent and agrees with its signed fields one by one, and so does the raw record of the chain. |
| `ReconciliationSigned.StepKeepsTexts` | services/api/src/stellar_intents.rs:350-455 | Every handler keeps drafts and signed fields as they are, and signs only what validates. |
| `ReconciliationProofs.JudgementIsFinal` | services/api/src/stellar_reconciliation.rs:370-493 | Recorded evidence, accepted or rejected, is never replaced over any later run. |
| `ReconciliationProofs.AcceptingMovesCursor` | services/api/src/stellar_reconciliation.rs:592-608 | The cursor stays the maximum of the accepted positions when one more is accepted. |
| `ReconciliationProofs.StepKeepsInv` | services/api/src/stellar_reconciliation.rs:246-608 | Every handler keeps the invariant. |
| `ReconciliationProofs.EventKeepsInv` | services/api/src/orders.rs:395-568 | A provider event keeps the invariant and never touches what the chain has confirmed. |
| `ReconciliationTables.Tables.AcceptSignedEnvelope` | services/api/src/stellar_intents.rs:350-455 | Signed if the fields and the digest of the envelope agree with the intent, or marked expired by a refusal that is committed, or unchanged with the first error, as specified. |
| `ReconciliationTables.Tables.RecordSubmissionReceipt` | services/api/src/stellar_reconciliation.rs:246-318 | Transaction and intent become submitted together, as specified. |
| `ReconciliationTables.Tables.RecordChainEvidence` | services/api/src/stellar_reconciliation.rs:320-523 | Evidence recorded and payment confirmed, as specified. |
| `ReconciliationTables.Tables.ConfirmPaymentState` | services/api/src/stellar_reconciliation.rs:544-590 | Four conditional updates, all or none. |
| `ReconciliationTables.Tables.RecordPaymentEvent` | services/api/src/orders.rs:395-568 | Attempt and order follow a provider event as specified: the attempt changes only for a verified event with the price, asset, environment and payer asked for, and the order only for a confirmation. |
| `ReconciliationRules.EventDoes` | services/api/src/orders.rs:475-545 | A new provider event settles its attempt exactly if its amount, asset, environment and, where the attempt names one, payer are those of order and attempt, as confirmed or failed as it says; it pays the order exactly if moreover it is a confirmation and the order awaits payment; nothing else changes. |
| `ReconciliationRules.EventIff` | services/api/src/orders.rs:395-480 | When exactly a provider event is recorded, or was. |
| `ReconciliationRules.PaidOnlyByItsPrice` | services/api/src/orders.rs:395-568 | Over every run each paid order was paid by a step that brought its price in its asset: a verified, matching confirmation by the provider of an active attempt, or a successful transaction with the chain's own records. |
| `ReconciliationRules.StepPays` | services/api/src/orders.rs:395-568 | No other step makes an order paid, and only an order that awaits payment. |
| `ReconciliationRules.AsksThePrice` | services/api/src/stellar_intents.rs:141-329 | After every run each intent asks for exactly the price and asset of its order. |
| `ReconciliationRules.AttemptIff` | services/api/src/orders.rs:329-393 | When exactly a payment attempt is made, and what it leaves. |
| `ReconciliationRules.IntentIff` | services/api/src/stellar_intents.rs:141-329 | When exactly a transaction intent is made, or was. |
| `ReconciliationRules.IntentDoes` | services/api/src/stellar_intents.rs:141-329 | What a new intent asks for. |
| `ReconciliationRules.EnvelopeIff` | services/api/src/stellar_intents.rs:350-455 | When exactly a signed envelope is taken, when the intent expires instead, and what each leaves. |
| `ReconciliationRules.ReceiptIff` | services/api/src/stellar_reconciliation.rs:246-318 | When exactly a submission receipt is taken, and what it leaves. |
| `ReconciliationRules.EvidenceIff` | services/api/src/stellar_reconciliation.rs:320-523 | When exactly chain evidence is recorded, or was. |
| `ReconciliationRules.EvidenceDoes` | services/api/src/stellar_reconciliation.rs:388-608 | New chain evidence is judged once: it confirms transaction, intent and attempt, pays the order and moves the cursor exactly if report and raw records are the payment the intent asks for, and is recorded as refused otherwise. |

## Left out

- Storage lifetimes, events, and the question, category and result hash of a market: they decide nothing. The contract's storage keys are grouped by market into one record.
- Signatures: `require_auth` is membership in the set of signers of a call. Nobody signs as the contract itself.
- The token is a map of balances with transfers and minting; issuer controls, account limits and the XLM reserve are not part of this model.
- SHA-256, its hexadecimal form and the network prefix of a transaction hash: a hash is a parameter, and digests that a handler only compares are strings.
- Identifiers are natural numbers, the wall clock is an integer that only grows, and a paging token is its place in the text order of the database.
- Request parsing, trimming and case folding, sessions, roles, audit rows and HTTP answers. What such checks decide (eligible, allowed, indexed, has a wallet) reaches a handler as a Boolean.
- Rows that a handler only inserts and no later step reads, such as ownership history and the JSON copies of evidence.
- StrKey versions other than the account version: contract addresses use the same loops with another version byte. The copies of the decoder in `fulfillment.rs`, `payouts.rs` and `stellar_reconciliation.rs` accept the same account texts and are not modelled again.
- EnvelopeCode.XdrReader.ReadFixed: the overflow of `position + length` in a machine word cannot happen on an input in memory and is left out.
- EnvelopeCode.BuildUnsignedPaymentEnvelope: takes bytes for text. That the memo is valid UTF-8, which the source's string type guarantees, is a hypothesis of the round trips.
- SettlementRun.StepKeepsInv: says nothing about the market row and positions beyond what finalisation writes, because other handlers change them without regard to the run.
- SettlementPlan.PlanSettlement: the market's status and the insertion of the run are not part of it; positions come in the order of the query.
- TicketsTables.Tables.CreateOrder: takes a product with one price; the validity window and the choice of the price, the environment and the organisation of the product are checked before it.
- TicketsTables.Tables.AcceptOwnershipEvidence: compares with the mints of all tickets; evidence of later transfers of a ticket is not part of this model.
- TicketsProofs.InventoryHolds: is about one event with its products, because serials are numbered per event; other events share nothing with it but the buyer's idempotency keys. A payment is an outside step that pays an order awaiting payment, with or without chain evidence.
- FulfilmentTables.Tables.CreateFulfillmentJob: that the order is eligible and the buyer has a wallet arrives as a Boolean.
- FulfilmentProofs.LockstepHolds: an order has one item, hence one job; placing and paying the order are outside steps.
- PayoutsProofs.PayoutsHold: the order, its payment and the payout rule reach the creation of a batch as parameters.
- ReconciliationTables.Tables.AcceptSignedEnvelope: starts from the parsed fields, the digests and the transaction hash of the submitted text; `EnvelopeCode.ReadSignedText` is how the text is read.
- ReconciliationProofs.PaymentsHold: the later life of a paid order and the lapse of an unpaid one are outside steps.
- Contract deployments, payout rules, ticket transfers, check-in, the market catalogue with its manual transitions and exposure checks, and the casting of votes: short status chains, or rows read and written without locks.
- The sale-splitter, audit-anchor, ticket, collectible and test-token contracts: thin layers over a token library that is not part of this model.
- Access control, identity, commerce and media records, the web application and the in-memory demo.
