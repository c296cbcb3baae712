# A verified model of the RGB service

This project models the parts of the RGB service where money can be lost and
proves what they keep. RGB assets live in contracts whose state is assigned to
outputs of Bitcoin transactions; the service issues invoices, builds and signs
transfers, validates proofs that peers hand over through a proxy, and keeps the
stock of contract state of many accounts in one key-value store.

The modules follow the program:

- `ExternalModel`, `ExternalHistory`, `ExternalInvariants`, `ExternalInduction`,
  `ExternalTheorems`, `ExternalExpiry`, `ExternalDisk`, `ExternalReservations`,
  `ExternalOutpoints`, `ExternalSchedule`, `ExternalEngine`: the durable engine for sends and receives.
  `ExternalEngine.Engine` is the daemon as it runs: its write transactions, request
  handlers and recovery scan are methods over the keyspaces; every answer of the
  proxy, the chain, the clock, the stock and the disk is arbitrary, and the process
  may crash at each of them, losing the record in memory. Whether the flush of a
  committed credit can fail is a parameter of the model. Each method extends a *history* of
  atomic writes and outside answers, and keeps it *legal*. An answer is written into
  the history as it came, by the method that asks for it; what a later write rests on
  must be there with the value that allows it. The theorems are about every legal
  history, so about every run.
- `ContractVm`, `IfaPrograms`, `IfaSupply`, `ReturnsAbi`, `AutoBurn`: the register
  machine of the schema validators, the programs of the inflatable asset schema,
  what each decides, the supply theorems over all accepted histories, turning the
  outputs of an interface program into assignments, and the automatic burn of the
  second non-inflatable schema.
- `Selection`, `Transitions`, `PsbtTransfer`, `Coloring`: coin selection, building
  the transitions of a payment in the wallet and in the colouring library, and
  committing them into bundles.
- `StagedQueue`, `Namespaces`: the queue of staged operations with its crash
  points, and the shared store that separates accounts by key prefixes.
- `SqlFields`, `Base62`, `RecipientOutputs`: the SQL value scanner, the base-62
  codec, and matching recipients with transaction outputs.

64-bit arithmetic is written out: checked, saturating and wrapping additions are
different functions, and contracts say what happens on overflow.

## Where a promise turned out false

Each comes with failing inputs and with the condition under which the promise
holds.

- An operation can be credited any number of times, and its status has no bound, if
  the flush after the commit of a credit fails: the recovery scan then writes the
  record that still waits over the settled one. Neither happens if and only if the
  flush never fails, or no operation is admitted (`ExternalDisk.Rounds`,
  `ExternalDisk.CreditedOnceExactly`, `ExternalDisk.StatusBoundedExactly`).
- After such an error a receive that is credited again takes away the reservation of
  another operation, and a third one can reserve the same text
  (`ExternalReservations.TextIsHeldTwice`, `ExternalReservations.ReservedExactly`,
  `ExternalReservations.ApartExactly`).
- An outpoint can be held by two operations: a blind receive reserves the text that
  the caller sent, and another text of the same outpoint is another key. It never
  happens if and only if every text that blind receives use is the one the program
  itself writes and no text is held twice (`ExternalOutpoints.AliasIsHeldTwice`,
  `ExternalOutpoints.DisjointExactly`).
- The output of a credited blind receive can stay marked as confirmed after its
  carrier lost its confirmations; the condition is the same
  (`ExternalOutpoints.AliasIsNotFound`, `ExternalOutpoints.FoundExactly`,
  `ExternalOutpoints.MarkedExactly`).
- A proof that first arrives after expiry can be credited. It can if and only if
  the invoice pays to an output of the carrier, the record was left at
  `Validating` with an empty proof, the answer names no output, and proof and
  carrier are otherwise good
  (`ExternalExpiry.LateProofCreditedExactly`, `ExternalExpiry.LateProofCanBeCredited`).
- A balanced burn is refused when its assignments use up the jump counter
  (`IfaSupply.BalancedBurnCanBeRefused`, `IfaPrograms.BurnDecides`).
- An automatic-burn payment of zero assigns one unit more than it spends
  (`AutoBurn.PayConserves`).
- The transfer built into a PSBT turns other fungible state of the contract into
  assets (`PsbtTransfer.RightsCanBecomeAssets`, `PsbtTransfer.TransferConserves`).
- The colouring library assigns all carried state to one seal, and a second piece
  of a type replaces the first (`Coloring.BlankCanLose`, `Coloring.BlankConserves`,
  `Coloring.MainConserves`).
- Selection can fail although the funds suffice, and can take more outpoints than
  needed: it takes the least sufficient number if and only if the sum that covers
  the amount fits into 64 bits (`Selection.SufficientFundsCanBeRefused`,
  `Selection.ReachedExactly`, `Selection.FewestOutpoints`).

## Model

| member | source | states |
|---|---|---|
| `ExternalModel.FinalizedTransaction` | crates/rgb-service-daemon/src/external.rs:984-1001 | succeeds exactly for a verified PSBT with the prepared body in which every input has the prepared previous output, no script signature and a witness; the transaction has that body |
| `ExternalModel.IdemTextInjective` | crates/rgb-service-daemon/src/external.rs:109-124 | because of the identifier alphabet, scoped keys of different (account, kind, request) are different texts |
| `ExternalModel.FindCarrier` | crates/rgb-service-daemon/src/external.rs:1500-1504 | the carrier found in a consignment is one of its witnesses and has the announced id |
| `ExternalModel.CarrierIsFirst` | crates/rgb-service-daemon/src/external.rs:1500-1504 | it is that of the first bundle anchored in the id; if that one has no whole transaction, no later one is looked at |
| `ExternalModel.TotalSplits` | crates/rgb-service-daemon/src/external.rs:1551-1556 | the amount a preview finds is the sum over its parts, in any order |
| `ExternalInvariants.StepKeepsOk` | crates/rgb-service-daemon/src/external.rs:1344-1638 | every step, also a half-done one stored by the error path of the scan, keeps the invariant of a record: in particular a receive with a proof and an outpoint is already validating, waiting, settled or under review |
| `ExternalInvariants.StepMovesForward` | crates/rgb-service-daemon/src/external.rs:1344-1638 | a step moves the status forward in the fixed order of its direction |
| `ExternalInvariants.CreateIsNew` | crates/rgb-service-daemon/src/external.rs:401-474 | a new operation gets an id that no stored operation of any account has |
| `ExternalInduction.LegalKeepsInv` | crates/rgb-service-daemon/src/external.rs:320-380 | the invariant over all keyspaces (records, artifacts, bindings, reservations, proxy slots, credits, capacity) holds after every write of every run with crashes |
| `ExternalTheorems.ReceiveCreditIsEarned` | crates/rgb-service-daemon/src/external.rs:1448-1625 | a receive is credited only after its stored proof was validated for the invoiced contract, its preview found allocations that add up to exactly the invoiced amount, on a carrier that pays to the account or, for a blind invoice, on the invoiced seal and an unspent output with the secret stored; after the proxy answered that it holds the acknowledgement, the stock accepted the proof, and the same carrier was confirmed deeply enough; and, with a disk that flushes, it was never credited before |
| `ExternalTheorems.ValidatedIsProvable` | crates/rgb-service-daemon/src/external.rs:1492-1567 | whatever counts as validated in any run decodes to its contract, was previewed with exactly its amount, and pays to the account or targets the seal |
| `ExternalTheorems.CreditMovesTracked` | crates/rgb-service-daemon/src/external.rs:1639-1674 | a credit tracks the credited output as confirmed, drops what the operation spent, and leaves every other output as it was |
| `ExternalTheorems.AckFollowsValidation` | crates/rgb-service-daemon/src/external.rs:1492-1582 | an acknowledgement is sent to the proxy only of a validated transfer, also when its answer is lost |
| `ExternalTheorems.NackFollowsMismatch` | crates/rgb-service-daemon/src/external.rs:1626-1638 | in any run the peer is told of a rejection only over a mismatch that the stored receive has (undecodable, wrong contract, wrong output or seal, previewed amount differs, confirmed carrier differs), never over a missing answer, and the receive stays under review |
| `ExternalTheorems.CancelledNeverCredited` | crates/rgb-service-daemon/src/external.rs:778-800 | a cancelled receive is never credited and can only become one for review |
| `ExternalTheorems.HoldersAreDisjoint` | crates/rgb-service-daemon/src/external.rs:320-380 | across all accounts and crashes, no two operations that hold inputs share the text of an outpoint, as long as no receive can be credited twice; `ExternalReservations.ApartExactly` has the exact condition |
| `ExternalReservations.ApartExactly` | crates/rgb-service-daemon/src/external.rs:320-380 | for any set of texts that blind receives may use, no text is ever held by two operations if and only if no receive can be credited twice, or at most two operations are admitted, or there is no blind receive |
| `ExternalReservations.ReservedExactly` | crates/rgb-service-daemon/src/external.rs:1643-1651 | what an operation holds stays reserved for it in every run if and only if no receive can be credited twice, or at most one operation is admitted, or there is no blind receive |
| `ExternalReservations.TextIsHeldTwice` | crates/rgb-service-daemon/src/external.rs:1639-1674 | otherwise, for any text, a run in which two receives hold it |
| `ExternalReservations.TwoAreApart` | crates/rgb-service-daemon/src/external.rs:340-350 | two operations alone are kept apart, whatever the disk does |
| `ExternalReservations.PostedShareText` | crates/rgb-service-daemon/src/external.rs:1260-1289 | in any run, two posted sends that spend the same outpoint hold the same text |
| `ExternalOutpoints.DisjointExactly` | crates/rgb-service-daemon/src/external.rs:320-380 | for any parser and any set of texts that blind receives may use, no outpoint is ever held by two operations if and only if each text is the one the program itself writes and no text is ever held twice, or at most one operation is admitted |
| `ExternalOutpoints.AliasIsHeldTwice` | crates/rgb-service-daemon/src/external.rs:583-586 | for every other text, a run in which a blind receive holds an outpoint under it and a send holds the same outpoint |
| `ExternalOutpoints.InputsCanonical` | crates/rgb-service-daemon/src/external.rs:674-679 | a send reserves the texts the program itself writes; only blind receives bring in others |
| `ExternalOutpoints.CreditFoundExactly` | crates/rgb-service-daemon/src/external.rs:1653-1687 | the text under which a credited output is tracked is the one its operation looks for, if and only if it is no blind receive or the text is the one the program itself writes |
| `ExternalOutpoints.MarkedExactly` | crates/rgb-service-daemon/src/external.rs:1675-1700 | at any time after the credit, marking changes the tracked entry from confirmed to unconfirmed under exactly that condition |
| `ExternalOutpoints.FoundExactly` | crates/rgb-service-daemon/src/external.rs:1675-1700 | for any parser and any set of texts that blind receives may use, every credited output is found again in every run if and only if each text is the one the program itself writes (or nothing can be credited) |
| `ExternalOutpoints.AliasIsNotFound` | crates/rgb-service-daemon/src/external.rs:1675-1700 | for every other text, a whole run that credits a blind receive and then misses its output |
| `ExternalTheorems.SendReservationForever` | crates/rgb-service-daemon/src/external.rs:778-800 | the inputs of a send stay reserved for it for ever, as long as no receive can be credited twice; `ExternalReservations.ReservedExactly` has the exact condition |
| `ExternalTheorems.CreditDropsOwnEntriesOnly` | crates/rgb-service-daemon/src/external.rs:1639-1674 | the unconditional removal in credit never drops another operation's reservation, as long as no receive can be credited twice |
| `ExternalTheorems.SlotsAreUnique` | crates/rgb-service-daemon/src/external.rs:512-593 | two receives of an account never share a proxy slot |
| `ExternalTheorems.SlotCreditedOnce` | crates/rgb-service-daemon/src/external.rs:1639-1674 | with a disk that flushes, over all receives of an account and over all time, what arrives at one proxy slot is credited at most once |
| `ExternalTheorems.SignedNeverChanges` | crates/rgb-service-daemon/src/external.rs:695-740 | a durable signed transaction and its id never change again |
| `ExternalTheorems.PostedIsDurable` | crates/rgb-service-daemon/src/external.rs:1174-1289 | every body posted to the chain is the durable signed transaction, was authorized and found to have valid witnesses, has the id recorded at preparation, and is posted only after the proxy accepted, or was seen to hold, the proof that was encoded for it and stays stored |
| `ExternalTheorems.PostedSpendsReserved` | crates/rgb-service-daemon/src/external.rs:674-679 | every body posted to the chain spends exactly the inputs reserved for its send |
| `ExternalTheorems.PostedNeverShare` | crates/rgb-service-daemon/src/external.rs:1260-1289 | two posted sends never spend the same outpoint, across all accounts, as long as no receive can be credited twice; otherwise `ExternalReservations.PostedShareText` reduces it to a text held twice |
| `ExternalTheorems.BroadcastIsReal` | crates/rgb-service-daemon/src/external.rs:1391-1398 | a send recorded as broadcast was really posted, or the chain had its body |
| `ExternalTheorems.SendCreditIsEarned` | crates/rgb-service-daemon/src/external.rs:1399-1437 | the change of a send is credited to the recorded output only after the proxy held its proof, launch, enough confirmations, promotion of its state and an answer about the peer, whose last value the record carries; and only once with a disk that flushes |
| `ExternalTheorems.ChangeGoesWhereRequested` | crates/rgb-service-daemon/src/external.rs:666-690 | from the request to the credit, over every run: the change of a send is credited to the output of its carrier that the request named as change, the carrier spends the previous outputs of the PSBT of the request in their order, and no term of the request changes on the way |
| `ExternalTheorems.StatusChangesAreBounded` | crates/rgb-service-daemon/src/external.rs:1344-1447 | with a disk that flushes, in any run, however long, an operation changes its status at most five times, each time upwards |
| `ExternalDisk.StatusBoundedExactly` | crates/rgb-service-daemon/src/external.rs:1293-1343 | any bound of at least five on the number of status changes holds in every run if and only if the flush after a credit never fails, or no operation is admitted |
| `ExternalDisk.CreditedOnceExactly` | crates/rgb-service-daemon/src/external.rs:1639-1674 | no operation is credited twice in any run if and only if the same holds |
| `ExternalDisk.CreditedAtMostOnce` | crates/rgb-service-daemon/src/external.rs:1639-1674 | with a disk that flushes, no operation, send or receive, is ever credited twice |
| `ExternalDisk.Rounds` | crates/rgb-service-daemon/src/external.rs:1331-1340 | otherwise an operation that may be credited can be credited any number of times, each time with two changes of status |
| `ExternalTheorems.ReviewIsAbsorbing` | crates/rgb-service-daemon/src/external.rs:1626-1638 | an operation under review stays under review |
| `ExternalTheorems.BindingForever` | crates/rgb-service-daemon/src/external.rs:381-400 | a request id stays bound to one parameter hash and one existing operation for all time |
| `ExternalTheorems.CreatedAtMostOnce` | crates/rgb-service-daemon/src/external.rs:401-474 | no request creates a second operation, and the configured maximum is never exceeded |
| `ExternalTheorems.RunFrozen` | crates/rgb-service-daemon/src/external.rs:320-380 | over any stretch of a run an operation keeps its terms and, once signed, its transaction, id, anchor and artifacts |
| `ExternalExpiry.RunTimely` | crates/rgb-service-daemon/src/external.rs:1448-1485 | in every run the stored proof of a receive on its way to credit came before expiry, or through the gap that an empty consignment opened |
| `ExternalExpiry.LateProofNeverCredited` | crates/rgb-service-daemon/src/external.rs:1475-1482 | a receive is credited on a proof handed out before expiry, or on one stored through the gap; the latter only for a witness invoice after an empty consignment |
| `ExternalExpiry.LateProofCreditedExactly` | crates/rgb-service-daemon/src/external.rs:1448-1485 | for any legal history and any notice saved after expiry, some run credits that proof if and only if the record was at validating with an empty proof, the invoice is not blind, the answer has no output index, the proof decodes to the asset, and its id is that of a carrier whose expected output pays to the account |
| `ExternalExpiry.GapOpens` | crates/rgb-service-daemon/src/external.rs:1448-1625 | from every history with an open gap the late proof is validated, acknowledged, confirmed and credited |
| `ExternalExpiry.LateProofCanBeCredited` | crates/rgb-service-daemon/src/external.rs:1448-1485 | the gap is reached: a whole legal run that credits a proof first seen after expiry |
| `ExternalEngine.Engine.Save` | crates/rgb-service-daemon/src/external.rs:320-380 | one atomic write over all keyspaces; a request id bound otherwise or an input held by another operation refuses it and changes nothing; on a disk error or a crash nothing or everything is written |
| `ExternalEngine.ClaimInputs` | crates/rgb-service-daemon/src/external.rs:340-350 | all inputs are claimed, exactly when none is held by another operation |
| `ExternalEngine.CheckedTotal` | crates/rgb-service-daemon/src/external.rs:1551-1556 | the sum over the allocations of the contract, or an error exactly on 64-bit overflow |
| `ExternalEngine.Engine.Credit` | crates/rgb-service-daemon/src/external.rs:1639-1674 | crediting and settling are one atomic write, allowed only when earned; an error may come after it only if the flush can fail, and then the record in memory reopens the operation |
| `ExternalEngine.Engine.MarkUnconfirmed` | crates/rgb-service-daemon/src/external.rs:1675-1700 | only the entry under the text that the operation was stored with is marked unconfirmed, the attempt is recorded, and on success it is marked, if it is tracked |
| `ExternalEngine.Engine.ChainTx` | crates/rgb-service-daemon/src/external.rs:1217-1233 | an answer of the chain is used only if it has the requested id, and that it has none is recorded too |
| `ExternalEngine.Engine.Confirmations` | crates/rgb-service-daemon/src/external.rs:1234-1259 | a depth enters the history only as an answer of the chain |
| `ExternalEngine.Engine.FetchProof` | crates/rgb-service-daemon/src/external.rs:1448-1485 | the answer of the proxy decides: an empty slot leaves the record alone, a consignment within the size limit is taken over with its id and the clock read then, and anything else is an error; after any outcome without a crash the record differs from the stored one by an allowed step; going on means it is stored as validating |
| `ExternalEngine.Engine.FindOrFetchCarrier` | crates/rgb-service-daemon/src/external.rs:1500-1508 | the carrier is the one the consignment brings along or else the one the chain answers, and has the announced id |
| `ExternalEngine.Engine.CheckTarget` | crates/rgb-service-daemon/src/external.rs:1509-1539 | yes means that the carrier pays to the account or, for a blind invoice, that the output was answered to be unspent and the proof to target the seal; no means a mismatch |
| `ExternalEngine.Engine.PreviewAmount` | crates/rgb-service-daemon/src/external.rs:1509-1556 | an amount is the total of the allocations just previewed for this proof, output and carrier; anything but the invoiced amount is a mismatch |
| `ExternalEngine.Engine.ValidateProof` | crates/rgb-service-daemon/src/external.rs:1492-1567 | success means a stored, validated record waiting for confirmations with the same terms, id and outpoint, and a preview of exactly the invoiced amount in the history; it is rejected only on a mismatch |
| `ExternalEngine.Engine.AcknowledgeTransfer` | crates/rgb-service-daemon/src/external.rs:1568-1582 | success means the proxy just answered that it holds the acknowledgement, which is stored, and nothing else changed |
| `ExternalEngine.Engine.CreditReceive` | crates/rgb-service-daemon/src/external.rs:1583-1607 | success means credited and settled, or a depth just answered that is not enough yet |
| `ExternalEngine.Engine.AcceptAndCredit` | crates/rgb-service-daemon/src/external.rs:1608-1625 | the secret of a blind invoice is stored and the stock accepts the transfer before the operation is credited |
| `ExternalEngine.Engine.RejectReceive` | crates/rgb-service-daemon/src/external.rs:1626-1638 | only on a mismatch that the stored record has; it always ends in an error, with the record under review, and the peer is told only after that is stored |
| `ExternalEngine.Engine.AdvanceReceive` | crates/rgb-service-daemon/src/external.rs:1448-1625 | a pass that ends well found the proxy slot empty, or credited the receive, or just learned that it is not deep enough; a failed one leaves an allowed half-done step |
| `ExternalEngine.Engine.ContinueReceive` | crates/rgb-service-daemon/src/external.rs:1486-1625 | once there is a proof, a pass that ends well credited the receive or just learned that it is not deep enough |
| `ExternalEngine.Engine.FinishPreparation` | crates/rgb-service-daemon/src/external.rs:804-826 | success means a stored record awaiting signature with the built outputs and the encoded artifacts, whose transaction keeps the reserved inputs; a proof over the size limit, and only that, is refused with the artifacts kept, which is an allowed step |
| `ExternalEngine.Engine.Upload` | crates/rgb-service-daemon/src/external.rs:1174-1209 | success means that the proxy accepted exactly the stored proof, or answered that it holds it for this transaction |
| `ExternalEngine.Engine.BroadcastTx` | crates/rgb-service-daemon/src/external.rs:1260-1289 | a transaction is posted only for a delivered send whose attempt is recorded, when the chain has just answered that it does not have it; success means it was posted and its id came back, or the chain has its body, and the stored record does not change |
| `ExternalEngine.Engine.DeliverAndBroadcast` | crates/rgb-service-daemon/src/external.rs:1385-1398 | success means delivered, then broadcast, each stored |
| `ExternalEngine.Engine.SettleSend` | crates/rgb-service-daemon/src/external.rs:1411-1446 | success means the change is credited and the send settled; a send that the peer rejected, by the last answer of the proxy, is never left settled |
| `ExternalEngine.Engine.Promote` | crates/rgb-service-daemon/src/external.rs:1411-1430 | yes only if the stock answers that it has taken over the state; no only if it says so again after staging and promoting it |
| `ExternalEngine.Engine.WatchSend` | crates/rgb-service-daemon/src/external.rs:1399-1440 | a pass that ends well settled the send, or just learned that it is not deep enough; the peer is asked each time |
| `ExternalEngine.Engine.AdvanceSend` | crates/rgb-service-daemon/src/external.rs:1365-1447 | a pass that ends well left an unsigned send alone, or prepared it, or settled it without a rejection by the peer, or just learned that it is not deep enough |
| `ExternalEngine.Engine.Advance` | crates/rgb-service-daemon/src/external.rs:1344-1364 | a settled operation is only watched; the others get exactly the pass of their direction |
| `ExternalEngine.Engine.WatchSettled` | crates/rgb-service-daemon/src/external.rs:1345-1357 | a settled operation stays as it is exactly when the depth just answered suffices; otherwise it is put up for review, its account is quarantined and its output is to be marked |
| `ExternalEngine.Engine.ScanOne` | crates/rgb-service-daemon/src/external.rs:1315-1341 | no other operation changes; one that is not due by the clock is left alone; one that is due is written back, after a failure with the back-off from the clock, otherwise with a minute, and then it progressed, or the answer just given left nothing to do |
| `ExternalEngine.Engine.Snapshot` | crates/rgb-service-daemon/src/external.rs:1293-1313 | exactly the operations due by the clock reading of each, without repeats, in order of their time |
| `ExternalEngine.Engine.ScanAll` | crates/rgb-service-daemon/src/external.rs:1314-1342 | each of the first 32 of a list is tried if it is still due, and no other operation changes |
| `ExternalSchedule.LongestWaitingFirst` | crates/rgb-service-daemon/src/external.rs:1306-1314 | a due operation is among the first 32, or 32 others have waited at least as long |
| `ExternalSchedule.SortedIsByTime` | crates/rgb-service-daemon/src/external.rs:1313 | the list is sorted by time |
| `ExternalSchedule.BackoffDoubles` | crates/rgb-service-daemon/src/external.rs:1333-1337 | the retry delay is half a minute, doubled with every failed attempt up to the sixth |
| `ExternalEngine.Engine.Scan` | crates/rgb-service-daemon/src/external.rs:1293-1343 | every operation found due by the clock, longest waiting first and up to 32, is tried if it still is due; no other operation changes |
| `ExternalEngine.Engine.Recall` | crates/rgb-service-daemon/src/external.rs:381-400 | a known request is answered with its operation exactly when the parameters agree; an unknown well-formed one is new |
| `ExternalEngine.Engine.ReceiveRequest` | crates/rgb-service-daemon/src/external.rs:512-593 | an answered request is bound to its operation; a repeated one changes nothing; a new one is an open invoice with the requested terms and the beneficiary that was built for it, keeps the text of the blind outpoint as sent, has a positive amount and expires within seven days of the clock just read |
| `ExternalEngine.TermsOpen` | crates/rgb-service-daemon/src/external.rs:522-527 | an amount and an expiry are acceptable exactly if positive and within the seven days after the clock |
| `ExternalEngine.Engine.IssueInvoice` | crates/rgb-service-daemon/src/external.rs:529-592 | an invoice is issued only on an account without legacy operations and, if blind, on an outpoint answered to be unspent and unallocated |
| `ExternalEngine.Engine.CheckInputs` | crates/rgb-service-daemon/src/external.rs:612-664 | yes only for a carrier answered to fit invoice and authorization, on an account without legacy operations, whose every input that holds RGB state is tracked as confirmed |
| `ExternalEngine.Engine.ReserveCarrier` | crates/rgb-service-daemon/src/external.rs:672-684 | a new send is stored with the terms of the request, its change and recipient outputs and the shown previous outputs of the carrier, for a vetted carrier only |
| `ExternalEngine.Engine.PrepareRequest` | crates/rgb-service-daemon/src/external.rs:594-694 | an answered request is bound to its operation; a repeated one changes nothing; a new one awaits signature with all terms of the request, on a transaction that spends the inputs of the given carrier, for a vetted carrier of an account that is not quarantined |
| `ExternalEngine.Engine.FinalizeRequest` | crates/rgb-service-daemon/src/external.rs:695-740 | the first signed transaction that completes the prepared one is kept for good, before expiry by the clock just read; a repeated request changes nothing |
| `ExternalEngine.Engine.CheckSigned` | crates/rgb-service-daemon/src/external.rs:714-717 | a signed PSBT is taken only if authorized, verified and complete for the prepared carrier |
| `ExternalEngine.Engine.CancelRequest` | crates/rgb-service-daemon/src/external.rs:778-800 | only a receive with neither proof nor transaction is cancelled, and only its status and retry flag change; a repeated request changes nothing |
| `ExternalEngine.Engine.RefreshRequest` | crates/rgb-service-daemon/src/external.rs:772-777 | the operation is due again and otherwise as it was, and so are all others |
| `ExternalEngine.Run` | crates/rgb-service-daemon/src/external.rs:489-502 | any sequence of requests and scans, restarted after every crash, has a legal history and keeps the invariant |
| `IfaPrograms.GenesisDecides` | crates/rgb-schemas/src/ifa.rs:68-95 | the program stops and accepts exactly when assets equal the issued supply, rights equal what is left up to the maximum, and no assignment is zero |
| `IfaPrograms.TransferDecides` | crates/rgb-schemas/src/ifa.rs:97-116 | the program stops and accepts exactly when assets, rights and the number of link rights are the same on both sides, no sum overflows and no output is zero |
| `IfaPrograms.InflationDecides` | crates/rgb-schemas/src/ifa.rs:118-150 | the program stops and accepts exactly when the spent rights equal issued assets plus remaining rights |
| `IfaPrograms.BurnDecides` | crates/rgb-schemas/src/ifa.rs:152-247 | with its two loops over any number of assignments the program stops, and accepts exactly when for both types inputs equal burned plus outputs without overflow, something is burned if there are inputs, and the jumps fit the counter |
| `IfaPrograms.LoopRuns` | crates/rgb-schemas/src/ifa.rs:170-182 | the summing loop ends with the sum of all assignments, or fails on overflow or on too many jumps |
| `IfaSupply.SupplyIsConserved` | crates/rgb-schemas/src/ifa.rs:320-404 | over every accepted history, issued plus open inflation rights plus burned rights is the maximum, and open assets plus burned assets is the issued supply |
| `IfaSupply.SupplyIsBounded` | crates/rgb-schemas/src/ifa.rs:489-498 | issued never exceeds the maximum, which fits 64 bits, so no sum over open cells overflows |
| `IfaSupply.LinkedAtMostOnce` | crates/rgb-schemas/src/ifa.rs:390-404 | at most one link transition ever happens |
| `IfaSupply.RightsCanBeIssued` | crates/rgb-schemas/src/ifa.rs:118-150 | any part of an open inflation right can be issued by a valid transition, which raises the supply by that amount |
| `IfaSupply.TransferExtends` | crates/rgb-schemas/src/ifa.rs:338-355 | any open cells of any valid history can be transferred: a balanced transition with positive outputs that keeps a link right is accepted |
| `IfaSupply.BurnExtends` | crates/rgb-schemas/src/ifa.rs:373-389 | any part of open assets and rights can be burned as long as the assignments fit the jump counter |
| `IfaSupply.LinkExtends` | crates/rgb-schemas/src/ifa.rs:390-403 | an open link right can be used, and then none is left |
| `IfaSupply.TransitionExactly` | crates/rgb-schemas/src/ifa.rs:337-404 | a transition over open cells of a valid history is accepted if and only if it fits its kind: what it closes, assigns, publishes and burns, spelled out for all four kinds |
| `IfaSupply.GenesisExactly` | crates/rgb-schemas/src/ifa.rs:320-336 | a genesis is accepted if and only if it publishes issued and maximum supply, assigns exactly these as assets and rights in positive amounts, and gives at most one link right |
| `IfaSupply.AcceptedMeans` | crates/rgb-schemas/src/ifa.rs:338-404 | what acceptance of any transition says about its input and output sums and link rights |
| `IfaSupply.BalancedBurnCanBeRefused` | crates/rgb-schemas/src/ifa.rs:152-247 | a balanced burn that the program refuses for its number of assignments |
| `ContractVm.StoppedIsFinal` | crates/rgb-aluvm/src/isa/exec.rs:48-65 | a program has at most one verdict |
| `AutoBurn.SplitDecides` | crates/rgb-schemas/src/nia2.rs:127-149 | for every total and amount up to it the program ends well, with exactly the outputs amount less burn, total less amount, the burn outpoint and the burn |
| `AutoBurn.Burn` | crates/rgb-schemas/src/nia2.rs:127-133 | the burned share is one percent rounded down, and one unit below a hundred |
| `ReturnsAbi.AddStates` | crates/rgb-api/src/scripts.rs:693-882 | the loop over any returns and outputs, with its cursor, computes the entry-by-entry specification, errors and panic included; what it returns is made up, in order, of what each entry stands for |
| `ReturnsAbi.StatesAssign` | crates/rgb-api/src/scripts.rs:706-870 | an entry that succeeds assigns its declared type, cut to 16 bits, to the holder its name stands for, with the kind of content its register stands for, read from the last output it consumes; a zero amount for beneficiary or change assigns nothing |
| `ReturnsAbi.AssignsDecides` | crates/rgb-api/src/scripts.rs:706-870 | an entry succeeds, with exactly that, whenever there is something it stands for that the builder admits |
| `ReturnsAbi.BoundsDecide` | crates/rgb-api/src/scripts.rs:701-704 | for any returns: with an output for every entry and another for every owner state there is no panic; with fewer there is no success, and a panic unless an entry is rejected before |
| `ReturnsAbi.NothingIsLost` | crates/rgb-api/src/scripts.rs:730-860 | for any returns, the assignments carry all amounts declared as 64-bit integers and nothing else |
| `AutoBurn.PaySucceeds` | crates/rgb-api/src/pay.rs:392-466 | for any outputs of the program a payment is built exactly when the inputs suffice and its parts fit a signed 64-bit integer; the loop never runs past the outputs |
| `AutoBurn.PayConserves` | crates/rgb-api/src/pay.rs:392-466 | for any outputs of the program and the declared returns: beneficiary, change and burn shares are as promised with no zero assignment; the assignments add up to the inputs, and the validator accepts, exactly when the amount is not zero |
| `AutoBurn.CheckDecides` | crates/rgb-schemas/src/nia2.rs:176-184 | the transfer validator accepts exactly equal sums without zero outputs and without overflow |
| `Selection.Coins` | crates/rgb-service-local/src/lib.rs:1051-1070 | one coin for each outpoint with an allocation, with the saturated sum of what it holds, in outpoint order |
| `Selection.CoinsAreUnique` | crates/rgb-service-local/src/lib.rs:1051-1070 | the coins are determined by the allocations, so the contracts of the selectors speak of the only listing there is |
| `Selection.Greedy` | crates/rgb-service-local/src/lib.rs:1073-1082 | the loop stops at the first number of coins at which the 64-bit sum reaches the amount, and goes through all coins if there is none |
| `Selection.SelectInputs` | crates/rgb-service-local/src/lib.rs:1031-1099 | outpoints that come before all others (larger first, of equal ones the smaller outpoint) and whose 64-bit sum reaches the amount, and no fewer of these would do; an error exactly if there are none |
| `Selection.SelectForInvoice` | crates/rgb-api/src/pay.rs:217-248 | the same with ties broken the other way; nothing if there are none |
| `Selection.SelectForContract` | crates/rgb-coloring/src/detail.rs:139-189 | the same with ties broken the other way; everything if there are none |
| `Selection.PickedMeans` | crates/rgb-service-local/src/lib.rs:1071-1088 | what each selector returns, without reference to a ranking: the least leading choice whose 64-bit sum reaches the amount |
| `Selection.PicksDecide` | crates/rgb-service-local/src/lib.rs:1071-1088 | no other answer satisfies that |
| `Selection.PickedSuffices` | crates/rgb-service-local/src/lib.rs:1083-1088 | whatever is selected consists of available outpoints and holds the amount, also when the sum wraps around |
| `Selection.ReachedExactly` | crates/rgb-service-local/src/lib.rs:1073-1088 | without enough funds nothing is selected; with enough, the least sufficient number of coins is, if and only if the covering sum fits 64 bits; otherwise more or nothing |
| `Selection.FewestOutpoints` | crates/rgb-service-local/src/lib.rs:1071-1082 | given enough funds and however ties are broken, what is selected suffices with as few outpoints as any sufficient choice if and only if the covering sum fits 64 bits |
| `Selection.AllSelectorsFewest` | crates/rgb-api/src/pay.rs:226-248 | the condition is the same for all three selectors |
| `Selection.SelectorsAgree` | crates/rgb-coloring/src/detail.rs:165-180 | on the same coins the selectors succeed together, with as many outpoints, which hold the same sums |
| `Selection.SelectorsStopTogether` | crates/rgb-api/src/pay.rs:226-241 | the selectors stop at the same number of coins, also when the sum wraps around |
| `Selection.RankedSame` | crates/rgb-api/src/pay.rs:223-231 | ranking changes neither the worth nor the number of any choice of outpoints |
| `Selection.CoinsAreWorthAll` | crates/rgb-service-local/src/lib.rs:1051-1070 | the coins are worth all allocations together unless one outpoint alone leaves 64 bits |
| `Selection.SufficientFundsCanBeRefused` | crates/rgb-service-local/src/lib.rs:1073-1088 | two allocations that together hold enough, and for which the wallet selects nothing |
| `PsbtTransfer.Merge` | crates/rgb-service-local/src/lib.rs:1573-1583 | requests become one payment for each contract and seal, saturating |
| `PsbtTransfer.BuildTransfer` | crates/rgb-service-local/src/lib.rs:1607-1654 | fails exactly when the payments exceed the inputs or there are none; else spends all fungible state, pays every recipient and keeps the rest, and sets aside the other state |
| `PsbtTransfer.AsideAll` | crates/rgb-service-local/src/lib.rs:1664-1682 | exactly the state on the inputs that no transfer spends gets a blank transition |
| `PsbtTransfer.Carrier.Push` | crates/rgb-api/psbt/src/lib.rs:965-1011 | a transition is added exactly when none of its inputs has another consumer, and the consumer table stays complete |
| `PsbtTransfer.PushBlanksOf` | crates/rgb-service-local/src/lib.rs:1684-1712 | one blank transition for each piece; a double spend exactly when a piece is listed twice |
| `PsbtTransfer.OnEachDistinct` | crates/rgb-service-local/src/lib.rs:1664-1682 | state is listed once exactly when no input that carries it occurs twice |
| `PsbtTransfer.Prepare` | crates/rgb-service-local/src/lib.rs:1559-1738 | succeeds exactly when every contract can be paid and no input with other state occurs twice; then every piece of state on a spent input has exactly one consumer, no transition lists a piece twice or consumes anything else, each paid contract has one transfer, and all other transitions are blanks |
| `PsbtTransfer.TransferSpendsOnce` | crates/rgb-service-local/src/lib.rs:1607-1633 | a transfer spends each piece of fungible state on the inputs once, so of every type the amount that the contract keeps there |
| `PsbtTransfer.OneConsumer` | crates/rgb-api/psbt/src/lib.rs:965-987 | no assignment is consumed by two transitions |
| `PsbtTransfer.TransferPays` | crates/rgb-service-local/src/lib.rs:1634-1650 | each recipient gets what was asked for it, the change output the rest, and nothing but asset state is assigned |
| `PsbtTransfer.TransferConserves` | crates/rgb-service-local/src/lib.rs:1613-1650 | a transfer conserves every type exactly when only assets are put in and their sum fits 64 bits |
| `PsbtTransfer.BlankConserves` | crates/rgb-service-local/src/lib.rs:1684-1712 | a blank transition moves one piece of state unchanged to the change output |
| `PsbtTransfer.RightsCanBecomeAssets` | crates/rgb-service-local/src/lib.rs:1617-1619 | inputs of ten assets and five rights put out fifteen assets |
| `Coloring.BuildMain` | crates/rgb-coloring/src/detail.rs:206-264 | refused, or a panic, or exactly the transition that carries other state, pays the recipients and keeps the rest |
| `Coloring.Compose` | crates/rgb-coloring/src/detail.rs:191-311 | succeeds exactly when every paid contract can be composed and a change seal is there when needed; then every piece of state on a spent outpoint is an input of exactly one transition, as often as the contract lists it, nothing else is an input, and there is one transition for each paid or touched contract |
| `Coloring.MainSums` | crates/rgb-coloring/src/detail.rs:206-264 | what a main transition puts out of each type |
| `Coloring.MainConserves` | crates/rgb-coloring/src/detail.rs:206-264 | a main transition conserves every type exactly when no carried amount is followed by another piece of its type, the change seal is not a paid recipient, and payments and inputs leave 64 bits equally often |
| `Coloring.BlankConserves` | crates/rgb-coloring/src/detail.rs:281-301 | a blank transition conserves every type exactly when no amount is followed by another piece of its type |
| `Coloring.CarryKeepsPieces` | crates/rgb-coloring/src/detail.rs:281-301 | every piece of state keeps an assignment of its own exactly when no two are of one type |
| `Coloring.BlankCanLose` | crates/rgb-coloring/src/detail.rs:281-301 | of two allocations of one type only the second is assigned again |
| `Coloring.Commit` | crates/rgb-coloring/src/detail.rs:337-438 | no panic exactly for a non-empty list with distinct contracts and inputs; then one bundle for each contract |
| `Coloring.ComposedCommits` | crates/rgb-coloring/src/detail.rs:387-400 | what was composed never panics on a missing contract |
| `Coloring.ConsumerIsUnique` | crates/rgb-coloring/src/detail.rs:346-377 | a bundle maps each consumed assignment to the one transition that consumes it, and nothing else |
| `Coloring.OrderDoesNotMatter` | crates/rgb-coloring/src/detail.rs:337-438 | the bundles do not depend on the order of the list |
| `StagedQueue.Queue.Stage` | crates/rgb-service-local/src/lib.rs:237-254 | operation and status are written together |
| `StagedQueue.Queue.StoreStock` | crates/rgb-service-local/src/lib.rs:1843-1864 | the stored stock stays the result of the applied operations |
| `StagedQueue.Queue.Remove` | crates/rgb-service-local/src/lib.rs:389-399 | an operation leaves the queue only when its effect is stored |
| `StagedQueue.Queue.Replay` | crates/rgb-service-local/src/lib.rs:1831-1867 | whatever fails or crashes in between, the queue stays valid; success means applied and removed |
| `StagedQueue.Queue.ScanOne` | crates/rgb-service-local/src/lib.rs:1514-1549 | one entry of the scan, by the answer of the chain just given: a confirmed operation is applied, leaves the queue and is marked confirmed, an unconfirmed one is marked pending, an unknown one is left alone; the queue stays valid and no other entry changes |
| `StagedQueue.Queue.Scan` | crates/rgb-service-local/src/lib.rs:1507-1551 | a scan with crashes between any two writes keeps the queue valid; one that ends well has asked the chain about every queued operation and dealt with it by the answer, and exactly the confirmed ones have left |
| `StagedQueue.StoreKeeps` | crates/rgb-service-local/src/lib.rs:1831-1867 | storing an effect, for the first time or again after a crash, keeps the stock equal to each applied operation once |
| `StagedQueue.Run` | crates/rgb-service-local/src/lib.rs:1507-1551 | in every run a queued operation has no terminal status, an operation leaves only with its effect stored, a confirmed status means the effect is there, and the stock is each of these operations applied once |
| `Namespaces.SplitRecovers` | crates/rgb-service-local/src/lib.rs:439-461 | splitting a key at its first zero byte gives its account and suffix |
| `Namespaces.KeysAreApart` | crates/rgb-service-local/src/lib.rs:215-221 | keys of different accounts are different |
| `Namespaces.ScanIsExact` | crates/rgb-service-local/src/lib.rs:287-316 | a prefix scan for an account meets exactly its own keys |
| `Namespaces.ScanLeaks` | crates/rgb-service-local/src/lib.rs:161-171 | for any ids, a scan meets keys of another account exactly when one prefix extends the other |
| `Namespaces.ZeroByteLeaks` | crates/rgb-service-local/src/lib.rs:161-171 | an id with a zero byte lies inside another account |
| `Namespaces.Keyspace.Put` | crates/rgb-service-local/src/lib.rs:256-270 | a write in one namespace changes no read in another |
| `Namespaces.Keyspace.Remove` | crates/rgb-service-local/src/lib.rs:389-399 | a removal in one namespace changes no read in another |
| `Namespaces.Keyspace.ScanSuffixes` | crates/rgb-service-local/src/lib.rs:298-316 | the scan returns exactly the suffixes the account can read |
| `Namespaces.Keyspace.Accounts` | crates/rgb-service-local/src/lib.rs:439-461 | exactly the texts before the first zero byte of some key |
| `Namespaces.AccountsAreExact` | crates/rgb-service-local/src/lib.rs:439-461 | in a store written by accounts these are exactly the accounts that have an entry |
| `SqlFields.ParseSelected` | crates/rgb-service-daemon/src/stake_import.rs:303-399 | for any line and any columns, the result is the projection of the parse of all columns, with their number, and it fails on the same lines |
| `SqlFields.ParseUndoesPrint` | crates/rgb-service-daemon/src/stake_import.rs:303-399 | parsing undoes printing for every list of NULLs, bare tokens and strings with doubled quotes, with any white space around them |
| `SqlFields.ScanDoubled` | crates/rgb-service-daemon/src/stake_import.rs:354-371 | doubled quotes and the closing quote give back the text |
| `SqlFields.ScanQuotedToken` | crates/rgb-service-daemon/src/stake_import.rs:372-391 | white space around a quoted text is dropped |
| `Base62.Encode` | crates/rgb-schemas/src/nia2.rs:62-78 | the text has only digits and stands for the hash, without a leading zero |
| `Base62.Decode` | crates/rgb-api/src/scripts.rs:208-238 | succeeds exactly on non-empty texts of digits whose number fits 32 bytes, and returns that number |
| `Base62.RoundTrip` | crates/rgb-api/src/scripts.rs:208-238 | decoding the encoding of any 32 bytes gives them back |
| `Base62.NumberRoundTrip` | crates/rgb-api/src/scripts.rs:230-237 | the bytes returned stand for the decoded number |
| `Base62.DigitIsPlace` | crates/rgb-api/src/scripts.rs:222-225 | a character has a value exactly when it is in the alphabet, and the value is its place there |
| `Base62.ShortestFits` | crates/rgb-api/src/scripts.rs:230-237 | the shortest big-endian form has at most k bytes exactly for numbers below 256^k, and padding it gives the k bytes |
| `RecipientOutputs.FindRecipientVouts` | crates/rgb-service-daemon/src/legacy.rs:2187-2217 | distinct matching outputs, first fit; succeeds exactly when for each script and value the recipients with a non-zero amount do not outnumber the outputs |
| `RecipientOutputs.FindChangeVout` | crates/rgb-service-daemon/src/legacy.rs:2219-2237 | the first output with the change script and a value outside the recipients' outputs, found exactly when there is one |

## Left out

- HTTP routing, request signatures, URL and IP checks, and the JSON of the proxy and chain services: their answers are arbitrary values in the model.
- Signature verification, SHA-256, Merkle commitments and consignment validation: a digest is an injective function of its text, and validation is an answer that is recorded in the history.
- The clock reading that decides expiry is taken when the proxy's answer arrives; time stamps for display and error texts are not modelled.
- Which texts of an outpoint the parser accepts: any parser that reads back what the program writes.
- Listing and reading operations, the account keyspace and the balance projection: they change nothing.
- Byte offsets and encodings of instructions: jumps go to instruction indices, and the operands of an extraction are whole amounts.
- Names, terms, reject lists and linked contract ids in the global state of the schemas, and the schemas without inflation: they would add no harder statement.
- The payer's handling of data and rights invoices, and extra transitions for other contracts in `build_extra_transitions`: the wallet and colouring forms of the same step are modelled.
- Checks of the change output and the OP_RETURN output before `PsbtTransfer.Prepare`, and embedding and committing its bundles in the PSBT.
- Parsing outpoint texts, hashes and typed values of an interface program, and what the transition builder refuses: parameters of `ReturnsAbi`.
- A build with overflow checks: where the source adds with `+` or `+=`, the sums wrap around as in a release build; a debug build panics instead.
- Random and hashed blinding factors: a fresh change seal never equals the seal of a recipient in `PsbtTransfer`; in `Coloring` seals are arbitrary.
- Migration of stores and copying pending operations between them: it can carry a terminal status along with an operation.
- The stock inside `StagedQueue`: applying an operation is a function that may refuse, assumed to leave its effect, to change nothing the second time, and to keep earlier effects.
- Two scans of one queue at the same time, and the order in which a scan takes its entries.
- The rows built from the parsed SQL fields, and the redeem handlers of the legacy interface.
