# PeerSwap, modelled and verified

PeerSwap trades a lightning balance for an on-chain balance between two channel peers. The
*maker* funds an on-chain output locked by a script; the *taker* pays a lightning invoice and
takes the output with the preimage that the payment reveals. Four state machines (swap-in
sender and receiver, swap-out sender and receiver) run this protocol over an unreliable
network, chain and process.

The project models

- the opening script and the fragment of Bitcoin Script it uses, as an interpreter (`Script`);
- the selection of the opening output (`OnChain`), timelock policies and route limits
  (`Timelock`), swap data and peer messages (`SwapData`);
- the four transition tables (`States`, compared with the documented diagrams in `Diagrams`),
  every action (`Actions`, summarised in `Effects`, its outcome fixed in `Exact`), and one machine
  with its stored snapshot as a transition system (`Fsm`). The environment chooses every service
  result, delivers any message, watcher event or timeout, and may kill the process between any two
  persistence points, also by a nil dereference;
- the machine as the imperative program (`Machine`), proved step by step against `Fsm`, and the
  service that keeps the active swaps (`Service`);
- premium arithmetic (`Premium`), the Electrum watcher (`Electrum`), the full-node transaction
  search (`BlockScan`) and the redundant senders (`Senders`).

The whole-run results quantify over every sequence of steps from a new machine. They are in
`Progress`, `Presence`, `Claims`, `Replay`, `Makers`, `Fundings`, `Openings`, `Receipts`, `Takers`,
`Payments`, `Anchors`, `Keys`, `Settlement`, `Fees`, `Exchange` and `Sending`; each states an
invariant of the transition system, shows that every step keeps it, and reads the result off. A
machine's history (`log`) records its moves and external effects, so "at most once" and "before"
are statements about that sequence. `Peers` joins the runs of a maker and a taker that hear only
each other, and `Completion` shows that a swap between cooperative peers is completed.

`dafny verify dfyconfig.toml` checks everything.

## What the proofs found

Some things the code might be expected to promise do not hold as they stand. Each is kept as the
code has it, shown by a run from a new machine (`Witnesses`), and delimited exactly.

- A crash between creating a spending transaction and storing its id makes recovery create a
  second one (`LostSpendIsRepeated`). The number of spends is exactly the number of such crashes,
  plus one if an id is on record (`SpendsAtMostOnce`).
- A crash that finds the swap stored in the opening state without an opening makes recovery fund
  again: after a failed opening was stored (`FailedOpeningIsRepeated`), and again when that
  recovery succeeds but is not stored before the next crash (`ReopenedOpeningIsRepeated`). Between
  any two fundings lies such a crash (`FundsAtMostOnce`), and a maker that has funded funds again
  exactly in the recovery from one (`FundsAgainExactlyWhen`).
- An opening that succeeded but was not stored before a crash is not on record: a swap-in sender
  is then left waiting for an agreement it already has (`LostOpeningIsStranded`). The outputs
  funded with success are exactly the one on record and one for every such crash
  (`UsableOutputsOnRecord`).
- When the block height cannot be read right after the wallet has funded the output, the maker
  cancels and leaves the output behind (`FundedOutputIsAbandoned`); in a crash-free run this is
  the only way to abandon a funded output (`FundedOutputsFate`).
- `SendEvent` stores a message before it rejects its event. A maker that is sent an opening
  message before it has its own keeps it, skips the funding and announces the swap; without a raw
  transaction it has no refund either (`ForeignOpeningSkipsFunding`). An announced maker has funded
  its output, under its own key, if and only if it accepted no such message
  (`AnnouncedOpeningIsOwn`), and then, with a wallet that did what it reported, the output on
  record always comes back (`HonestMakerIsRefunded`); outputs lost to a crash before do not.
- In the same way a swap-in agreement sent to a swap-out sender is kept, and makes its premium
  check dereference a missing request (`SwapOutSenderPanics`); no other nil dereference by an
  action is reachable (`NoNilDereference`).
- The swap-out sender's timeout edge out of `ClaimSwap` gives the private key away after the
  claim payment succeeded (`TimeoutRevealsKey`, in a world where it can happen,
  `PlainWorldIsSmooth`); the timer is started with the swap and nothing cancels it. In a crash-free
  run it is the only way, and the swap-in receiver has no such edge. A crash between the payment
  and the stored claim is the other way: recovery waits or pays again, and may give up
  (`LostPreimageRevealsKey`). There is no third (`KeyIsKeptAfterPayment`).
- A maker whose claim invoice was paid is done and does not refund itself. The one exception is a
  crash after the payment was handled and before the finished swap was stored: the maker waits
  again, and refunds if the lock passes before it hears of the payment once more
  (`ForgottenPaymentIsRefunded`). A refund follows a payment if and only if there was such a crash
  in between (`PaidMakerRefundsExactlyWhen`).
- A maker that accepted a foreign opening message repeats its request or agreement where it should
  announce the opening; every other message that is sent is the one on record (`SendsExactly`,
  `SentMessagesAreOnRecord`).
- The diagrams in `docs/mmd` and the transition tables differ in four edges. The diagrams do not
  show a failed wait for the agreement or for the fee payment, nor the timeout out of `ClaimSwap`,
  and send a failed announcement of the swap-out receiver to an `Aborted` state that does not
  exist; the code sends it to `WaitCsv`. The model follows the code (`TablesFollowDiagrams`).
- `SendEvent` on a finished swap is rejected rather than reported as done again; `done` is
  reported exactly when a call finishes the swap (`SendEvent`, `Drive`).
- A premium below minus the amount wraps around; the initiator's cost equals the premium exactly
  when the sum does not wrap (`CostIsPremium`). Outside the 64-bit range a higher rate can give a
  lower premium (`WrappedPremiumDrops`).
- A block scan whose end is the largest 32-bit block number does not stop there: its counter wraps
  around, and it runs forever exactly when no block has the transaction (`IsTxInRange`).

## Model

| member | source | states |
|---|---|---|
| Script.OpeningScriptAccepts | onchain/utils.go:28-51 | for every stack, signature oracle, hash and sequence the script accepts exactly the three intended spends |
| Script.NoThirdWay | onchain/utils.go:28-51 | without the maker's key a spend carries a 32-byte preimage and the taker's signature; without the taker's key it is the maker's and the lock has passed |
| Script.MakerAloneWaits | onchain/bitcoin.go:232-234 | a spend without the taker's key cannot be mined before `csv` blocks on top of the output (BIP 68, BIP 112) |
| Script.BuiltWitnesses | onchain/utils.go:53-81 | each of the three built witnesses is accepted exactly under the conditions of its path |
| Script.SequenceSetToLock | onchain/bitcoin.go:232-234 | an input whose sequence is the lock satisfies the lock |
| Script.EncodeNumRoundTrip | onchain/utils.go:46-46 | the pushed lock number decodes to itself and is true exactly when positive |
| OnChain.FindVoutByAmount | onchain/bitcoin.go:142-177 | the first output with the amount, or none |
| OnChain.FindVoutByScript | onchain/liquid.go:554-570 | the first output with the script, or none |
| OnChain.GetVoutAndVerify | onchain/bitcoin.go:142-177 | agrees with validation, and on a validated transaction names the validated output |
| OnChain.ValidatedOutput | onchain/bitcoin.go:82-124 | a validated transaction has, at the index every claim selects, an output of the swap's amount locked by the swap's script |
| OnChain.ValidatesExactly | onchain/bitcoin.go:82-124 | a transaction validates if and only if it parses and the output the chain looks for is as agreed |
| OnChain.ValidatedIsSpendable | onchain/liquid.go:261-290 | a spending transaction can be built from a transaction that validates |
| Timelock.ValidateTotalCltvDelta | swap/timelock.go:33-42 | inclusive limit, zero meaning none |
| Timelock.BuildDirectClaimRoute | clightning/clightning.go:507-540 | the hop's delay, refused exactly when a limit is set and the delay is negative or too long |
| Timelock.BuildDirectClaimPaymentRequest | lnd/client.go:326-362 | the router's CLTV limit, refused exactly when a limit is set and the padded final hop does not fit |
| Timelock.UnlimitedRoute | clightning/clightning.go:507-540 | without a limit, as on Bitcoin, the delay and the router's limit of both backends |
| Timelock.LimitedRoute | lnd/client.go:326-362 | with a limit, exactly which invoices pass and with which delay |
| Timelock.PoliciesAre | swap/timelock.go:44-77 | the policy of every chain and protocol version, as numbers |
| Timelock.InvoiceLimits | swap/actions.go:826-845 | exactly which invoices a taker accepts, as numbers |
| Timelock.AcceptedInvoicesRoute | swap/timelock.go:8-42 | every invoice that passes a v7 Liquid taker passes both backends' route limits, within 32 blocks |
| Timelock.PaymentEndsBeforeRefund | swap/timelock.go:14-17 | a payment inside the window is over before an output confirmed at or after the anchor can be refunded |
| SwapData.ApplyInput | swap/messages.go:151-393 | peer messages are write-once and touch nothing the node computed itself |
| Diagrams.SwapInSenderEdgesAre | docs/mmd/swap-in-sender-states.md:1-42 | the swap-in sender's table has exactly the documented edges |
| Diagrams.SwapOutReceiverEdgesAre | docs/mmd/swap-out-receiver-states.md:1-41 | the swap-out receiver's table has exactly the documented edges and two more: a failed wait for the fee cancels, a failed announcement waits for the lock |
| Diagrams.SwapOutSenderEdgesAre | docs/mmd/swap-out-sender-states.md:1-43 | the swap-out sender's table has exactly the documented edges and two more: a failed wait for the agreement, and the timeout out of `ClaimSwap` |
| Diagrams.SwapInReceiverEdgesAre | docs/mmd/swap-in-receiver-states.md:1-38 | the swap-in receiver's table has exactly the documented edges |
| Diagrams.TablesFollowDiagrams | swap/swap_out_receiver.go:31-128 | all four tables together, cancelling included |
| Diagrams.CancelLeads | swap/service.go:863-879 | where a cancel message leads in every state of every table, and where it is rejected |
| Diagrams.WatcherLeads | swap/service.go:880-897 | where a failed confirmation, a cooperative close and the passed lock lead |
| Diagrams.TimeoutLeads | swap/swap_in_receiver.go:53-62 | where the timeout leads in every state of every table |
| States.TablesAreClosed | swap/fsm.go:217-228 | every edge leads to a declared state, so `ErrFsmConfig` cannot occur, and finished states have no edges |
| SwapData.AppliedExactly | swap/messages.go:151-393 | what an accepted message writes is what was received, and it writes nothing else |
| SwapData.RequestChain | swap/swap.go:280-289 | a valid request is on exactly one chain, which the data of its swap shows together with its version |
| SwapData.AmountsAre | swap/swap.go:210-228 | the requested amount on one leg, the premium added on the other |
| Actions.CreateRequest | swap/actions.go:627-646 | a v7 Liquid swap leaves creation with its anchor read once and set |
| Actions.AgreeSwapOut | swap/actions.go:453-519 | an agreement is written only for an accepted request the wallet can fund, under the node's own key |
| Actions.AgreeSwapIn | swap/actions.go:160-199 | an agreement is written only for an accepted request, under the node's own key, with the anchor set |
| Actions.PayFee | swap/actions.go:687-744 | the fee is paid exactly when premium, balance, probe and fee limit allow it, and once per execution |
| Actions.OpenSwap | swap/actions.go:263-346 | funds at most once per execution, never when the opening message exists, and sets the message exactly on success |
| Effects.OpenedParams | swap/actions.go:297-345 | the funded parameters are those the maker computes from then on |
| Actions.Claim | swap/actions.go:525-578 | a spending transaction is created only while none is recorded, for the swap's parameters, from a raw transaction it can be built from |
| Actions.SetStartingHeight | swap/actions.go:993-1032 | a v7 Liquid anchor is never replaced; waiting goes on only inside the window |
| Actions.AwaitConfirmation | swap/actions.go:789-893 | waiting starts only with the invoice checked, its hash bound and the height in range; an invoice once bound stays bound |
| Actions.PayRounds | swap/actions.go:953-987 | every round pays the swap's invoice at an allowed height; only the last one can have succeeded |
| Actions.ValidateAndPay | swap/actions.go:898-989 | no payment without a validated transaction; success means a paid round with the returned preimage |
| Exact.PayRoundsExactly | swap/actions.go:953-987 | the payment is retried: a preimage comes back if and only if some round brings it and all rounds before were allowed and failed; one payment is made in each round it comes to |
| Exact.PaymentSucceedsExactly | swap/actions.go:898-989 | the claim invoice is paid if and only if the transaction validates and some round brings a preimage; a legacy swap if and only if one is there or recovered |
| Exact.MayPayExactly | swap/actions.go:953-976 | the heights at which a payment may be made, as numbers |
| Exact.LiquidV7Exactly | swap/timelock.go:44-82 | the swaps with a payment window are exactly those with the policy of a week's lock |
| Exact.StartingHeightExactly | swap/actions.go:993-1032 | waiting for the opening goes on if and only if the height can be read and is early enough; the first height read is kept |
| Exact.ConfirmationExactly | swap/actions.go:789-893 | waiting for the confirmation starts if and only if the invoice decodes and is acceptable, the height is early enough and the script known; its hash is then bound |
| Exact.WaitingExactly | swap/actions.go:361-451 | a maker waits for payment or lock if and only if policy and script are known |
| Exact.RequestExactly | swap/actions.go:627-646 | creation succeeds if and only if a v7 Liquid anchor can be read, and makes the request on record ready to send |
| Exact.SwapInAgreementExactly | swap/actions.go:160-199 | when the responder of a swap-in agrees, and the agreement it records and makes ready |
| Exact.SwapOutAgreementExactly | swap/actions.go:453-519 | when the responder of a swap-out agrees, with the balance it needs, and the agreement it records and makes ready |
| Exact.PremiumCheckExactly | swap/actions.go:244-259 | passes if and only if the agreed premium is at most the limit |
| Exact.FeePaidExactly | swap/actions.go:687-744 | the fee is paid if and only if premium, invoice, channel balance, probe and three times the expected fee allow it |
| Exact.FeeExactly | swap/actions.go:687-744 | what a paid fee leaves behind |
| Exact.OpeningExactly | swap/actions.go:263-346 | a first opening succeeds if and only if every service answers; the recorded message is the one made ready, with the invoice, the transaction and the blinding key |
| Exact.ClaimExactly | swap/actions.go:525-578 | a claim succeeds if and only if one is on record or the wallet is willing and the transaction spendable; only the cooperative close gives up at once |
| Exact.SendingExactly | swap/actions.go:647-685 | what is sent is the message that was made ready, and nothing else |
| Exact.RetriesExactly | swap/fsm.go:246-262 | an action that asks for a retry gets twenty, then the machine rests |
| Exact.GivenUpIsCanceled | swap/fsm.go:288-290 | a crashed swap in a state that fails on recovery ends cancelled, with nothing but moves in its history |
| Exact.OtherwiseResumed | swap/fsm.go:292-300 | every other unfinished swap re-runs the action of its stored state |
| Exact.DeliveryExactly | swap/fsm.go:192-214 | a malformed message changes no data, a repeated one nothing at all, any other is stored before its event is looked up |
| Exact.StartExactly | swap/messages.go:55-84 | the requests that start a swap |
| Effects.ExecuteSummary | swap/actions.go:142-1057 | which events, field changes, calls and sender changes each state's action can produce |
| Effects.ExecuteDetails | swap/actions.go:142-1057 | what the claim, payment, opening, creation and confirmation actions guarantee beyond that |
| Fsm.AlwaysInSync | swap/fsm.go:210-265 | between events the store equals the memory, and at most twenty retries are counted |
| Fsm.KeyIsFixed | swap/swap.go:406-426 | a swap's private key never changes, in memory or in the store |
| Progress.EdgesDescend | swap/swap_in_sender.go:28-112 | every edge but a retry goes down in rank, except that a coop close message may lead up by less than its detour |
| Progress.StateChangesAreBounded | swap/fsm.go:182-266 | over a whole life the state changes other than retries are at most 11 for a maker, 12 for a swap-out sender and 9 for a swap-in receiver, and one more for every crash |
| Progress.CoopIsTriedOnce | swap/messages.go:387-393 | on every maker run, crashes included, `ClaimSwapCoop` is entered at most once |
| Progress.FinishedIsAbsorbing | swap/fsm.go:304-316 | a finished swap stays in its final state on every continuation |
| Presence.AlwaysHolds | swap/fsm.go:192-221 | on every run each state has the messages its action reads |
| Presence.NoNilDereference | swap/actions.go:244-259 | no action meets a missing message, except exactly a swap-out sender entering the fee payment with a swap-in agreement |
| Witnesses.SwapOutSenderPanics | swap/actions.go:244-249 | a run from a new machine to that exception |
| Claims.SpendsAtMostOnce | swap/actions.go:217-238 | the spending transactions of a run are exactly the lost ones and the one on record; at most one if and only if none was lost, or one was and none is on record |
| Claims.ClaimTxIdIsWriteOnce | swap/fsm.go:240-301 | a recorded claim transaction id stays for every continuation, unless a crash loses it |
| Witnesses.LostSpendIsRepeated | swap/fsm.go:240-244 | a run from a new machine with two spends: a refund lost to a crash before storing is created again |
| Claims.OneSender | swap/actions.go:353-359 | a redundant sender is registered only while the opening is announced or its payment awaited; none is stopped twice |
| Replay.SendersReplay | swap/actions.go:663-682 | the registrations and stops of every run replay without a refusal or a second stop, and leave just the machine's sender |
| Replay.ReplayEntry | messages/sender.go:74-91 | one entry of the history on the manager: the registration is accepted, the stop finds its sender running |
| Replay.ReplayOnManager | messages/sender.go:74-91 | replayed on the manager, every registration is accepted and every stop finds its sender running |
| Makers.NeverCanceledOnceAnnounced | swap/swap_in_sender.go:66-103 | once the opening is announced no run, crashes included, reaches a cancelled swap |
| Openings.AlwaysAWayForward | swap/swap_out_receiver.go:70-107 | wherever an announced, unfinished maker without a foreign opening rests, a restart and the lock lead to a claimed swap if and only if a claim is on record or the raw opening transaction can be spent |
| Openings.HonestMakerIsRefunded | swap/actions.go:525-545 | with a wallet that did what it reported that is always so, with a spend in the history for parameters the maker funded |
| Openings.AnnouncedOpeningIsOwn | swap/actions.go:269-271 | an announced maker's opening is one it funded, under its own key, if and only if it accepted no foreign one; if it did, it funded nothing |
| Openings.RecordedOpeningIsOwn | swap/messages.go:334-340 | the same for every maker run with an opening on record, announced or not |
| Openings.UsableOutputsOnRecord | swap/fsm.go:240-244 | on every maker run the outputs funded with success are exactly the own one on record and one for every crash that lost one; if none did, each is the one on record |
| Openings.RefundsSpendFundedOutput | swap/actions.go:525-578 | every refund and cooperative close is for parameters funded before, from the reported transaction, under the maker's own key, with a witness the script accepts |
| Witnesses.ForeignOpeningSkipsFunding | swap/fsm.go:203-221 | a run in which a foreign opening message makes an announced maker that funded nothing and has no refund |
| Makers.OpeningIsFinal | swap/actions.go:269-271 | once the opening message is stored no continuation funds again or loses the message |
| Makers.FundedOutputsFate | swap/actions.go:300-320 | in a crash-free run a funded output is announced exactly when the height could be read, and abandoned by a cancelled swap exactly when not |
| Fundings.FundsAtMostOnce | swap/actions.go:263-271 | between any two fundings of a run lies a crash that found a failed opening in the store |
| Fundings.FundsAgainExactlyWhen | swap/fsm.go:292-300 | a maker that has funded funds again exactly when it recovers such a swap and the services let it |
| Witnesses.FailedOpeningIsRepeated | swap/fsm.go:292-300 | a run from a new machine with two fundings |
| Witnesses.ReopenedOpeningIsRepeated | swap/fsm.go:292-296 | a run with two usable fundings: the recovery succeeds, is lost, and is repeated |
| Witnesses.LostOpeningIsStranded | swap/fsm.go:240-244 | a run that rests waiting for the agreement with a usable output that is not on record |
| Witnesses.FundedOutputIsAbandoned | swap/actions.go:317-320 | a crash-free run that ends cancelled with a funded output |
| Receipts.PaidMakerIsDone | swap/swap_in_sender.go:73-80 | on every maker run at rest waiting for the payment, being paid ends in `ClaimedPreimage`, stored, with its sender stopped and no transaction made |
| Receipts.PaidMakerRefundsExactlyWhen | swap/swap_out_receiver.go:77-84 | on every maker run, crashes included, a refund follows a payment if and only if a crash in between threw the maker back to waiting; without a crash never |
| Witnesses.ForgottenPaymentIsRefunded | swap/fsm.go:240-244 | a run in which that happens |
| Takers.AlwaysBound | swap/actions.go:789-893 | on every taker run the taker's place is held by its own key, and past the confirmation wait the invoice is checked and bound |
| Payments.AlwaysPaying | swap/actions.go:898-989 | every payment and preimage spend in the history fits the swap in memory and in the store |
| Payments.PaidInvoiceOpensOutput | swap/actions.go:789-989 | every claim payment is for a validated output of the opening amount, locked to the invoice's hash and the taker's own key, which the returned preimage opens |
| Payments.ClaimSpendsPaidOutput | swap/actions.go:217-238 | every preimage spend uses the preimage, parameters and output of an earlier successful payment |
| Anchors.AnchorNeverMoves | swap/actions.go:142-158 | a v7 Liquid taker reads its anchor once, before anything is sent, and keeps it |
| Anchors.PaymentsStayInWindow | swap/actions.go:953-988 | every v7 Liquid payment is within sixty blocks of the anchor, under the 32-block cap, 10020 blocks before a refund |
| Anchors.LiquidRefundComesTooLate | onchain/utils.go:45-48 | whoever takes a paid-for v7 Liquid output without the taker's key is mined more than 10020 blocks after the payment |
| Anchors.BitcoinRefundComesTooLate | swap/actions.go:962-966 | on Bitcoin such a spend is mined no earlier than the payment's height plus the CLTV delta its invoice may ask for |
| Keys.KeyIsKeptAfterPayment | swap/swap_in_receiver.go:62-97 | on every taker run, crashes included, the key is given away after a successful payment exactly on the timeout edge out of `ClaimSwap` or after a crash in between that threw the taker back to before the claim; so never by a crash-free swap-in receiver |
| Witnesses.TimeoutRevealsKey | swap/swap_out_sender.go:104-110 | a crash-free run of a swap-out sender that gives its key away after a successful payment |
| Witnesses.PlainWorldIsSmooth | swap/swap_out_sender.go:28-125 | a world in which that run takes place |
| Witnesses.LostPreimageRevealsKey | swap/fsm.go:292-300 | a run that gives the key away after a payment without a timeout: the crash loses the preimage and recovery gives up |
| Settlement.StoredClaimSucceeds | swap/actions.go:217-238 | on every taker run stored in `ClaimSwap`, a restart with a willing wallet claims the output, as long as the watchers did not swap the transaction |
| Settlement.PaidTakerAlwaysClaims | swap/swap_out_sender.go:97-110 | a resting taker that has paid, with neither timeout nor such a crash since, has claimed or can always claim |
| Fees.FeeIsPaidAtMostOnce | swap/swap_out_sender.go:35-82 | the fee payment is attempted at most once on every run with crashes anywhere |
| Exchange.AlwaysProvenance | swap/actions.go:273-336 | on every run, as long as no foreign opening was accepted, a maker's opening message is the one it funded, under its own key |
| Exchange.PeersAgree | swap/swap.go:343-375 | after any two runs that hold the same request, agreement and opening message, both sides compute the funded parameters, each with its own key in its role, unless the maker accepted a foreign opening |
| Sending.SentMessagesAreOnRecord | swap/actions.go:328-344 | on every run, crashes included, each message sent is the request, agreement, opening or key on record, in memory and in the store, from a machine whose part it is; each announced opening was funded before, under its transaction id and blinding key |
| Sending.SendsExactly | swap/actions.go:647-685 | entering a sending state sends the one message of that state, on every run; a maker with a foreign opening repeats its first message |
| Peers.AlwaysTraced | swap/messages.go:151-393 | on every run what a machine has on record of its peer was brought by a delivery |
| Peers.HonestPeersExchange | swap/swap.go:343-375 | after any two runs that hear only each other, once the taker has all three messages the maker holds the same; it accepted no opening, and closes with no key but the taker's |
| Peers.HonestPeersAgree | swap/swap.go:343-375 | then both compute the parameters the maker funded, each with its own key in its role |
| Completion.SwapInCompletes | docs/mmd/swap-in-sequence.md:1-26 | for all valid requests on either chain and all answers that allow it, there are crash-free runs of both peers, each hearing only the other, that end with the maker paid and the agreed output spent with the preimage |
| Completion.SwapOutCompletes | docs/mmd/swap-out-sequence.md:1-28 | the same for a swap-out, with the fee paid first |
| Completion.PlainSwapsComplete | swap/swap_in_receiver.go:27-115 | a world and answers that meet the conditions of both, with a payment that fails once |
| Exchange.HonestInvoicePasses | swap/actions.go:286-287 | the honest maker's invoice passes every check of the taker, for both swap types and all supported chains and versions |
| Premium.PremiumIsPartsPerMillion | premium/premium.go:117-119 | the premium is the amount times the rate in parts per million, rounded toward zero on either side |
| Premium.RefusesExactlyWhen | swap/service.go:545-575 | the exact rate beyond which a request is refused |
| Premium.ComputeMonotone | premium/premium.go:117-119 | the truncated premium is monotone in the rate for every amount without overflow |
| Premium.WrappedPremiumDrops | premium/premium.go:117-119 | with overflow it is not |
| Premium.PremiumAtLeastMinusAmount | premium/premium.go:117-119 | a rate of at least minus one million never takes more than the amount |
| Premium.CostIsPremium | swap/swap.go:210-228 | the initiator's on-chain and lightning amounts differ by exactly the premium if and only if the sum does not wrap |
| Premium.NegotiationSucceeds | swap/service.go:545-575 | a receiver's rate within the limit rate is never refused, passes the initiator's check, and costs at most the limit |
| Premium.PassedCheckBoundsCost | swap/actions.go:244-259 | an agreement that passes the check costs at most the limit, whatever the peer computed |
| Machine.SwapStateMachine.PayUntilDone | swap/actions.go:953-987 | the retry loop makes exactly the rounds of `PayRounds`, whose number, contents and success `PayRoundsExactly` fixes |
| Machine.SwapStateMachine.Pass | swap/fsm.go:215-266 | one pass of the loop is one dispatch and persist, and goes down in rank or counts a retry |
| Machine.SwapStateMachine.Drive | swap/fsm.go:215-266 | the loop terminates, is a run of the transition system, and reports done exactly for a swap it finished |
| Machine.SwapStateMachine.SendEvent | swap/fsm.go:182-266 | a delivery followed by rounds; at most twenty retries remain counted; finished swaps stay |
| Machine.SwapStateMachine.Recover | swap/fsm.go:277-301 | recovery re-runs, fails or leaves the stored state, as the transition system does |
| Service.RunKeepsRequests | swap/messages.go:151-158 | no continuation changes a swap's request, so its channel is fixed |
| Service.AlwaysOneRequest | swap/messages.go:151-158 | on every run a swap has at most one request |
| Service.SwapService.LockSwap | swap/service.go:961-975 | refused exactly when an active swap was requested, in either direction, on the channel |
| Service.SwapService.RemoveActiveSwap | swap/service.go:951-956 | removes just that swap |
| Service.SwapService.Begin | swap/service.go:400-440 | refused exactly when an active swap was requested on the channel; otherwise the machine runs its first event with the request on record; no two active swaps have requests on one channel, and none is finished |
| Service.SwapService.OnEvent | swap/service.go:734-749 | the machine runs the event, and its lock is released exactly when its swap is finished |
| Service.SwapService.OnTxConfirmationError | swap/service.go:325-353 | the same for the watcher's error path, which sends two events |
| Service.SwapService.RecoverSwap | swap/service.go:118-151 | refused exactly for a finished swap or one whose channel is taken; otherwise the machine recovers and holds its channel |
| Electrum.GetHeight | electrum/tx_observer.go:81-95 | the height of the first history entry for the transaction |
| Electrum.HasConfirmations | electrum/tx_observer.go:97-113 | confirmed exactly with enough blocks up to the tip; an error exactly for a bad tip or a height above it |
| Electrum.ReportsExactlyWhen | electrum/tx_observer.go:115-209 | an opening observer reports a missed deadline exactly outside its window and success exactly inside it with two confirmations; a CSV observer exactly when mature; the answer is passed on |
| Electrum.WithoutSplits | electrum/block_subscriber.go:46-54 | the filter treats the parts of a list separately and keeps their order |
| Electrum.WithoutOne | electrum/block_subscriber.go:46-54 | a single observer is dropped exactly when its swap is settled |
| Electrum.StaysExactlyWhen | electrum/block_subscriber.go:56-72 | an observer stays exactly as long as every report for its swap was answered with an error other than an unknown swap |
| Electrum.AnnouncedExactly | lwk/electrumtxwatcher.go:144-163 | a height is announced if and only if a header before any unusable one raises the height to it |
| Electrum.BlockHeaderSubscriber.Register | electrum/block_subscriber.go:40-44 | appends |
| Electrum.BlockHeaderSubscriber.Deregister | electrum/block_subscriber.go:46-54 | the order-preserving filter by swap id |
| Electrum.BlockHeaderSubscriber.Update | electrum/block_subscriber.go:56-72 | calls every observer registered at the start exactly once, in order, and leaves the list without the settled swaps |
| Electrum.AnnouncedIncrease | lwk/electrumtxwatcher.go:144-163 | for any stream of headers the announced heights strictly increase |
| Electrum.TxWatcher.AcceptBlockHeight | lwk/electrumtxwatcher.go:144-163 | accepts exactly a positive, higher header of a running watcher |
| Electrum.TxWatcher.StartWatchingTxs | lwk/electrumtxwatcher.go:51-129 | started exactly with a usable first header; observers get the announced heights only, in order; a bad later header stops the watcher, a bad first one does not |
| Electrum.TxWatcher.Watch | lwk/electrumtxwatcher.go:86-126 | the event loop announces the rising heights in order until a bad header stops it |
| Electrum.TxWatcher.GetBlockHeight | lwk/electrumtxwatcher.go:221-235 | a height exactly when running with one that fits 32 bits |
| BlockScan.IsTxInRange | txwatcher/blockchainRpc.go:122-148 | the first block of the scan with the transaction, the exact reason there is none, or no end |
| BlockScan.IsTxInMempoolOrRange | txwatcher/blockchainRpc.go:150-213 | on a consistent chain both paths give the raw transaction and its height, spent or not |
| Senders.Manager.AddSender | messages/sender.go:74-82 | refused exactly when the swap has a sender |
| Senders.Manager.RemoveSender | messages/sender.go:84-91 | stops a running sender once and forgets it |

## Left out

- Cryptography and encodings: hashes, keys, signatures, addresses and transaction parsing are functions of `World` or `Spend`; hex text is identified with the bytes it denotes.
- Liquid blinding and proofs: reduced to "the unblinded output has this value"; Elements transaction building is not modelled.
- Lightning, wallet and chain RPC: every answer is a field of `Outcome`, chosen freely; that a payment returns a preimage of its hash, and an invoice decodes to what it was issued with, are hypotheses of the results that need them.
- Store failures: `UpdateData` always succeeds; the bbolt and JSON layers are a single snapshot.
- Error texts, `LastErr`, `CancelMessage`, `Previous`, labels and logging: they influence no transition.
- `validateScid` and the request policy checks of `CheckRequestWrapperAction`: one oracle each (`scidOk`, `requestAllowed`), apart from chain and protocol version, which are modelled.
- Fee estimation: floating point; the factor three on the flat fee is taken as exact.
- Timers, tickers and back-off: the ten-minute timeout may fire at any time, payment rounds come as a finite sequence, retries do not wait.
- Concurrency: the steps of one machine are atomic, as under its mutex, and service requests are handled one at a time. Two races are not modelled: two requests between `lockSwap` and the first stored request, and the watcher callback's write of `OpeningTxHex` (swap/service.go:342), which happens before `SendEvent` takes the mutex; here it is part of the delivery.
- Machine actions that write no field (waiting for payment or CSV) are evaluated as functions inside the imperative machine; `SwapData` is a value the machine reassigns field by field, so aliasing of that struct is not modelled.
- Actions.Claim: a raw transaction without outputs counts as one that cannot be spent; the Bitcoin wallets would index its missing output and panic.
- Script.OpeningScriptAccepts: consensus limits that the script cannot reach (script size, operation count) are not modelled.
- Service.SwapService.Begin: the initiator's exit for an unknown chain name, which leaves a machine without a request in the table, is not modelled.
- Claims.OneSender: the goroutine behind a sender is not modelled, only its registration and stop.
- Openings.RecordedOpeningIsOwn: runs in which a watcher replaced the raw transaction of a maker are excluded; only takers register for that.
- Openings.HonestMakerIsRefunded: the same runs are excluded; `AlwaysAWayForward` covers them.
- Completion.SwapInCompletes: the taker's services answer alike at every step, the maker's once for its creation and once from the opening on; other cooperative answers are not covered.
- Completion.SwapOutCompletes: the same.
- Service.SwapService.RecoverSwap: takes from the store only swaps with at most one request, which every run has (`AlwaysOneRequest`).
- Premium rate storage (`SetRate`, `GetRate` and its defaults), `peersync`, `policy`, RPC servers, configuration and the test framework: they would only add easy members.
