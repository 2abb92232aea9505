# Central ledger: models and proofs

The central ledger reserves, commits and aborts transfers between the participants of a payment scheme. It keeps one
position per participant account, and collects position messages into bins that it processes one account at a time.
This project models the parts of the ledger where a mistake would lose or invent money, lose a record, or show a
participant the wrong thing, and proves what they keep.

- `Ledger.dfy`, `Sequences.dfy`: transfer states, state change logs and their replay; flattened maps over sequences.
- `FxFulfil.dfy`: the fx-fulfil position bin.
- `Reservation.dfy`: the prepare and fx-prepare position bins, against the liquidity cover and the net debit cap.
- `AccountBin.dfy`, `AccountBinLaws.dfy`: all stages of one account bin in the order the bin processor runs them.
- `BinOutcomes.dfy`: who hears what from a bin, and what it logs and enters in the ledger, message by message.
- `StageBatching.dfy`: a stage of the account bin against its messages one by one.
- `Circulation.dfy`: messages with several position movements, sent from account to account in any order.
- `Cyril.dfy`, `Reversal.dfy`: how a fulfil with currency conversions, and an abort, become such messages.
- `TwoAborts.dfy`: two aborts of one remittance in circulation together.
- `BulkView.dfy`: the concurrent assembly of the view of a bulk transfer.
- `EndpointDedup.dfy`, `Feature904.dfy`: data migrations. `SettlementSeed.dfy`: a seed that may crash.
- `UrlParser.dfy`, `Accounts.dfy`, `ProxyCache.dfy`: URIs, account creation, proxy resolution and its client.

Code that updates variables, objects or tables step by step is modelled by methods, loops and classes. Each is proved
equal to a specification function or relation, and the laws are proved about those for every input, every schedule
or every run.

## What the proofs found

Each of these follows the code as it stands, with the exact condition.

- Prepare and fx-prepare add a granted amount to the availabilities instead of taking it off
  (`src/domain/position/prepare.js:241-242`). One bin can therefore pass the net debit cap. It keeps the cap and the
  liquidity cover exactly if it *fits* (`CapKeptIffFits`): the affordable requests fit together, and every other one
  stays unaffordable even with the affordable amounts before it added to the headroom. Both parts can fail: 60 and 60
  under a cap of 100 (`CapCanBeExceeded`), and 60 and 150 (`UnaffordableLetIn`). A bin grants what bins of one would
  grant exactly if it fits and no affordable request repeats an id (`BatchingTransparentIff`).
- A redelivered prepare bin charges nothing, and leaves the states alone exactly if each of its transfers is
  ABORTED_REJECTED by then, whatever has happened since (`RedeliveryHarmlessIff`, and `BinHarmlessIff` for any states).
  Redelivered at once, that is exactly if none is RESERVED (`ImmediateRedelivery`). A reserved transfer, or one committed
  meanwhile, is moved to ABORTED_REJECTED and its charge stays (`RedeliveryStrandsCharge`).
- Every charge is linked to the latest state change of its transfer, and an abort finds it only if that change is to
  RESERVED (`src/domain/position/binProcessor.js:371-379`, `src/models/position/participantPositionChanges.js:34-64`).
  All charges of a bin are found exactly if no id is rejected by its last request after an earlier one was granted
  (`ChargesFoundIff`). `ChargeLost` is a bin of two requests that loses one.
- Every stage judges its messages against the states it was given. A stage that goes through is the same as its messages
  one by one exactly if no message that passes the guard finds its own transfer changed by one before it (`BatchedIff`);
  for timeouts, exactly if no id repeats (`TimeoutsBatchedIff`). Two copies of one plain fulfil in a bin move its amount
  twice (`FulfilledTwice`).
- An fx-fulfil bin keeps the state of an id exactly if the id waits for its dependent fulfilment, was rejected before,
  or is named by no message (`StateKeptIff`). So a stale message moves a COMMITTED fx transfer to ABORTED_REJECTED
  (`CommittedIsNotAbsorbing`).
- An fx timeout lowers the position by an amount and records it with the opposite sign
  (`src/domain/position/fx-timeout-reserved.js:172-182`). The recorded changes of a bin sum to the movement of the
  position exactly if the reserved amounts of its timed out fx transfers sum to zero (`LedgerOfBin`). `TimeoutAlone` is
  a bin where they do not: from 100 to 40, with 60 more recorded.
- The state map of the fx timeouts is overwritten by that of the fx-fulfils (`src/domain/position/binProcessor.js:193-200`).
  The map in memory is then incomplete unless every timed out fx transfer has a fulfil (`TimeoutStatesDropped`; it is in
  `TimeoutAlone`), but no later stage can tell (`DroppedStatesHarmless`).
- A fulfil goes round only while its transfer is RECEIVED_FULFIL. A conversion on the payee's side whose initiator has
  an account commits the transfer with its own movement, wherever that stands in the list. Every movement is made
  exactly if none follows such a conversion (`EveryMovementIff`); otherwise the later conversions and the closing
  obligation are never paid. A payee behind a proxy with an account, reached over an fx provider of the scheme, is a
  case where everything is paid and reported but the transfer is never committed (`FulfilOutcome`,
  `ReportedNotCommitted`). Of its fx transfers exactly those with a movement of their own are committed (`FxOutcome`).
- An abort that started with an fx transfer stops at that fx transfer's own movement: later reservations, such as those
  of the transfer itself, are not given back (`FxAbortSerialIff`, `FxAbortStopsEarly`). An abort that started with the
  transfer gives everything back, as long as the transfer itself has one reservation at most (`TransferAbortRestores`).
  It leaves the transfer in ABORTED_ERROR exactly if that has a reservation or a payee behind a proxy, and otherwise in
  RECEIVED_ERROR (`TransferAbortOutcome`).
- Both aborts of one remittance carry all its reservations, given back or not. If the fx abort is delivered first, no
  reservation is given back twice exactly if it has moved the transfer before the other is delivered, which it can
  only if the fx transfer it started with has no reservation (`FxAbortFirst`). If the transfer abort comes first: exactly
  if it has moved that fx transfer by then (`TransferAbortFirst`). Either order can go wrong: with one reservation of the
  fx transfer and one of the transfer (`GivenBackTwice`), and with one of the transfer only (`GivenBackTwiceAfter`).
- A transfer URI is not stable under printing: every id shorter than a UUID gets a second prefix (`ShortIdsGrow`), and
  the exact condition is `ToTransferUriIdempotentIff`.
- A dot in the configured host name matches any character of a line, so URIs of such other hosts are parsed as well
  (`OtherHostsParsed`).
- The feature 904 data migration aborts on a database the old schema allows: two error checks or two errors for one
  transfer, or an error without an error check (`CommitsIff`).
- A participant creation that fails half-way cannot be repeated (`AttemptedOnce`): over every run, a call is refused as
  already registered exactly if the pair was registered at the start or an earlier call requested accounts for it,
  whether or not that call succeeded (`RefusedIffAttempted`).

## Model

| member | source | states |
|---|---|---|
| FxFulfil.ProcessPositionFxFulfilBin | src/domain/position/fx-fulfil.js:53-171 | returns the input states with exactly the rejected ids moved to ABORTED_REJECTED, which is the replay of the emitted changes; one notification per item; an item is marked successful iff its id waited for its dependent fulfil |
| FxFulfil.Notified | src/domain/position/fx-fulfil.js:74-146 | item by item: the initiator is sent the payload by the counterparty if the fx transfer waits for its dependent fulfil, else the counterparty is told by the hub which state was found; each header that remains, and with what value |
| FxFulfil.RejectionsLogged | src/domain/position/fx-fulfil.js:76-86 | a change is logged iff it moves an id that some item names and that does not wait for its dependent fulfil to ABORTED_REJECTED, for an incorrect state |
| FxFulfil.BinSplitting | src/domain/position/fx-fulfil.js:61-90 | running a + b equals running a and then b on the states a returned: same states, concatenated changes |
| FxFulfil.NotificationSplitting | src/domain/position/fx-fulfil.js:94-146 | the notifications of a split bin agree but for the state named in an error text, which differs iff the first part moved that id from another state |
| FxFulfil.Redelivery | src/domain/position/fx-fulfil.js:76-86 | a second run on the returned states moves nothing and repeats every verdict |
| FxFulfil.OrderIndependence | src/domain/position/fx-fulfil.js:64-163 | permuting a bin keeps the final states and permutes changes and notifications |
| FxFulfil.VerdictsStable | src/domain/position/fx-fulfil.js:74-76 | no bin changes whether a message is rejected |
| FxFulfil.ReplayIsFinal | src/domain/position/fx-fulfil.js:149-163 | the emitted changes replay to the input states with the rejected ids moved |
| FxFulfil.OneChangePerRejection | src/domain/position/fx-fulfil.js:149-160 | as many changes as rejected items, repeats counted |
| FxFulfil.MovesOnlyToRejected | src/domain/position/fx-fulfil.js:76-86 | an id waiting for its dependent fulfil never moves; every other ends as it was or ABORTED_REJECTED, and then a message named it |
| FxFulfil.StateKeptIff | src/domain/position/fx-fulfil.js:76-86 | an id keeps its state iff it waits for its dependent fulfil, is ABORTED_REJECTED already, or no message names it; so COMMITTED does not absorb |
| Reservation.ProcessPositionPrepareBin | src/domain/position/prepare.js:60-317 | states, position, changes, ledger entries, notices and alarms of a bin are those of the reference run; without charging no position, entry or alarm moves |
| Reservation.EntriesChained | src/domain/position/prepare.js:244-251 | consecutive ledger entries differ by the recorded change and end in the final position |
| Reservation.ChangesReplay | src/domain/position/prepare.js:295-303 | the emitted changes replay to the returned states |
| Reservation.OneOutcomeEach | src/domain/position/prepare.js:286-300 | one verdict, change and notice per request in bin order, addressed by the verdict; incorrect state iff the input state was not RECEIVED_PREPARE |
| Reservation.EntriesCharge | src/domain/position/prepare.js:100-251 | one ledger entry for each granted request in order, of what the request is about, and together they are the movement of the position: the amount of the remittance if there is one, else its own; for an fx transfer the target amount iff the remittance is in its currency, else the source amount |
| Reservation.RefusedWhy | src/domain/position/fx-prepare.js:99-240 | a request is refused for its state iff that is not RECEIVED_PREPARE, for liquidity iff what it is about exceeds the cover that is left, and for the cap iff it fits the cover but not the cap, what the bin granted before counting as added |
| Reservation.FittingGrants | src/domain/position/prepare.js:150-256 | if the affordable requests fit together and every other stays unaffordable with the affordable amounts before it added to the headroom, exactly the affordable ones are granted and no entry passes the cap or the liquidity cover |
| Reservation.CapKeptIffFits | src/domain/position/prepare.js:236-252 | every entry keeps the net debit cap and the liquidity cover iff the affordable requests fit together and every other stays unaffordable with the affordable amounts before it added to the headroom |
| Reservation.OverCap | src/domain/position/prepare.js:241-242 | if either part of that condition fails, more than the headroom is granted and some entry passes the cap or the cover |
| Reservation.CapCanBeExceeded | src/domain/position/prepare.js:241-242 | two requests of 60 under a cap of 100 are both granted in one bin |
| Reservation.UnaffordableLetIn | src/domain/position/prepare.js:241-242 | of 60 and 150 under a cap of 100 the affordable one fits, yet both are granted and the cap is passed |
| Reservation.SinglySound | src/domain/position/prepare.js:93-256 | bins of one never pass the cap, and grant only affordable first occurrences of an id |
| Reservation.BatchingTransparentIff | src/domain/position/prepare.js:93-316 | a bin grants what bins of one grant iff both parts of that condition hold and no affordable request repeats an id |
| Reservation.AlarmsCounted | src/domain/position/prepare.js:288-293 | an alarm is raised for exactly the requests after which the position exceeds the threshold |
| Reservation.NothingStaysEligible | src/domain/position/prepare.js:105-109 | after a bin none of its ids can be granted again |
| Reservation.BinHarmlessIff | src/domain/position/prepare.js:105-146 | for any states, a bin leaves every state alone iff all its transfers were ABORTED_REJECTED before |
| Reservation.RedeliveryHarmlessIff | src/domain/position/prepare.js:105-146 | after any state changes that put nothing back to RECEIVED_PREPARE and at any position, a redelivered bin charges nothing, and leaves every state alone iff all its transfers are ABORTED_REJECTED by then |
| Reservation.ImmediateRedelivery | src/domain/position/prepare.js:105-146 | with nothing happening in between: iff none of its transfers is RESERVED |
| Reservation.RedeliveryStrandsCharge | src/domain/position/prepare.js:105-146 | every charged request is a witness: redelivered it ends ABORTED_REJECTED and its charge stays |
| Reservation.IdsDecided | src/domain/position/prepare.js:295-303 | every id of a bin ends RESERVED or ABORTED_REJECTED and no other id moves |
| Reservation.ChargesFoundIff | src/domain/position/binProcessor.js:371-391 | every charge is linked to a change to RESERVED iff no id is rejected by its last request in the bin after an earlier one was granted |
| Reservation.ChargeLost | src/domain/position/binProcessor.js:371-391 | 60 granted and then 200 refused under the same id: the charge of 60 is linked to a rejection |
| Reservation.SameEligibility | src/domain/position/fx-prepare.js:104-110 | the outcome of a bin depends on the states only through which ids are in RECEIVED_PREPARE |
| AccountBin.RunStage | src/domain/position/abort.js:57-181 | a stage fails with the first message that throws, and else has applied the effects of its messages in order, each judged against the states the stage was given; `StageOutcome` says what these are |
| AccountBin.ProcessAccountBin | src/domain/position/binProcessor.js:167-356 | the stages run in the processor's order, each on the position and states the one before it left; a bin that succeeds sends on, in this order, its fulfils that pass and its aborts and fx aborts that have a second movement to make, each with the first marked done and keyed by the account of the next, and no other message |
| BinOutcomes.AllApplied | src/domain/position/binProcessor.js:205-232 | applying effects appends what each brings to the notes, both logs, the ledger and the follow-ups, in order, and nothing else |
| BinOutcomes.MessageAnswers | src/domain/position/abort.js:80-174 | the notes, state changes and movement of one message of any stage, from its fields: who is told what by whom, which ids move to which state, and which account moves by what |
| BinOutcomes.StageOutcome | src/domain/position/fulfil.js:79-166 | a stage that goes through tells exactly what its messages tell, logs exactly what those that pass log, and enters one movement for each of these, in order |
| BinOutcomes.BinOutcome | src/domain/position/binProcessor.js:190-310 | the same for a whole bin that succeeds, up to its reservations |
| BinOutcomes.FrontNotes | src/domain/position/binProcessor.js:167-203 | the notes of the two fx stages in order: one for each timeout, then one for each fx-fulfil |
| BinOutcomes.ReserveTells | src/domain/position/binProcessor.js:312-356 | each request of a reservation stage gets one note with its own outcome, addressed by it, and one change that says the same |
| BinOutcomes.ReserveEnters | src/domain/position/binProcessor.js:326-354 | a charged reservation stage enters one movement for each granted request, of its kind and of what the request is about |
| AccountBinLaws.ReserveStates | src/domain/position/binProcessor.js:312-356 | a reservation stage leaves the other kind of transfer alone; of its own kind it logs one change per request that replays to its states, moves exactly the ids it names, each to RESERVED or ABORTED_REJECTED |
| AccountBinLaws.ReservePosition | src/domain/position/binProcessor.js:326-354 | its ledger entries sum to its movement of the position; without charging there is neither |
| AccountBinLaws.MiddleEffects | src/domain/position/binProcessor.js:205-310 | fulfils, aborts and timeouts record every movement as it was made |
| AccountBinLaws.RestRecorded | src/domain/position/binProcessor.js:205-356 | both state change logs replay to the final state maps |
| AccountBinLaws.TimeoutStatesDropped | src/domain/position/binProcessor.js:190-203 | after the two fx stages the map in memory is what the emitted changes replay to iff every timed out fx transfer also has a fulfil in the bin |
| AccountBinLaws.DroppedStatesHarmless | src/domain/position/binProcessor.js:190-356 | with the complete map the bin fails in the same cases and yields the same position, changes, entries, notes and follow-ups, and that map is what all its fx changes replay to |
| AccountBinLaws.LedgerOfBin | src/domain/position/fx-timeout-reserved.js:169-191 | entries are chained, the fx timeouts with the opposite sign; the recorded changes sum to the movement of the position iff the reserved amounts of the timed out fx transfers sum to zero |
| AccountBinLaws.TimeoutAlone | src/domain/position/fx-timeout-reserved.js:169-191 | one timeout of a reserve of 60 at position 100 succeeds at position 40 with 60 recorded, and the map handed on lacks its state change |
| AccountBinLaws.PositionOfBin | src/domain/position/binProcessor.js:190-352 | the final position is the old one, less what was reserved for the fx timeouts, plus what each fulfil, abort and timeout moves by its own data, plus what the reservations grant |
| AccountBinLaws.MiddleMoves | src/domain/position/fulfil.js:89-166 | a fulfil moves its pending movement or its recorded amount, and nothing unless its transfer awaits it; an abort moves its pending movement and a timeout its recorded amount |
| AccountBinLaws.TimeoutsChained | src/domain/position/fx-timeout-reserved.js:58-124 | an fx timeout stage makes one entry per message, each recorded with the opposite sign |
| AccountBinLaws.FxTimeoutStage | src/domain/position/fx-timeout-reserved.js:80-110 | a stage that does not throw moves exactly reserved-timeout ids to EXPIRED_RESERVED |
| StageBatching.BatchedIff | src/domain/position/fulfil.js:72-166 | for every stage that goes through: its messages one by one go through and give the same position, entries, changes, states, follow-ups and notes, but for the states error notes name, iff no message that passes the guard finds its transfer changed by one before it |
| StageBatching.TimeoutsBatchedIff | src/domain/position/timeout-reserved.js:57-77 | for a stage of timeouts or fx timeouts that goes through: iff no id repeats |
| StageBatching.FulfilledTwice | src/domain/position/fulfil.js:89-166 | two copies of one plain fulfil in a bin move its amount twice, and one by one once |
| StageBatching.DeliveryIsBin | src/handlers/positions/handlerBatch.js:170-189 | a delivery in the circulation is what the processor makes of a bin with that message alone: position, states, notes, and the message it sends on; nothing if the bin fails |
| Circulation.OpenDelivery | src/domain/position/fulfil.js:95-152 | a delivery past the guard makes one movement on one account, sends the message to the account of the next one unless it was the last, and then reports a fulfil |
| Circulation.OpenGuards | src/domain/position/fulfil.js:101-145 | such a delivery changes the state another guard reads only where its movement or an extra change names it, and then to a final state |
| Circulation.ClosedDelivery | src/domain/position/fulfil.js:90-93 | a fulfil stopped by the guard is consumed without any movement; an abort is rolled back |
| Circulation.DeliverInv | src/handlers/positions/handlerBatch.js:170-189 | every delivery keeps, for any tokens: each account has moved by exactly the movements its tokens have made, and exactly the finished fulfils are reported |
| Circulation.RunInv | src/handlers/positions/handlerBatch.js:170-189 | the same after every schedule of deliveries, however the messages interleave and whatever guards they share |
| Circulation.RunStates | src/domain/position/fulfil.js:101-145 | along every run a state is final exactly from the first movement on that changes it, and before that as at the start, if the messages that can change it agree on the final state |
| Circulation.AtRest | src/domain/position/fulfil.js:90-152 | at rest every token has made all its movements or found its guard closed, whatever guards they share |
| Circulation.Completion | src/domain/position/fulfil.js:90-152 | for tokens that do not change each other's guards: at rest each has made its movements up to the first that closes its guard, all of them iff no earlier one does; its transfer is in the final state iff the remittance names it; none of this depends on the schedule |
| Circulation.ReportedIffSerial | src/domain/position/fulfil.js:130-145 | such a fulfil is reported iff all its movements are made |
| Circulation.SerialIffReached | src/domain/position/fulfil.js:101-130 | all movements are made iff none but the last closes the guard |
| Circulation.DeliveriesRunOut | src/domain/position/fulfil.js:128-152 | every delivery that changes anything uses up some of the finitely many deliveries left |
| Circulation.ComesToRest | src/domain/position/fulfil.js:128-152 | from every world some schedule leads to one where no delivery changes anything |
| Circulation.EveryRunCanRest | src/domain/position/fulfil.js:128-152 | every run of any tokens can be continued to rest |
| Circulation.AbortRestores | src/domain/position/abort.js:101-166 | a serial abort at rest has taken exactly its reservations off every account, beside any number of messages that do not change each other's guards |
| Cyril.ClosingObligation | src/domain/fx/cyril.js:418-485 | the closing obligation is at most one movement, on the creditor's account, under the id of the receiving conversion or the transfer; there is none iff the creditor has no account, or only one side converts and it is behind a proxy with the debtor in the scheme or on the same account; a bare change to COMMITTED stands in exactly for a payee without account |
| Cyril.ProcessFulfilMessage | src/domain/fx/cyril.js:347-494 | no watched conversion means no remittance; otherwise the movements are those of each conversion in order and then the closing obligation, and the fx providers of the payer's side are told |
| Cyril.EveryHopPays | src/domain/fx/cyril.js:375-485 | every movement pays what a watched conversion promised to the account that conversion names: an fx movement the source amount to its counterparty under its own commitRequestId, any other the target amount under the id of the transfer |
| Cyril.PatchedProviders | src/domain/fx/cyril.js:406-412 | one patch for each payer-side conversion, in order, to its counterparty under its commitRequestId |
| Cyril.FulfilLaunches | src/handlers/transfers/handler.js:582-589 | the message of any remittance with a movement, keyed by the account of the first, can circulate as the laws ask |
| Cyril.PayerConversionsComplete | src/domain/fx/cyril.js:394-462 | with conversions on the payer's side only, every movement is made |
| Cyril.EveryMovementIff | src/domain/fx/cyril.js:367-487 | for any watch list, every movement is made iff none follows a payee-side conversion whose initiator has an account, neither of a later conversion nor the closing one |
| Cyril.SettlesIff | src/domain/fx/cyril.js:375-462 | the remittance commits its transfer iff some payee-side conversion has an initiator with an account, or only the payer's side converts and the payee has no account or is paid |
| Cyril.FulfilOutcome | src/domain/fx/cyril.js:347-494 | at rest, beside messages that do not change each other's guards, all movements are made and the transfer is COMMITTED exactly under these two conditions, and otherwise it is still RECEIVED_FULFIL |
| Cyril.FxOutcome | src/domain/fx/cyril.js:394-485 | at rest with every movement made, an fx transfer no other message is about is COMMITTED iff it is a payer-side conversion whose counterparty has an account, or that of a closing movement, and else as it was |
| Cyril.ReportedNotCommitted | src/domain/fx/cyril.js:435-462 | a payee behind a proxy with an account, reached over an fx provider of the scheme, is reported but its transfer never committed |
| Cyril.ObligationsPaid | src/domain/fx/cyril.js:394-487 | for any list of conversions, the movements together credit every account with exactly what each conversion and the closing obligation owe it |
| Cyril.ObligationsSettled | src/domain/fx/cyril.js:347-494 | at rest, a fulfil that makes every movement has paid every account exactly that, beside messages that do not change each other's guards |
| Cyril.PayerConversionBalanced | src/domain/fx/cyril.js:394-455 | the case of one payer-side conversion between parties of the scheme: the fx provider is credited the source amount and the payee the target amount |
| Cyril.LastOfNone | src/domain/fx/cyril.js:367-396 | a side has a record iff some watched conversion is of that kind, and the record is the last of them |
| Reversal.GetPositionChanges | src/domain/fx/cyril.js:238-298 | each recorded reservation becomes a movement on its own account with the sign turned, fx transfers first; one bare change to ABORTED_ERROR iff the abort started with a transfer without reservation, to a proxied payee and with an fx transfer beside it; the patches of the fx transfers |
| Reversal.WhoHears | src/domain/fx/cyril.js:243-295 | every movement gives back a reservation of the transfer it names, and names whom to tell: the payer, or the initiator of the fx transfer unless an abort of the transfer carries it along |
| Reversal.PatchedProviders | src/domain/fx/cyril.js:256-263 | a patch goes to an fx provider iff an abort that started with the transfer carries its fx transfer along and it is behind no proxy |
| Reversal.AbortsLaunch | src/handlers/transfers/handler.js:447-456 | the messages of both kinds of abort of any remittance with a reservation can circulate as the laws ask |
| Reversal.HopsMirror | src/domain/fx/cyril.js:246-293 | the movements mirror the reservations one by one |
| Reversal.TransferAbortSerialIff | src/domain/fx/cyril.js:326-345 | an abort that started with the transfer makes every movement iff the transfer has at most one reservation |
| Reversal.FxAbortSerialIff | src/domain/fx/cyril.js:303-324 | an abort that started with an fx transfer makes every movement iff that fx transfer has no reservation or its only one comes last |
| Reversal.TransferAbortOutcome | src/domain/fx/cyril.js:275-295 | at rest, beside independent messages, an abort that started with the transfer leaves it ABORTED_ERROR iff it has a reservation or a proxied payee, else RECEIVED_ERROR; its fx transfers that no other message is about are ABORTED_ERROR iff they have a reservation |
| Reversal.FxAbortOutcome | src/domain/fx/cyril.js:303-324 | at rest an fx abort leaves the fx transfer it started with ABORTED_ERROR iff that has a reservation, else RECEIVED_ERROR |
| Reversal.TransferAbortRestores | src/domain/fx/cyril.js:326-345 | at rest, such an abort has given every account back exactly what was reserved on it, beside any number of messages that do not change each other's guards |
| Reversal.FxAbortRestores | src/domain/fx/cyril.js:303-324 | the same for an fx abort under that condition |
| Reversal.FxAbortStopsEarly | src/domain/fx/cyril.js:303-324 | with one reservation of the fx transfer and one of the transfer, an fx abort always ends with the first given back and the second not |
| TwoAborts.OneMovesIff | src/domain/position/abort.js:80-94 | of any two tokens in any company, one makes no movement iff the one delivered first had closed the other's guard before its first delivery |
| TwoAborts.GivenBack | src/domain/fx/cyril.js:243-295 | with both aborts of one remittance in circulation, each gives back the reservations of its movements, so one that both reach is given back twice |
| TwoAborts.FxAbortFirst | src/models/position/participantPositionChanges.js:34-48 | fx abort first: no reservation is given back twice iff it has moved the transfer before the other's first delivery and the fx transfer it started with has no reservation |
| TwoAborts.TransferAbortFirst | src/models/position/participantPositionChanges.js:34-48 | transfer abort first: no reservation is given back twice iff it has moved the fx transfer of the other before that one's first delivery |
| TwoAborts.GivenBackTwice | src/models/position/participantPositionChanges.js:34-64 | with these two reservations, an fx abort delivered once before the transfer abort makes the first be given back twice, whatever is delivered afterwards |
| TwoAborts.GivenBackTwiceAfter | src/models/position/participantPositionChanges.js:34-64 | if only the transfer has a reservation, it is given back twice however often the transfer abort is delivered before the fx abort |
| BulkView.GetBulkTransferById | src/domain/bulkTransfer/index.js:47-140 | for every order of the lookups, the payer is shown the result of each transfer in input order; the payee is shown the list the promises built, or all results if that is empty; both share header and extension list |
| BulkView.Assembly.constructor | src/domain/bulkTransfer/index.js:51-102 | the start phase answers and pushes the errored transfers only, in input order |
| BulkView.Assembly.Resume | src/domain/bulkTransfer/index.js:64-102 | a resumed promise answers its own slot and pushes at most its own result |
| BulkView.ResultFields | src/domain/bulkTransfer/index.js:55-93 | a result tells exactly one of error, fulfilment and prepared data, field by field as stored; its extension list is never empty, and holds exactly the pairs of the stored rows that belong, none for an error |
| BulkView.ListedPairs | src/domain/bulkTransfer/index.js:142-168 | a pair is listed iff a stored row carries it and, once fulfilled, belongs to the fulfilment |
| BulkView.PayeeListsExactly | src/domain/bulkTransfer/index.js:51-102 | the payee lists that can appear are exactly: the eligible errored results in input order, then any permutation of the other eligible ones |
| BulkView.PayeeMultiset | src/domain/bulkTransfer/index.js:94-99 | as a multiset the payee list is what the test on states selects, whatever the schedule |
| BulkView.ShownToPayee | src/domain/bulkTransfer/index.js:94-99 | a result is in the payee list iff it is that of an accepted transfer of an accepted bulk, or of one past processing of a completed bulk, whatever the schedule |
| BulkView.PayeeShownPart | src/domain/bulkTransfer/index.js:117-124 | after the fallback the payee is shown a sub-multiset of the payer's results, empty iff there are no transfers |
| BulkView.ScheduleVisibleIff | src/domain/bulkTransfer/index.js:51-102 | the payee list is the same under every schedule iff all late results are equal |
| BulkView.NextIsSuspended | src/domain/bulkTransfer/index.js:54-102 | no promise is resumed twice or after it ended |
| EndpointDedup.ParticipantEndpoint.Up | migrations/961000_participantEndpoint_unique.js:33-53 | the two deletes leave exactly the best row of each key, and the unique constraint applies |
| EndpointDedup.TwoPassesPickBest | migrations/961000_participantEndpoint_unique.js:35-49 | deleting shadowed rows and then outranked ones picks the row that beats all others of its key |
| EndpointDedup.KeptRow | migrations/961000_participantEndpoint_unique.js:34-44 | a kept row is active iff its key had an active row, and has the highest identifier among those of its kind |
| EndpointDedup.EveryKeyKept | migrations/961000_participantEndpoint_unique.js:35-49 | no key is lost and every kept row is unmodified |
| EndpointDedup.BestIsUnique | migrations/961000_participantEndpoint_unique.js:51-53 | the kept rows have pairwise distinct keys |
| EndpointDedup.NothingLeftToDelete | migrations/961000_participantEndpoint_unique.js:35-49 | a second run deletes nothing; a table is left alone iff its keys were already unique |
| Feature904.Database.MigrateDDL | migrations/910100_feature904DDL.js:58-157 | the live tables become empty, the kept tables hold exactly the old rows, and one exists iff it has rows |
| Feature904.Database.MigrateData | migrations/910101_feature904DataMigration.js:49-103 | one transaction: it commits iff no key is violated, and otherwise leaves the tables as they were |
| Feature904.InsertByTransfer | migrations/910101_feature904DataMigration.js:65-86 | an insert succeeds iff no two rows share a transfer, none is taken and every parent exists; it then stores each row under its transfer and keeps the others |
| Feature904.CopyExtensions | migrations/910101_feature904DataMigration.js:52-61 | extension rows are copied one to one, isFulfilment and isError set exactly when the old foreign identifier was not null |
| Feature904.CopyFulfilments | migrations/910101_feature904DataMigration.js:62-87 | the two statements go through iff their keys hold, for whatever rows their two queries number 1 |
| Feature904.CopyErrors | migrations/910101_feature904DataMigration.js:88-101 | the two statements go through iff their keys hold |
| Feature904.RowNumberOne | migrations/910101_feature904DataMigration.js:80-85 | one row per transfer that had any, which no other row of the transfer precedes |
| Feature904.ChosenFulfilment | migrations/910101_feature904DataMigration.js:80-82 | the chosen row is valid iff some row was, of unknown validity iff all were, and the earliest of its validity |
| Feature904.MigratedFulfilments | migrations/910101_feature904DataMigration.js:76-86 | the migrated table has one best fulfilment for exactly the transfers that had any |
| Feature904.FulfilmentsFitIff | migrations/910100_feature904DDL.js:101-117 | under the old foreign keys both fulfilment statements go through iff the selected checks name each fulfilled transfer exactly once |
| Feature904.MatchingPairsFit | migrations/410203_transferFulfilment-foreignTransferFulfilmentId.js:32-40 | if paired rows name the same transfer they go through, even when the two queries break ties differently |
| Feature904.ParentsPresent | migrations/910100_feature904DDL.js:108-111 | every migrated fulfilment has its duplicate check |
| Feature904.OwnHash | migrations/910101_feature904DataMigration.js:65-75 | a transfer whose best fulfilment is unique keeps the hash of that fulfilment |
| Feature904.CommitsIff | migrations/910101_feature904DataMigration.js:88-101 | on matching pairs the transaction commits iff no transfer has two error checks or two errors and each with an error has an error check |
| Feature904.RepeatedErrorCheckAborts | migrations/910100_feature904DDL.js:119-124 | a database the old schema allows, whose migration never commits |
| Feature904.ErrorRowsKept | migrations/910101_feature904DataMigration.js:94-101 | under the old foreign key no error row is lost by the join: each is stored under the transfer of its state change |
| Feature904.CommittedHolds | migrations/910101_feature904DataMigration.js:49-103 | a commit leaves exactly the migrated keys in all five new tables |
| Feature904.KeysKept | migrations/910101_feature904DataMigration.js:49-103 | for any kept and any live tables, whether it commits or not, the transaction keeps the foreign keys of the new schema |
| Feature904.RerunFitsIff | migrations/910101_feature904DataMigration.js:33-48 | after a committed migration a second one goes through iff there is nothing to copy |
| SettlementSeed.Seeder.Seed | seeds/settlementWindow2Open.js:49-81 | a run stopped after any number of writes leaves exactly the rows of those writes, and ends iff a window was open or all three were made |
| SettlementSeed.AtMostOneOpen | seeds/settlementWindow1State.js:36 | for every sequence of runs with any stops, at most one open window stays at most one, and one is open iff one was or some run ended |
| SettlementSeed.LaterRunsChangeNothing | seeds/settlementWindow2Open.js:51-54 | after a run that ended exactly one window is open and later runs change nothing |
| SettlementSeed.OldRowsUntouched | seeds/settlementWindow2Open.js:55-74 | no run touches a row that was there before it |
| SettlementSeed.SeededKeeps | seeds/settlementWindow2Open.js:49-74 | a run opens its own fresh window iff none was open and it ended |
| SettlementSeed.ChangesNameTheirWindow | seeds/settlementWindow2Open.js:55-74 | over every sequence of runs the current change of a window is one of its own, and each change that runs add opens a window that they added |
| UrlParser.Leftmost | src/lib/urlParser.js:38-46 | the first position where a search succeeds, or none anywhere |
| UrlParser.PrintedName | src/lib/urlParser.js:34-46 | printing and parsing a name that is no URI yet keeps its longest prefix of word characters |
| UrlParser.NameRoundTripIff | src/lib/urlParser.js:34-46 | over all strings the round trip gives the name back iff it is made of word characters |
| UrlParser.ToParticipantUriIdempotent | src/lib/urlParser.js:74-77 | printing twice is printing once, and what is printed can be parsed |
| UrlParser.IdRoundTripIff | src/lib/urlParser.js:59-72 | over all strings the transfer URI round trip gives the id back iff it has the UUID form of section 3 of RFC 4122 |
| UrlParser.UuidGroups | src/lib/urlParser.js:35 | the UUID form is hexadecimal groups of 8, 4, 4, 4 and 12 digits joined by hyphens |
| UrlParser.ToTransferUriIdempotentIff | src/lib/urlParser.js:69-72 | for every host and id, printing twice is printing once iff the id holds a URI, or completes the printed prefix, shifted onto itself, and goes on with the UUID form |
| UrlParser.IdempotentOnPlainHost | src/lib/urlParser.js:69-72 | if the prefix does not overlap itself: iff the id holds a URI or starts with the UUID form |
| UrlParser.FirstCharacterUnique | src/lib/urlParser.js:35 | no prefix overlaps itself whose first character comes nowhere else in it |
| UrlParser.ShortIdsGrow | src/lib/urlParser.js:69-72 | every id shorter than a UUID, printed twice, has two prefixes |
| UrlParser.GreedyRoute | src/lib/urlParser.js:36 | the greedy run of word characters loses no match: a route is found wherever some word name completes it |
| UrlParser.RouteNameIff | src/lib/urlParser.js:48-57 | over all strings the transfers route of a name yields the name iff it is made of word characters |
| UrlParser.CaseBlindNames | src/lib/urlParser.js:34-46 | URIs that differ in case only name participants that differ in case only |
| UrlParser.PrintedForms | src/lib/urlParser.js:69-77 | what is printed is the text itself if it holds a URI of its kind, else host, path and text |
| UrlParser.OtherHostsParsed | src/lib/urlParser.js:34-35 | participant and transfer URIs of any host that differs from the configured one only where that has a dot are parsed as its own |
| UrlParser.Characters | src/lib/urlParser.js:34-36 | the word and hexadecimal characters, and what a dot and any other character of a pattern match |
| Accounts.Registry.Create | src/api/participants/handler.js:81-120 | exactly which of the five outcomes a call has: past both checks it is refused without a model that applies, or if two of the account types of those models are the same, and else it succeeds, with one inactive ledger and one settlement account for each of them in stored order after the old accounts; a new name gets the next identifier; a failed call leaves at most inactive accounts of this participant, currency and the chosen types |
| Accounts.Registry.CreateAccounts | src/api/participants/handler.js:107-116 | the loop succeeds iff the account types of the chosen models are pairwise distinct; otherwise some accounts stay behind, and every one of them is an inactive one of this participant, currency and the chosen types |
| Accounts.Registry.InsertPair | src/api/participants/handler.js:108-110 | whichever of the two inserts comes first, both succeed iff the types differ and neither is taken |
| Accounts.Registry.Insert | migrations/310101_participantCurrency-indexes.js:33-37 | a row is refused iff its participant, currency and account type are taken |
| Accounts.ListAccounts | src/domain/participant/index.js:103-109 | lists every account of the participant exactly once |
| Accounts.ChosenModels | src/api/participants/handler.js:99-106 | the chosen models are all those of the currency, or all default ones if there is none, each as often as stored and in the stored order |
| Accounts.RefusedIffAttempted | src/api/participants/handler.js:86-92 | over every run, a call past the hub account check is refused as already registered iff the pair was registered at the start or an earlier call requested accounts for it |
| Accounts.KnownAfterIff | src/api/participants/handler.js:86-116 | after a call a pair is registered iff it was or the call requested accounts for it |
| Accounts.NewListIsFresh | src/api/participants/handler.js:94-116 | the answer for a new name lists the accounts this call created, under an identifier nobody had, and nothing else |
| Accounts.AttemptedOnce | src/api/participants/handler.js:86-92 | over every run, each later call for a pair once requested is refused and changes nothing, with hub accounts or without |
| Accounts.RunGrows | src/api/participants/handler.js:93-116 | over every run participants and accounts are neither removed nor changed |
| ProxyCache.Holder.Perform | src/lib/proxyCache.js:43-69 | over every run of operations only the current client may be connected, and after a disconnect or reset that goes through there is none |
| ProxyCache.Holder.GetCache | src/lib/proxyCache.js:64-69 | the current client, or a fresh one that is not connected |
| ProxyCache.Holder.Connect | src/lib/proxyCache.js:48-50 | afterwards there is a client; it is connected iff the attempt went through or it was |
| ProxyCache.Holder.Disconnect | src/lib/proxyCache.js:52-55 | throws iff a connected client cannot be disconnected, and then keeps it; otherwise no client is left |
| ProxyCache.Holder.Reset | src/lib/proxyCache.js:57-60 | the same as a disconnect |
| ProxyCache.GetFSPProxy | src/lib/proxyCache.js:86-112 | in scheme iff the participant exists and, under validation, accounts are listed and each has an active match; a proxy is named only for unknown participants |
| ProxyCache.SameProxyEquivalence | src/lib/proxyCache.js:114-121 | two names have the same proxy iff both have one and it is the same; this is an equivalence on the names with a proxy and relates no others |
| ProxyCache.GetProxyParticipantAccountDetails | src/lib/proxyCache.js:123-156 | the account is the participant's own iff it is known, else its proxy's, else none |
| ProxyCache.AccountFound | src/lib/proxyCache.js:123-156 | an account is found iff one with an identifier above zero is stored for the name and currency |

## Left out

- Money is counted in whole units of the smallest stored fraction, so the rounding to the configured scale is the
  identity; amounts finer than that are not modelled.
- Message metadata, tracing, logging, error codes and payload formatting. A notification keeps id, addressee, sender,
  and what the body says; headers are modelled for the fx-fulfil bin only.
- Reason texts of state changes are a datatype.
- Reservation.CapKeptIffFits: for amounts that are not negative, as the API admits no others; the same holds for
  `FittingGrants`, `OverCap`, `SinglySound` and `BatchingTransparentIff`.
- The result flag of a bin item is modelled as a mutable field for the fx-fulfil bin; in the other bins it is the
  verdict or effect of the message.
- The mutated remittance inside a message is modelled as a value that travels with the follow-up message.
- AccountBin.ProcessAccountBin: one account of a bin set. The surrounding loop over accounts, the locking and the bulk
  queries are left out, as are the alarms of the reservation stages; the processor returns those of the prepares and
  drops those of the fx-prepares (`src/domain/position/binProcessor.js:393`).
- StageBatching.BatchedIff: for extra state changes that carry final states, as the remittance builders make them
  (lines 278 and 459 of `src/domain/fx/cyril.js`).
- Reservation.RedeliveryHarmlessIff: for state changes that put no transfer back to RECEIVED_PREPARE, which is recorded
  when a transfer is saved first (`src/models/transfer/facade.js:493`); `BinHarmlessIff` needs no such premise.
- Circulation.Completion: only for tokens that do not change each other's guards; for others `RunInv`, `AtRest` and, for
  the two aborts of one remittance, `TwoAborts.dfy` say what holds.
- Circulation: one message per delivery, committed with its follow-up; a crash between the database commit and the
  production of the follow-up is not modelled.
- Reversal.GetPositionChanges: the lookups of the related fx transfers and of the recorded reservations are its inputs,
  and the transfer record exists.
- Cyril.ProcessFulfilMessage: the fulfilment and timestamp inside a patch, and the metrics.
- Database lookups, proxy lookups and account lookups are total functions or maps, and do not fail. A rejected
  extension lookup of the bulk view never resolves in the code.
- BulkView.GetBulkTransferById: an unknown bulk transfer, and the fields of the answer that are copied from the record.
- EndpointDedup.ParticipantEndpoint.Up: for identifiers above zero, as the table's auto-increment gives them.
- Feature904.Database.MigrateData: the foreign keys to settlement windows and state changes, which the old tables
  carried too; the suffix of the table names; the configuration switch in front of the migration.
- UrlParser: host names with pattern characters other than the dot, letters outside ASCII under case folding, and the
  callback form of the parsers.
- SettlementSeed.Seeder.Seed: two seed processes at once, and the error codes of the runs that throw.
- Accounts.Registry.Create: the two hub account checks are one input, the names of account types and the participant's
  link are not part of the answer, and calls do not overlap.
- ProxyCache.Holder.Perform: overlapping connects and disconnects.
- The quoting, settlement and notification handlers, the caches and the admin API are not part of this model.
