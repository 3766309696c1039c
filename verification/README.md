# Verified model of the payments backend

This project models the stateful and the exact parts of the payments backend and proves what they keep. `dafny verify
dfyconfig.toml` checks all of it.

**Terminal sessions.** A POS session is driven through a fourteen-state table by a service that talks to a stateful
sandbox processor and keeps its sessions in a table with an idempotency index. `TerminalSessions` gives each call as a
step on the three stores; `TerminalSafety` proves an invariant that ties the stores together; `TerminalRuns` derives what
holds over every interleaving of calls on any number of sessions. `SessionStore`, `MockProcessor` and
`TerminalSessionService` are the live objects: records that are changed field by field and shared by reference, with each
method proved to do exactly the step on values. `SessionListing` is the filtered listing and `TerminalSimulator` the
stand-alone simulator.

**Payments and settlement.** `Payments` gives each request, webhook and worker task as a step on a ledger that journals the
effects outside (charges answered, transfers sent, refunds granted with their amounts). `PaymentSafety` and `PaymentRuns`
prove what every run keeps. `PaymentTrails` follows every status that a request assigns on its way, and says exactly when a
payment leaves the transition table and when its status log stops being one path. `PaymentService` has the mutable entities,
which service and engine share through a database session, the service and the retried task, tied to the steps.

**Exact arithmetic.** `Decimals` is decimal arithmetic in a 28-digit context; `Fees` and `Money` are the fee engine, the two
minor-unit conversions and the sandbox exchange on top of it.

**Rate limiter, refresh tokens, dashboard, database URLs.** `RateLimiter` proves that pruned lists decide as a full history
would. `RefreshTokens` and `AuthService` are single-use token rotation. `Dashboard` is the aggregation of sessions and
payments. `DatabaseUrl` is the rewriting of connection URLs.

**Answers.** `TerminalAnswers`, `PaymentAnswers`, `TokenAnswers`, `ListingAnswers`, `LimiterAnswers` and `PaymentBuckets` say
of each operation, from its inputs and the state it finds, whether it is granted, why not if it is not, and every figure that
it writes: which card gets which verdict, what a held charge leaves, who may cancel what, how long a token lasts, which
sessions a filter keeps, which requests are refused.

Classes are proved against functions on values, and the lemmas about runs and answers are about those functions, so they
apply to the classes. Values that come from outside (clocks, random identifiers, gateway, wallet and exchange answers, decoded tokens,
catalog lookups, the processor gate) are inputs of each step.

## What turned out not to hold

Each point has a lemma with the exact condition and a concrete run or input. `PaymentExamples` and `TerminalExamples` hold
the runs from the empty state.

- A payment leaves its transition table, and its status log stops being one path to its status, exactly when a webhook
  rescues a declined payment (FAILED to CAPTURED) or a settlement attempt of a request begins and does not complete (parking
  over SETTLEMENT_PROCESSING or MANUAL_REVIEW); nothing repairs it afterwards. Conditions on the inputs: `StepIsRightIff` for
  a step, `RightIffNothingWentWrong` for runs. Runs: `RescuedThenCancelled`, `ParkedWithoutRate`, `ParkedAfterRefusal`. What
  does hold is that each log line by itself is an edge of the table: `EveryLineIsOnTable`.
- A refund of a payment can exceed the charge, exactly when it is asked to, and can repay a payment whose USDT was already
  sent, exactly when that payment is completed: `GrantedRefund`, and `RefundsAreAsked` for runs. Run:
  `PaymentExamples.RefundedTooMuch`.
- CAD and GBP are enabled for payments and have no sandbox rate: `CadAndGbpHaveNoRate`. Such a payment is parked by its
  request and is not paid out in any run: `NoRateIsParkedIff`, `NoRateIsNeverPaidOut`. Run: `ParkedWithoutRate`.
- A card can be charged again for one reference exactly when the database refuses what the settlement writes:
  `ChargedAgainIff`, `RowRejectedIff`. That needs a fee that eats the whole amount, or euros that settle above ten to the
  sixteenth USDT, or a fee of ten to the sixteenth: `FiftyPercentIsTight`, `FiftyPercentLosesRow`, `LowFeeKeepsRowIff`,
  `UsdtIsStoredIff`, `FeeIsStored`. Runs: `ChargedTwice`, `EurosChargedTwice`.
- A payment that a webhook rescued and that is then cancelled keeps the captured charge for good: no gateway call is made and
  no later refund is granted. This is so exactly for the rescued ones: `CancelKeepsChargeIff`, `CancelledKeepsChargeIff`,
  `CancelledIsNeverRefunded`. Run: `RescuedThenCancelled`.
- An order webhook is ambiguous exactly when two merchants use its order id or, if no payment has that id, two
  payments its gateway reference: `OrderWebhookIsAmbiguous`. Run: `SharedOrderId`.
- A retried settlement keeps the first wallet address on its row while the transfer goes to the present one:
  `RecordedAddressIsPaid`. Run: `WalletChanged`.
- Terminal refunds are not capped: `RefundIsNotCapped`. Run: `TerminalExamples.RefundedTooMuch`.
- A session keeps its approval at the processor exactly when it is cancelled while approved: `CancelKeepsApprovalIff`. Run:
  `ApprovedThenCancelled`.
- A terminal call whose audit line cannot be written raises although it has had its whole effect: `NoCallFailsHalfway`. Run:
  `CreatedAllTheSame`.
- Reuse of a spent refresh token is refused and does not end its lineage: `ReuseLeavesLineageAlive`. Run:
  `ReusedAndRefreshed`.
- The SSL rewriters are not idempotent on a URL that is left without a setting and ends in white space: `WithSslAbsorbs`,
  with `DanglingUrl`. Normalising a URL again gives the same result unless, besides, trimming it uncovers more to remove or
  to add: `NormalisedAbsorbs`, with `UnsettledUrl`.
- With a single day the dashboard series starts now and misses what came earlier today: `LastPointIsToday`, with
  `MorningIsMissed`.
- The dashboard shows every session since the start of its series exactly if there are no more than a thousand, and every
  payment exactly if there are no more than two thousand, when their requests come one after the other; in general exactly if
  none was left out: `SessionsCoveredIff`, `PaymentsCoveredIff`, `CoveredIff`. Input: `BusyDayIsCut`.
- A parked payment is in none of the dashboard's buckets; every other payment at rest is in one: `ParkedIsInNoBucket`.

## Model

| member | source | states |
|---|---|---|
| `TerminalStateMachine.LaterIsHigher` | app/payments/terminal_state_machine.py:27-42 | along any path of the table a rank grows with every line: the table is acyclic |
| `TerminalStateMachine.LogIsBounded` | app/payments/terminal_state_machine.py:27-42 | a log that walks the table never visits a state twice and has at most ten lines |
| `TerminalStateMachine.LogWithoutCardReadIsBounded` | app/payments/terminal_state_machine.py:27-42 | a log that never reads card data has at most nine lines |
| `MockProcessor.ApprovedIff` | app/processors/mock_processor.py:192-207 | a card is approved exactly unless the named scenario is a refusal or, with none named, the token says so or the amount ends in 13, 99 or 77; a signature is asked for exactly on approvals that call for one |
| `MockProcessor.RaisesIff` | app/processors/mock_processor.py:97-184 | every later call raises exactly on an unknown reference, and a capture also on an entry that was declined, timed out, failed or was cancelled |
| `MockProcessor.MockPaymentProcessor.Authorize` | app/processors/mock_processor.py:43-95 | the reply for the token and scenario, filed under its new reference; a token without the prefix raises and files nothing; the call is journaled |
| `MockProcessor.MockPaymentProcessor.Capture` | app/processors/mock_processor.py:97-115 | raises when the reference is unknown or its entry is not approved, filing nothing; otherwise replaces that entry and no other |
| `MockProcessor.MockPaymentProcessor.VoidTransaction` | app/processors/mock_processor.py:117-133 | raises when the reference is unknown; otherwise the entry is cancelled at its own amount, and no other entry changes |
| `MockProcessor.MockPaymentProcessor.Refund` | app/processors/mock_processor.py:135-159 | raises when the reference is unknown; otherwise files an entry for the asked amount under a new reference and keeps the old one |
| `MockProcessor.MockPaymentProcessor.CompleteAuthorization` | app/processors/mock_processor.py:161-184 | raises when the reference is unknown; otherwise replaces that entry by the completed one |
| `SessionStore.SessionRecord.Advance` | app/services/terminal_session_service.py:70-77 | the state changes together with one new log line from the old state to the new one; nothing else does |
| `SessionStore.SessionStore.Create` | app/services/terminal_session_store.py:58-66 | files the record and its key, or hands back the live record already filed under that merchant and key |
| `SessionStore.SessionStore.Get` | app/services/terminal_session_store.py:68-70 | the live record, or nothing |
| `SessionStore.SessionStore.Save` | app/services/terminal_session_store.py:72-76 | stamps a record that is already visible in the table; table and index stay |
| `SessionStore.SessionStore.TableAfter` | app/services/terminal_session_store.py:68-76 | changing one live record changes the table at its id only, before any save |
| `SessionStore.SessionStore.ListAll` | app/services/terminal_session_store.py:78-82 | all stored sessions, newest first, cut to the limit |
| `SessionStore.SessionStore.ListForMerchant` | app/services/terminal_session_store.py:84-110 | the list built by the four passes, the sort and the cut is the specified one |
| `SessionListing.PassesCommute` | app/services/terminal_session_store.py:94-108 | two filter passes are one pass with the conjunction, in either order |
| `SessionListing.PassesAreExact` | app/services/terminal_session_store.py:94-108 | a session occurs among the matches as often as in the table if it satisfies all filters, and not at all otherwise |
| `ListingAnswers.OwnSessionsMatch` | app/services/terminal_session_store.py:94 | without filters the matches are the merchant's own sessions, as often as stored |
| `ListingAnswers.StatusKeeps` | app/services/terminal_session_store.py:95-97 | beside any other filters, the status filter keeps exactly the sessions in the state it names in any case; a text that names none keeps nothing, an empty one everything |
| `ListingAnswers.ProtocolKeeps` | app/services/terminal_session_store.py:98-106 | the protocol filter keeps exactly the sessions whose protocol has the text in its code, id or label, ignoring case |
| `ListingAnswers.CurrencyKeeps` | app/services/terminal_session_store.py:107-108 | the currency filter keeps exactly the sessions whose currency is equal, ignoring case |
| `SessionListing.SortIsOrdered` | app/services/terminal_session_store.py:109 | the sort is a permutation in descending creation time |
| `SessionListing.SortIsStable` | app/services/terminal_session_store.py:109 | sessions created at the same instant keep their stored order |
| `SessionListing.ListingIsNewestPrefix` | app/services/terminal_session_store.py:84-110 | listed and omitted matches together are the matches, the list is as long as the limit allows, and no omitted match is newer than a listed one |
| `TerminalSessionService.TerminalSessionService.Create` | app/services/terminal_session_service.py:94-153 | stores and response after the call are the protocol's create step |
| `TerminalSessionService.TerminalSessionService.NewRecord` | app/services/terminal_session_service.py:113-138 | the new record has walked to AMOUNT_ENTERED, or to PROTOCOL_SELECTED when a protocol was chosen |
| `TerminalSessionService.TerminalSessionService.Resolve` | app/services/terminal_session_service.py:181-185 | the caller's own live record, or the refusal the protocol gives to anyone else |
| `TerminalSessionService.TerminalSessionService.SelectProtocol` | app/services/terminal_session_service.py:410-428 | the protocol's selection step |
| `TerminalSessionService.TerminalSessionService.Authorize` | app/services/terminal_session_service.py:187-306 | the protocol's authorize step on records, index, processor entries and journal |
| `TerminalSessionService.TerminalSessionService.FinishAuthorization` | app/services/terminal_session_service.py:250-293 | what follows the processor's answer: hold, complete, capture or end, as on values |
| `TerminalSessionService.TerminalSessionService.Capture` | app/services/terminal_session_service.py:308-335 | the protocol's capture step |
| `TerminalSessionService.TerminalSessionService.Void` | app/services/terminal_session_service.py:337-360 | the protocol's void step |
| `TerminalSessionService.TerminalSessionService.Refund` | app/services/terminal_session_service.py:362-391 | the protocol's refund step |
| `TerminalSessionService.TerminalSessionService.Cancel` | app/services/terminal_session_service.py:393-408 | the protocol's cancel step |
| `TerminalSafety.CallFits` | app/services/terminal_session_service.py:187-428 | any call on a session in order leaves it in order, changes only its own processor entries, and has no effect at all if it fails |
| `TerminalSafety.IndexKeyIsInjective` | app/services/terminal_session_store.py:58-66 | two merchant-and-key pairs never share an index key |
| `TerminalSafety.ReferencesAreDistinct` | app/processors/mock_processor.py:43-95 | no two sessions share a processor reference |
| `TerminalSafety.CreateKeepsInv` | app/services/terminal_session_service.py:94-153 | a create keeps the three stores in agreement |
| `TerminalSafety.CallIsIsolated` | app/services/terminal_session_service.py:187-428 | a call leaves every other session, its processor entries and its call history alone |
| `TerminalSafety.StepKeepsInv` | app/services/terminal_session_service.py:94-428 | every call on any session, in any order, keeps the three stores in agreement |
| `TerminalSafety.RejectionIsHarmless` | app/services/terminal_session_service.py:187-428 | a call that is rejected before its audit line changes nothing, and the processor is never the reason |
| `TerminalSafety.ConflictIsAboutState` | app/services/terminal_session_service.py:193-203 | on one's own session a call conflicts exactly in the wrong states: authorizing needs PROTOCOL_SELECTED, capture and void need APPROVED, refund needs COMPLETED |
| `TerminalAnswers.CallsAreAnswered` | app/services/terminal_session_service.py:94-428 | in every reachable state each call is granted, or fails for exactly the reason that caller, state and inputs give and changes nothing |
| `TerminalAnswers.AmountsRefuse` | app/processors/mock_processor.py:192-207 | with no scenario named and none in the token, an amount ending in 13 is declined, one in 99 times out, one in 77 fails, each with its own state, log, processor entry and journaled call |
| `TerminalAnswers.TokensRefuse` | app/processors/mock_processor.py:192-198 | with no scenario named the first of the three words in the token decides in the same way, whatever the amount |
| `TerminalAnswers.ScenariosRefuse` | app/processors/mock_processor.py:55-71 | each of the four named refusals gives its own verdict and state, whatever token and amount |
| `TerminalAnswers.CardIsApproved` | app/services/terminal_session_service.py:250-282 | any other card is approved with its code, signature flag and message: held, completed or captured by the outcome, with the log lines, the processor entry and the calls of each |
| `TerminalAnswers.CaptureLeaves` | app/services/terminal_session_service.py:308-335 | a granted capture completes the session and rewrites its own entry at its amount, keeping the code |
| `TerminalAnswers.VoidLeaves` | app/services/terminal_session_service.py:337-360 | a granted void leaves the entry cancelled at the amount of the sale |
| `TerminalAnswers.RefundLeaves` | app/services/terminal_session_service.py:362-391 | a granted refund files exactly the asked amount, or the whole sale if none or zero was asked, under a reference of its own |
| `TerminalAnswers.CancelLeaves` | app/services/terminal_session_service.py:393-408 | a granted cancel moves the session and asks the processor nothing |
| `TerminalAnswers.SelectLeaves` | app/services/terminal_session_service.py:410-428 | a granted selection writes the protocol and its outcome on the session |
| `TerminalAnswers.CreateLeaves` | app/services/terminal_session_service.py:94-153 | the first create of a key adds one session with the deal, protocol and log lines of the request |
| `TerminalRuns.EveryStateIsSafe` | app/services/terminal_session_service.py:94-428 | the invariant holds in every state of every run |
| `TerminalRuns.StoresAgree` | app/services/terminal_session_store.py:58-76 | sessions rest in nine states only, AMOUNT_ENTERED has no protocol, an approved or completed session names its own approved entry with its amount and currency, and the index is the inverse of the keyed sessions |
| `TerminalRuns.NoCallFailsHalfway` | app/services/terminal_session_service.py:94-408 | over any run the processor never raises into the service; a call that raises leaves all stores as they were unless its audit line failed, and then, and only then, it has had its whole effect |
| `TerminalExamples.CreatedAllTheSame` | app/services/terminal_session_service.py:139-153 | a create fails at its audit line and its session is stored |
| `TerminalRuns.SessionsAreIsolated` | app/services/terminal_session_service.py:187-428 | a call changes neither another session nor the entry that session refers to |
| `TerminalRuns.MoneyMovesOnce` | app/services/terminal_session_service.py:225-391 | of two processor calls for one session the kinds differ, at most one captures, completes or voids, nothing follows a refund, and an authorization is never the later one |
| `TerminalRuns.RefundFollowsCapture` | app/services/terminal_session_service.py:362-391 | every refund comes after a capture or completion of the same session |
| `TerminalRuns.LogsArePaths` | app/services/terminal_session_service.py:70-77 | in every state of every run a log is a path of at most nine lines from CREATED to the present state |
| `TerminalRuns.SessionsEvolve` | app/services/terminal_session_store.py:52-76 | sessions are never lost; later states only append to their logs and never change whose they are or what they charge |
| `TerminalRuns.EndedIsFinal` | app/payments/terminal_state_machine.py:37-41 | a declined, failed, cancelled, voided or refunded session stays exactly as it is |
| `TerminalRuns.CreateIsIdempotent` | app/services/terminal_session_store.py:58-66 | after a create with a key is answered, every later create by that merchant with that key returns that session and changes nothing |
| `TerminalRuns.RefundIsNotCapped` | app/services/terminal_session_service.py:368-376 | a refund of a completed session is always granted and exceeds the captured amount exactly when asked to |
| `TerminalExamples.RefundedTooMuch` | app/services/terminal_session_service.py:362-376 | ten dollars are captured and fifty are refunded |
| `TerminalRuns.CancelKeepsApprovalIff` | app/services/terminal_session_service.py:393-408 | a granted cancel leaves an approval at the processor exactly when it found the session approved |
| `TerminalExamples.ApprovedThenCancelled` | app/services/terminal_session_service.py:393-408 | such a run |
| `TerminalRuns.CancelKeepsApproval` | app/services/terminal_session_service.py:393-400 | long after, the log of a cancelled session still shows which case it was |
| `TerminalSimulator.SimulateAuthorizeFlow` | app/processors/mock_processor.py:210-244 | the simulated walk of the table succeeds and ends where the verdict and the outcome say |
| `TerminalSimulator.SimulatorAgreesWithService` | app/processors/mock_processor.py:210-244 | service and simulator take any ready session to the same state, for every amount and scenario |
| `Decimals.FitsIsDigits` | app/fees/engine.py:34-40 | having at most 28 digits and being below the context limit are the same |
| `Decimals.FixKeepsOrOverflows` | app/fees/engine.py:34-40 | the context keeps what fits and turns anything else into something that still does not fit at its old scale |
| `Decimals.FixedQuantizeIsExact` | app/fees/engine.py:34-40 | a sum or difference brought to its own scale is exact or fails, never rounded |
| `Fees.FeeAndNetMakeGross` | app/fees/engine.py:22-48 | for all inputs, whatever is charged has fee plus net equal to the gross |
| `Fees.FeeIsNotNegative` | app/fees/engine.py:22-48 | without a negative fixed fee the fee is never negative |
| `Fees.FeeIsRoundedOnce` | app/fees/engine.py:34-40 | without a fixed fee, whenever the product fits the context, the decimal computation is one half-up rounding to cents |
| `Fees.StoredAmountsAreExact` | app/settlement/engine.py:39-46 | this is so for every amount that a Numeric(18, 2) column holds and every percent below a million |
| `Fees.FeeIsHalfUp` | app/fees/engine.py:34-36 | the fee is the only number of cents that the exact fee rounds half up to |
| `Fees.FeeContracts` | app/fees/engine.py:34-40 | raising an amount raises its fee by at least nothing and at most the raise, so fee and net are monotone |
| `Fees.FeeIsWithinGross` | app/fees/engine.py:34-40 | the fee is between nothing and the gross |
| `Fees.NetIsPositive` | app/fees/engine.py:34-40 | something is left exactly when the exact net is more than half a cent |
| `Fees.FiftyPercentIsTight` | app/models/payment.py:258 | every amount of at least a cent leaves something if and only if the fee is below fifty percent |
| `Fees.BatchIsWithinHalfCentEach` | app/fees/engine.py:34-40 | n fees differ from the fee of the sum by d cents with 2d at most n in magnitude, and so do the nets |
| `Fees.BatchBoundIsReached` | app/fees/engine.py:34-40 | for every n there is a batch that reaches the bound |
| `Money.FromMinorUnitsIsExact` | app/payments/money.py:32-37 | minor units convert, exactly, if and only if they are positive, have at most 28 digits and the currency is known |
| `Money.MinorUnitsRoundTrip` | app/payments/money.py:25-37 | converting minor units to an amount and back gives them back |
| `Money.AmountsRoundTrip` | app/payments/money.py:25-37 | converting a positive two-decimal amount to minor units and back gives it back |
| `Money.ToMinorUnitsRounds` | app/payments/money.py:25-29 | for every decimal the conversion is one half-up rounding, and fails exactly when the count does not fit the context |
| `Money.ToMinorUnitsIsNear` | app/payments/money.py:25-29 | converting moves an amount by at most half a minor unit, and one of at most two decimals not at all |
| `Money.MoyasarRounds` | app/payments/adapters/moyasar.py:19-20 | the gateway converts every amount of at most 28 digits by one half-even rounding, although it multiplies in the context first |
| `Money.MoyasarAgreesExceptOnEvenTies` | app/payments/adapters/moyasar.py:19-20 | the two conversions of such an amount agree except on an exact half unit above an even count, where the gateway's is one unit nearer to zero |
| `Money.ConversionIsExact` | app/crypto/adapters/sandbox.py:17-38 | converting an amount in cents to USDT never rounds, and there is no quote for a currency without a rate |
| `Money.UsdtIsStoredIff` | app/models/payment.py:258-272 | of the sandbox rates only that of the euro takes a stored amount past Numeric(24, 8): the settlement amount can be stored exactly if the net is positive and, in euros, at most 925 925 925 925 925 925 cents |
| `Money.HundredConverts` | app/crypto/adapters/sandbox.py:6-12 | a hundred dollars, euros, dirhams and riyals in USDT, and nothing else |
| `Payments.Lookup` | app/services/payment_service.py:156-166 | a lookup by reference finds the only row, none, or reports that there are several |
| `PaymentSafety.SettlementKeeps` | app/settlement/engine.py:48-184 | one attempt settles with exactly one transfer of the settlement's amount, or raises without one; the deal and the conservation of the amount stay |
| `PaymentSafety.TrySettleKeeps` | app/services/payment_service.py:506-526 | on the request path a captured payment ends completed with its transfer or parked without one |
| `PaymentSafety.RowRejectedIff` | app/models/payment.py:258-272 | the database refuses an attempt exactly when there is a wallet and the fee does not fit its column or, with a rate, nothing is left or the USDT amount does not fit |
| `PaymentSafety.LowFeeIsStorableIff` | app/models/payment.py:272 | below fifty percent only euros can be refused, and exactly when the net is above 925 925 925 925 925 925 cents |
| `PaymentSafety.FeeIsStored` | app/models/payment.py:102 | up to a hundred percent every fee fits its column |
| `PaymentSafety.StepKeepsInv` | app/services/payment_service.py:137-671 | every request, webhook and task keeps rows, transfers and refunds in agreement: one transfer of the settlement's amount exactly for each paid-out row, one refund exactly for each refunded row |
| `PaymentAnswers.RequestsAreAnswered` | app/services/payment_service.py:137-617 | in every reachable ledger a create, signature, cancel or refund is granted, or fails for exactly the reason that caller, status and inputs give, and only a decline leaves anything then: a cancel needs AUTHORIZED or CAPTURED, a signature AUTHORIZED and acknowledged, a refund CAPTURED, SETTLEMENT_PENDING or COMPLETED with a gateway reference and a gateway that grants it |
| `PaymentAnswers.AttemptLeaves` | app/settlement/engine.py:48-184 | every field, log line, status and transfer that a first settlement attempt leaves, for each way it can go |
| `PaymentAnswers.TaskLeaves` | app/tasks/settlement_tasks.py:12-26 | the same for the task, which keeps the first wallet address of a settlement it finds, or changes nothing |
| `PaymentAnswers.HeldLeaves` | app/services/payment_service.py:304-326 | a held charge is answered with a stored AUTHORIZED row without receipt, settlement or transfer |
| `PaymentAnswers.DeclinedLeaves` | app/services/payment_service.py:279-303 | a declined charge leaves a FAILED row, and the request fails |
| `PaymentAnswers.TakenLeaves` | app/services/payment_service.py:327-351 | a taken charge leaves a row with a receipt after one attempt to settle it |
| `PaymentAnswers.RepeatLeaves` | app/services/payment_service.py:156-166 | a create that repeats a stored transaction returns it, found by its key before its reference |
| `PaymentAnswers.SignatureLeaves` | app/services/payment_service.py:353-400 | a granted signature captures the payment, keeps or draws its receipt and tries once to settle it |
| `PaymentExamples.SignedAndPaid` | app/services/payment_service.py:353-400 | a run in which a held dollar is signed and 98 cents of it are paid out |
| `PaymentAnswers.CancelLeaves` | app/services/payment_service.py:402-425 | a granted cancel moves the row and does nothing else |
| `PaymentAnswers.RefundLeaves` | app/services/payment_service.py:589-617 | a granted refund repays exactly the asked amount, or the whole charge if none was asked |
| `PaymentAnswers.WebhookLeaves` | app/services/payment_service.py:619-671 | a webhook changes a row exactly if it reports a success, the row is failed and is the only one with its order id or, if none has that, the only one with its gateway reference |
| `PaymentAnswers.WebhookMeansNothing` | app/services/payment_service.py:619-671 | it is answered as unmatched exactly if no row carries what it names |
| `PaymentRuns.MoneyIsConserved` | app/settlement/engine.py:48-184 | over any run: a transfer exactly when the settlement is done and never two, a refund exactly when refunded and never two, settlements only on parked, completed or refunded payments, amount = fees + net, payout = net, USDT = net times rate and positive |
| `PaymentRuns.RowsEvolve` | app/services/payment_service.py:137-671 | rows are never lost, their deal is fixed and their logs and trails only grow; cancelled and refunded rows are final, what follows FAILED is CAPTURED, and a done settlement is never rewritten |
| `PaymentRuns.StatusesBetweenRequests` | app/services/payment_service.py:137-671 | between requests only a webhook changes a status against the table, from FAILED to CAPTURED; what a request passes through is in the trails |
| `PaymentRuns.GrantedRefund` | app/services/payment_service.py:564-617 | a granted refund is above or below the charge exactly as asked, makes the row refunded so that no second one is granted, and money has gone both ways exactly if the payment was completed |
| `PaymentRuns.RefundsAreAsked` | app/services/payment_service.py:589-617 | over any run every refund answers an earlier request on its payment: above the charge exactly if that request asked for more, and paid out besides exactly if it found the payment completed |
| `PaymentExamples.RefundedTooMuch` | app/services/payment_service.py:589-598 | one dollar is charged and paid out, and five are refunded |
| `PaymentRuns.CadAndGbpHaveNoRate` | app/crypto/adapters/sandbox.py:6-12 | of the enabled currencies exactly CAD and GBP have no rate |
| `PaymentRuns.NoRateIsParkedIff` | app/services/payment_service.py:506-526 | a captured payment without a rate is parked by its request, whatever wallet and transfer there are, unless its fee does not fit its column, which needs more than a hundred percent |
| `PaymentRuns.NoRateIsNeverPaidOut` | app/settlement/engine.py:85-86 | in every state of every run a payment without a rate has no settlement and no transfer, and is never completed |
| `PaymentRuns.ChargedCreate` | app/services/payment_service.py:190-351 | an answered charge leaves its row, unless the database refuses what its settlement writes, and exactly then the request rolls back |
| `PaymentRuns.ChargedOnce` | app/services/payment_service.py:156-252 | over any run in which no settlement is refused by the database the gateway answers at most one charge per merchant and reference |
| `PaymentRuns.LowFeeKeepsRowIff` | app/models/payment.py:272 | below fifty percent a settlement is refused exactly for funded euros whose net is above 925 925 925 925 925 925 cents |
| `PaymentRuns.ChargedAgainIff` | app/services/payment_service.py:137-351 | sending an answered create again, under a new transaction id, charges again exactly when its settlement could not be stored |
| `PaymentExamples.ChargedTwice` | app/services/payment_service.py:137-351 | a run in which one cent at fifty percent is charged twice and nothing is stored |
| `PaymentExamples.EurosChargedTwice` | app/services/payment_service.py:137-351 | a run in which the largest amount of euros, at one and a half percent, is charged twice and nothing is stored |
| `PaymentRuns.FiftyPercentLosesRow` | app/models/payment.py:258 | one cent in dollars at fifty percent or more cannot be stored |
| `PaymentRuns.RepeatReturnsStored` | app/services/payment_service.py:156-166 | a valid request under a stored reference returns that transaction and changes nothing, declined ones included |
| `PaymentRuns.CreateIsNeverAmbiguous` | app/models/payment.py:81 | a create never finds two transactions to repeat |
| `PaymentRuns.OrderWebhookIsAmbiguous` | app/services/payment_service.py:619-635 | the webhook fails exactly when transactions of two merchants carry the order id or, if none does, two carry the gateway reference |
| `PaymentExamples.SharedOrderId` | app/services/payment_service.py:619-635 | a run of two merchants in which it fails |
| `PaymentRuns.RecordedAddressIsPaid` | app/settlement/engine.py:88-134 | a successful transfer goes to the present wallet, which is the recorded address exactly unless a retry finds a different wallet |
| `PaymentExamples.WalletChanged` | app/settlement/engine.py:88-134 | a run that pays one address and records another |
| `PaymentTrails.SettledIff` | app/settlement/engine.py:48-184 | an attempt completes exactly with a wallet, a rate, a net that is positive and fits as USDT, and a transfer that is sent |
| `PaymentTrails.ParkedIff` | app/services/payment_service.py:506-526 | a request parks a captured payment exactly without a wallet or when the attempt begins and fails: what it writes can be stored, and there is no rate or no transfer |
| `PaymentTrails.TaskSucceedsIff` | app/tasks/settlement_tasks.py:12-26 | in a reachable ledger the task succeeds exactly on a captured or parked payment with a wallet, a rate, a net that is positive and fits as USDT, and a transfer that is sent |
| `PaymentTrails.RetriesPayOnce` | app/tasks/settlement_tasks.py:29-40 | however often it is retried, the task does what its first successful attempt does, with one transfer, or nothing if none succeeds |
| `PaymentTrails.AttemptIsRightIff` | app/services/payment_service.py:506-526 | a settlement attempt of a request keeps the trail on the table and the log one path exactly if they were and it does not begin and fail |
| `PaymentTrails.StepIsRightIff` | app/services/payment_service.py:137-671 | for every row and every request, webhook or task: the trail is on the table afterwards, and the log one path to the status, exactly if it was so before and the step neither rescues the row nor begins a settlement of it that fails; so nothing is ever repaired |
| `PaymentTrails.RightIffNothingWentWrong` | app/payments/state_machine.py:9-106 | over any run a payment has stayed on the table, and its log is one path, exactly if no step so far was of those two kinds |
| `PaymentTrails.TrailsAlwaysFit` | app/payments/state_machine.py:9-106 | over any run FAILED to CAPTURED and parking from SETTLEMENT_PROCESSING or MANUAL_REVIEW are the only moves off the table, and a log ends at the present status or at the FAILED of a rescued payment |
| `PaymentTrails.EveryLineIsOnTable` | app/payments/state_machine.py:9-106 | over any run every single log line is an edge of the table |
| `PaymentTrails.CancelKeepsChargeIff` | app/services/payment_service.py:402-425 | over any run a granted cancel keeps a captured charge exactly when it found the payment captured |
| `PaymentTrails.CancelledKeepsChargeIff` | app/services/payment_service.py:402-425 | a cancelled payment kept its charge exactly if a webhook had rescued it after it was declined; any other was authorized and then cancelled |
| `PaymentTrails.CancelledIsNeverRefunded` | app/services/payment_service.py:564-582 | no later state has a refund of a cancelled payment, and every later refund of it is refused |
| `PaymentExamples.RescuedThenCancelled` | app/services/payment_service.py:653-671 | declined, rescued, cancelled: a broken log without any settlement attempt |
| `PaymentExamples.ParkedWithoutRate` | app/services/payment_service.py:506-526 | a Canadian payment is parked over SETTLEMENT_PROCESSING, and its log has two lines from CAPTURED |
| `PaymentExamples.ParkedAfterRefusal` | app/services/payment_service.py:506-526 | a payment with a refused transfer is parked over MANUAL_REVIEW |
| `PaymentService.SettlementEngine.PrepareAndSettle` | app/settlement/engine.py:48-184 | loads the transaction by its id, and so changes the entity that the service may hold already; new fields, verdict and transfers are those of the engine on values |
| `PaymentService.Session.Get` | app/repositories/transaction.py:34-38 | a session hands out one entity for each row, whoever asks and however it was changed |
| `PaymentService.PaymentService.TrySettle` | app/services/payment_service.py:506-526 | the same for the request path, where the service parks its own entity after the engine has changed it |
| `PaymentService.PaymentService.CreatePayment` | app/services/payment_service.py:137-351 | ledger and response are the create step |
| `PaymentService.PaymentService.CompleteSignature` | app/services/payment_service.py:353-400 | ledger and response are the signature step |
| `PaymentService.PaymentService.CancelPayment` | app/services/payment_service.py:402-425 | ledger and response are the cancel step |
| `PaymentService.PaymentService.RefundPayment` | app/services/payment_service.py:564-617 | ledger, with the amount repaid, and response are the refund step |
| `PaymentService.PaymentService.HandleNowPaymentsWebhook` | app/services/payment_service.py:619-651 | ledger and response are the webhook step |
| `PaymentService.PaymentService.HandleMoyasarWebhook` | app/services/payment_service.py:653-671 | ledger and response are the webhook step |
| `PaymentService.PaymentService.SettleTransaction` | app/tasks/settlement_tasks.py:12-40 | the worker commits a settled transaction and leaves the ledger as it was after any failure |
| `PaymentService.PaymentService.SettleWithRetries` | app/tasks/settlement_tasks.py:29-40 | the task with its five retries does what the retried step does on values |
| `RateLimiter.RateLimitMiddleware.DispatchRequest` | app/middlewares/security.py:30-54 | lists and verdict are those of the dispatch on values |
| `RateLimiter.RateLimitMiddleware.AdmitGlobal` | app/middlewares/security.py:36-44 | the client's list is pruned and the request recorded exactly when the pruned list is below the limit |
| `RateLimiter.RateLimitMiddleware.AdmitSignIn` | app/middlewares/security.py:46-52 | the same for the sign-in list |
| `RateLimiter.PrunedLimiterIsIdeal` | app/middlewares/security.py:30-54 | over any run with a clock that does not go back, every verdict is the one of a limiter that forgets nothing |
| `RateLimiter.PrunedListIsRecentHistory` | app/middlewares/security.py:36-43 | after a decision the client's list is exactly its recorded history of the last sixty seconds |
| `RateLimiter.EveryWindowIsWithinBudget` | app/middlewares/security.py:36-52 | any window of sixty seconds, wherever it opens, holds at most the limit for the client, and forwarded sign-ins at most theirs |
| `RateLimiter.ClientsAreIndependent` | app/middlewares/security.py:30-54 | a client gets the verdicts it would get if no other client existed |
| `LimiterAnswers.PathsAreClassified` | app/middlewares/security.py:11-33 | health checks are exempt, exactly the three sign-in paths draw on the second budget |
| `LimiterAnswers.RequestsAreAnswered` | app/middlewares/security.py:30-54 | over any run each verdict follows from a count of the requests of that client before it that got past in the last sixty seconds: refused exactly from the limit on |
| `RefreshTokens.OneLiveTokenPerLogin` | app/services/auth_service.py:51-136 | in every state of every run the tokens of one login include at most one that is not revoked |
| `RefreshTokens.RowsStay` | app/repositories/user.py:57-75 | token rows are never lost or rewritten, apart from being revoked once |
| `RefreshTokens.SpentTokensStaySpent` | app/services/auth_service.py:68-106 | a refreshed or logged-out token is refused ever after, and presenting it changes nothing |
| `RefreshTokens.EndedForGood` | app/services/auth_service.py:68-106 | a login without a live token never gets one again |
| `RefreshTokens.EndedLineageNeverIssues` | app/services/auth_service.py:68-92 | each of its tokens is refused at every later refresh |
| `RefreshTokens.LogoutEndsLineage` | app/services/auth_service.py:94-106 | logging out the live token leaves the login without one |
| `RefreshTokens.RefreshRotates` | app/services/auth_service.py:91-92 | a granted refresh spends the old token and makes the new one the only live token of the login |
| `TokenAnswers.EveryTokenWasIssued` | app/services/auth_service.py:108-136 | over any run each token was issued by one login or refresh, to its user, and expires one lifetime after it |
| `TokenAnswers.TokenLastsOneLifetime` | app/services/auth_service.py:68-92 | over any run a stored token is refreshed exactly while it is unrevoked and younger than one lifetime, by an active subject; otherwise nothing changes |
| `TokenAnswers.LoginLeaves` | app/services/auth_service.py:51-66 | a login is granted exactly to an active account, with one row that lasts a lifetime |
| `TokenAnswers.RefreshLeaves` | app/services/auth_service.py:68-92 | a refresh is granted exactly on the text of a live stored token; it revokes that row and stores one for the same user |
| `TokenAnswers.LogoutLeaves` | app/services/auth_service.py:94-106 | a logout revokes the row of the presented id exactly if it is live, and no other |
| `TokenAnswers.RevokeAllLeaves` | app/repositories/user.py:62-75 | exactly the user's unrevoked rows are revoked |
| `RefreshTokens.LineageHasOneUser` | app/services/auth_service.py:87-92 | over any run all tokens that descend from one login, now or later, are that user's |
| `RefreshTokens.LiveUntilPresented` | app/services/auth_service.py:68-106 | over any run a live token stays as it is until it is presented itself or all tokens of its user are revoked |
| `RefreshTokens.ReuseLeavesLineageAlive` | app/services/auth_service.py:79-92 | after a spent token was presented, and refused, the live token of its lineage, left alone since, is refreshed exactly if it has not expired and its user is active, and the new token is of that lineage |
| `RefreshTokens.ReusedAndRefreshed` | app/services/auth_service.py:79-92 | such a run |
| `AuthService.RefreshTokenRepository.GetActiveByJti` | app/repositories/user.py:46-55 | a row is found exactly if it is unrevoked and not expired, and it is the live object |
| `AuthService.RefreshTokenRepository.Revoke` | app/repositories/user.py:57-60 | revokes that row and no other |
| `AuthService.RefreshTokenRepository.RevokeAllForUser` | app/repositories/user.py:62-75 | revokes exactly the user's unrevoked rows and counts them |
| `AuthService.AuthService.Login` | app/services/auth_service.py:51-66 | tokens and response are the login step |
| `AuthService.AuthService.Refresh` | app/services/auth_service.py:68-92 | tokens and response are the refresh step, for the user named by the token itself |
| `AuthService.AuthService.Logout` | app/services/auth_service.py:94-106 | tokens are those of the logout step |
| `AuthService.AuthService.IssueTokens` | app/services/auth_service.py:108-136 | adds one live row for the user with the configured lifetime |
| `Dashboard.Build` | app/services/admin_dashboard_service.py:141-230 | every figure is the sum that it stands for, over the newest thousand sessions of the store and the payments that the query returned |
| `Dashboard.Aggregate` | app/services/admin_dashboard_service.py:160-230 | counters, totals and day series are the sums over the fetched records |
| `Dashboard.ListedAreNewest` | app/services/terminal_session_store.py:78-82 | the listed sessions are as many as the limit allows and none left out is newer |
| `Dashboard.CoveredIff` | app/services/admin_dashboard_service.py:161-192 | a count over the fetched rows is the count over all rows exactly if no row that was left out belongs to it |
| `Dashboard.DatedByCreationCoveredIff` | app/services/admin_dashboard_service.py:161-192 | rows dated by their creation are complete since a start exactly if no more than the limit were created since |
| `Dashboard.SessionsCoveredIff` | app/services/admin_dashboard_service.py:161 | the dashboard shows every session since the start exactly if there are no more than a thousand |
| `Dashboard.BusyDayIsCut` | app/services/admin_dashboard_service.py:186-200 | of one payment more than the limit, all created and dated today, one is missing |
| `Dashboard.PaymentsCoveredIff` | app/services/admin_dashboard_service.py:186-200 | payments are dated by the request that creates them; of requests that come one after the other the dashboard shows every payment since a start, today included, exactly if no more than two thousand are dated since |
| `Dashboard.FillSeries` | app/services/admin_dashboard_service.py:222-230 | one point per day from the start on, with that day's records since the start |
| `Dashboard.BucketsAddUp` | app/services/admin_dashboard_service.py:103-118 | the five buckets and the records without a bucket add up to all records |
| `Dashboard.SeriesAddsUp` | app/services/admin_dashboard_service.py:222-230 | the series adds up to the records, or amounts, from the start through today, so only something dated after today is missed |
| `Dashboard.LastPointIsToday` | app/services/admin_dashboard_service.py:174-176 | the last point is today's and, for two days or more, equals the counter of today; for one day exactly if what came earlier today adds up to nothing |
| `Dashboard.MorningIsMissed` | app/services/admin_dashboard_service.py:146-150 | a payment of the morning counts for today and is in no point of a series of one day |
| `Dashboard.OneStateHasNoBucket` | app/services/admin_dashboard_service.py:52-118 | of the fourteen states exactly CARD_DATA_READ has no bucket |
| `Dashboard.SessionBucket` | app/services/admin_dashboard_service.py:22-118 | the bucket of each of the fourteen states |
| `PaymentBuckets.PaymentBucket` | app/services/admin_dashboard_service.py:22-118 | the bucket of each of the fourteen payment statuses |
| `PaymentBuckets.ParkedIsInNoBucket` | app/services/admin_dashboard_service.py:103-118 | a payment at rest has no bucket exactly while it is parked |
| `Dashboard.SessionsAreBucketed` | app/services/admin_dashboard_service.py:103-118 | every terminal session of a reachable state falls into a bucket |
| `DatabaseUrl.SplitUndoesJoin` | app/core/config.py:172-182 | splitting a query undoes joining parts without a separator |
| `DatabaseUrl.JoinUndoesSplit` | app/core/config.py:172-182 | joining undoes splitting on every string |
| `DatabaseUrl.StripSslTwice` | app/core/config.py:172-182 | removing the SSL parameters is idempotent on every string |
| `DatabaseUrl.StripSslKeepsTheRest` | app/core/config.py:172-182 | exactly the non-empty parts that are no SSL setting survive, and they can be split off again |
| `DatabaseUrl.StripSslUndoesDemand` | app/core/config.py:185-202 | the setting that a rewriter adds is exactly what the next removal takes away |
| `DatabaseUrl.WithSslDemandsOnce` | app/core/config.py:185-202 | a URL that is not exempt ends in the driver's setting and has no other; an exempt one has none |
| `DatabaseUrl.SettingIsAddedIff` | app/core/config.py:167-202 | which URLs get no setting: SQLite, localhost or 127.0.0.1 in any case, or one that still names the key |
| `DatabaseUrl.WithSslAbsorbs` | app/core/config.py:185-202 | each rewriter absorbs itself and the other, unless the first leaves a bare URL ending in white space, and then never |
| `DatabaseUrl.SpaceFreeUrlsAbsorb` | app/core/config.py:185-202 | for every URL without white space they absorb each other |
| `DatabaseUrl.DanglingUrl` | app/core/config.py:185-202 | a local URL with a blank before its query is one on which they do not |
| `DatabaseUrl.AsPostgresRetags` | app/core/config.py:146-153 | naming a driver exchanges the scheme and keeps all that follows it |
| `DatabaseUrl.AsPostgresNamesDriver` | app/core/config.py:205-221 | every URL that is not SQLite's comes out in the driver's own scheme |
| `DatabaseUrl.SchemesAreExchanged` | app/core/config.py:146-221 | each of the five Postgres schemes and the two for SQLite files is replaced by the driver's |
| `DatabaseUrl.AsPostgresAbsorbs` | app/core/config.py:205-221 | for every string, naming a driver forgets the driver named before |
| `DatabaseUrl.RewrittenAbsorbs` | app/core/config.py:185-221 | the exact condition for the two rewriters in a row |
| `DatabaseUrl.RewrittenIsSanitized` | app/core/config.py:156-164 | a rewritten URL never looks like two pasted ones |
| `DatabaseUrl.SecondUrlIsCut` | app/core/config.py:156-164 | a second URL pasted behind a Postgres one is cut off from its scheme on, with the slashes before it |
| `DatabaseUrl.NormalisedAbsorbs` | app/core/config.py:97-182 | for every string, normalising the normalised URL, for the same driver or the other, is normalising the original, unless the first result is left bare with white space at its end and trimming it uncovers more to remove or to add; and then it never is |
| `DatabaseUrl.UnsettledUrl` | app/core/config.py:97-182 | a local URL with a blank parameter before its SSL setting changes when it is normalised again |

## Left out

- ChargedOnce: stated under serial execution with gateway calls that return, as the code gives no more without the database's isolation.
- Routes, schemas, exception handlers, security headers, logging, migrations and seeds. Validation is a precondition in the type of an amount or currency.
- Concurrency of the database: payment requests, worker tasks and token requests run one after the other, a commit succeeds, and nothing fails after a transfer was sent. A transfer that raises moved no money. Terminal calls interleave freely, each call being one step, because their bodies wait only for the audit line at the end.
- Collisions of random identifiers: session ids, processor references, token ids, transaction ids and receipt numbers are new. Backward clock jumps in the rate limiter.
- Case folding and blanks outside ASCII. Statuses, currencies and URLs are compared in ASCII.
- What an audit line says. Because a terminal call waits for its audit line with the changed record already visible, the answer is read from the live record after that wait and can show what a later call made of it; here it is the record as the call left it.
- Identity columns that no rule reads: user, device, environment, transaction type, card brand and last digits. A protocol's id, code and label are one value, and the catalog lookup is an input; so are the execution gate and the simulator's session id, which is taken to be a UUID.
- The branch of authorize that turns a processor error into 422 (app/services/terminal_session_service.py:234-239) cannot run: the service has already refused every token that the processor refuses.
- `trail` of a transaction and `lineage` of a token are bookkeeping of the model: the code stores neither.
- The queue between a parked payment and its task: a task may run at any time, on any payment. `Retried` is the task with nothing else in between; runs may put other requests there.
- Failure reasons, extra data, receipt and attempt rows of payments, and the payment read side.
- Fee percents in the settlement engine that are not multiples of 1e-4 percent, are negative or are a million percent or more, and exchanges other than the sandbox table. Columns are those of PostgreSQL. An amount in minor units that does not fit its column fails before the charge; texts fit their columns.
- The rate limiter's clock is a real number, not a float.
- Signing and hashing: a token is what decoding it yields, and a stored token verifies the text it was stored for. Registration. A token whose subject is no UUID, which cannot be issued.
- Which of several equally old rows a cut of payments keeps, and deleted payments.
- Dashboard instants are a calendar day and a time of day in UTC, amounts are integers instead of floats, and the protocol, outcome and device counts and the approval rate are not modelled.
- Gateway HTTP adapters, Celery and Redis internals, payout eligibility, devices, website content: no part of this model.
