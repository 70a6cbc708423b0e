# Verified model of the payments back office

A Dafny model of the parts of the application whose correctness does not show in one function body: the partner API's
idempotent creates under races, its signed requests, the merchant balance over the double-entry ledger, the second sign-in
factor, the login limiter, wallet withdrawals, the compliance rescreen, held payouts, the two spreadsheet importers and the AI-spend
figures. `dafny verify dfyconfig.toml` checks all of it.

Handlers that update stored rows are classes whose methods follow the code and are proved equal to a step of a state machine;
protocols are runs of that machine under any interleaving and any failing store calls; loops are loops with invariants. The
database is a small abstract state with the constraints its migrations declare. Hashes, ciphers and MACs are abstract.

## The pieces

- **Payments** (`PartnerPayments`, `PartnerPaymentsHandler`): look up by key, look up by reference, draft, claim under two
  unique indexes, re-read. A call may fail before or after it took effect.
- **Invoices** (`PartnerInvoices`, `PartnerInvoicesHandler`): references unique across merchants, rows created with them.
- **Bodies** (`PartnerApiBodies`): what both creates accept and what they store, in the caller's terms.
- **Signed requests** (`SignedRequests`): the canonical message and the order of the checks.
- **Ledger** (`Ledger`, `LedgerLaws`, `LedgerEvents`, `LedgerAccounts`, `AvailableBalance`, `BusinessWallets`, `LedgerRuns`,
  `CollectionFees`): postings of collections, splits, settlement cuts, payouts, refunds, spends of the business wallet and operator
  reversals, when each goes through, and what every account adds up to.
- **Second factor** (`SecondFactor`, `SecondFactorLaws`, `SecondFactorRequests`, `SecondFactorHandler`, `OneTimeCodes`): challenge rows through begin,
  switch, resend, wrong codes, passkeys and completion, with factors changing meanwhile.
- **Login limiter** (`LoginLimiter`): the map of attempts as a refinement of a history of events.
- **Withdrawals** (`Withdrawals`, `WithdrawalLaws`, `AllowanceLaws`, `WithdrawalHandler`, `UserWallets`, `Calendar`): reserve, screen, read the
  balance, debit, compensate, with ceilings per Lagos day and month, beside other debits of the same wallet and reversals.
- **Rescreen** (`Rescreen`, `RescreenOutcomes`, `Passes`): the customer and business passes.
- **Held payouts** (`HeldPayouts`, `HeldPayoutLaws`, `HeldPayoutRequests`, `HeldPayoutRuns`, `HeldPayoutHandler`): one settlement payout from its
  creation, with its screening row, batch and reservation, under requests, the dispatching worker, passes over stale holds,
  approvals, rejections and operator actions, interleaved call by call.
- **Importers** (`RecordsImport`, `RecordFields`, `RecipientImport`): header-driven and positional spreadsheets.
- **Spend** (`TokenSpend`): one cost floored per week and per day.
- `Text`, `Sums`, `Wrappers` and `StoreCalls` hold string operations, sums over rows, the two result types and what can happen to a
  store call.

## Where the code and what is said of it differ

Each of these is proved with a concrete run or input, the exact condition, or both.

- `available_balance` is documented as the net of collections not settled or reversed. A cut moves the whole charge (base plus
  collection fee) out of an account that was credited with the base, so each cut with fees lowers the figure by those fees and
  the clamp at zero fires (`ACutCostsItsCollectionFees`, `AvailableAgainstPromise`, `ClampFiresAndHidesTheFee`).
- The figure can also exceed the documented one: a split retried after its payment was refunded is posted all the same, and an
  operator's reversal of a cut's fee or wallet credit leaves kobo behind. With configured prices nothing else does
  (`AvailableAgainstPromise`, `NothingIsOverIff`, `OverstatedByALateSplit`, `LeakIff`, `ALateSplitOverstates`,
  `AStruckCreditOverstates`).
- A collection is meant to pay the merchant its full base. A payment created over the partner API has its metadata replaced, so
  the fee is deducted a second time (`OverwrittenDraftPaysAtMostTheBase`, `ApiMerchantIsShort`).
- A refund is refused while its payment is in a scheduled batch, but an approval never looks: a payment cut between request and
  approval is refunded and stays in the batch (`RefundedOffLineIffNeverApprovedOnOne`, `ApprovalCanLeaveALine`).
- An operator may reverse any journal reference. One that belongs to a succeeded payment leaves the payment succeeded, takes its
  money out of the balance, and its refund is refused from then on, which is the one case in which it is
  (`RefundStopsIffStruck`, `AReversalStopsTheRefund`, `ReversalMoves`).
- A spend of the business wallet is checked against its balance, read without a lock; a completed payout is not checked at all.
  The wallet can go below zero, and does not exactly when every spend leaves what the merchant's batches are owed
  (`ASpendCanOverdraw`, `TwoSpendsCanOverdraw`, `SecureIffCovered`, `AlwaysSecureIffPrudent`).
- One idempotency key used for two references gives a wrong 200 or a 500, and only that does (`RepliesRightIffDisciplined`,
  `NoServerErrorIffDisciplined`); a replay then names another payment exactly when one has taken the key since
  (`ReplayAfterAnyRun`, `AReplayCanNameAnother`).
- When a method cannot be readied, a sign-in is meant to fall back to the picker. The schema refuses the blank method the picker
  is stored as, so the sign-in fails (`BeginStrandsWithoutTheBlankMethod`, `AMailOutageStrandsASignIn`).
- An account with an enrolled factor is meant to be challenged whatever the deployment flag says. Without a mail sender one
  whose only factor is an emailed code is not (`EnrolledIsChallengedIff`, `AnEnrolledSubjectIsNotChallenged`).
- A wrong code whose recording fails is not counted, so a step can be guessed at without end (`LostFailuresAreFree`,
  `AnyNumberOfGuesses`); a passkey step also counts outages.
- A rescreen folds an unknown sanctions verdict and a clear adverse-media one to clear (`FoldUnblocksIff`), and records a weaker
  decision than it obtained when the row of a stricter adverse-media verdict fails (`WeakerIffTheStricterRowFailed`,
  `ABlockedVerdictCanBeLost`).
- A user's wallet can go below zero: a debit is checked against a balance nothing locks, and the reversal of a credit is not
  checked. It does exactly when a debit outruns what its check read or a reversal takes back more than is left; with a lock only
  the latter could (`NeverBelowZeroIff`, `SerialisedOverdrawsOnlyByReversal`, `AReversedTopUpOverdraws`,
  `TwoWithdrawalsCanOverdraw`).
- Payouts are to be dispatched only past a clear decision. The worker reads no screening row: it takes a payout whose request was
  refused at a limit or has not been screened yet, and one that screening blocked and an operator retried (`SentUnclearedIff`,
  `ARefusedRequestIsSent`, `AnInterdictedPayoutIsSent`).
- A pass that blocks and an approval can cross: the payout fails on a row that says it was cleared, and passes the gate when it
  is retried (`LeavesAgainstTheRowIff`, `AVerdictCanCrossAnApproval`, `ThenItIsSent`).
- A re-evaluated or approved payout, or one held while the screener was down, can stay held with its row closed until it is
  rejected (`StrandedIff`, `StrandedUntilRejected`, `AClearedPayoutCanBeStranded`, `AnOutageCanStrandAClearPayout`).
- A rejection is to release the reservation and reopen the batch. When one of these fails it cannot be repeated
  (`LeftScheduledIff`, `LeftReservedIff`, `ARejectionIsNotRepeated`, `ABatchCanStayScheduled`).
- A reversed payout is to be one whose money never left the bank. A rejection reverses whatever the payout has become since it
  was found held, and a cancellation accepts one in processing (`SentAndReversedIff`, `APaidPayoutCanBeReversed`).
- The reviewer's route looks a held payout up under its batch number with the destination behind it, which is never its own
  batch's number (`DispositionMissesItsBatch`).
- Withdrawn money stays covered by a reservation unless a debit's acknowledgement is lost (`CoveredIffNeverReleasedDebited`,
  `ADebitCanBeUncovered`).
- A reservation is stamped when its transaction begins and checked after the wait for the subject's lock. One that waits across
  midnight is summed against the new day and recorded in the old, whose total may then exceed its ceiling
  (`CeilingKeptIffChecksItsPeriod`, `ADayCanExceedItsCeiling`).
- The CSV and workbook recipient parsers can read one table differently (`ParsersAgreeIff`, `ParsersDiffer`).

## Model

| member | source | states |
|---|---|---|
| PartnerPayments.OwnershipIsUniqueAndPermanent | internal/app/api_keys.go:198-258 | over any interleaving and any faults at most one payment ever owns a (merchant, reference), and it owns it for ever |
| PartnerPayments.KeylessRepliesAgree | internal/app/api_keys.go:212-258 | all 200 replies to keyless requests for one reference name one payment, its owner |
| PartnerPayments.LosingDraftStaysBlank | internal/app/api_keys.go:246-258 | a draft that lost its claim never acquires a reference or a key in any later run |
| PartnerPayments.LoserLeavesABlankDraft | internal/app/api_keys.go:246-258 | a request whose claim conflicts leaves its own draft blank for ever |
| PartnerPayments.DisciplinedRepliesOwn | internal/app/api_keys.go:200-258 | when equal keys carry equal references every 200, keyed or not, names the owner of the reference asked for |
| PartnerPayments.KeylessRequestSucceeds | internal/app/api_keys.go:212-258 | without faults of its own a keyless request answers 200 within four calls and never 500, whatever others do |
| PartnerPayments.DisciplinedRequestSucceeds | internal/app/api_keys.go:200-258 | the same for any request under disciplined keys, within five calls |
| PartnerPayments.RepliesRightIffDisciplined | internal/app/api_keys.go:200-210 | every fault-free run answers with the right payment if and only if no key is used for two references |
| PartnerPayments.NoServerErrorIffDisciplined | internal/app/api_keys.go:246-258 | every fault-free run is free of 500s under exactly that condition |
| PartnerPaymentsHandler.ReplayAnswersTheSame | internal/app/api_keys.go:170-219 | replaying an acknowledged create at once, keyed or not, gives the same payment and changes nothing |
| PartnerPaymentsHandler.ReplayAfterAnyRun | internal/app/api_keys.go:198-219 | after any interleaved run with any faults a replay whose look-ups work answers 200 and changes nothing, and names the same payment exactly when no other has taken its key |
| PartnerPaymentsHandler.DisciplinedReplayAnswersTheSame | internal/app/api_keys.go:198-219 | when equal keys carry equal references it always names the same payment |
| PartnerPaymentsHandler.AReplayCanNameAnother | internal/app/api_keys.go:198-219 | a run from the empty table after which a replay names another payment |
| PartnerPaymentsHandler.PaymentStore.ApiCreatePayment | internal/app/api_keys.go:173-270 | rejects exactly the invalid bodies untouched; otherwise replies and leaves the table as the protocol machine does alone |
| PartnerPaymentsHandler.PaymentStore.SetPaymentInitiationMeta | internal/store/store_api_keys.go:114-126 | the claim: refused without effect on either unique index, and the stored key falls back to the row's old reference |
| PartnerPaymentsHandler.ANewPaymentIsAsAsked | internal/app/api_keys.go:198-258 | with nothing failing and reference and key unused by the merchant, a create adds one payment of that merchant with that reference and key, and answers with it |
| PartnerPayments.AFailedCallIsAnError | internal/app/api_keys.go:198-258 | a failed look-up or draft is a 500 and leaves at most one blank draft; after a claim that fails or loses its acknowledgement the owner of the reference is re-read |
| PartnerApiBodies.PaymentBodyAcceptedIff | internal/app/api_keys.go:173-196 | exactly which payment bodies are accepted, and which complaint the others get first: a reference of 1 to 64 bytes, naira, 100 to 1 000 000 000 kobo, a reachable phone |
| PartnerInvoices.ReplyNamesTheHolder | internal/app/api_keys.go:536-588 | a 200 for a reference names the one invoice in the book holding it, and it is the asking merchant's |
| PartnerInvoices.HolderIsPermanent | internal/app/api_keys.go:536-588 | a held reference keeps its holder over every run |
| PartnerInvoices.ForeignReferenceIsRefused | internal/app/api_keys.go:537-541 | a reference another merchant holds is never served, and the request's own calls create nothing |
| PartnerInvoices.UnreferencedInvoicesDiffer | internal/app/api_keys.go:557-568 | two successful creates without a reference made two invoices |
| PartnerInvoices.ServedIffNotForeign | internal/app/api_keys.go:536-588 | without faults of its own a referenced create ends within four calls, with 200 exactly when no other merchant holds the reference |
| PartnerInvoicesHandler.InvoiceStore.ApiCreateInvoice | internal/app/api_keys.go:489-589 | validation in the code's order leaves the book alone; otherwise reply and book are the machine's |
| PartnerInvoicesHandler.SumItems | internal/app/api_keys.go:506-514 | the loop accepts exactly lists of good lines and returns their subtotal |
| PartnerInvoicesHandler.CanonicalTwice | internal/app/api_keys.go:524 | normalising a reference a second time, as the store does, changes nothing |
| PartnerInvoicesHandler.SubtotalPositive | internal/app/api_keys.go:506-514 | every accepted line adds at least one kobo |
| PartnerApiBodies.InvoiceBodyAcceptedIff | internal/app/api_keys.go:489-530 | exactly which invoice bodies are accepted, and which complaint the others get first; the total is the sum of quantity times price over the lines plus the delivery fee |
| PartnerApiBodies.AnInvoiceIsWhatWasAsked | internal/app/api_keys.go:536-588 | a create adds at most one invoice, of the asking merchant, for that total, under its reference in capitals or a minted one nobody holds; without a failure the reply names it |
| PartnerApiBodies.ACallAddsAtMostTheOrder | internal/store/store_invoices.go:73-128 | whatever call it is and however it fails, the book stays or gains just that row |
| PartnerApiBodies.RowsNeverChange | internal/store/store_invoices.go:73-128 | over every run no invoice, its total with it, ever changes |
| PartnerInvoices.AFailedCallIsAnError | internal/app/api_keys.go:536-588 | a failed look-up is a 500; a failed create is answered with the asker's own invoice of that reference, if the re-read finds one |
| SignedRequests.WriteCanonical | internal/app/api_keys.go:72-82 | the bytes fed to the MAC are method, path, timestamp and body separated by newlines |
| SignedRequests.ParsePrinted | internal/app/api_keys.go:72-82 | the message parses back to its four parts exactly when the first three hold no newline, for any body |
| SignedRequests.PrintParsed | internal/app/api_keys.go:72-82 | printing what a message parses to gives the message back |
| SignedRequests.NumbersHaveNoNewline | internal/app/api_keys.go:98-102 | a timestamp that parses holds no newline |
| SignedRequests.OneSignatureOneRequest | internal/app/api_keys.go:89-145 | under a collision-free MAC, two requests that pass with one key and signature are the same request |
| SignedRequests.PassesIff | internal/app/api_keys.go:89-145 | a request passes exactly with three headers, a timestamp within 300 seconds, an enabled and unrevoked key of an active merchant, a body of at most 1 MiB, the MAC of these bytes, and rate left |
| SignedRequests.RefusedWith | internal/app/api_keys.go:89-145 | which refusal is 401, 403, 400, 413 or 429 |
| SignedRequests.ParsesIff | internal/app/api_keys.go:98-102 | a timestamp is a sign or none and decimal digits within 64 bits |
| LedgerLaws.EveryRunIsLawful | internal/store/store_ledger.go:164-267 | over every run, operator reversals and spends included, debits equal credits overall and per reference, the rows under each reference are those the tables and its reversals call for, and both payable accounts and the wallet are sums over payments, batches and transfers |
| LedgerAccounts.EveryAccountAddsUp | internal/store/store_ledger.go:164-267 | after any run credits less debits of every account are a closed sum over payments, batches and transfers: of a customer's wallet, the refunds credited to it that stand and the transfers to it; likewise bank, customer float, platform, merchants, settlements, fees, business wallets and purses |
| LedgerAccounts.StandsUnder | internal/store/store_refunds.go:151-188 | in every lawful state what stands on every account under every journal reference: a refund debits the float and credits the payer's wallet, and so on |
| LedgerEvents.CollectionsAdvance | internal/store/store_split_payments.go:22-60 | exactly when a draft, a success and a split go through, and what each changes |
| LedgerEvents.ADirectRefund | internal/store/store_refunds.go:69-190 | exactly when a refund goes through; the payment leaves its line and the batch its amount |
| LedgerEvents.ARequestedRefund | internal/store/store_refunds.go:213-376 | exactly when a request and an approval go through, an approval only by another operator, and what each changes |
| LedgerEvents.ARefundIsRejected | internal/store/store_refunds.go:402-414 | only an open request is rejected, and only a rejected one can be asked for again |
| LedgerEvents.ACutTakesWhatIsDue | internal/store/store_settlements.go:238-342 | a cut under a fresh number takes exactly the merchant's paid, unlocked payments on no line, for the sum of their charges less a truncated fee; otherwise nothing changes |
| LedgerEvents.APayoutIsMadeAndClaimed | internal/store/store_settlements.go:440-520 | exactly when a payout is created and claimed, for what, and that a claim schedules the batch |
| LedgerEvents.AClaimEnds | internal/store/store_settlements.go:522-669 | exactly when a payout fails, is requeued, retried, completed or cancelled, and what becomes of its batch |
| LedgerEvents.RetriedIffClaimedFewerThanThreeTimes | internal/store/store_settlements.go:602-614 | over any run a failed payout is queued again by a retry if and only if the run claimed it fewer than three times |
| LedgerEvents.WalletsAreSpent | internal/store/store_bulk_payments.go:653-796 | a spend goes through when its amount was covered by what was read, and an expired purse gives back all it holds |
| LedgerEvents.AnOperatorReverses | internal/app/ledger.go:55-79 | a reversal goes through exactly for something posted and not reversed, and marks that row alone |
| BusinessWallets.SecureIffCovered | internal/store/store_settlements.go:440-563 | no sequence of payout moves overdraws the wallet if and only if its balance covers what the merchant's batches can still take |
| BusinessWallets.AlwaysSecureIffPrudent | internal/store/store_bulk_payments.go:688-715 | from an empty database that holds after every event if and only if each spend, and each reversal that takes money, leaves what the batches are owed |
| LedgerRuns.ASpendCanOverdraw | internal/store/store_settlements.go:522-563 | a run in which a spend covered by the balance takes what a queued payout then takes again, ending at -98 |
| LedgerRuns.TwoSpendsCanOverdraw | internal/store/store_bulk_payments.go:766-786 | a run in which two spends read one balance, ending at -98 |
| BusinessWallets.StepFrees | internal/store/store_programs.go:723-745 | every event leaves the free part of the wallet as it was or larger, but for what a spend or a reversal takes |
| LedgerLaws.RefundStopsIffStruck | internal/store/store_refunds.go:415-469 | over every run a succeeded payment's entries can be reversed for a refund if and only if no operator reversal of its reference went through |
| LedgerLaws.ReversibleIff | internal/store/store_ledger.go:204-267 | in every lawful state a reference can be reversed exactly when something was posted under it and it has not been reversed |
| LedgerLaws.ReversalMoves | internal/app/ledger.go:55-79 | what an operator's reversal of each kind of reference does to the merchant's payable figure and to the wallet |
| LedgerRuns.AReversalStopsTheRefund | internal/app/ledger.go:55-79 | a run in which it takes the figure from 99 to 0, leaves the payment succeeded, and the refund is refused |
| LedgerLaws.ReversalCancelsThePayment | internal/store/store_refunds.go:151-188 | once a payment's entries are reversed, by its refund or by an operator, they weigh nothing in any view, but for a split posted after it |
| LedgerLaws.RefundedOffLineIffNeverApprovedOnOne | internal/store/store_refunds.go:296-376 | no refunded payment is on a settlement line, over any run, if and only if no approval met one on a line |
| LedgerLaws.StepTracks | internal/store/store_settlements.go:238-342 | each event's postings move payables and wallet by what it moves the payment, batch and transfer sums by |
| LedgerLaws.PostingsBalanced | internal/store/store_refunds.go:415-469 | every event's postings, reversals included, balance under each reference, a cut's three kept apart |
| LedgerLaws.FlipWeighs | internal/store/store_ledger.go:204-267 | a reversal weighs the negative of what it reverses |
| AvailableBalance.ApiBalance | internal/app/api_keys.go:440-469 | for any row order the figure is credits less debits over 3100 and 3200, clamped at zero |
| AvailableBalance.AvailableAgainstPromise | internal/app/api_keys.go:436-469 | after any run the balance is the documented figure less what is short and more what is over; what is reported exceeds it exactly when more is over than short, and the exact condition for equality |
| AvailableBalance.NothingIsOverIff | internal/app/api_keys.go:436-469 | after any run with surcharges and fee rates in range nothing is over exactly when no payment is overstated and no cut has kobo left; then the figure never exceeds the documented one, and equals it exactly when nothing is short or promised |
| AvailableBalance.OverstatedByALateSplit | internal/store/store_split_payments.go:22-60 | the one event that makes a payment overstated is its split, posted after its entries were reversed |
| AvailableBalance.LeakIff | internal/app/ledger.go:55-79 | a cut has kobo left exactly when an operator reversed its fee or its wallet credit |
| LedgerRuns.ALateSplitOverstates | internal/service/payments.go:727-759 | a run of four events after which 99 kobo of a refunded payment are shown |
| LedgerRuns.AStruckCreditOverstates | internal/app/ledger.go:55-79 | a run after which 97 kobo of settled money are shown |
| AvailableBalance.ACutCostsItsCollectionFees | internal/store/store_settlements.go:257-318 | a cut widens the shortfall by exactly the collection fees of the payments it freezes, and by the whole of those an operator had reversed |
| LedgerRuns.ClampFiresAndHidesTheFee | internal/app/api_keys.go:455-463 | a run after which the raw balance is -1, and one more collection after which it is 98 where 99 is promised |
| LedgerRuns.ApprovalCanLeaveALine | internal/store/store_refunds.go:296-357 | a run that ends with a refunded payment in a settlement batch |
| AvailableBalance.ShortfallSign | internal/store/store_split_payments.go:22-60 | payment by payment the ledger is over the document exactly when the split's credit stands beyond what was settled on a reversed or settled payment, and level exactly when the payment is in step |
| CollectionFees.FeeGrowsWithinTheAmount | internal/service/fees.go:17-46 | the fee is between zero and the amount and grows with it |
| CollectionFees.SplitSharesTheCharge | internal/service/payments.go:1069-1083 | fee and receivable share out exactly the charge |
| CollectionFees.DraftPaysTheBase | internal/service/payments.go:216-236 | with its metadata intact a collection pays the merchant the full base |
| CollectionFees.OverwrittenDraftPaysAtMostTheBase | internal/store/store_api_keys.go:114-126 | with metadata replaced the merchant gets at most the base, and the base exactly when the charge's fee is the base's fee |
| CollectionFees.ApiMerchantIsShort | internal/config/config.go:583-585 | with the default card fee a base of 10 000 naira pays 9 994 |
| CollectionFees.CappedFeeIsNotTakenTwice | internal/service/fees.go:38-44 | once the cap is reached nothing is lost |
| CollectionFees.FeeIsTheLeast | internal/service/fees.go:17-46 | the fee is the least of percentage and fixed part, cap and amount |
| CollectionFees.SplitGoesByItsMetadata | internal/service/payments.go:1069-1083 | the split takes base and fee from the metadata exactly when these account for the whole charge |
| SecondFactorLaws.PreferredIsUsable | internal/app/mfa.go:167-197 | the preferred factor is a usable one of its subject, an authenticator or passkey before an emailed code |
| SecondFactorRequests.ABeginOpensOnTheBestFactor | internal/app/mfa.go:110-163 | in every well-formed world a begin that is served stores, under a new token, a row of its subject for ten minutes that enrols the drawn secret if and only if the subject has no usable factor; otherwise it names the oldest usable factor of the first kind that has one, and is blank only for an address the mail could not reach; and exactly when it is served |
| SecondFactorRequests.ChallengedIff | internal/app/auth.go:63-77 | a sign-in is challenged exactly when the flag is on or the look-up finds a usable factor |
| SecondFactorRequests.OnlyALiveStepIsServed | internal/app/mfa.go:372-411 | an unknown, expired or used-up token is refused whatever is asked, and no other is |
| SecondFactorRequests.ASwitchOpensOnTheOldest | internal/app/mfa.go:502-550 | a switch opens the step on the oldest usable factor of the kind asked for, keeping its time and attempts; exactly when it is unavailable |
| SecondFactorRequests.ThePickerBlanksTheStep | internal/app/mfa.go:502-550 | the picker leaves the step without a method where the table accepts that; text naming no kind changes nothing |
| SecondFactorRequests.AResendReplacesTheCode | internal/app/mfa.go:553-601 | a resend puts a fresh code into the same step if it can be mailed and stored, and otherwise changes nothing |
| SecondFactorRequests.ACodeIsRightOrCosts | internal/app/mfa.go:372-461 | the right code, and no other, completes the sign-in; a wrong one costs one of five attempts; one that cannot be checked changes nothing |
| SecondFactorRequests.APasskeyIsAcceptedOrCosts | internal/app/passkeys.go:266-320 | a response to a begun ceremony is accepted or costs an attempt; exactly when a ceremony begins |
| SecondFactorRequests.AnEnrolmentReplaces | internal/store/store_mfa.go:154-205 | an authenticator or address enrolled is the subject's only one of its kind, and no other factor changes |
| SecondFactorRequests.StepsGoWithTheirFactor | internal/store/store_mfa.go:231-246 | a deleted factor takes its open steps with it, and no others |
| SecondFactorLaws.EveryRowIsWellFormed | internal/app/mfa.go:110-163 | method, factor, secret and code of every reachable row agree, on every path and with factors changing meanwhile |
| SecondFactorLaws.ChooseKeeps | internal/app/mfa.go:502-550 | switching, failed or not, keeps rows well formed |
| SecondFactorLaws.SignInIsEarned | internal/app/mfa.go:372-461 | a session for a code uses up the live row, for its subject, and the code matched what the row held; an enrolment leaves exactly one authenticator with the secret checked |
| SecondFactorLaws.EachSessionUsesUpItsStep | internal/app/mfa.go:605-642 | sessions have distinct tokens and their rows are gone |
| SecondFactorLaws.SpentStaysSpent | internal/store/store_mfa.go:269-318 | a token whose row is gone never has one again and never signs in |
| SecondFactorLaws.BudgetIsFive | internal/app/auth.go:30 | no step counts more than five wrong codes, a live one fewer, and one at five never signs in again |
| SecondFactorLaws.FiveWhileFailuresAreRecorded | internal/app/auth.go:25-30 | over any run in which wrong codes can be recorded, one challenge checks at most five of them |
| SecondFactorLaws.OnlyWrongCodesSpend | internal/app/mfa.go:465-485 | attempts rise by one, only for a code checked and wrong or a passkey response not accepted |
| SecondFactorLaws.LostFailuresAreFree | internal/app/mfa.go:473-483 | with recording failing, any number of wrong codes leaves the step as it was |
| SecondFactorLaws.AnyNumberOfGuesses | internal/app/mfa.go:473-483 | a run from the empty database in which any number of wrong codes precede the right one, which signs in |
| SecondFactorLaws.NoBlankRow | internal/store/migrations/071_mfa_factors.sql:47 | under the shipped schema no row is ever blank |
| SecondFactorLaws.BeginStrandsWithoutTheBlankMethod | internal/app/mfa.go:139-148 | with only mail possibly down, the exact condition under which a sign-in gets a step |
| SecondFactorLaws.AMailOutageStrandsASignIn | internal/app/mfa.go:139-148 | a run from the empty database after which a mail outage leaves a sign-in without a step under the shipped schema |
| SecondFactorLaws.EnrolledIsChallengedIff | internal/app/auth.go:63-77 | the exact condition under which an enrolled account is challenged with the flag off |
| SecondFactorLaws.AnEnrolledSubjectIsNotChallenged | internal/app/auth.go:63-77 | a run from the empty database after which an enrolled account is not |
| SecondFactorHandler.StepStore.UsableFactors | internal/app/mfa.go:167-183 | the loop lists confirmed factors, oldest first, without emailed codes when there is no mailer |
| SecondFactorHandler.StepStore.PreferredFactor | internal/app/mfa.go:188-197 | the nested search returns the first factor of the first kind that has one |
| SecondFactorHandler.StepStore.BeginSecondFactor | internal/app/mfa.go:110-163 | store and reply after a begin, fallback included, are the machine's |
| SecondFactorHandler.StepStore.PrepareChallenge | internal/app/mfa.go:201-228 | only an emailed code needs readying; it succeeds only with an address, a mailer and a sent mail |
| SecondFactorHandler.StepStore.FailChallenge | internal/app/mfa.go:465-485 | a wrong code counts once and the fifth deletes the row; an error changes no row, or counts and loses the acknowledgement |
| SecondFactorHandler.StepStore.EnterCode | internal/app/mfa.go:372-411 | store and reply after a code are the machine's |
| SecondFactorHandler.StepStore.VerifySecondFactor | internal/app/mfa.go:418-461 | checks the step's own secret, its factor's, or the code hash, by method |
| SecondFactorHandler.StepStore.ChooseSecondFactor | internal/app/mfa.go:502-550 | store and reply after a switch are the machine's |
| SecondFactorHandler.StepStore.ResendSecondFactorCode | internal/app/mfa.go:553-601 | store and reply after a resend are the machine's |
| SecondFactorHandler.StepStore.CompleteSecondFactor | internal/app/mfa.go:605-642 | consume, enrol or touch, then sign in, in that order, stopping at the first failure |
| OneTimeCodes.RandomDigits | internal/app/mfa.go:241-251 | the loop's limit is 10^n and the code is n digits reading as the drawn value |
| OneTimeCodes.PrintThenParse | internal/app/mfa.go:241-251 | a value below 10^n prints as n digits and reads back |
| OneTimeCodes.ParseThenPrint | internal/app/mfa.go:241-251 | each n-digit string is the print of exactly one value below 10^n |
| LoginLimiter.LiveIsFailuresSince | internal/app/auth.go:336-364 | what is counted is every failure since the last success or observed expiry |
| LoginLimiter.LastLiveIsLatest | internal/app/auth.go:336-345 | on a running clock the last counted failure is the latest |
| LoginLimiter.OthersAreIrrelevant | internal/app/auth.go:336-364 | an address's count depends on its own events alone |
| LoginLimiter.Limiter.Fail | internal/app/auth.go:336-345 | the map keeps representing the history after a failure |
| LoginLimiter.Limiter.Success | internal/app/auth.go:347-351 | and after a success |
| LoginLimiter.Limiter.RetryAfter | internal/app/auth.go:353-364 | the wait is positive exactly when five failures are counted and the last is under fifteen minutes old, and is what is left of them |
| LoginLimiter.LockedForFifteenMinutes | internal/app/auth.go:353-364 | an address's failures are forgotten by a success, or by a check more than fifteen minutes after the last of five or more |
| WithdrawalLaws.EveryExitIsRight | internal/app/cli.go:114-190 | from empty tables, over any interleaving and faults, each exit has the debit, reservation and screening it should; a failed one is debited exactly when the debit's acknowledgement was lost, and keeps its reservation exactly when the release failed |
| WithdrawalLaws.CoveredIffNeverReleasedDebited | internal/app/cli.go:149-184 | from empty tables every debit has a live reservation if and only if no release goes through on a debited withdrawal |
| WithdrawalLaws.ADebitCanBeUncovered | internal/app/cli.go:180-184 | a run of five events that ends with money gone, the withdrawal failed and nothing reserved |
| WithdrawalLaws.CoveredWithoutLostAcks | internal/app/cli.go:149-184 | from empty tables failing releases, outages and refusals leave every debit covered |
| WithdrawalLaws.PeriodStaysWithinCeiling | internal/store/store_allowances.go:195-268 | in every Lagos day and month withdrawn ≤ live reservations ≤ the highest ceiling in force, when no reservation is checked in a later period than it is stamped in |
| AllowanceLaws.ReservedIffWithinCeilings | internal/store/store_allowances.go:179-268 | a positive amount of a subject not frozen is recorded exactly when it is within the single ceiling and, added to the live amounts stamped since the day and the month began, within the other two |
| AllowanceLaws.NothingIsReservedWhileFrozen | internal/store/store_allowances.go:218-234 | over every run no reservation is appended for a subject frozen at that moment |
| AllowanceLaws.FrozenUntilLifted | internal/store/store_allowances.go:124-149 | a subject is frozen exactly when the last word an operator said of it, over the run, was a freeze |
| AllowanceLaws.OtherReservationsFollowTheRule | internal/store/store_allowances.go:179-285 | a reservation of another kind is recorded under the same condition, and is released unless a withdrawal holds it |
| AllowanceLaws.AWithdrawalIsPaidIff | internal/app/cli.go:114-190 | with nothing failing, exactly when a withdrawal is refused, under review, failed or paid, and the one row and one debit it leaves |
| AllowanceLaws.AFailedCallStopsTheWithdrawal | internal/app/cli.go:149-184 | a failed reservation refuses, any later failure leads to the release, and the release to failed; what each leaves behind |
| AllowanceLaws.AnotherDebitIsPostedOnce | internal/store/store_wallets.go:206-250 | another debit is checked against the balance of an active wallet and posted once for its check |
| WithdrawalLaws.CeilingKeptIffChecksItsPeriod | internal/store/store_allowances.go:236-262 | for given clock readings a reservation keeps its period's ceiling whatever the tables if and only if it is not checked in a later period than it is stamped in |
| WithdrawalLaws.ADayCanExceedItsCeiling | internal/store/store_allowances.go:236-262 | a run across midnight that leaves a day at twice its ceiling |
| Calendar.PeriodsInOrder | internal/kyc/allowances.go:268-282 | an instant is not before the start of a day or month exactly when its own day or month is not earlier |
| Calendar.MonthHasItsInstants | internal/kyc/allowances.go:278-282 | two instants have one month start exactly when the second lies between it and the end of that month's 28 to 31 days |
| Calendar.DaysBeginAtLagosMidnight | internal/kyc/allowances.go:272-276 | a day begins at a multiple of 24 hours shifted by one hour, at most a day before the instant |
| Calendar.YearsHaveTheirDays | internal/kyc/allowances.go:278-282 | twelve months from a January span 365 days, or 366 in a leap year |
| WithdrawalLaws.MoneyIsConserved | internal/store/store_wallets.go:206-250 | from empty tables a balance plus what was withdrawn is what else came in and went out, reversals counted: no withdrawal is debited twice |
| UserWallets.NeverBelowZeroIff | internal/store/store_wallets.go:206-250 | over any run from empty tables a wallet never goes below zero if and only if every debit finds enough left of what its check read, and every reversed credit is still there |
| UserWallets.SerialisedOverdrawsOnlyByReversal | internal/store/store_wallets.go:206-250 | if nothing is taken between a check and its debit, only the reversal of a credit spent meanwhile overdraws |
| UserWallets.FlowIsTheChange | internal/store/store_payments.go:464-497 | between any two points of a run a balance changes by what the events brought and took, other debits included |
| UserWallets.AReversedTopUpOverdraws | internal/store/store_refunds.go:151-188 | a run of a top-up, a withdrawal of it and its refund, ending at -5 |
| UserWallets.TwoWithdrawalsCanOverdraw | internal/store/store_wallets.go:206-250 | a run in which two withdrawals are checked against one balance, ending at -5 |
| WithdrawalHandler.WithdrawalStore.WalletWithdraw | internal/app/cli.go:114-190 | the saga alone leaves the tables and answers as its job does, and for a frozen subject answers refused with the tables as they were |
| WithdrawalHandler.WithdrawalStore.ReserveAllowance | internal/store/store_allowances.go:179-268 | records the movement exactly when the subject is not frozen and it is within single, daily and monthly ceilings |
| WithdrawalHandler.WithdrawalStore.Validate | internal/kyc/allowances.go:234-248 | accepts exactly positive amounts within every ceiling that is set |
| WithdrawalHandler.WithdrawalStore.ScreenUserWithdrawal | internal/store/store_payment_screening.go:358-400 | a decision is returned only when it was recorded |
| WithdrawalHandler.WithdrawalStore.WithdrawFromUserWallet | internal/store/store_wallets.go:206-250 | tests the balance it sums, then posts the debit of an active wallet, and changes nothing else |
| Rescreen.StricterIsTheJoin | internal/service/adverse_media.go:14-54 | folding is the maximum on the scale, symmetric and associative |
| RescreenOutcomes.TheMoreSevereWins | internal/service/adverse_media.go:14-54 | of two verdicts in the order clear, possible, strong, blocked the later one is taken; words outside it give way |
| RescreenOutcomes.ACustomerAfterThePass | internal/app/cli.go:223-273 | decision, adverse-media row, tier and cases of one customer after a pass, for every combination of findings and failures |
| RescreenOutcomes.ABusinessAfterThePass | internal/app/cli.go:278-300 | decision, tier, freeze and counters of one business, likewise |
| Rescreen.FoldUnblocksIff | internal/service/adverse_media.go:29-54 | folding unblocks exactly an unknown sanctions verdict beside a clear one |
| Rescreen.LoweredIsTheMinimum | internal/kyc/kyc.go:377-388 | a downgrade is the minimum with L1 on the ladder |
| Rescreen.WeakerIffTheStricterRowFailed | internal/app/cli.go:321-351 | the decision recorded is weaker than a verdict obtained exactly when an unlisted customer's adverse-media verdict was the stricter and its row or case failed |
| Rescreen.RecordedIsNeverWeaker | internal/app/cli.go:235-256 | with every row recorded the decision is at least each verdict obtained, and blocked for a watchlisted identity |
| Rescreen.ABlockedVerdictCanBeLost | internal/app/cli.go:236-240 | an input on which a blocked verdict is lost and the customer recorded clear |
| Rescreen.UnrecordedIff | internal/store/store_kyc.go:620-692 | with a working store, exactly which screened customers go unrecorded |
| Rescreen.PassEnforcesTheStrictest | internal/app/cli.go:223-273 | a whole pass: every due customer screened with a working store is recorded at the strictest verdict, one stricter than clear takes the tier to L1 or lower and opens one case, all others keep theirs |
| Rescreen.OnceCaughtStaysLowered | internal/app/cli.go:256-273 | over any passes with any failures a customer once so screened stays at L1 or below with a case more |
| Rescreen.CustomerStore.ScreenAdverseMedia | internal/app/cli.go:321-351 | the lane's answer and row: a non-clear answer is heard only once its row and case are recorded |
| Rescreen.CustomerStore.RescreenCustomers | internal/app/cli.go:223-273 | each due customer ends as their findings say, nobody else changes, and blocked ≤ screened ≤ due |
| Rescreen.CustomerStore.RecordScreeningResult | internal/store/store_kyc.go:620-707 | writes the authoritative decision, and reports an error after the commit when the case cannot be opened |
| Rescreen.BlockedBusinessesAreAtB0 | internal/app/cli.go:287-299 | without failures a blocked business is at B0, frozen if it was above it, and no other changes |
| Rescreen.BusinessStore.RescreenBusinesses | internal/app/cli.go:278-300 | the business loop does this to each due business alone and counts |
| HeldPayoutLaws.SentUnclearedIff | internal/service/settlement.go:186-325 | over any interleaving and faults a claim sends a payout that is not cleared exactly when nothing vetted it since it was created, retried, requeued, or queued by a pass against its row |
| HeldPayoutLaws.ClearedForGood | internal/store/store_payment_screening.go:71-100 | once a row says cleared no later claim is uncleared |
| HeldPayoutLaws.HoldsLeaveOnlyOnAVerdict | internal/store/store_payment_screening.go:303-357 | over any interleaving and faults a hold is left for the queue only after a clear screen or an approval, for failed only after a blocking screen, for reversed only after a rejection |
| HeldPayoutLaws.LeavesAgainstTheRowIff | internal/store/store_payment_screening.go:494-537 | a pass or approval moves the payout against its row exactly when, between that pass's refresh and its decision, another pass or an approval closed the row the other way |
| HeldPayoutLaws.StrandedIff | internal/store/store_payment_screening.go:303-357 | a payout is held without an open row exactly when a call left it so and none has freed it since |
| HeldPayoutLaws.StrandedUntilRejected | internal/store/store_payment_screening.go:415-446 | with its row closed and no verdict on its way, exactly a rejection frees it |
| HeldPayoutLaws.LeftScheduledIff | internal/store/store_payment_screening.go:343-356 | a batch is scheduled with its payout reversed exactly when a rejection reversed it and no reopening has gone through since |
| HeldPayoutLaws.LeftReservedIff | internal/store/store_payment_screening.go:343-356 | the same for the reservation, which a request under way may also make anew |
| HeldPayoutLaws.ReservedIff | internal/service/settlement.go:186-228 | over any interleaving and faults a payout is reserved exactly when a request has reserved it and no rejection or cancellation released it since |
| HeldPayoutLaws.ARejectionIsNotRepeated | internal/store/store_payment_screening.go:310-317 | when no rejection is under way a reversed payout, its batch's status and a reservation left on it stay as they are |
| HeldPayoutLaws.SentAndReversedIff | internal/store/store_settlements.go:616-657 | a payout the bank paid ends reversed exactly when a rejection or cancellation came after the payment, or before a payment already claimed |
| HeldPayoutLaws.FailsIffTheBankRefused | internal/service/settlement.go:265-309 | over any interleaving and faults a pending settlement changes nothing, and a payout in processing becomes failed exactly by a process whose last call was to a bank that declined or did not answer |
| HeldPayoutLaws.CompletedWasPaid | internal/store/store_settlements.go:522-587 | a completed payout, like a processed batch, was paid by the bank, and only the bank pays |
| HeldPayoutRequests.ARequestIsGated | internal/store/store_payment_screening.go:228-292 | what a request alone leaves for every decision on record or answered, with the bank's three outcomes |
| HeldPayoutRequests.DispatchedAlone | internal/service/settlement.go:265-309 | a queued payout is paid, failed, or left in processing as the bank answers; any other stays as it is |
| HeldPayoutRequests.APassFollowsItsScreen | internal/store/store_payment_screening.go:484-541 | clear queues a held payout, blocked fails it, anything else only records the list version |
| HeldPayoutRequests.ADispositionIsCarriedOut | internal/store/store_payment_screening.go:310-357 | what an approval and a rejection leave, and that neither touches a payout that is not held |
| HeldPayoutRequests.StartsIff | internal/store/store_payment_screening.go:415-446 | when each caller may start at all |
| HeldPayoutRequests.OperatorsAct | internal/store/store_settlements.go:602-669 | when a retry, a cancellation and a requeue act, and what they change |
| HeldPayoutRequests.RetriedIffClaimedFewerThanThreeTimes | internal/store/store_settlements.go:602-614 | over any interleaving and faults a failed payout is queued again by a retry if and only if fewer than three claims of it went through |
| HeldPayoutRequests.AFailedCallEndsItsCaller | internal/service/settlement.go:265-309 | what a failed call or a lost acknowledgement leaves, and that either ends its caller but for the bank's silence and a refusal that cannot be recorded |
| HeldPayoutRuns.AVerdictCanCrossAnApproval | internal/store/store_payment_screening.go:523-536 | a run in which a blocking pass and an approval cross: failed, with a row that says manually cleared |
| HeldPayoutRuns.ThenItIsSent | internal/store/store_payment_screening.go:264-267 | retried, it passes the gate on that row and is paid |
| HeldPayoutRuns.AnInterdictedPayoutIsSent | internal/store/store_settlements.go:602-614 | a run in which a payout blocked by screening is retried and paid by the worker |
| HeldPayoutRuns.ARefusedRequestIsSent | internal/service/settlement.go:186-228 | a run in which the payout of a request refused at a limit is paid, neither reserved nor screened |
| HeldPayoutRuns.AClearedPayoutCanBeStranded | internal/store/store_payment_screening.go:506-520 | a run in which neither the next pass nor an approval moves a cleared payout |
| HeldPayoutRuns.AnOutageCanStrandAClearPayout | internal/store/store_payment_screening.go:237-240 | a run in which a payout held for an outage is screened as clear and stays held |
| HeldPayoutRuns.ABatchCanStayScheduled | internal/store/store_payment_screening.go:352-355 | a run after whose rejection the batch is scheduled for good |
| HeldPayoutRuns.APaidPayoutCanBeReversed | internal/store/store_payment_screening.go:343-347 | a run in which a payout the bank paid is reversed and its batch reopened |
| HeldPayoutHandler.HoldStore.RequestPayout | internal/service/settlement.go:186-262 | reserve, gate, dispatch: the movement and answer are those of the machine's request alone |
| HeldPayoutHandler.HoldStore.ScreenPayout | internal/store/store_payment_screening.go:228-292 | the decision on record or a fresh one recorded first; passes only with a row that says cleared, and otherwise leaves what the machine's gate does |
| HeldPayoutHandler.HoldStore.Dispatch | internal/service/settlement.go:265-309 | claim, bank, outcome, with each failure |
| HeldPayoutHandler.HoldStore.ReleaseHeldPayout | internal/store/store_payment_screening.go:302-357 | a reviewer's disposition: its refusals, the two calls of an approval, the three of a rejection, and each failure |
| HeldPayoutHandler.AloneIsARun | internal/store/store_payment_screening.go:484-541 | a call by itself is the machine's run with one process |
| HeldPayoutHandler.VerdictsPartition | internal/app/cli.go:402-415 | each listed movement has exactly one outcome |
| HeldPayoutHandler.HoldStore.ReevaluateMovement | internal/store/store_payment_screening.go:484-541 | one movement's calls in order, each of which may fail |
| HeldPayoutHandler.HoldStore.ReevaluateStaleHeldMovements | internal/app/cli.go:359-419 | each movement by itself, the rest untouched, and counters that account for all re-screened |
| HeldPayoutHandler.DispositionMissesItsBatch | internal/app/admin_payment_screening.go:79-99 | the number the disposition route looks up is the held payout's batch number with its destination appended, and so never that number |
| RecordsImport.NormalizeRecordHeader | internal/app/bulk_records_import.go:79-88 | keeps the lower-cased letters and digits, in order |
| RecordsImport.RecordHeaderRow | internal/app/bulk_records_import.go:141-165 | a header needs a phone column; the index is leftmost per field, in range and injective |
| RecordsImport.RowHasRecordData | internal/app/bulk_records_import.go:236-246 | some recognised column but the row number holds something, in any map order |
| RecordsImport.LegacyPhoneName | internal/app/bulk_records_import.go:184-200 | the first phone-like cell and the first that is neither phone nor serial |
| RecordsImport.StoreBRI | internal/app/bulk_records_import.go:284-311 | each field is its mapped cell, absent fields blank, the file's own source file winning |
| RecordsImport.ParseRecordsFile | internal/app/bulk_records_import.go:94-137 | one record per kept row and one line per complaint, in file order |
| RecordsImport.EveryDataRowIsAccountedFor | internal/app/bulk_records_import.go:116-137 | records plus problem lines are the data rows; each position once, in order, phones non-blank |
| RecordsImport.HeaderedDataIsRecordData | internal/app/bulk_records_import.go:118-128 | with a header the blank-row test adds nothing |
| RecordsImport.ColumnOrderIsIrrelevant | internal/app/bulk_records_import.go:94-165 | rearranging or repeating columns and adding unrecognised ones changes neither records nor problem lines |
| RecordFields.AliasIff | internal/app/bulk_records_import.go:40-76 | which header words name which field, all of them |
| RecordFields.FieldsAreReadUnderTheirWords | internal/app/bulk_records_import.go:284-311 | each field of a record is the cell under the leftmost column headed with one of its own words |
| RecordFields.WithoutAHeader | internal/app/bulk_records_import.go:184-200 | without a header a record is the first phone-like cell and the first that is neither that nor a serial number |
| RecordFields.ARowIsSkippedOrKept | internal/app/bulk_records_import.go:116-137 | exactly which rows are skipped, complained about and kept |
| RecordFields.ComplaintsNameTheRow | internal/app/bulk_records_import.go:170-175 | a complaint names the row by its own number, or else by its position |
| RecordFields.HeaderCharsFold | internal/app/bulk_records_import.go:79-88 | which characters of a header count, one by one |
| RecipientImport.LooksLikePhone | internal/app/bulk_payments.go:466-478 | at least seven digits and only phone characters |
| RecipientImport.SevenDigitsMakeAPhone | internal/app/bulk_payments.go:466-478 | seven digits and only the five other characters allowed, and exactly those |
| RecipientImport.ARowGivesItsLeftmostPhone | internal/app/bulk_payments.go:394-464 | the phone is the leftmost one and the name the second cell unless that is it; exactly which rows are not accepted |
| RecipientImport.RecipientFromCells | internal/app/bulk_payments.go:394-464 | one row read in either mode |
| RecipientImport.PhonesLookLikePhones | internal/app/bulk_payments.go:394-464 | every phone returned is phone-like and trimmed |
| RecipientImport.ModesDifferIff | internal/app/bulk_payments.go:399-464 | exactly the rows the two modes read differently |
| RecipientImport.ParseRecipientCSV | internal/app/bulk_payments.go:352-369 | the loop treats rows as first until one is accepted |
| RecipientImport.ParseRecipientXLSX | internal/app/bulk_payments.go:371-392 | the loop treats the sheet's first row as first |
| RecipientImport.ParsersAgreeIff | internal/app/bulk_payments.go:352-392 | the parsers find the same recipients in the same rows exactly when the rows up to the CSV parser's first acceptance read alike |
| RecipientImport.ParsersAgreeOnPlainRows | internal/app/bulk_payments.go:352-392 | they return one list when later rows have a first cell and no header words |
| RecipientImport.ParsersDiffer | internal/app/bulk_payments.go:352-392 | a table of two rows they read differently |
| TokenSpend.WeeklySpend | internal/app/admin.go:39-48 | the loop sums the week and prices it once |
| TokenSpend.WeekMinusDays | internal/app/admin_media_report.go:105-110 | the week exceeds the days' labels by zero to one less than the days with tokens |
| TokenSpend.GapIsRemainders | internal/app/admin_media_report.go:105-110 | the gap is exactly the daily remainders in whole kobo |
| TokenSpend.GapIsTight | internal/app/admin_media_report.go:105-110 | the bound is reached for every number of days |
| TokenSpend.Peak | internal/app/admin_media_report.go:54-59 | the loop finds the largest count |
| TokenSpend.BarsKeepOrder | internal/app/admin_media_report.go:74-88 | bars stay in the plot, keep the order of the counts and vanish only without tokens |
| TokenSpend.PricedInWholeKobo | internal/app/admin_media_report.go:105-110 | a price is the whole kobo of the tokens at the configured rate, and none without a rate |
| TokenSpend.BarsAreInProportion | internal/app/admin_media_report.go:74-88 | the busiest day fills 82 units, others are in proportion or one unit, and four fifths of it is a spike |

## Left out

- HTTP plumbing, templates, CSRF, cookies, logging, audit rows, events and webhooks.
- PartnerInvoicesHandler.CanonicalTwice: references are folded as ASCII only, where the code upper-cases Unicode letters.
- TokenSpend.BarsKeepOrder: bar heights are exact fractions, where the code computes them as 64-bit floats.
- SecondFactorHandler.StepStore.FailChallenge: recording a wrong code may fail before or after it took effect; any other store call of a sign-in request that fails has had no effect.
- Retention purges, which delete payments and with them their references.
- Cryptography: MACs, hashes, ciphers and passkey ceremonies are abstract, and a code is compared as itself.
- Integer overflow: amounts are unbounded integers, where the code sums 64-bit ones.
- CreateCollectionDraft's money-in allowance, and its reservation that a losing draft keeps.
- Payments funded by a wallet or a purse, wallet top-ups, invoice and thrift allocations: the ledger model has gateway collections.
- AvailableBalance.NothingIsOverIff: assumes fee rates of 0 to 100% and no negative surcharge, as the configuration has them; AvailableAgainstPromise does not.
- A beneficiary's spending of a programme purse: the model's purse returns all that was put into it.
- BusinessWallets.AlwaysSecureIffPrudent: the balance a spend's check read is any number at least the amount, so the model has more runs than the code.
- Reservations of allowance for payouts, and freezes of wallets, in the ledger model.
- LedgerEvents.ARefundIsRejected: failing an approved refund that was not yet completed with the provider only marks it, as its payment is refunded already.
- SignedRequests.PassesIff: the look-up of the merchant after all checks passed, which can only answer 500, and the touch of the key.
- The held status of payouts in the ledger model; HeldPayouts has it.
- Ledger.Reverse: the test that a reference was not reversed and the offsetting rows are one step, so two operators reversing one reference at the same time are outside the model.
- UserWallets.NeverBelowZeroIff: the row lock that wallet cash-outs take against each other is not in the model, which has more interleavings than the code.
- HeldPayouts: a payout's requests name its own destination; the next payout of a batch after a reversal is not followed; the limits tested before the reservation refuse as the reservation does; what the screener and the bank would answer is fixed when a process starts; a claim may count as stale at any time.
- Hash chaining of ledger rows and the settlement accounts a payout goes to.
- PartnerPayments.KeylessRequestSucceeds: the user lookup and e-mail update before the draft are one call.
- Interleaving inside one sign-in request: each request is one step, as are the statements of one store transaction.
- The security page's own enrolment steps and step-up challenges, which live in the same table.
- WithdrawalHandler.WithdrawalStore.WalletWithdraw: the user and profile lookups before the reservation are one flag.
- Rescreen: risk recomputation; of the adverse-media case only whether opening it failed.
- Advancement of a customer's tier between passes: Rescreen.OnceCaughtStaysLowered is about passes alone.
- RecipientImport.RecipientFromCells: header words are folded as ASCII only.
- CSV and workbook decoding; files start as rows of strings.
- The SVG text of the trend chart and the formatting of naira amounts.
