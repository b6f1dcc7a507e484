# A verified model of the subscription billing backend

The project models, in Dafny 4.11, the parts of a multi-tenant subscription
billing system where state survives many independent requests: refresh-token
families, invoices and payments, the subscription lifecycle with everyone who
writes it, dunning, bulk operations, plan changes, revenue recognition, the
request limiter and the browser client's refresh mutex. `dafny verify
dfyconfig.toml` checks all of it.

Money is held in whole cents and tables are maps from ids to rows. A service
that updates rows, Redis keys or module variables is a class whose methods do so
step by step. Each method is proved equal to a specification function on the
state (`DoRefresh`, `Generate`, `DoRecord`, `Processed`, ...). Runs of those
functions, over any list of requests in any order, carry the theorems. A request
that raises changes nothing in the database.

| file | content |
|---|---|
| `Rounding.dfy` | half-up rounding in cents, and why it equals rounding in a 28-digit decimal context first |
| `TokenFamily.dfy` | the Redis sets and the rotation service; the same protocol interleaved at single Redis commands |
| `Sessions.dfy` | login, refresh, logout and revocation over the session table and Redis together |
| `SessionRaces.dfy` | one family over both stores with every command, read and commit interleaved |
| `InvoiceBuilding.dfy` | the invoice builder: lines, discount, tax, total |
| `Ledger.dfy` | the life of invoices and payments, and the payment summary |
| `PaymentRaces.dfy` | payments and cancellations of one invoice with their reads and writes interleaved |
| `DiscountRaces.dfy`, `ActivationRaces.dfy` | the uses of one discount and the activations of one subscription, interleaved |
| `Subscriptions.dfy` | the status field of a subscription and all its writers |
| `Dunning.dfy` | the escalation of unpaid invoices, for every order in which rows come back |
| `Bulk.dfy` | bulk validation and batched execution |
| `PlanChange.dfy` | pro-rata arithmetic, upgrades, scheduled downgrades |
| `Calendar.dfy`, `Revenue.dfy` | month stepping, period strings, ratable recognition, the timeline |
| `RateLimit.dfy` | the request counter over time |
| `SingleFlight.dfy` | the client's single-flight refresh |
| `Sums.dfy`, `BillingTables.dfy`, `Wrappers.dfy` | shared sums, tables and result types |

## Where the code and its descriptions differ

The model follows the code. These places are stated as theorems:

- Detected token reuse announces that all sessions are revoked, but the exception
  rolls the revocation back; only the Redis family is gone
  (`Sessions.ReuseStrandsTheRow`).
- Deleting a family does not end it while a refresh is between its two Redis
  commands (`FamilyInterleaving.RevocationIsFinalIff`), and the session row is then
  revoked while Redis accepts the token (`SessionRaces.LogoutLeavesToken`).
- A refresh token is a function of user, family and second, so a refresh in the
  second of issue mints the token it consumes
  (`FamilyInterleaving.ConsumedOnceIff`).
- The limiter calls itself a sliding window; it is a fixed one
  (`RateLimit.SlidingIff`).
- The cancellation is described as permanent; a suspension executed after it
  reopens the subscription, and the due rows come back in no order
  (`Dunning.ClosedForEveryOrderIff`, `Subscriptions.ClosedMovesIff`).
- The state machine has no entry for paused subscriptions
  (`Subscriptions.PausedMovesIff`).
- The builder bills the first page of 100 lines only, the factory all of them
  (`InvoiceBuilding.BuilderBillsAllLinesIff`).
- Any status may be patched onto a draft or confirmed invoice
  (`Ledger.UpdateIsGoodIff`).
- A payment is recorded over whatever was stored since the invoice was loaded
  (`PaymentRaces.PaidAgreesIff`).

Beyond these, the ratable strategy's description speaks of subscription dates, while
the code, and so the model, always takes twelve months from the due date.

## Model

| member | source | states |
|---|---|---|
| Rounding.HalfUp | app/services/subscriptions/pro_rata.py:55-60 | the result is within half a cent of the exact quotient, a tie going away from zero on either side of zero |
| Rounding.ContextDivisionIsFaithful | app/services/subscriptions/pro_rata.py:55-60 | for every price below 10^8 units, zero included, and every positive divisor: the 28-digit quotient of the decimal context exists, it keeps at least 20 decimals unless the price is zero, and rounding it to cents equals rounding the exact quotient once |
| Rounding.DoubleRoundingOnGrid | app/services/revenue/strategies.py:62-64 | rounding half-even to any even grid finer than the divisor and then half-up is rounding half-up once |
| TokenFamily.Redis.Sadd | app/core/redis.py:31-39 | adds the value to the key's set, creating it, and reports 1 exactly for a new value |
| TokenFamily.Redis.Srem | app/core/redis.py:41-49 | removes the value and reports 1 exactly when it was a member; otherwise nothing changes |
| TokenFamily.Redis.Delete | app/core/redis.py:54-63 | drops the key and reports whether it was there |
| TokenFamily.TokenFamilyService.Register | app/services/token_family.py:23-34 | the token's hash joins its family |
| TokenFamily.TokenFamilyService.ValidateAndRotate | app/services/token_family.py:36-62 | true exactly for a member; then the old hash is replaced by the new one, otherwise the whole family is dropped |
| TokenFamily.TokenFamilyService.RevokeFamily | app/services/token_family.py:64-68 | the family is dropped and no other |
| FamilyInterleaving.AtMostOneLiveToken | app/services/token_family.py:30-68 | in every interleaving of refreshes, revocations and key expiry at single Redis commands, members plus rotations between removal and addition number at most one, and the member is the newest token |
| FamilyInterleaving.RotationsFormOneChain | app/services/token_family.py:49-62 | every successful rotation consumes the token that the previous one issued, the first one the login's, with no assumption on new tokens |
| FamilyInterleaving.ConsumedOnceIff | app/services/auth.py:139-152 | in every interleaving no token is consumed twice if and only if every successful rotation but the last mints in a strictly later second than the token it consumes was issued; refreshes that never rotate play no part |
| FamilyInterleaving.SameSecondTokenIsConsumedTwice | app/core/security.py:57-71 | the condition does fail: tokens carry seconds only, and a run exists in which one is consumed twice |
| FamilyInterleaving.RevocationIsFinalIff | app/services/token_family.py:64-68 | from any state no later run rotates a token exactly when the family is empty and no request is about to add a token |
| FamilyInterleaving.RotationOutlivesRevocation | app/services/token_family.py:53-68 | a run exists in which a revocation completes and a token of the family is accepted afterwards |
| FamilyInterleaving.UninterruptedRefresh | app/services/token_family.py:36-62 | commands run back to back make of the family what the sequential service makes of it |
| FamilyInterleaving.UninterruptedRevocation | app/services/token_family.py:64-68 | a revocation run by itself leaves the family empty, whatever it held |
| Sessions.AuthService.Login | app/services/auth.py:64-119 | a refused login changes nothing; an accepted one adds one unrevoked row and one Redis hash for the same new token; the login without password of lines 295-331 is the case of a correct one |
| Sessions.AuthService.Refresh | app/services/auth.py:122-174 | the whole new state and answer, with the Redis rotation kept and the table rolled back on each of the four error paths |
| Sessions.AuthService.RotateSession | app/services/auth.py:392-412 | fails exactly when several unrevoked rows of the family hold the old hash; otherwise exactly the row that holds it gets the new hash and expiry |
| Sessions.AuthService.RevokeFamilySessions | app/services/auth.py:414-426 | exactly the unrevoked rows of the family become revoked |
| Sessions.AuthService.Logout | app/services/auth.py:284-292 | drops the family and revokes its rows; an undecodable token changes nothing and is no error |
| Sessions.AuthService.RevokeSession | app/services/portal.py:173-191 | succeeds exactly for the caller's own unrevoked session, and then revokes that row and drops its family |
| Sessions.AuthService.RevokeAll | app/services/portal.py:193-219 | exactly the caller's unrevoked rows outside the kept family are revoked, their families dropped, and counted |
| Sessions.RedisAgreesWithSessions | app/services/auth.py:98-155 | over every run of logins, refreshes, logouts, revocations, key expiry and user deletion: each hash Redis accepts is held by exactly one unrevoked row of its family all along the run if and only if no refresh of it rotates a deleted user's token in a later second |
| Sessions.RefreshAgreesIff | app/services/auth.py:139-160 | an accepted rotation keeps that agreement exactly when the user exists or the new token equals the old one |
| Sessions.RetiredForever | app/services/auth.py:139-152 | once Redis has lost an issued family, no later refresh of it succeeds, after any run and for any user, deleted ones included |
| Sessions.RevocationRetires | app/services/portal.py:173-219 | logout, either portal revocation and detected reuse all bring a family into that state |
| Sessions.ReuseStrandsTheRow | app/dependencies/db.py:50-63 | after detected reuse the session table is as before, rollback included, and its unrevoked row can never be refreshed again |
| Sessions.AnsweredTokenIsAccepted | app/services/auth.py:98-174 | in every reachable state the token that a login or refresh answers names the user, the family and the second of the call, is the only one its family accepts, is held by an unrevoked row with seven days to live, and a refresh that presents it next succeeds and answers the token of its own second |
| Sessions.LoginAnswersIff | app/services/auth.py:71-84 | a login is let in exactly for a known user with the right password who is not suspended; only the suspended are told so, and nobody turned away changes anything |
| Sessions.RefreshAnswersIff | app/services/auth.py:128-160 | a refresh is answered exactly for a decodable token that its family accepts, of an existing user; otherwise the table is unchanged |
| Sessions.TwoRowsCrash | app/services/auth.py:399-406 | two rows holding the presented token raise, after Redis has rotated; reachable states have none |
| Sessions.RevocationEffect | app/services/portal.py:173-219 | for logout and both portal revocations: exactly the rows of the family, the session or the caller (but for the kept family) are revoked, no row changes otherwise, and Redis loses exactly the families of the unrevoked ones among them, or the one logged out |
| SessionRaces.QuietAgreesIff | app/services/auth.py:139-155 | with every Redis command, row read and commit of one family interleaved, for any refreshes that renew their tokens: when all requests have ended the stores agree if and only if Redis accepts nothing, or no revocation has committed and every rotation that changed the token found the row when it read it |
| SessionRaces.InTurnAgreesIff | app/services/auth.py:392-426 | if moreover no token is consumed before the refresh that issued it has committed, revocation alone decides: they agree if and only if Redis accepts nothing or no revocation has committed |
| SessionRaces.AfterRevocationAgreesIff | app/services/portal.py:173-219 | once a revocation has committed at any point of the run, the stores agree in the end if and only if Redis accepts nothing |
| SessionRaces.LogoutLeavesToken | app/services/auth.py:284-290 | a run exists that ends with the row revoked by a logout and the new token of a refresh accepted by Redis |
| SessionRaces.EarlyRefreshIsLost | app/services/auth.py:392-412 | a run of two refreshes exists that ends with the unrevoked row one token behind Redis |
| SessionRaces.UninterruptedRefresh | app/services/auth.py:139-155 | a refresh run by itself takes both stores to the new token |
| SessionRaces.RefusedRefresh | app/services/token_family.py:53-57 | a token that is not accepted costs the family all it accepts and changes nothing else |
| SessionRaces.UninterruptedLogout | app/services/auth.py:284-292 | a logout run by itself leaves nothing accepted and the row revoked |
| SessionRaces.UninterruptedPortalRevocation | app/services/portal.py:173-191 | so does a portal revocation, unless the row is revoked already |
| InvoiceBuilding.InvoiceBuilder.AddLines | app/services/billing/invoice_builder.py:75-102 | the first 100 lines are taken and the subtotal grows by the sum of their totals |
| InvoiceBuilding.InvoiceBuilder.ApplyDiscount | app/services/billing/invoice_builder.py:104-144 | all seven outcomes: not asked for, unknown, exhausted (error), not started, undated (crash), expired or too small, applied and counted once |
| InvoiceBuilding.InvoiceBuilder.ApplyTax | app/services/billing/invoice_builder.py:146-166 | the tax grows by each line's tax, rounded line by line; lines without a known tax add none |
| InvoiceBuilding.InvoiceBuilder.Build | app/services/billing/invoice_builder.py:168-211 | adds one numbered draft due in 30 days with total = subtotal - discount + tax and nothing paid |
| InvoiceBuilding.GenerateFromSubscription | app/services/billing/invoice_service.py:49-67 | the four steps as one transaction: either the invoice and the discount's counter are both written or neither |
| InvoiceBuilding.FactoryTotal | app/services/subscriptions/invoice_factory.py:63-76 | the sum over all lines, without a page limit |
| InvoiceBuilding.GeneratedAmounts | app/services/billing/invoice_builder.py:89-197 | every generated invoice is an unpaid draft for the customer, due in 30 days, over the first 100 lines; its discount takes off the percentage to the nearest cent, or the fixed amount as far as the subtotal goes, and nothing without a discount; discount and tax lie between 0 and the subtotal, the tax within half a cent a line of the unrounded one, the total between the tax and twice the subtotal |
| InvoiceBuilding.GeneratedDiscountIff | app/services/billing/invoice_builder.py:104-144 | the invoice carries the discount, and its counter rises by one, exactly when it exists, is not exhausted, runs today and the subtotal reaches its minimum; generation fails exactly on an exhausted one, one without an end that has started, or a repeated key |
| InvoiceBuilding.SubtotalIsExact | app/services/billing/invoice_builder.py:89-100 | the subtotal is additive in the lines and one line costs its quantity times its price |
| InvoiceBuilding.TaxIsExact | app/services/billing/invoice_builder.py:150-164 | the tax is additive in the lines; one line is taxed by the first tax it lists, to the nearest cent, and not at all when that is unknown |
| InvoiceBuilding.TaxBounds | app/services/billing/invoice_builder.py:150-164 | the same tax bounds for any list of lines |
| InvoiceBuilding.DiscountBounds | app/services/billing/discount_strategies.py:39-52 | a fixed discount or one of at most 100 percent lies between 0 and the subtotal |
| InvoiceBuilding.BuilderBillsAllLinesIff | app/repositories/base.py:51-63 | the builder bills the full sum exactly when there are at most 100 lines |
| Ledger.InvoiceService.Confirm | app/services/billing/invoice_service.py:147-154 | only a draft becomes confirmed; anything else is refused and unchanged |
| Ledger.InvoiceService.Cancel | app/services/billing/invoice_service.py:156-169 | an invoice with nothing paid and not paid becomes cancelled; any other is refused and unchanged |
| Ledger.InvoiceService.UpdateInvoice | app/services/billing/invoice_service.py:181-192 | a draft or confirmed invoice takes the due date and the status that the request names, whichever status that is, and nothing else changes; any other invoice is refused |
| Ledger.PaymentService.RecordPayment | app/services/billing/payment_service.py:46-66 | accepted exactly for a positive amount up to the balance of an invoice that is neither draft, paid nor cancelled; then one payment is added and the invoice's paid amount and status follow |
| Ledger.PaymentService.PortalPay | app/services/billing/payment_service.py:70-109 | the owner pays exactly the balance of a confirmed or overdue invoice |
| Ledger.PaymentService.CapturePayPal | app/services/billing/paypal_service.py:156-180 | records the captured amount whatever the status and the balance |
| Ledger.PaymentService.UpdateInvoicePaid | app/services/billing/payment_service.py:163-175 | adds the amount and marks the invoice paid once the total is reached |
| Ledger.PaymentSummary | app/routers/company.py:456-483 | received is the sum of all payments; outstanding and overdue are the balances of the confirmed and the overdue invoices |
| Ledger.InvoicesStayGood | app/services/billing/payment_service.py:81-108 | after every run of generation, factory bills, confirm, overdue, cancel, updates, payments and captures whose captures and status updates fit: paid is the sum of the invoice's payments and at most the total, drafts and cancelled have nothing paid, paid means fully paid, an unpaid one with a payment is strictly underpaid |
| Ledger.PaidAmountsAgree | app/services/billing/paypal_service.py:162-180 | with captures of any amount the paid amount is still the sum of payments, for each invoice and over the whole table |
| Ledger.BilledIsConserved | app/routers/company.py:456-481 | over every such run the totals of all confirmed, overdue and paid invoices equal received + outstanding + overdue as the summary computes them |
| Ledger.PlainRunsConserve | app/services/billing/payment_service.py:46-109 | both hold of every run without captures and status updates |
| Ledger.RecordIff | app/services/billing/payment_service.py:46-66 | a manual payment is admitted exactly for a positive amount up to the balance of a confirmed or overdue invoice; one payment is added for its customer, and the invoice is paid exactly when that was the whole balance |
| Ledger.PortalPayIff | app/services/billing/payment_service.py:70-109 | the portal is admitted exactly for the owner's confirmed or overdue invoice; one payment of what was left is added, and the invoice is then paid in full |
| Ledger.CaptureIff | app/services/billing/paypal_service.py:156-180 | a capture is admitted for any existing invoice of the named caller and is added to what was paid, whatever the status |
| Ledger.ConfirmIff | app/services/billing/invoice_service.py:147-154 | confirming takes exactly a draft, to confirmed, and changes nothing else |
| Ledger.CancelIff | app/services/billing/invoice_service.py:156-169 | cancelling takes exactly an invoice with nothing paid that is not paid, to cancelled |
| Ledger.UpdateIff | app/services/billing/invoice_service.py:181-192 | an update writes exactly the fields it names, on exactly a draft or confirmed invoice |
| Ledger.BillIff | app/services/subscriptions/invoice_factory.py:46-79 | a factory bill is a draft over its whole total without discount, tax or payment |
| Ledger.SummaryMoves | app/routers/company.py:456-481 | confirming adds what is owed to the outstanding balance, falling overdue moves it to the overdue one, and a payment takes its amount from the one its invoice was in and adds it to what was received |
| Ledger.CaptureIsGoodIff | app/services/billing/paypal_service.py:162-180 | a capture keeps the invoices good, and keeps conservation, exactly when its amount is within the balance and the invoice is open or is settled by it |
| Ledger.UpdateIsGoodIff | app/schemas/billing.py:87-89 | an update that names a status keeps the invoices good, and keeps conservation, if and only if draft and cancelled meet nothing paid and paid meets a full payment |
| Ledger.DiscountUsageIsExact | app/services/billing/invoice_builder.py:117-142 | over every run a discount's counter is the number of invoices that carry it and never passes its limit |
| Ledger.InvoiceNumbersAreUnique | app/repositories/billing.py:73-80 | over every run the n invoices have distinct numbers in 1..n |
| Ledger.SettledForever | app/services/billing/invoice_service.py:156-192 | a paid or cancelled invoice is never written again in any run without captures, from any state |
| Ledger.LifecycleNeverGoesBack | app/services/billing/invoice_service.py:147-192 | no run of fitting requests that name no status drops an invoice, moves it back a stage, lowers its paid amount or changes its number, customer, discount or amounts |
| PaymentRaces.PaidAgreesIff | app/services/billing/payment_service.py:54-66 | with the reads and stores of any payments and cancellations of one invoice interleaved: its paid amount is the sum of its payments if and only if no payment was stored over another stored since it last read the invoice; otherwise it stays below the sum for good |
| PaymentRaces.SerialRequestsStayGood | app/services/billing/payment_service.py:135-175 | if nothing was written to the invoice between the checks of a request and its store, the invoice stays good, all payments are counted and it is never overpaid |
| PaymentRaces.SerialStoreIsPayment | app/services/billing/payment_service.py:163-175 | the store of such a payment is the sequential payment of the ledger and still meets its checks |
| PaymentRaces.SerialStoreIsCancellation | app/services/billing/invoice_service.py:156-169 | the store of such a cancellation is the sequential one and still meets its checks |
| PaymentRaces.UninterruptedPayment | app/services/billing/payment_service.py:46-109 | a payment whose two steps run back to back is the ledger's request, manual or portal: the same invoice and the same payment, or refused as there |
| PaymentRaces.UninterruptedCancellation | app/services/billing/invoice_service.py:156-169 | and so is such a cancellation |
| PaymentRaces.OverlapPaysTwice | app/services/billing/payment_service.py:70-109 | from every open invoice a run of two portal payments exists in which the balance is paid twice |
| PaymentRaces.OverlapCancelsPaidInvoice | app/services/billing/invoice_service.py:156-169 | and one of a payment and a cancellation that ends with the invoice cancelled and its whole total paid |
| DiscountRaces.UsesAreCountedIff | app/services/billing/invoice_builder.py:117-142 | with the reads and stores of any generations with one discount interleaved: its counter is the number of invoices that carry it if and only if no use was stored over another stored since it loaded; the counter itself never passes the limit |
| DiscountRaces.OverlapPassesTheLimit | app/services/billing/invoice_builder.py:117-142 | any number of overlapping generations pass a limit that is not yet exhausted, and are counted as one |
| DiscountRaces.UninterruptedUse | app/services/billing/invoice_builder.py:117-142 | a use whose two steps run back to back is counted as the builder counts it, or refused as there |
| Subscriptions.SubscriptionStore.Move | app/services/subscriptions/fsm.py:49-77 | a transition happens exactly when the table allows it and closing is not barred by the plan |
| Subscriptions.SubscriptionStore.ActivateOne | app/services/subscriptions/subscription.py:139-158 | one step towards active, with a factory invoice exactly on reaching it |
| Subscriptions.SubscriptionStore.CloseOne | app/services/subscriptions/subscription.py:160-167 | closes an active subscription of a closable plan, or refuses |
| Subscriptions.SubscriptionStore.CreateFromPortal | app/services/subscriptions/portal.py:49-138 | refused while the customer has an open subscription; otherwise one active row and one factory invoice |
| Subscriptions.SubscriptionStore.CancelFromPortal | app/services/subscriptions/portal.py:284-342 | closes the caller's latest subscription that is neither paused nor closed, if it is active and its plan exists and is closable, or refuses |
| Subscriptions.StagesNeverGoBack | app/services/subscriptions/fsm.py:25-66 | whatever the ten writers do in whatever order, no subscription moves back through draft or quotation, confirmed, and active, paused or closed |
| Subscriptions.FactoryRunsAtMostOnce | app/services/subscriptions/subscription.py:139-153 | so the factory makes at most one invoice for each subscription in any run |
| ActivationRaces.ActivationsGoTheWayIff | app/services/subscriptions/subscription.py:146-156 | with the reads and stores of any activations of one draft interleaved: it goes to active step by step, each step once, if and only if no activation stores the successor of a status that is no longer current; then at most one factory invoice is made |
| ActivationRaces.OverlapInvoicesTwice | app/services/subscriptions/subscription.py:146-153 | two overlapping activations of a confirmed subscription make two invoices |
| ActivationRaces.UninterruptedActivation | app/services/subscriptions/subscription.py:139-158 | an activation whose two steps run back to back is the lifecycle's, invoice included |
| Subscriptions.OwnSubscriptionIsUnique | app/services/subscriptions/portal.py:319-337 | in any reachable state at most one subscription is a customer's latest |
| Subscriptions.ClosedMovesIff | app/services/billing/dunning_service.py:103-107 | a closed subscription changes exactly under a dunning suspension of it |
| Subscriptions.PausedMovesIff | app/services/bulk/operations.py:157-243 | a paused one changes exactly under a bulk activation or closing that names it or a dunning cancellation |
| Subscriptions.ClosedForever | app/services/subscriptions/fsm.py:32-33 | in any run without that suspension a closed subscription stays as it is |
| Subscriptions.OneOpenEachIff | app/services/subscriptions/portal.py:51-59 | a step keeps "one open subscription a customer" exactly when it is neither a company-side creation beside an open one nor a suspension reopening one beside another |
| Subscriptions.TransitionIff | app/services/subscriptions/fsm.py:25-77 | besides the steps of activation the state machine takes exactly a quotation back to draft and an active subscription, unless its plan bars it, to closed |
| Subscriptions.ActivateIff | app/services/subscriptions/subscription.py:146-158 | activation takes the one step forward, and makes an invoice exactly on the step to active |
| Subscriptions.CloseIff | app/services/subscriptions/portal.py:291-299 | closing needs an active subscription whose plan does not bar it; in the portal also that it is the customer's latest shown one and its plan exists |
| Subscriptions.CreateIff | app/services/subscriptions/portal.py:51-90 | the company creates drafts for existing plans; the portal one active subscription with one invoice, exactly for a customer whose others are all closed |
| Subscriptions.ForcedAndBulk | app/services/billing/dunning_service.py:103-140 | dunning writes paused or closed whatever the status was; the bulk writers move exactly the named rows whose status admits it |
| Dunning.DunningService.CreateFromInvoice | app/services/billing/dunning_service.py:193-217 | adds one pending row for each configured step at its day and no other; if no row concerned the subscription before, this starts one escalation |
| Dunning.DunningService.ExecuteOne | app/services/billing/dunning_service.py:58-150 | the three actions on all four paths: invoice missing, paid, subscription missing, executed |
| Dunning.DunningService.ProcessPending | app/services/billing/dunning_service.py:219-241 | executes the rows in the order the database gave them; an exception undoes the whole batch |
| Dunning.BatchEffect | app/services/billing/dunning_service.py:228-239 | for any order: the batch fails exactly if one of its rows does; otherwise exactly its rows are marked and every subscription has the status of its last writing row |
| Dunning.BatchMarks | app/services/billing/dunning_service.py:64-143 | every executed row is marked by what it met: pending without an invoice, skipped when that is paid, failed after a retry, success otherwise; no other row is touched |
| Dunning.LastActorDecides | app/services/billing/dunning_service.py:103-140 | the last row of the batch that suspends or cancels a subscription leaves it paused or closed; without one it stays as it was |
| Dunning.SequenceRows | app/config/dunning.py:23-28 | the four rows of a sequence with their attempts, actions and times |
| Dunning.BatchFailsIff | app/repositories/base.py:102-112 | a run is undone exactly when some due row of an unpaid invoice suspends or cancels a missing subscription |
| Dunning.OrphanBlocksDunning | app/services/billing/dunning_service.py:219-241 | such a row, once due, keeps every later run from executing anything |
| Dunning.ExecutedRowsAreFrozen | app/repositories/billing.py:198-209 | in every run of the job a row takes effect at most once |
| Dunning.PaidStopsDunning | app/services/billing/dunning_service.py:97-134 | once its invoices are paid no later run touches a subscription |
| Dunning.Escalation | app/config/dunning.py:23-28 | the exact status after any runs from any point of one escalation, beside any rows of other subscriptions: untouched before day 14, paused from the first run in days 14 to 20, and from day 21 closed if and only if some run fell in days 14 to 20 or the suspension came before the cancellation, else paused for good |
| Dunning.ClosedWhateverTheOrder | app/config/dunning.py:23-28 | with a run in days 14 to 20 and one from day 21 the subscription ends closed for every order of rows and any number of further runs |
| Dunning.OrderCanUndoTheCancellation | app/repositories/billing.py:202-209 | for any calls none of which falls in days 14 to 20, the last on or after day 21, answers of the database exist that leave the subscription paused |
| Dunning.ClosedForEveryOrderIff | app/repositories/billing.py:198-209 | for any call times from the start on, the last on or after day 21: the subscription ends closed for every order of the rows if and only if one of the calls falls in days 14 to 20 |
| Bulk.BulkOperation.Validate | app/services/bulk/operations.py:124-155 | exactly the conflicts of the given ids are reported, each with its kind, for activation, closing and plan change; so the reported ids are exactly those that are not clean |
| Bulk.BulkOperation.Execute | app/services/bulk/operations.py:157-243 | exactly the allowed rows change, and the success and failed lists are the found ids that did and did not, in the order found |
| Bulk.BulkExecutor.Preview | app/services/bulk/executor.py:49-82 | the clean ids and the conflicting ids are complementary |
| Bulk.BulkExecutor.Run | app/services/bulk/executor.py:84-135 | the rows and the two lists, in order, after the batches, for any batch size, any skipped ids and any order of each answer |
| Bulk.BatchSizeIsInvisible | app/services/bulk/executor.py:114-135 | for distinct ids batches of any size give the state and the two sets of a single batch |
| Bulk.OutcomeIsPartition | app/services/bulk/operations.py:161-182 | successes and failures are disjoint and cover exactly the found ids |
| Bulk.PreviewPredictsIff | app/services/bulk/operations.py:293-353 | the clean ids are exactly the successes, always for activation and closing, and for a plan change exactly when all ids exist and no open one is already on the plan |
| Bulk.RepeatedIdFailsIff | app/services/bulk/executor.py:117-122 | over a whole batched run an id that can succeed is reported as a success if and only if some batch holds it, and as failed if and only if two batches hold it and the operation is not a plan change |
| Bulk.BulkIsALifecycleStep | app/services/bulk/operations.py:121-243 | bulk activation and closing are the steps of that name in the lifecycle theorems |
| Bulk.PlanChangeEffect | app/services/bulk/operations.py:330-353 | a plan change writes the plan it was given on exactly the named rows that are not closed |
| Bulk.ConflictKinds | app/services/bulk/operations.py:296-328 | when each kind of conflict is reported |
| PlanChange.NoClampOnUpgrade | app/services/subscriptions/pro_rata.py:62-80 | the clamp at zero never acts when the price does not fall |
| PlanChange.ChainsCostTheDirectChangeIff | app/services/subscriptions/pro_rata.py:30-80 | any chain of same-day plan changes costs at least the direct change, and exactly that if and only if no day remains or the daily rates in whole cents never fall or never rise |
| PlanChange.ChainsTelescope | app/services/subscriptions/upgrade.py:65-83 | so a chain of prices that never fall costs exactly the direct upgrade |
| PlanChange.ProRataError | app/services/subscriptions/pro_rata.py:55-70 | the charge is within less than one cent a remaining day of the exact pro-rata amount |
| PlanChange.CalculatedAmounts | app/services/subscriptions/pro_rata.py:52-80 | both daily rates are the exact ones to the nearest cent, and the amount due is their rise for each remaining day, or nothing |
| PlanChange.UpgradeIff | app/services/subscriptions/upgrade.py:56-83 | an upgrade is admitted exactly for an active subscription and another existing plan; its one delta invoice is within a cent a remaining day of the exact share of the price difference, counted from the call to the expiry |
| PlanChange.DowngradeIff | app/services/subscriptions/downgrade.py:58-106 | a downgrade is admitted exactly without one pending and to another existing plan; the plan stays until it is finalized, and is then the one scheduled |
| PlanChange.ChangeIff | app/services/subscriptions/portal.py:271-280 | the portal upgrades exactly to a dearer plan |
| PlanChange.PlanChangeService.Upgrade | app/services/subscriptions/upgrade.py:38-94 | an active subscription on another existing plan gets one delta invoice of the pro-rata amount and the new plan at once |
| PlanChange.PlanChangeService.Downgrade | app/services/subscriptions/downgrade.py:45-90 | schedules the plan at expiry, unless one is already scheduled, and leaves the plan |
| PlanChange.PlanChangeService.Finalize | app/services/subscriptions/downgrade.py:92-106 | applies the scheduled plan and clears the schedule |
| PlanChange.PlanChangeService.ChangePlan | app/services/subscriptions/portal.py:262-280 | a dearer plan is an upgrade, anything else a scheduled downgrade |
| PlanChange.PortalChangesCostTheDirectUpgrade | app/services/subscriptions/portal.py:262-280 | whatever plans a customer asks for in one day, the delta invoices add up to the cost of the direct change to the plan reached, whose price is not lower |
| PlanChange.ScheduledDowngradeSurvives | app/services/subscriptions/downgrade.py:61-106 | no portal change replaces a scheduled downgrade: finalizing after any of them applies the plan scheduled first |
| PlanChange.ChangesKeepConsistent | app/services/subscriptions/downgrade.py:73-103 | a scheduled date and a scheduled plan are always both there or both absent |
| Calendar.DayIsLeastVisited | app/services/revenue/strategies.py:67-80 | after n one-month steps the day is the least of the first day and the lengths of all months visited |
| Calendar.SteppingDriftsIff | app/services/revenue/strategies.py:67-80 | stepping agrees with adding n months at once exactly when no month in between is too short |
| Calendar.PeriodsSortAsMonths | app/services/revenue/strategies.py:73-79 | for years 1000 to 9999 the "YYYY-MM" strings sort as the months do, and equal strings mean equal months |
| Calendar.MonthLengthIsExact | app/services/revenue/strategies.py:80 | the month lengths are the differences of the Gregorian day numbers, given in closed form |
| Revenue.RecognizeRatable | app/services/revenue/strategies.py:49-82 | twelve rows from the due date on, eleven equal and a last one with the rounding, none for a total that is not positive |
| Revenue.RatableIsExact | app/services/revenue/strategies.py:62-71 | the rows add up to the total exactly, the last differs from the others by -6 to +5 cents, k rows are within k/2 cents of k twelfths |
| Revenue.RowsAreNegativeIff | app/services/revenue/strategies.py:62-71 | a row is negative exactly for fifteen totals up to 54 cents |
| Revenue.RatableDates | app/services/revenue/strategies.py:67-80 | the dates strictly increase through twelve consecutive months |
| Revenue.RatableRowsInTable | app/services/revenue/strategies.py:57-80 | after any run an invoice processed by the ratable strategy has twelve rows: the first on its due date, one in each month from there, each on the least of the due day and the lengths of the months visited; eleven equal twelfths to the nearest cent and a last one that makes up the total |
| Revenue.OtherRowsInTable | app/services/revenue/strategies.py:93-103 | under the milestone strategy it has one row, of the whole total on the due date; under either none for a total that is not positive |
| Revenue.OthersAreKept | app/services/revenue/service.py:64-86 | processing leaves the rows of every other invoice alone |
| Revenue.RevenueService.Process | app/services/revenue/service.py:43-89 | replaces exactly the invoice's rows and returns how many there are; an unknown invoice changes nothing |
| Revenue.RevenueService.DeleteRows | app/services/revenue/service.py:65-72 | the table without the invoice's rows, in order |
| Revenue.RevenueService.StoreRows | app/services/revenue/service.py:78-86 | the rows are appended for that invoice |
| Revenue.EveryProcessedInvoiceIsFullyRecognized | app/services/revenue/service.py:43-89 | after any runs over any table, under either strategy, every processed invoice has rows summing to its total, and no other invoice's sum changed |
| Revenue.RecognizedRevenueIsConserved | app/services/revenue/service.py:107-118 | the whole recognised revenue is the sum of the totals of the distinct invoices processed, however often each was |
| Revenue.ProcessingIsIdempotent | app/services/revenue/service.py:43-48 | processing an invoice again leaves the same multiset of rows |
| Revenue.ProcessedRowsAreNonNegative | app/services/revenue/strategies.py:49-82 | tables made from invoices outside the fifteen totals have no negative row |
| Revenue.GetTimeline | app/services/revenue/service.py:143-160 | each point carries its month's amount, the running sum and the rest of the total, cut off at zero |
| Revenue.TimelineBalances | app/services/revenue/service.py:107-160 | with the rows grouped by their period strings, none negative and any date filter: cumulative + deferred is the whole revenue at every point, cumulative never falls, and the last point defers exactly what the filter leaves out |
| Revenue.PointsAddUp | app/services/revenue/service.py:143-158 | each point recognises what the rows of its period come to, the cumulative amount rises by just that, and the rest is deferred unless it is negative |
| Revenue.TimelineIsChronological | app/services/revenue/service.py:121-129 | for years 1000 to 9999 the order of the strings is the order of time: rows of an earlier point are of an earlier month |
| Revenue.EverythingInRange | app/services/revenue/service.py:131-138 | without a filter no row is left out |
| Revenue.NothingIsDeferredInTheEnd | app/services/revenue/service.py:107-160 | so an unfiltered timeline ends with the whole revenue recognised and nothing deferred |
| RateLimit.RateLimiter.Check | app/services/rate_limit.py:24-54 | one increment with an expiry on the first; passes exactly up to the limit, and always when Redis is down |
| RateLimit.OrdinalIsRank | app/services/rate_limit.py:40-43 | the value a call sees is its rank among the calls of its counter, so each counter passes exactly its first calls up to the limit |
| RateLimit.WindowIsSeconds | app/services/rate_limit.py:40-42 | a second call is counted with the first exactly when it comes before the window's seconds have passed |
| RateLimit.AtMostTwiceLessOne | app/services/rate_limit.py:24-48 | any half-open interval of one window's length sees at most 2 * max_attempts - 1 calls pass, for all call times |
| RateLimit.TwiceLessOneIsReached | app/services/rate_limit.py:24-48 | and for every limit and every window of two milliseconds or more some calls reach that number |
| RateLimit.SlidingIff | app/services/rate_limit.py:1-3 | the sliding-window promise of max_attempts an interval holds, for any whole number of seconds, if and only if max_attempts is 1 |
| RateLimit.LostExpiryIsForever | app/services/rate_limit.py:40-42 | a counter whose expiry was not set counts every later call, however late |
| RateLimit.FallbackNeverResets | app/core/redis.py:51-68 | the in-memory fallback ignores expiry: of all calls ever, exactly the first max_attempts pass |
| SingleFlight.Client.OnResponse | frontend/src/lib/axios.ts:48-109 | every branch of the interceptor: settle, reject, queue behind a refresh or start one |
| SingleFlight.Client.ProcessQueue | frontend/src/lib/axios.ts:40-43 | every queued request is released in order and the queue is emptied |
| SingleFlight.Client.AfterRefresh | frontend/src/lib/axios.ts:81-95 | the queue, then the leading request, then the flag, on success and on failure |
| SingleFlight.SingleFlightHolds | frontend/src/lib/axios.ts:34-95 | in every reachable state at most one refresh is in flight, the queue is empty unless one is, each request is sent at most twice and settled at most once |
| SingleFlight.RefreshEndReleasesWaiters | frontend/src/lib/axios.ts:40-95 | the end of a refresh resends or rejects every waiting request exactly once and touches no other |
| SingleFlight.SettledAsAnswered | frontend/src/lib/axios.ts:48-109 | over any run a promise is resolved exactly when its request was answered with success; rejected exactly when the answer was an error that no refresh can mend (an auth URL, no 401, or the second answer) or the refresh it waited for failed; and the request was sent again exactly when a refresh it waited for succeeded |
| SingleFlight.FirstUnauthorizedWaits | frontend/src/lib/axios.ts:63-82 | in any reachable state the first 401 of an ordinary request settles nothing: it starts the refresh if none is in flight, and joins the end of the queue otherwise |
| SingleFlight.WaitersFollowTheRefresh | frontend/src/lib/axios.ts:66-95 | a waiting request is moved by the end of the refresh and by nothing else: sent again if it succeeded, rejected if not |
| SingleFlight.EnabledIff | frontend/src/lib/axios.ts:79-95 | every request in flight can be answered and every refresh in flight can end, either way |
| SingleFlight.NothingIsStranded | frontend/src/lib/axios.ts:63-95 | when nothing is in flight every promise has been settled exactly once |
| SingleFlight.ClientQuiesces | frontend/src/lib/axios.ts:63-101 | n requests cause at most 3n answers and refresh ends in any run |

## Assumptions

- The clock never goes back. Database reads see committed rows, and an update
  writes the columns whose value the program changed from what it had read; the
  repository sets no other isolation level and takes no row locks.
- Creation times of subscriptions strictly increase. The code orders by the start of
  the transaction, in which the rows of one bulk creation tie.
- Creating a payment row may or may not read its invoice again; both are modelled.
- SHA-256 is injective, uuid4 never repeats, and decoding a token is a Boolean
  input. Redis commands are atomic. The key's expiry is a step that may happen at
  any time.
- `process_pending` has no caller in the repository; its session is taken to roll
  back on an exception as the request sessions do.
- An invoice becomes overdue by a step of the environment from confirmed: no
  service does it.
- A JavaScript callback runs to its next `await` without interruption, and the
  request library keeps the `_retry` mark when it resends a request.
- Quantities and prices are positive, tax rates and percent discounts at most 100,
  payment amounts positive and in cents, as the request schemas demand
  (app/schemas/company.py:199-203, app/schemas/subscription.py:35-36,
  app/schemas/billing.py:117-123). They appear as `Schema`, `GoodLine`,
  `GoodDiscount` only in the theorems that need them.

## Left out

- PayPal's HTTP calls, emails, PDF and CSV output, Celery wiring, migrations and
  seed scripts.
- SQLAlchemy, FastAPI routing and guards, tenant isolation, JWT encoding, bcrypt.
- Soft deletion and restore of invoices and subscriptions, and concurrent invoice
  numbering, for which the code gives no guarantee.
- The bulk discount operation, which has no status rule, and requests without the
  plan parameter.
- Bulk.BulkExecutor.Run: leaves out the handler for a batch whose flush fails; what
  such a failure does to the session and to the other batches is SQLAlchemy's.
- Validation of customers, dates and lines on company-side creation; the plan
  check alone is kept.
- The client's logout and navigation on a failed refresh, and what the refresh
  answer contains: its outcome is an arbitrary input.
- Upper limits of numeric columns.
- Metrics, churn signals, the dashboard cache, the React pages and query hooks:
  counts and caches with only easy claims.
- Sessions.RedisAgreesWithSessions: is sequential; the interleaving of both stores is
  modelled for one family, after its login and for an existing user.
- Ledger.BilledIsConserved: is sequential; interleaved payments and cancellations are
  modelled on one invoice, beside no other writer of it.
- Ledger.DiscountUsageIsExact: is sequential; interleaved uses are modelled on one
  discount.
- Subscriptions.FactoryRunsAtMostOnce: is sequential; interleaved activations are
  modelled on one subscription, beside no other writer of it.
- Dunning.Escalation: is stated for one dunning sequence of the subscription and no
  other writer of it; other writers are covered by the lifecycle theorems.
- Revenue.TimelineBalances: takes the database's answer to the grouping query as given.
