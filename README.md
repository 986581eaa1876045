# ServiPal payments, escrow and order bookkeeping in Dafny

This project models the decision and bookkeeping core of the ServiPal backend, a FastAPI
service for food, laundry, product and parcel-delivery orders paid through Flutterwave or
from an in-app wallet. The database (Supabase), the Redis cache of pending checkout intents
and the job queues are modelled as one `Store.Database` object with a field per table, a
`Store.PendingCache` object and a `Store.JobQueue` object. Each service operation that changes
them is a method whose postcondition ties the new state to a specification function of the
old state. The properties the code promises are then proved about those functions as lemmas.

The modules follow the source files:

- `Money`: exact decimal amounts as `real`. `Cents` is `quantize(Decimal("0.00"))` with
  Python's default round-half-even.
- `Refs`: gateway references such as `DELIVERY-` followed by the upper-cased head of a UUID's hex digits, and the
  `pending_<vertical>_<tx_ref>` Redis keys. The UUID is a parameter.
- `Store`: the tables, the wallet stored procedures, the pending cache and the queues.
- `Commission`: `get_commission_rate`.
- `Delivery`: fee and reference at initiation, the status state machine, the authorization
  matrix and the dispatch of `update_delivery_status` on a delivery row object.
- `Order`: `update_order_status`, shared by the food, product and laundry verticals.
- `Payment` and `PaymentProps`: the five payment handlers and their properties.
- `PaymentRoute`: the Flutterwave webhook gate and the prefix dispatch.
- `WalletRoute`: the pay-with-wallet route.
- `Wallet`: top-up initiation, wallet payment, withdrawal request and approval.
- `Escrow`: the escrow-agreement service.
- `Login`: the login-attempt lockout over Redis.
- `MockValues`, `MockFilters` and `MockDb`: the in-memory Supabase client the tests run against.
  It covers its query builder, `execute` for select, insert, update, upsert and delete, and
  its `update_wallet_balance` procedure.
- `Pipeline`: how initiators, the webhook and the handlers meet.

Assumptions the model makes explicit:

- `update_user_wallet`, whose body is not in the repository, adds `p_balance_change` to the
  balance and `p_escrow_balance_change` to the escrow balance, which is what its call sites
  intend. An absent wallet is left unchanged, as the test mock does.
- The gateway's verification call, the random UUIDs, the clock and the Redis TTLs are inputs
  or are left out. The verification answer is the `verified` parameter of each payment
  handler, and a UUID's hex digits are the `hex` parameter.
- `.single()` lookups answer only when exactly one row matches; no match and several matches
  both end the operation with an error and no write.
- Where the code fails on its own data, the model follows the evident intent. It also models
  the code as written beside it and states the failure under Findings: attribute access on
  dicts and lists in `app/common/order.py`, status handlers called with too many arguments,
  and the delivery pending record that lacks the fee its handler reads.
- `wallet_route.pay_with_wallet` calls `wallet_service.verify_wallet_balance`, which is not in
  `app/services/wallet_service.py`. Its verdict is the `balanceVerified` parameter.

## Model

| member | source | states |
|---|---|---|
| Money.RoundHalfEven | app/services/payment_service.py:50-51 | the result is within half a unit of the input, and an exact tie goes to the even neighbour |
| Money.RoundHalfEvenUnique | app/services/payment_service.py:50-51 | those two facts determine the rounding: any integer satisfying both is the result |
| Money.Quantize2 | app/services/payment_service.py:50-51 | quantizing to two decimals moves an amount by at most half a kobo |
| Money.Abs | app/services/payment_service.py:50 | the absolute value is non-negative and equals the amount or its negation |
| Money.CentsOfWholeKobo | app/services/payment_service.py:219-220 | an amount that is a whole number of kobo quantizes to itself |
| Money.ResidueIsIgnored | app/services/payment_service.py:50-53 | gateway residue below half a kobo does not change the quantized amount |
| Money.QuantizeIdempotent | app/services/payment_service.py:219-222 | quantizing twice is quantizing once |
| Money.DistinctKoboNeverMatch | app/services/payment_service.py:53 | amounts whose whole-kobo values differ never match |
| Money.PrecisionExamples | tests/test_payment_precision.py:7-87 | 2818.19000000000005456968210637569427490234375 matches 2818.19, and 2818.20 does not |
| Refs.Take | app/services/delivery_service.py:89 | `s[:n]` is a prefix of `s` of length `min(n, len(s))` |
| Refs.UpperChar | app/services/delivery_service.py:89 | a lower-case ASCII letter becomes its own capital (its code point less 32) and every other character is kept |
| Refs.Upper | app/services/delivery_service.py:89 | `upper()` keeps the length and upper-cases each character |
| Refs.GeneratedRef | app/services/delivery_service.py:89 | a generated reference starts with its prefix and adds at most `n` characters |
| Refs.GeneratedRefShape | app/services/wallet_service.py:145 | from a hex string of at least `n` digits the reference has exactly prefix + `n` characters, starts with the prefix and has no lower-case letter |
| Refs.PendingKeysOfVerticalsDiffer | app/services/payment_service.py:37 | pending keys of two different verticals never collide |
| Store.AddToWallet | app/services/payment_service.py:108-115 | `update_user_wallet` adds both deltas to that user's wallet; every other wallet and the set of wallets are unchanged |
| Store.AddToField | app/services/wallet_service.py:334-340 | `update_wallet_balance` is `update_user_wallet` with the delta on the named field and zero on the other |
| Store.ReleaseHolds | app/common/order.py:108-110 | exactly the order's ESCROW_HOLD rows become ESCROW_RELEASE, in place; every other row is kept |
| Store.Database.constructor | app/services/payment_service.py:19-24 | the client starts with the given tables |
| Store.Database.UpdateUserWallet | app/services/payment_service.py:108-115 | only the wallets change, as `AddToWallet` says |
| Store.Database.UpdateWalletBalance | app/services/wallet_service.py:334-340 | only the wallets change, as `AddToField` says |
| Store.Database.InsertTransaction | app/services/payment_service.py:127-144 | one ledger row is appended and nothing else changes |
| Store.Database.InsertOrder | app/services/payment_service.py:69-99 | the order is stored under the next free id, which is returned, and nothing else changes |
| Store.Database.InsertItem | app/services/payment_service.py:264-279 | one item row is appended and nothing else changes |
| Store.Database.InsertCommission | app/services/payment_service.py:383-397 | one platform-commission row is appended and nothing else changes |
| Store.Database.ReleaseOrderHolds | app/common/order.py:108-110 | only the transactions change, as `ReleaseHolds` says |
| Store.Database.UpdateOrder | app/common/order.py:113-115 | an existing order row is replaced and a missing one changes nothing |
| Store.Database.InsertWalletPayment | app/routes/wallet_route.py:121-133 | one wallet_payment row is appended and nothing else changes |
| Store.Database.InsertWithdrawal | app/services/wallet_service.py:438-452 | the withdrawal is stored under the next free id, which is returned |
| Store.Database.UpdateWithdrawal | app/services/wallet_service.py:517-528 | an existing withdrawal row is replaced and nothing else changes |
| Store.Database.InsertAgreement | app/services/escrow_service.py:38-59 | the agreement is stored under the next free id, which is returned |
| Store.Database.UpdateAgreement | app/services/escrow_service.py:165-168 | an existing agreement row is replaced and nothing else changes |
| Store.Database.InsertParties | app/services/escrow_service.py:62-74 | the party rows are appended in one bulk insert |
| Store.Database.UpdateParty | app/services/escrow_service.py:138-151 | one party row is replaced in place |
| Store.Database.InsertProposal | app/services/escrow_service.py:383-395 | the proposal is stored under the next free id, which is returned |
| Store.Database.TransactionExists | app/routes/payment_route.py:113-117 | the lookup answers whether some ledger row has the tx_ref |
| Store.PendingCache.constructor | app/services/payment_service.py:36-38 | the cache starts with the given intents |
| Store.PendingCache.Save | app/services/delivery_service.py:100 | `save_pending` stores the intent under the key and keeps every other key |
| Store.PendingCache.Get | app/services/payment_service.py:37-42 | `get_pending` answers the stored intent, or nothing when the key is absent |
| Store.PendingCache.Delete | app/services/payment_service.py:60 | `delete_pending` removes exactly that key |
| Store.JobQueue.constructor | app/routes/payment_route.py:149-156 | the queues start empty |
| Store.JobQueue.Enqueue | app/routes/payment_route.py:149-156 | one job is appended to the RQ queue and the pgmq queue is unchanged |
| Store.JobQueue.Send | app/routes/wallet_route.py:202-210 | one message is appended to `payment_queue` and the RQ queue is unchanged |
| Commission.ColumnFor | app/utils/commission.py:10-18 | a column exists exactly for DELIVERY, FOOD, LAUNDRY and PRODUCT |
| Commission.GetCommissionRate | app/utils/commission.py:5-41 | an unknown type always fails with that type, a known one always succeeds, and a missing row gives 0.8 |
| Commission.ColumnValue | app/utils/commission.py:41 | the value of the named percentage column of the charges row |
| Commission.RateReadsOwnColumn | app/utils/commission.py:20-41 | with the row present, each known type returns that row's value in its own column |
| Commission.ColumnsDistinct | app/utils/commission.py:10-15 | the four types map to four distinct columns |
| Commission.EscrowAgreementUnknown | app/utils/commission.py:17-18 | "ESCROW_AGREEMENT" is refused whatever the configuration holds |
| Delivery.DeliveryFee | app/services/delivery_service.py:79-86 | the fee is base + per_km × distance rounded to two decimals, so within half a kobo of it |
| Delivery.DeliveryFeeExample | tests/test_delivery_service.py:12-42 | 1000 + 200 × 5 km gives 2000.00 |
| Delivery.InitiateDeliveryPayment | app/services/delivery_service.py:50-132 | with no charges row it fails and saves nothing; otherwise it saves one intent under `pending_delivery_<ref>` for a `DELIVERY-` reference and returns that reference and the fee |
| Delivery.ValidateStateTransition | app/services/delivery_service.py:756-790 | a transition passes exactly when the target is listed for the current status, and a refusal names both |
| Delivery.AllowedTransitions | app/services/delivery_service.py:772-790 | no status lists itself or PENDING among its successors, and a status outside the table has none |
| Delivery.TransitionTableMatchesMachine | app/services/delivery_service.py:772-782 | between named statuses the table accepts exactly the transitions of the state machine |
| Delivery.UnlistedStatusAllowsNothing | app/services/delivery_service.py:784-790 | a status missing from the table allows no transition at all |
| Delivery.PaidNeedsRiderIsStuck | app/services/payment_service.py:86 | PAID_NEEDS_RIDER, the status delivery payment writes, allows no transition |
| Delivery.TerminalStates | app/services/delivery_service.py:780-781 | nothing leaves COMPLETED or CANCELLED |
| Delivery.ReachabilityFacts | app/services/delivery_service.py:773-779 | DECLINED leads only to ASSIGNED; COMPLETED is entered only from DELIVERED; CANCELLED from every non-terminal status except DECLINED |
| Delivery.AuthorizationMatchesRoles | app/services/delivery_service.py:688-749 | authorization passes exactly for the sender on sender statuses, the assigned rider on rider statuses, and anyone on a status outside the matrix |
| Delivery.ValidateAuthorization | app/services/delivery_service.py:688-749 | a refusal is always the forbidden error for the target; a pass means the target is PENDING or the actor is the sender or the assigned rider |
| Delivery.RoleFacts | app/services/delivery_service.py:715-749 | CANCELLED is the only status both roles hold; without a rider only the sender's statuses and the unlisted PENDING pass |
| Delivery.ChecksPrecedeDispatch | app/services/delivery_service.py:164-197 | nothing is dispatched unless authorization and the transition both pass; an unauthorized actor is refused whatever the state |
| Delivery.PendingTargetIsIllegal | app/services/delivery_service.py:172-203 | a PENDING target is refused by the transition check before the invalid-status branch |
| Delivery.Route | app/services/delivery_service.py:172-203 | routing fails only for PENDING and for ASSIGNED without a rider_id; a handler that writes the status writes the target's own name |
| Delivery.Decide | app/services/delivery_service.py:158-203 | a status the decision writes is the requested target and a listed successor of the current status |
| Delivery.DecideAsWritten | app/services/delivery_service.py:172-188 | the dispatch as written: ASSIGNED, PICKED_UP, IN_TRANSIT and DELIVERED fail with a server error once both checks pass |
| Delivery.ExtraArgumentsFailAsWritten | app/services/delivery_service.py:172-188 | as written, those four targets never succeed, even where the intended dispatch would (a sender assigning a rider to a PENDING delivery); every other target is dispatched as intended |
| Delivery.DeliveryOrder.constructor | app/services/delivery_service.py:232-255 | the row holds the fetched id, tx_ref, sender, rider and status, and no procedure has been called |
| Delivery.DeliveryOrder.UpdateStatus | app/services/delivery_service.py:158-211 | the outcome is the decision for the old row; a refusal changes nothing, a status write changes only the status, and a procedure call is appended and leaves the status to the procedure |
| Delivery.UpdateDeliveryStatus | app/services/delivery_service.py:140-225 | an unknown tx_ref is a not-found error; otherwise the outcome is the decision for the fetched row, a refusal leaves that row's status and calls alone, a status write sets its status, a procedure call is appended to its calls, every other row keeps its status and calls, and no row's rider changes |
| Order.Release | app/common/order.py:86-115 | the completion writes are exactly `ReleaseTables` |
| Order.Refund | app/common/order.py:136-176 | the refunding cancellation writes are exactly `RefundTables` |
| Order.UpdateOrderStatus | app/common/order.py:33-224 | the new tables and result are `UpdateOrderStatusSpec` of the old tables |
| Order.Authorize | app/common/order.py:63-74 | a pass means the target is PENDING or the actor is the customer or the vendor |
| Order.UpdateOrderStatusSpec | app/common/order.py:33-224 | a refusal writes nothing; no order is created or removed; at most one transaction row is added |
| Order.ReleaseTables | app/common/order.py:89-115 | afterwards the order has no ESCROW_HOLD row left, the ledger keeps its length and no order is created |
| Order.RefundTables | app/common/order.py:139-176 | the ledger gains exactly one row, the REFUNDED row for the order, after the old rows |
| Order.AuthorizationMatrix | app/common/order.py:64-74 | only the vendor sets PREPARING, READY, IN_TRANSIT or DELIVERED; only the customer sets COMPLETED; either may cancel; PENDING is unrestricted |
| Order.RejectionWritesNothing | app/common/order.py:64-84 | every refusal leaves the whole database unchanged |
| Order.GuardsPrecedeWrites | app/common/order.py:64-81 | an unauthorized request is refused whatever the order's state, and an authorized one on a COMPLETED or CANCELLED order is refused with no write |
| Order.NoOrderingBetweenLiveStatuses | app/common/order.py:77-78 | from a non-terminal status, an authorized actor may set any status but COMPLETED, and it is written as asked |
| Order.CompletionNeedsHold | app/common/order.py:81-84 | COMPLETED on an order without an ESCROW_HOLD row fails with no write |
| Order.CompletionEffects | app/common/order.py:86-115 | completion takes the grand total from the customer's escrow, pays the vendor the amount due and takes the grand total from the vendor's escrow, relabels every hold as a release and marks the order COMPLETED; every other wallet, transaction, order and table is unchanged, and the order row changes only in its status |
| Order.CancellationRefund | app/common/order.py:136-176 | a cancellation with escrow held moves the grand total from the customer's escrow to their balance, takes it from the vendor's escrow, appends one REFUNDED row for the grand total whose cancelled_by is VENDOR exactly when the vendor cancelled, and marks the order CANCELLED and REFUNDED; no other wallet, order, column of the order or table changes |
| Order.StatusOnlyBranches | app/common/order.py:194-206 | a cancellation without a hold, and every status but COMPLETED and CANCELLED, change only that order's status |
| Order.StatusOnlyWrite | app/common/order.py:203-206 | the corrected status-only write sets the status of the order it fetched |
| Order.FoodOrdersTableIsHardCoded | app/common/order.py:194-206 | as written, a laundry order's PREPARING is reported as success but never stored; the corrected write stores it |
| Order.UpdateOrderStatusAsWritten | app/common/order.py:33-206 | the update as written: after the guards, COMPLETED and CANCELLED fail on the attribute read, with no write |
| Order.EscrowChecksFailAsWritten | app/common/order.py:81-136 | as written, every authorized COMPLETED or CANCELLED of a live order fails with no write; the intended update completes or cancels an order whose escrow is held |
| Payment.ItemRows | app/services/payment_service.py:264-279 | one item row per cart entry, in cart order, for the new order |
| Payment.HandleIntent | app/services/payment_service.py:44-875 | once the intent is found, a handler that does not process the payment writes nothing, and it drops at most that intent |
| Payment.ProcessSpec | app/services/payment_service.py:19-875 | a run that does not process the payment writes nothing; a processed run was verified and drops exactly its intent; no run adds an intent |
| Payment.FirstMissing | app/services/payment_service.py:44-47 | no key is reported exactly when every read key is present, and a reported key is read and absent |
| Payment.DeliveryProcessAsWritten | app/services/payment_service.py:31-47 | the delivery handler as written for a record with the given keys: a missing key fails with no write and keeps the intent |
| Payment.ProcessSuccessfulDeliveryPayment | app/services/payment_service.py:19-163 | the database, the intents and the outcome are `ProcessSpec` for the delivery handler |
| Payment.InsertCartItems | app/services/payment_service.py:264-279 | the loop appends exactly `ItemRows` and changes nothing else |
| Payment.CreateFoodOrder | app/services/payment_service.py:240-279 | the food order and its items are written under the next free id |
| Payment.ProcessSuccessfulFoodPayment | app/services/payment_service.py:169-409 | the database, the intents and the outcome are `ProcessSpec` for the food handler |
| Payment.ProcessSuccessfulTopUpPayment | app/services/payment_service.py:415-547 | the database, the intents and the outcome are `ProcessSpec` for the top-up handler |
| Payment.ProcessSuccessfulProductPayment | app/services/payment_service.py:555-702 | the database, the intents and the outcome are `ProcessSpec` for the product handler |
| Payment.ProcessSuccessfulLaundryPayment | app/services/payment_service.py:705-875 | the database, the intents and the outcome are `ProcessSpec` for the laundry handler |
| Payment.RunHandler | app/routes/payment_route.py:128-156 | running the job's handler has exactly that handler's effect |
| PaymentProps.NoWritesWithoutVerifiedIntent | app/services/payment_service.py:31-42 | an unverified payment, or one without a pending intent, writes nothing and keeps every intent |
| PaymentProps.MismatchOnlyDropsIntent | app/services/payment_service.py:53-61 | an amount that differs after quantization only deletes the intent |
| PaymentProps.ExistingTxRefOnlyDropsIntent | app/services/payment_service.py:210-217 | in the food and product handlers a tx_ref already in the ledger only deletes the intent, whatever the amount |
| PaymentProps.OtherHandlersBookAgain | app/services/payment_service.py:415-547 | the delivery, top-up and laundry handlers have no such check: a matching payment whose tx_ref is already in the ledger is booked again |
| PaymentProps.ReplayIsNoOp | app/services/payment_service.py:147 | a second run with the same arguments changes nothing, because every path that writes also deletes the intent |
| PaymentProps.AtMostOneOrder | app/services/payment_service.py:69-99 | a handler creates at most one order, under the next free id, and only when it reports that order |
| PaymentProps.HandlerAddsAtMostOneOrder | app/services/payment_service.py:69-99 | each handler, run on a found intent, either leaves the orders and the id counter alone or adds exactly one order under the next free id and reports it |
| PaymentProps.FoodPaymentEffects | app/services/payment_service.py:264-348 | a matched food payment puts the grand total into both the customer's and the vendor's escrow, appends the DEBIT and CREDIT ESCROW_HOLD rows and one item row per cart entry |
| PaymentProps.VendorOrderPaymentEffects | app/services/payment_service.py:651-679 | a matched product or laundry payment puts the grand total into the customer's escrow only, appends one ESCROW_HOLD row after the old rows, adds one PENDING order carrying the tx_ref and keeps every existing order, and drops the intent |
| PaymentProps.LaundryOrderOwesShare | app/services/payment_service.py:757-786 | the order a matched laundry payment creates records the vendor's share of the grand total as its amount due |
| PaymentProps.LaundryShareSplitsTotal | app/services/payment_service.py:757-763 | the laundry vendor is owed total × (1 − rate), which with the commission makes up the grand total; the 0.8 fallback leaves a fifth and a 0.85 rate leaves 15% |
| PaymentProps.LaundryRateLookup | app/services/payment_service.py:757-760 | the laundry lookup reads the laundry column, or falls back to 0.8 |
| PaymentProps.DeliveryPaymentEffects | app/services/payment_service.py:69-144 | a matched delivery payment adds the quantized fee to the sender's balance, not escrow, appends one ESCROW_HOLD row and creates a PAID_NEEDS_RIDER order; no other wallet or existing order changes and the intent is dropped |
| PaymentProps.TopUpPaymentEffects | app/services/payment_service.py:468-530 | a matched top-up adds the paid amount to the balance and appends one DEPOSIT row from, to and on the user's wallet after the old rows; no other wallet or order changes and the intent is dropped |
| PaymentProps.TopUpExample | tests/test_payment_service.py:8-49 | a top-up of 2000 on a balance of 1000 leaves 3000 |
| PaymentRoute.RetryScheduleBacksOff | app/routes/payment_route.py:155 | the retry intervals strictly increase and there is one per retry |
| PaymentRoute.PrefixesExclusive | app/routes/payment_route.py:129-138 | no tx_ref carries two handler prefixes |
| PaymentRoute.HandlerForMatchesPrefix | app/routes/payment_route.py:128-146 | the chain picks a handler exactly when the tx_ref has its prefix, and none when it has no known prefix |
| PaymentRoute.HandlerFor | app/routes/payment_route.py:128-146 | a chosen handler's prefix starts the tx_ref |
| PaymentRoute.WebhookDecision | app/routes/payment_route.py:50-156 | a job is decided only with the right signature and a body, for a tx_ref not yet in the ledger and starting with its handler's prefix, with the reply `queued` and the payment retry schedule |
| PaymentRoute.FlutterwaveWebhook | app/routes/payment_route.py:28-167 | the reply is the webhook's decision, and the RQ queue gains exactly the decided job, if any |
| PaymentRoute.JobOnlyAfterAllGates | app/routes/payment_route.py:48-156 | a job is enqueued exactly when every gate passes, and it then runs the prefix's handler on that tx_ref and amount with the fixed retry schedule |
| PaymentRoute.GateReplies | app/routes/payment_route.py:50-125 | a wrong signature is refused before the body is read; a non-successful event is ignored; a known tx_ref is answered as already processed; none enqueues |
| WalletRoute.FirstPayment | app/routes/wallet_route.py:103-112 | the index found is the first wallet_payment row with the tx_ref, and none means no row has it |
| WalletRoute.Project | app/routes/wallet_route.py:105 | a selected row has exactly the selected columns |
| WalletRoute.ReplayAnswersServerErrorAsWritten | app/routes/wallet_route.py:105-116 | as written, every replayed tx_ref is answered with a server error |
| WalletRoute.PayWithWallet | app/routes/wallet_route.py:75-222 | only the wallet_payment table changes, and it and the two queues end as `PayWithWalletSpec` says |
| WalletRoute.PayWithWalletSpec | app/routes/wallet_route.py:96-210 | the RQ queue only grows, by at most one job, and a queued job is for the requested tx_ref, paid by WALLET, and answered with the redirect |
| WalletRoute.ReplayIsIdempotent | app/routes/wallet_route.py:103-116 | with the corrected lookup, a replay writes and enqueues nothing and answers with the stored row's status and amount |
| WalletRoute.RecordsAtMostOnePayment | app/routes/wallet_route.py:121-133 | past the balance check a new tx_ref records exactly one "success" row with the amount, even if it is then refused; any other request records nothing |
| WalletRoute.JobAndMessageTogether | app/routes/wallet_route.py:186-210 | the RQ job and the pgmq message go together, with the same tx_ref, amount, `WALLET-` reference and method, the webhook's handler and retry schedule |
| WalletRoute.EnqueueConditions | app/routes/wallet_route.py:96-183 | a job is produced exactly when the balance check passes and the tx_ref is new, non-empty and has a known prefix; an unknown prefix is refused after its row is recorded |
| Wallet.TopUpLimit | app/services/wallet_service.py:114-142 | a top-up passes exactly when the balance is below 50,000 and stays at or under it; the second refusal carries the largest top-up still allowed |
| Wallet.InitiateWalletTopUp | app/services/wallet_service.py:104-173 | no wallet or a ceiling refusal saves nothing; an accepted top-up saves one intent under `pending_topup_<ref>` for a `TOPUP-` reference and changes no balance |
| Wallet.InitiateWalletTopUpAsWritten | app/services/wallet_service.py:104-154 | as written no request succeeds and no intent is saved; exactly the requests that pass both ceiling checks fail on the timestamp call, and the refusals are as intended |
| Wallet.FullWalletRefusesEveryTopUp | app/services/wallet_service.py:129-133 | a balance at the ceiling refuses every amount |
| Wallet.PayWithWallet | app/services/wallet_service.py:287-393 | the tables and result are `PayWithWalletSpec` of the old tables |
| Wallet.PayWithWalletSpec | app/services/wallet_service.py:321-367 | a refusal writes nothing; a payment needs a wallet with enough balance and reports the balance less the amount |
| Wallet.WalletPaymentEffects | app/services/wallet_service.py:321-367 | a payment either fails and changes nothing, or debits exactly the amount when it was covered, reports the new balance and appends one COMPLETED WALLET row under a `PAY-` reference |
| Wallet.WalletPaymentExamples | tests/test_wallet_service.py:90-133 | 5,000 paying 1,000 leaves 4,000; 500 cannot pay 1,000 |
| Wallet.RequestWithdrawal | app/services/wallet_service.py:395-483 | the tables and result are `RequestWithdrawalSpec` of the old tables |
| Wallet.WithdrawalRequestEffects | app/services/wallet_service.py:417-452 | a withdrawal is accepted exactly when the wallet exists, the amount is at least 1,000 and the balance covers it; it takes exactly the amount from the balance, with the 100 fee recorded on the row rather than charged on top, and stores one PENDING row under the next id; a refused one changes nothing |
| Wallet.ApproveWithdrawal | app/services/wallet_service.py:485-550 | the tables and result are `ApproveWithdrawalSpec` of the old tables |
| Wallet.ApprovalHappensOnce | app/services/wallet_service.py:505-528 | approval succeeds exactly on a PENDING withdrawal, changes only its status to PROCESSING and its `TRF-` reference, moves no money, and a second approval is refused |
| Escrow.Where | app/services/escrow_service.py:117-119 | a filter keeps exactly the positions of the rows it matches, in table order |
| Escrow.WhereNone | app/services/escrow_service.py:156-160 | a filter matching no row finds nothing |
| Escrow.Rows | app/services/escrow_service.py:156-160 | every row found is in the table and matches |
| Escrow.PartyRows | app/services/escrow_service.py:62-72 | one party row per listed party, in order |
| Escrow.CreationAlwaysFailsAsWritten | app/services/escrow_service.py:23 | as written, creation always fails and writes nothing, since the commission lookup refuses the service type |
| Escrow.CreateEscrowAgreement | app/services/escrow_service.py:19-110 | the tables and result are `CreateEscrowAgreementSpec` of the old tables |
| Escrow.CreationEffects | app/services/escrow_service.py:23-74 | a created agreement is a DRAFT for the amount and rate, its recipients' shares plus the commission make up the amount, one unaccepted row per party is added and no wallet changes; a share mismatch writes nothing |
| Escrow.AcceptEscrowAgreement | app/services/escrow_service.py:112-182 | the tables and result are `AcceptSpec` of the old tables |
| Escrow.AcceptSpec | app/services/escrow_service.py:125-169 | a refusal writes nothing, no wallet changes, and an acceptance that reports all accepted leaves the agreement READY_FOR_FUNDING |
| Escrow.AcceptanceEffects | app/services/escrow_service.py:125-169 | the invite ends bound to the accepting user, and the agreement becomes READY_FOR_FUNDING exactly when that acceptance was the last one missing; no money moves |
| Escrow.RejectEscrowAgreement | app/services/escrow_service.py:184-287 | the tables and result are `RejectSpec` of the old tables |
| Escrow.RejectionMovesNoMoney | app/services/escrow_service.py:220-280 | rejection never changes a wallet or the ledger, leaves a FUNDED agreement untouched, and a successful one cancels the agreement and was made by the party bound to the invite |
| Escrow.FundEscrowAgreement | app/services/escrow_service.py:289-345 | the tables and result are `FundSpec` of the old tables |
| Escrow.FundingEffects | app/services/escrow_service.py:305-336 | only the initiator funds, only from READY_FOR_FUNDING, moving exactly the amount from balance to escrow with no balance check, and the agreement becomes FUNDED |
| Escrow.ProposeEscrowCompletion | app/services/escrow_service.py:347-405 | the tables and result are `ProposeSpec` of the old tables |
| Escrow.ProposeSpec | app/services/escrow_service.py:364-381 | a refusal writes nothing; a proposal is recorded only for an IN_PROGRESS agreement and moves no money |
| Escrow.PayingSharesMovesExactlyTheShares | app/services/escrow_service.py:502-520 | paying the shares keeps the set of wallets, adds to each balance exactly the shares paid to its user, and changes only the initiator's escrow, by the sum of the shares |
| Escrow.PaySharesStep | app/services/escrow_service.py:502-520 | paying one more recipient takes the share from the initiator's escrow, then adds it to that recipient's balance, on top of the earlier payments |
| Escrow.PayRecipients | app/services/escrow_service.py:502-520 | the loop leaves every table but the wallets as it was and the wallets as `PayShares` of the old wallets |
| Escrow.ReleaseEscrowFunds | app/services/escrow_service.py:473-549 | the tables and result are `ReleaseSpec` of the old tables |
| Escrow.ReleaseSpec | app/services/escrow_service.py:486-543 | a refusal writes nothing; a release needs an IN_PROGRESS agreement, completes it and records one commission |
| Escrow.ReleaseSpecReleases | app/services/escrow_service.py:486-543 | releasing an IN_PROGRESS agreement pays the recipients' shares, appends one ESCROW_AGREEMENT commission and marks the agreement COMPLETED, returning the amount less the commission |
| Escrow.ReleaseEffects | app/services/escrow_service.py:486-543 | release of an IN_PROGRESS agreement moves the shares from the initiator's escrow to the recipients, records the commission and completes the agreement; with shares summing to the net amount, the escrow given up is the net reported |
| Escrow.VoteEscrowCompletion | app/services/escrow_service.py:407-471 | the tables and result are `VoteSpec` of the old tables |
| Escrow.VoteSpec | app/services/escrow_service.py:441-462 | a vote moves money only when it releases, and it releases only an IN_PROGRESS agreement |
| Escrow.UnvotedPartiesDoNotHoldRelease | app/services/escrow_service.py:441-462 | with two accepted parties, the first vote in favour releases the funds although the other party has not voted, and a vote against only records that vote |
| Escrow.StatusWriteKeepsNoneInProgress | app/services/escrow_service.py:332-335 | writing a status other than IN_PROGRESS keeps every agreement out of IN_PROGRESS |
| Escrow.CreateKeepsNoneInProgress | app/services/escrow_service.py:38-56 | inserting the new agreement as a DRAFT keeps every agreement out of IN_PROGRESS |
| Escrow.AcceptKeepsNoneInProgress | app/services/escrow_service.py:163-168 | moving an agreement to READY_FOR_FUNDING keeps every agreement out of IN_PROGRESS |
| Escrow.RejectKeepsNoneInProgress | app/services/escrow_service.py:234-242 | cancelling an agreement keeps every agreement out of IN_PROGRESS |
| Escrow.FundKeepsNoneInProgress | app/services/escrow_service.py:330-336 | marking an agreement FUNDED keeps every agreement out of IN_PROGRESS |
| Escrow.SetupNeverEntersInProgress | app/services/escrow_service.py:19-345 | create, accept, reject and fund never put an agreement into IN_PROGRESS |
| Escrow.CompletionIsUnreachable | app/services/escrow_service.py:364-381 | from agreements none IN_PROGRESS, every proposal and release is refused and a vote changes no agreement |
| Login.LoginStore.constructor | app/utils/utils.py:9-12 | the store starts with the given keys |
| Login.LoginStore.CheckLoginAttempts | app/utils/utils.py:9-21 | the store and verdict are `CheckSpec` of the old store |
| Login.CheckSpec | app/utils/utils.py:12-21 | the check keeps every stored key and value and can add only the lock key |
| Login.LoginStore.RecordFailedAttempt | app/utils/utils.py:24-28 | the store is `RecordSpec` of the old store |
| Login.LoginStore.ResetLoginAttempts | app/utils/utils.py:31-36 | the store is `ResetSpec` of the old store |
| Login.KeysDistinct | app/utils/utils.py:11-17 | counter and lock keys never collide, and each is one key per email |
| Login.CheckEffects | app/utils/utils.py:12-21 | a check refuses exactly when the counter is at least five; a pass changes nothing; a refusal sets only the lock, and only when it was absent; the lock never changes the verdict |
| Login.RecordsCount | app/utils/utils.py:24-28 | from no counter, `n` recorded failures leave the counter at `n` and touch no other key |
| Login.FiveFailuresLock | app/utils/utils.py:14-28 | from no counter, the check refuses exactly after five or more failures: four pass, five lock |
| Login.ResetThenPass | app/utils/utils.py:31-36 | after a reset both keys are gone, the next check passes and changes nothing, and other emails are unaffected |
| MockValues.NatToString | tests/conftest.py:332 | `str(n)` is a non-empty string of digits with no leading zero |
| MockValues.DigitsRoundTrip | tests/conftest.py:332 | reading the digits of `str(n)` gives `n` back |
| MockValues.RenderTextInjective | tests/conftest.py:332 | two texts render alike exactly when they are equal |
| MockValues.Render | tests/conftest.py:332 | `str()` of a cell value: `None`, the text itself, the digits of an int, the fixed-point form of a float, `True`/`False` |
| MockValues.LexLessIsStrictTotal | tests/conftest.py:347 | Python's string order is irreflexive, total on distinct strings and transitive |
| MockValues.PyLess | tests/conftest.py:337 | `<` raises exactly unless both sides are numbers or both are texts |
| MockValues.Split | tests/conftest.py:361-364 | `split` gives at least one piece and no piece holds the separator |
| MockValues.SplitJoinRoundTrip | tests/conftest.py:361-364 | joining the pieces with the separator gives the text back |
| MockValues.SplitWithoutSeparator | tests/conftest.py:360-361 | a text without the separator is one piece |
| MockValues.AsFloat | tests/conftest.py:81 | `float` of a number is its value and of `None` is a TypeError |
| MockValues.DigitsParse | tests/conftest.py:81 | a text of digits parses to the number it spells |
| MockValues.WholeDigitsParse | tests/conftest.py:81 | digits with no fractional part read as the number they spell |
| MockValues.IntTextParses | tests/conftest.py:81 | `float(str(i))` is `i` |
| MockValues.ParseNumber | tests/conftest.py:81 | `float()` of a text: an optional sign, then digits with at most one point |
| MockFilters.Test | tests/conftest.py:330-358 | a filter other than `or` raises only for `lt` or `gt`, and only when the column holds a value |
| MockFilters.Narrow | tests/conftest.py:331-358 | one filter keeps positions of the table, no more than it was given |
| MockFilters.NarrowRaises | tests/conftest.py:335-342 | narrowing raises exactly when some row it looks at cannot be compared |
| MockFilters.NarrowKeepsExactly | tests/conftest.py:331-358 | narrowing keeps exactly the positions whose rows pass |
| MockFilters.NarrowKeepsOrder | tests/conftest.py:331-358 | narrowing keeps the positions in their order |
| MockFilters.Matching | tests/conftest.py:367-369 | the positions found are exactly those below the bound whose row meets the condition |
| MockFilters.OrCollect | tests/conftest.py:363-369 | a position is collected exactly when its row meets one of the conditions |
| MockFilters.FirstOccurrences | tests/conftest.py:370-375 | the de-duplication keeps each position once, in first-seen order, and drops none not seen before |
| MockFilters.OrSpec | tests/conftest.py:359-376 | `or` gives positions of the table |
| MockFilters.ApplyOne | tests/conftest.py:330-376 | one filter of any kind gives positions of the table |
| MockFilters.FiltersFrom | tests/conftest.py:330-376 | the filters in order give positions of the table |
| MockFilters.FilterSpec | tests/conftest.py:328-377 | `_apply_filters` gives positions of the table |
| MockFilters.Deduplicate | tests/conftest.py:370-375 | the loop computes `FirstOccurrences` |
| MockFilters.OrFilter | tests/conftest.py:359-376 | the loop computes `OrSpec` |
| MockFilters.ApplyFilters | tests/conftest.py:328-377 | the loop computes `FilterSpec` |
| MockFilters.ConjunctionFrom | tests/conftest.py:330-358 | without `or`, a position survives exactly when its row passes every filter, in the order it had |
| MockFilters.FiltersAreConjunctive | tests/conftest.py:328-358 | without `or`, a row is in the result exactly when it passes every filter, in table order |
| MockFilters.FiltersAppend | tests/conftest.py:330 | appending a filter runs it on the result of the others |
| MockFilters.EachFilterOnlyNarrows | tests/conftest.py:331-358 | one more filter other than `or` only narrows the result |
| MockFilters.OrIsUnionOverWholeTable | tests/conftest.py:359-376 | with a comma `or` discards the current result for the union over the whole table; without one it does nothing |
| MockFilters.OnlyComparisonsRaise | tests/conftest.py:331-358 | without `lt` and `gt` the filters never raise |
| MockFilters.InsertSorted | tests/conftest.py:313 | inserting a row keeps the same rows plus that one |
| MockFilters.SortRows | tests/conftest.py:311-313 | sorting keeps exactly the same rows |
| MockFilters.BeforeIsStrictTotal | tests/conftest.py:313 | the sort order on keys is a strict total order in either direction |
| MockFilters.InsertKeepsSorted | tests/conftest.py:313 | inserting into a sorted list keeps it sorted |
| MockFilters.InsertAfterHead | tests/conftest.py:313 | a row that does not go before the head goes into the tail |
| MockFilters.ConsSorted | tests/conftest.py:313 | a sorted list stays sorted under a head nothing in it goes before |
| MockFilters.InsertLowerBound | tests/conftest.py:313 | a lower bound survives an insertion of a row it bounds |
| MockFilters.SortRowsSorts | tests/conftest.py:311-313 | the result is ordered by the column's text in the asked direction and is a permutation of the input |
| MockFilters.SliceBound | tests/conftest.py:317 | a slice bound lies within the list |
| MockFilters.PySlice | tests/conftest.py:317-319 | a slice is no longer than the list |
| MockFilters.AllIndices | tests/conftest.py:329 | the whole table is every position in order |
| MockFilters.RangeIsInclusive | tests/conftest.py:315-317 | `range(start, end)` returns rows `start` through `end`, both included |
| MockDb.DefaultsShape | tests/conftest.py:181-230 | no table's defaults supply an id or tx_ref, and every table's include both timestamps set to `now` |
| MockDb.WithDefaults | tests/conftest.py:181-230 | a row keeps every value it had and gains exactly the defaults it lacked |
| MockDb.NewRowShape | tests/conftest.py:246-253 | an inserted row keeps each payload value, has an id (the drawn one when it had none), gains only the missing defaults, and a transaction without tx_ref gets a `TX-` one of at most 11 characters |
| MockDb.NewRow | tests/conftest.py:239-255 | the row insert stores for a payload: the payload, a drawn id if it has none, the missing defaults and, for transactions, a drawn tx_ref |
| MockDb.CompleteShape | tests/conftest.py:246-253 | completing a payload keeps its values, gives it an id, adds only the defaults it lacks and, for a transaction, a tx_ref |
| MockDb.NewRows | tests/conftest.py:246-254 | one row per payload, in order |
| MockDb.MergeAt | tests/conftest.py:260-262 | the update loop keeps the table's length |
| MockDb.MergeAtPicked | tests/conftest.py:257-263 | exactly the picked rows take the payload; the others are untouched |
| MockDb.RowsAt | tests/conftest.py:258 | the rows at the picked positions, in order |
| MockDb.IdsOf | tests/conftest.py:303 | one id per row |
| MockDb.KeepRows | tests/conftest.py:304-306 | the kept rows are exactly those whose id is not listed, as a subsequence |
| MockDb.FindFirst | tests/conftest.py:276-283 | the position found is the first row whose column renders as the key; no match is reported exactly when every row has the column and none matches; the only error is a KeyError on that column |
| MockDb.UpsertOne | tests/conftest.py:273-298 | one payload leaves the table no shorter, and the position returned is a row of the result |
| MockDb.UpsertFrom | tests/conftest.py:272-299 | the upsert loop leaves the table no shorter, and its positions are rows of the final table |
| MockDb.UpsertSpec | tests/conftest.py:265-299 | the upsert fold's table, and the rows at its positions as the response |
| MockDb.UpsertFromStep | tests/conftest.py:272-299 | one turn of the upsert loop |
| MockDb.InsertAppendsCopies | tests/conftest.py:239-255 | an insert appends exactly one copy per payload, each with an id, keeps the old rows and returns the appended rows |
| MockDb.UpdateMergesExactlyTheMatches | tests/conftest.py:257-263 | an update merges the payload into exactly the rows passing every filter and returns them; a raising filter leaves the table |
| MockDb.DeleteRemovesMatchedIds | tests/conftest.py:301-307 | a delete drops every matched row, keeps the rest in order and returns the matched rows |
| MockDb.UpsertUpdatesInPlace | tests/conftest.py:285-287 | a payload whose id is in the table updates that row in place and nothing else |
| MockDb.UpsertWithoutMatchInserts | tests/conftest.py:288-298 | a payload without a matching id behaves exactly like an insert |
| MockDb.RangeBeatsLimit | tests/conftest.py:315-319 | a range makes the limit irrelevant, and a zero limit is no limit |
| MockDb.SelectReturnsFiltered | tests/conftest.py:309-326 | a plain select returns the filtered rows and their count, and `single()` the first or none |
| MockDb.SelectSpec | tests/conftest.py:309-326 | the rows passing the filters, sorted if asked, cut by range or else limit, or the first of them for `single()` |
| MockDb.ExecuteTouchesOneTable | tests/conftest.py:232-236 | `execute` changes only its own table, creating it empty when missing; a select changes no row |
| MockDb.WalletRpcAddsDelta | tests/conftest.py:72-82 | the found wallet's field gains exactly the delta as a float, defaulting to `balance`, and nothing else changes |
| MockDb.WalletRpcCredits | tests/conftest.py:72-82 | when the wallet is found, the call succeeds and that wallet's field becomes its old value plus the delta, the rest of the tables unchanged |
| MockDb.WalletRpcUnknownUserSucceeds | tests/conftest.py:78-82 | an unknown user changes nothing and still succeeds |
| MockDb.FindFirstIgnoresOtherColumns | tests/conftest.py:76-78 | changing a column other than the searched one does not change which row is found |
| MockDb.WalletRpcCallsAddUp | tests/conftest.py:72-82 | the first call sets the field to its value plus the first delta; the second, finding the same wallet, adds the second delta; both succeed |
| MockDb.MockDatabase.constructor | tests/conftest.py:432-458 | the client starts with the given tables |
| MockDb.MockDatabase.UpdateWalletBalance | tests/conftest.py:72-82 | the tables and reply are `WalletRpcSpec` of the old tables |
| MockDb.WalletRpcSpec | tests/conftest.py:72-82 | only the wallets table can change, and a call that raises changes nothing |
| MockDb.QueryBuilder.constructor | tests/conftest.py:98-107 | a new builder has no filters, limit, order, range or operation and is not single |
| MockDb.QueryBuilder.Insert | tests/conftest.py:114-117 | records an insert of the payloads and nothing else |
| MockDb.QueryBuilder.Update | tests/conftest.py:119-122 | records an update with the payload and nothing else |
| MockDb.QueryBuilder.Upsert | tests/conftest.py:124-127 | records an upsert of the payloads and nothing else |
| MockDb.QueryBuilder.Delete | tests/conftest.py:129-131 | records a delete and nothing else |
| MockDb.QueryBuilder.Eq | tests/conftest.py:133-135 | appends an `eq` filter on the value's text |
| MockDb.QueryBuilder.Neq | tests/conftest.py:137-139 | appends a `neq` filter on the value's text |
| MockDb.QueryBuilder.Lt | tests/conftest.py:141-143 | appends an `lt` filter on the value itself |
| MockDb.QueryBuilder.Gt | tests/conftest.py:145-147 | appends a `gt` filter on the value itself |
| MockDb.QueryBuilder.Gte | tests/conftest.py:149-151 | appends a `gte` filter on the value itself |
| MockDb.QueryBuilder.Lte | tests/conftest.py:153-155 | appends an `lte` filter on the value itself |
| MockDb.QueryBuilder.In | tests/conftest.py:157-159 | appends an `in` filter on the values |
| MockDb.QueryBuilder.Or | tests/conftest.py:161-163 | appends an `or` filter with the criteria text |
| MockDb.QueryBuilder.Order | tests/conftest.py:165-167 | sets the ordering and nothing else |
| MockDb.QueryBuilder.Limit | tests/conftest.py:169-171 | sets the limit and nothing else |
| MockDb.QueryBuilder.Range | tests/conftest.py:173-175 | sets the range and nothing else |
| MockDb.QueryBuilder.Single | tests/conftest.py:177-179 | sets `single` and nothing else |
| MockDb.QueryBuilder.Execute | tests/conftest.py:232-326 | the tables and response are `ExecuteSpec` of the old tables and the recorded query |
| MockDb.ExecuteSpec | tests/conftest.py:225-326 | only the query's table changes, and it exists afterwards |
| MockDb.QueryBuilder.Select | tests/conftest.py:309-326 | the select computes `SelectSpec` |
| MockDb.QueryBuilder.RunInsert | tests/conftest.py:239-255 | the insert loop computes `InsertSpec` |
| MockDb.QueryBuilder.RunUpdate | tests/conftest.py:257-263 | the update loop computes `UpdateSpec` |
| MockDb.QueryBuilder.RunUpsert | tests/conftest.py:265-299 | the upsert loop computes `UpsertSpec` |
| MockDb.QueryBuilder.RunDelete | tests/conftest.py:301-307 | the delete computes `DeleteSpec` |
| Pipeline.DeliveryRefReachesItsHandler | app/services/delivery_service.py:89-100 | a delivery reference routes to the delivery handler, which reads the key the initiator saved under |
| Pipeline.TopUpRefReachesItsHandler | app/services/wallet_service.py:145-154 | a top-up reference routes to the top-up handler, which reads the key the initiator saved under |
| Pipeline.WalletRefsHaveNoHandler | app/services/wallet_service.py:351 | `PAY-` and `TRF-` references carry no handler prefix |
| Pipeline.HandlerKeysDistinct | app/services/payment_service.py:37 | different handlers read different pending keys |
| Pipeline.DeliveryPaymentFailsAsWritten | app/services/delivery_service.py:92-98 | as written, every verified delivery payment whose intent is found fails on the missing `delivery_fee`, with no write; a record with the read keys gives the intended run |
| Pipeline.TopUpPaymentFindsNoIntentAsWritten | app/services/wallet_service.py:145-154 | as written the top-up handler finds no intent for the generated reference and writes nothing; with the intent saved, a matched verified payment is processed |

## Left out

- Notifications, audit logging and logging calls are left out. They are best-effort side effects with no effect on the modelled state.
- The delivery stored procedures are recorded as uninterpreted calls and never interpreted, because their bodies are not in the repository. These are `assign_rider_to_delivery`, `mark_delivery_as_picked_up`, `mark_delivery_as_completed`, `mark_delivery_as_cancelled` and `clear_rider_assignment`.
- The withdrawal procedures are not modelled, for the same reason. These are `process_withdrawal`, `refund_failed_withdrawal` and `update_withdrawal_status`.
- The commented-out block at the end of `app/services/delivery_service.py` is not modelled, because it is dead code.
- `withdraw_all_balance`, in the wallet service and its route, is left out. It is driven by the Flutterwave transfer API over HTTP.
- `get_wallet_details` is left out. It only reads, and its float conversion and rounding are outside the exact-decimal model.
- The push-token lookup in `app/utils/utils.py` is left out. It is a read for notifications.
- Redis key expiry is not modelled: the 30-minute pending intents and the 15-minute login keys.
- The RQ worker and the pgmq consumer are not modelled, because they are external processes. Queued jobs and messages are kept as data.
- The webhook enqueues the job with a `payment_method` keyword and without a database client, and the handlers accept neither. The model assumes the worker calls the handler with the tx_ref, the amount, the flw_ref and the database.
- Exceptions raised by the database client itself are not modelled, because every call succeeds in the model. The handlers' `except` branches, which log, delete the intent and re-raise, are therefore left out.
- `request_withdrawal` turns its own 400 rejections into a 500 through its blanket `except`, and `approve_withdrawal` turns its 404 and 400 into a 500 the same way. The model keeps the error kinds distinct, and the status code is not modelled.
- Delivery.InitiateDeliveryPayment: the pending record as written lacks `delivery_fee` and `amount_due_dispatch`, which the delivery handler reads. So every delivery payment fails with a KeyError, creates no order and is retried to the same end (see Findings). The model's intent carries the quoted fee and no dispatch share.
- Delivery.DeliveryOrder.UpdateStatus: `update_delivery_status` calls `assign_rider`, `pickup_delivery`, `mark_in_transit` and `mark_delivered` with more arguments than they accept. So as written every ASSIGNED, PICKED_UP, IN_TRANSIT and DELIVERED request fails with a 500 (see Findings). The model dispatches each handler as intended.
- Order.UpdateOrderStatus: the source reads attributes off the fetched dict and off the list of transactions. So as written every authorized COMPLETED or CANCELLED of a live order fails with a 500 and moves no money (see Findings). The model reads the row's fields and asks whether the order has an ESCROW_HOLD row.
- Payment.ProcessSuccessfulLaundryPayment: the handler multiplies the stored `grand_total` by a Decimal without converting it, as the food and product handlers do. The model assumes `grand_total` is stored as an int, because the laundry service that saves the intent is not part of this model. A float or text value would raise TypeError, drop the intent and create no order.
- Wallet.InitiateWalletTopUp: the wallet service imports the `datetime` class, so `datetime.datetime.now()` in the pending record raises AttributeError. As written, every top-up that passes both ceiling checks fails with a 500 before its intent is saved, so no top-up is ever credited (see Findings). The model saves the intent as intended and does not store the timestamp.
- WalletRoute.PayWithWallet: the balance check is a parameter, because `verify_wallet_balance` is not part of this model.
- Escrow.CreateEscrowAgreement: the expiry date, title, terms and contact fields are stored data with no effect on any decision, so they are not modelled.
- MockValues.Render: `str(float)` is modelled in fixed-point form only. Python's exponent form for very large or small floats is not modelled, and a float beyond seventeen fractional digits is truncated.
- MockValues.AsFloat: mock floats are exact reals, so the value `float()` would round a decimal text to, the nearest binary double, is not modelled.
- MockDb.WalletRpcSpec: the procedure adds the two values exactly, where Python adds binary doubles and rounds; `0.1 + 0.2` gives 0.3 in the model and 0.30000000000000004 in the mock. Double rounding is not modelled.
- MockValues.AsFloat: only `[sign]digits[.digits]` texts parse. Exponents, `inf`, `nan`, blanks and underscores, which Python also accepts, are refused.
- MockDb.DeleteRemovesMatchedIds: ids compare as model values, so Python's `1 == 1.0 == True` is not reproduced.
- Nested list and dict cell values in the mock are not modelled.
- The mock's `select` column list and count mode are not modelled, because the mock records them and ignores them.
- The mock's other procedures and `MockSupabaseAuth` are not modelled. The procedures return canned data.
- MockDb.NewRow: both timestamps of a new row take the same `now` value.
- MockDb.UpsertSpec: upsert returns the rows as read from the final table. This differs from the Python objects only where a later payload changed a row an earlier one returned.

## Findings

| source | as written | input that shows it | evidently intended | confidence | as-written member | corrected member |
|---|---|---|---|---|---|---|
| app/services/escrow_service.py:23 | the commission rate is asked for under "ESCROW_AGREEMENT", which `get_commission_rate` rejects, so creation always fails | any creation request, whatever the charges row holds | a rate the lookup knows, such as a configured escrow rate | high, not executed | Escrow.CreationAlwaysFailsAsWritten | Escrow.CreationEffects |
| app/common/order.py:194-206 | status-only updates are written to "food_orders" whatever `table_name` the order was read from | a laundry order set to PREPARING by its vendor: success is reported and the status stays PENDING | write to `table_name`, as the COMPLETED and CANCELLED branches do | high, not executed | Order.FoodOrdersTableIsHardCoded | Order.StatusOnlyWrite |
| app/common/order.py:83 | COMPLETED reads `transaction_type` off the list of the order's transactions, and CANCELLED (line 136) reads it off the order dict; both raise AttributeError | a customer completing a DELIVERED food order whose escrow is held: a 500, and no money moves | test the order's ESCROW_HOLD transaction, as the docstring says | high, not executed | Order.EscrowChecksFailAsWritten | Order.CompletionEffects |
| app/services/delivery_service.py:176 | `assign_rider`, `pickup_delivery`, `mark_in_transit` and `mark_delivered` (lines 176, 182, 185, 188) are called with one argument more than they declare, so each call raises TypeError | a sender assigning rider "rider-1" to a PENDING delivery: a 500, and no rider is assigned | call each handler with the parameters it declares | high, not executed | Delivery.ExtraArgumentsFailAsWritten | Delivery.DeliveryOrder.UpdateStatus |
| app/services/delivery_service.py:92-98 | the pending record saves neither `delivery_fee` nor `amount_due_dispatch`, but the delivery handler reads both (payment_service.py:44, 47) | any verified delivery payment whose intent was saved: KeyError, no order, the intent kept | save the quoted fee (and the dispatch share) in the record | high, not executed | Pipeline.DeliveryPaymentFailsAsWritten | PaymentProps.DeliveryPaymentEffects |
| app/services/wallet_service.py:152 | the pending record's `created_at` calls `datetime.datetime.now()`, but the module imports `datetime` as the class (lines 6 and 28), so the call raises AttributeError | any top-up of 1,000 on a wallet holding 0: a 500, no `pending_topup_` intent, and the later payment is never credited | call `datetime.now()`, as the rest of the module does | high, not executed | Wallet.InitiateWalletTopUpAsWritten | Wallet.InitiateWalletTopUp |
| app/routes/wallet_route.py:105-116 | the idempotency lookup selects only `id, status`, but the early reply reads `tx_ref` and `amount` from the fetched row | any repeated wallet payment with a recorded tx_ref: a KeyError, answered with a 500 | select the columns the reply reads | high, not executed | WalletRoute.ReplayAnswersServerErrorAsWritten | WalletRoute.ReplayIsIdempotent |
