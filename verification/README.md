# Order Hub in Dafny

Order Hub takes orders, reserves offers, freezes ledger money and inventory, and later pays, fulfils,
cancels, refunds or closes, all without a distributed transaction. Many calls act on one order at once;
each makes fallible calls to a ledger, an offer hub and a fulfilment adapter, and safety rests on one
compare-and-swap over version and status. This project models that protocol, the integer money
arithmetic under it, and the small stateful components beside it, and proves what they guarantee.

## Layout

- `Base`, `Arith`, `Int64`: shared vocabulary, small facts about products, powers and floors, Go's
  int64 (wrap-around, truncating division).
- `Amounts`, `Allocation`, `RefundMath`, `RefundRuns`: checked arithmetic, order totals, spreading a
  discount over lines in place, splitting refunds, reversing discounts over whole refund histories.
- `Orders`: orders, scenes, the transition table, and the conditional update of both repositories.
- `Ledger`, `Offer`: the two downstream stand-ins, each as a value with its books and as an object.
- `Repository`, `Hashing`, `Quoting`, `Checkout`: the order repository as an object, canonical hash
  documents, preview and quote-citing checkout, and one checkout from start to end with its rollback.
- `SagaState`, `SagaProgram`: shared state, and every service call as a program whose steps are single
  atomic calls that may succeed, fail, or take effect while the reply is lost. A run is any
  interleaving of any number of calls; a call that is never scheduled again has been abandoned.
- `SagaInvariant`, `SagaCalls`, `SagaStore`, `SagaStability`, `SagaSteps`, `SagaRefundSteps`,
  `SagaWorkerSteps`, `SagaMarks`, `SagaRuns`: a rely-guarantee argument. Every step keeps the shared invariant and
  guarantees enough to the others that what each call knows at its program counter stays true.
- `SagaTheorems`, `SagaLimits`, `SagaEndings`, `SagaRetries`: what follows for every reachable state,
  runs that show where a guarantee stops, so that its condition is exact, and exactly which REFUNDING
  and COMPENSATING orders can still leave their status.
- `SagaAlone`, `SagaOutcomes`, `SagaErrands`, `SagaFailures`: what each call achieves when it is left
  alone and its steps succeed, from any reachable state, and what is undone or left to a ticket when one
  of its steps fails.
- `Tickets`, `Outbox`, `Snowflake`: the retry budget under passes, crashes and manual retries, the
  outbox drained by an in-place filter, the id generator under an arbitrary clock.

## What the code turned out to do

- In a scene that allows close, effects come before the compare-and-swap: a reservation can be both
  committed and released, and two closes side by side credit twice. Both happen exactly in such scenes
  (`SagaLimits.CommitMeetsReleaseIffClose`, `SagaLimits.CreditsBoundedIffNoClose`).
- If inserting a ticket can fail, an order can be left COMPENSATING with nobody to retry it
  (`SagaLimits.TicketedIffReliable`).
- A checkout that loses the insert race is answered with the winner's order, and that is always the
  order of a different request: two identical racing requests never get there, because the loser meets
  the client key first (`SagaTheorems.OwnAnswerIffNotLost`, `SagaEndings.ForeignAnswer`).
- A refund that fails after its first swap leaves the order REFUNDING for good
  (`SagaEndings.RefundLeavesIffBeingFinished`).
- A COMPENSATING order is not always retried out. Ledger money in a scene without a ledger mode has no
  freeze to capture; and where a scene has an offer mode and allows close, a close that reads the order
  PAID can give the reservation back before payment commits it, after which every commit is refused.
  Then, unless some call was already past the commit, the order stays COMPENSATING for good; that
  happens in no other case and only in such scenes
  (`SagaRetries.CompensatingLeavesIffRetriable`, `SagaRetries.StuckForGoodIff`).
- A done after-paid ticket says that the order has left PAID and COMPENSATING, not that it was served:
  completion, refund and close also start from PAID. Some run completes an order whose reservation is
  still active and whose freeze is still open, and then finishes its ticket
  (`SagaRetries.CompletedUnserved`). What was fulfilled or left COMPENSATING was served
  (`SagaTheorems.AdvancedWasServed`).
- A partial refund whose discount share floors to zero reverses all that is left of the discount
  (`RefundRuns.PartialReversedByShareIff`).
- The products of a refund split, a discount reversal and a discount allocation wrap around on int64.
  An order of 2^32 units paid by the ledger alone is accepted, and its full refund goes to the channel
  (`RefundRuns.WrappedRefund`). The bounds on ledger, channel and reversals hold over all refund
  histories exactly when the largest product fits (`RefundRuns.ChannelBoundIff`,
  `RefundRuns.LedgerBoundIff`, `RefundRuns.FloorsReversedIff`), and so does the allocation law over two
  lines (`Allocation.TwoLinesLawfulIff`).
- Where such a product wraps to a negative ledger share, the channel is paid more than the refund; paid
  out in all is then more than was refunded, and that happens in no other case
  (`SagaTheorems.PaidOutExactlyIff`, `RefundRuns.OverpaidRefund`).
- A credit to an account nobody touched starts it from zero instead of the default balance. That takes
  an order with ledger money in a scene without a ledger mode, or a close for an order that names no
  asset (`SagaTheorems.LedgerConserved`, `SagaLimits.OddOpeningIffLoose`).
- Previewing in a freeze-capture scene and resending an explicit ledger share of zero is refused as
  stale, because preview hashes the share it defaulted to (`Quoting.ResendStandsIff`).
- When the hub issues another quote id and the cached snapshot is gone by then, checkout accepts
  another discount than the preview showed (`Quoting.RepeatsIffRemembered`, `Quoting.OtherDiscount`).
- With more than 200 pending events the listed batch is a window into the array that the filter
  rewrites: every removal hides the next event from the same pass, and past the middle of the window
  the last event is published again and again, a hundred times for 201 pending
  (`Outbox.OutboxStore.Tick`, `Outbox.RepeatsIff`, `Outbox.LastRepeats`).
- Tickets are tried past their twentieth attempt in three ways: a worker that dies within a pass leaves
  them running, and they are claimed again at once; a manual retry that fails puts a failed ticket back
  to pending with its attempts used up; and a slow worker's report on an earlier attempt does the same.
  Nothing else goes past it (`Tickets.PastBudgetIff`, `Tickets.OverBudgetIff`).
- `Mul` misreports one product, -1 times the smallest int64; `Sub` is wrong exactly for subtracting the
  smallest int64. Neither is reachable from prices and quantities.

## Model

| member | source | states |
|---|---|---|
| SagaTheorems.NeverPaidAndCancelled | internal/application/query_cancel.go:134-193 | an order seen paid (or later) at any moment of any run is never seen CANCELLED at any other moment |
| SagaTheorems.CaptureExcludesRelease | internal/application/payment_refund.go:104-206 | in every run no freeze id is both captured and released; captures are only of orders past payment, releases of stored orders only of CANCELLED ones |
| SagaTheorems.CommitExcludesRelease | internal/application/payment_refund.go:165-176 | a reservation both committed and released belongs to a stored, paid order of a scene that allows close |
| SagaLimits.CommitMeetsReleaseIffClose | internal/application/close.go:57-66 | for every scene with an offer mode, some run issues Commit and Release on one reservation if and only if the scene allows close |
| SagaTheorems.MoneyFollowsStatus | internal/domain/amount.go:98-118 | every stored order of every run has 0 <= Refunded <= Paid <= Payable = Original - Discount = LedgerPay + ChannelPay, and its status fixes Paid and Refunded |
| SagaTheorems.CompensatingIsTicketed | internal/application/payment_refund.go:133-146 | with reliable ticket insertion a COMPENSATING order always has an after-paid ticket that is not done |
| SagaLimits.TicketedIffReliable | internal/application/payment_refund.go:133-146 | that guarantee holds over all runs if and only if inserting tickets cannot fail |
| SagaTheorems.CancelledDebtsCovered | internal/application/query_cancel.go:168-188 | with reliable ticket insertion a CANCELLED order with an open freeze, an active reservation or inventory still held has a cancelling call still on its way to it, or a matching release ticket that is not done |
| SagaTheorems.LedgerConserved | internal/infra/ledgerclient/client.go:132-195 | in every run, per account, balance + open freezes + captures = opening balance + credits; no balance is negative; the opening balance is the default unless a stored order is loose on this very account: ledger money without a ledger mode, or a close for an order that names no asset |
| SagaLimits.OddOpeningIffLoose | internal/infra/ledgerclient/client.go:189-195 | for every scene, some run over its orders gives an account another starting balance than the default if and only if the scene has no ledger mode or allows close |
| SagaTheorems.CreditsBounded | internal/application/payment_refund.go:299-336 | in scenes without close the credits for one order never exceed its LedgerPay, also after refunds that failed midway |
| SagaLimits.CreditsBoundedIffNoClose | internal/application/close.go:68-82 | credits stay within LedgerPay in all runs if and only if the scene does not allow close |
| SagaTheorems.RefundsPaidOut | internal/application/payment_refund.go:299-336 | in every run the finished refunds of an order add up to what it has refunded; unless one is under way or has stopped midway, and as long as no product overflows, the channel was paid them less the floors of their ledger shares and, without close, exactly those floors were credited, all of them to the order's own account |
| SagaTheorems.PaidOutExactlyIff | internal/application/payment_refund.go:391-403 | also where products overflow, finished refunds never pay out less than they refund, and pay out exactly that if and only if no ledger share is computed negative |
| SagaTheorems.CreditsArePayments | internal/infra/ledgerclient/client.go:189-195 | in every run the credits of an account are the payments made into it, and every payment is for a stored order |
| SagaTheorems.ReversalsBounded | internal/infra/offerclient/client.go:339-358 | in every run the reversed part of a redemption stays within its discount, which is the order's own discount |
| SagaTheorems.KeysAreUnique | internal/infra/memory/order_repo.go:50-76 | at most one order per client key and per idempotency key, and every idempotency record points to a stored order |
| SagaTheorems.SameKeySameOrder | internal/application/checkout.go:313-338 | any two checkouts that succeed under one key return the same stored order, also through a lost insert race |
| SagaTheorems.OwnAnswerIffNotLost | internal/application/checkout.go:313-338 | in every run a successful checkout is answered from a record with its own request hash if and only if it did not lose the insert race |
| SagaState.ConflictIsForeign | internal/infra/memory/order_repo.go:56-68 | the client key is tested before the idempotency key and enters the hash, so a key conflict at insert is always with a different request |
| SagaEndings.ForeignAnswer | internal/application/checkout.go:325-331 | a run of two checkouts, both past their lookups before either inserts, in which no lookup fails and the one that lost the race succeeds with the order of the other |
| SagaEndings.RefundLeavesIffBeingFinished | internal/application/payment_refund.go:286-336 | in every reachable state a REFUNDING order can still leave that status, by some continuation, if and only if some call is between the two swaps of its refund |
| SagaEndings.StrandedForever | internal/application/payment_refund.go:299-336 | once the refunding call has ended, the order stays REFUNDING at the same version in every continuation |
| SagaEndings.RefundCanBeStranded | internal/application/payment_refund.go:299-304 | in every scene some run ends the refund after its first swap, through a failed channel refund |
| SagaTheorems.UnfrozenStaysCompensating | internal/application/payment_refund.go:177-181 | an order COMPENSATING with ledger money and no freeze id stays so at the same version for the rest of every run, whatever its ticket does |
| SagaRetries.StuckIffNoLedgerMode | internal/domain/scene.go:122-130 | for every scene, some run leaves one of its orders in that state if and only if the scene has no ledger mode; this is one of two ways to be stuck |
| SagaRetries.CompensatingLeavesIffRetriable | internal/application/payment_refund.go:104-206 | in every reachable state a COMPENSATING order can still leave that status, by some continuation, if and only if its ledger money is frozen and either its reservation, if any, is not RELEASED or some call on its current version is already past the commit |
| SagaRetries.HopelessForever | internal/application/payment_refund.go:165-206 | an order for which that does not hold stays COMPENSATING, and so does the fact that it does not hold, in every continuation |
| SagaRetries.GivenBackReached | internal/application/close.go:57-66 | in every scene with an offer mode that allows close, some run leaves an order COMPENSATING with its reservation released by a close that read it PAID, and no call past the commit |
| SagaRetries.StuckForGoodIff | internal/application/payment_refund.go:165-181 | for every scene, some run leaves one of its orders COMPENSATING for good if and only if the scene has no ledger mode, or has an offer mode and allows close |
| SagaTheorems.AdvancedWasServed | internal/application/payment_refund.go:165-206 | in every run an order that was ever FULFILLING, or has left COMPENSATING, has its reservation, if any, committed and turned into a redemption, and its ledger money frozen and its freeze captured |
| SagaTheorems.SceneDecidesRoute | internal/application/payment_refund.go:187-206 | in every run an order of an autoComplete scene is never FULFILLING, and every order leaves COMPENSATING for COMPLETED in such a scene and for FULFILLING in any other |
| SagaRetries.CompletedUnserved | internal/application/payment_refund.go:208-230 | in every scene some run ends with every call over, the order COMPLETED straight from PAID and its after-paid ticket done, but the reservation still active and never committed and the freeze still open and never captured |
| SagaTheorems.HistoryIsPath | internal/domain/statemachine.go:3-46 | an order's history is a path in the transition table from PENDING_PAY to its status, one version per step, with Version <= 5 + max(1, 2 * Payable) |
| SagaTheorems.EventsMatchHistory | internal/infra/memory/order_repo.go:161-165 | the events ever written for an order are those of its path, and number Version minus its entries into REFUNDING and COMPENSATING |
| SagaTheorems.OrderEvolves | internal/infra/memory/order_repo.go:121-167 | between any two moments of a run an order stays stored on the same terms, its version never falls, and an equal version means equal status and money |
| SagaRuns.Reachable | internal/application/payment_refund.go:104-339 | the invariant holds in every state of every run from the empty system |
| SagaRuns.ExecOk | internal/application/payment_refund.go:104-339 | every step of every call keeps the shared invariant, its own knowledge, and the guarantee to the other calls |
| SagaStability.CallStable | internal/infra/memory/order_repo.go:121-167 | no step of another call invalidates what a call knows at its program counter |
| SagaSteps.CheckoutStepOk | internal/application/checkout.go:108-338 | each step of checkout, including its rollback, and the balance query of a preview keep the invariant and the guarantee |
| SagaSteps.PayStepOk | internal/application/payment_refund.go:104-163 | so does each step of payment and of the retry's read |
| SagaSteps.AfterPaidStepOk | internal/application/payment_refund.go:165-206 | each step after payment, commit, redemption, capture, fulfilment, advance, keeps the invariant and the guarantee; the advance goes where the scene leads |
| SagaSteps.CancelStepOk | internal/application/query_cancel.go:134-193 | so does each step of cancellation and timeout |
| SagaRefundSteps.RefundStepOk | internal/application/payment_refund.go:248-339 | so does each step of refund, between its two swaps; what it pays is what the refund owes to channel and ledger |
| SagaRefundSteps.CreditFits | internal/application/payment_refund.go:391-403 | one more refund's credit keeps the total within the ledger share of everything refunded including it |
| SagaRefundSteps.CloseStepOk | internal/application/close.go:33-97 | so does each step of close, and of completion |
| SagaWorkerSteps.TicketStepOk | internal/application/compensate.go:32-99 | so does each step of a ticket handler; a release ticket is marked done only when the freeze is closed, the reservation no longer active, the inventory no longer held or the redemption fully reversed, for good, and an after-paid ticket only when the order has left PAID and COMPENSATING for good |
| SagaWorkerSteps.ReconStepOk | internal/application/recon.go:40-150 | so does each step of reconciliation |
| SagaStore.CasOk | internal/infra/memory/order_repo.go:121-167 | the compare-and-swap on a snapshot keeps the invariant, and when it succeeds the snapshot described the stored order |
| SagaStore.InsertCheckoutOk | internal/infra/memory/order_repo.go:50-76 | inserting a checkout keeps the invariant, answers it from its own record, and meets a key conflict only with another request |
| SagaRuns.DebtStep | internal/application/query_cancel.go:168-188 | every step keeps the freeze, reservation and inventory debts of every cancelled order covered |
| SagaMarks.ExecUnmarked | internal/infra/memory/order_repo.go:121-167 | only the swap of a cancelling call cancels an order, and only the first swap of a refund makes one REFUNDING |
| SagaMarks.ExecKeepsCompensating | internal/infra/memory/order_repo.go:121-167 | only the swap at the end of the steps after payment, on the order's current version, takes it out of COMPENSATING |
| SagaRuns.RefunderStep | internal/application/payment_refund.go:286-336 | every step keeps each REFUNDING order with the call that took it there, still at work on it or over |
| SagaOutcomes.PaymentAlone | internal/application/payment_refund.go:104-206 | from any reachable state a payment left alone ends COMPLETED if the scene is autoComplete and FULFILLING if not, with the reservation redeemed, the redemption id on the order, the freeze captured and the goods held; exactly when the ledger money was never frozen or the reservation was given back it ends COMPENSATING with an after-paid ticket |
| SagaOutcomes.RetryAlone | internal/application/payment_refund.go:148-163 | a retry serves a PAID or COMPENSATING order in the same way if it can be served, and otherwise reports failure and leaves its status |
| SagaOutcomes.CancelAlone | internal/application/query_cancel.go:134-193 | a cancellation cancels the order, releases its reservation, pays its freeze back and frees its goods |
| SagaOutcomes.CompleteAlone | internal/application/payment_refund.go:208-230 | a completion takes a PAID or FULFILLING order to COMPLETED and changes nothing else |
| SagaOutcomes.CloseAlone | internal/application/close.go:33-97 | a close reverses all that is left of a redeemed discount or releases the reservation, credits the ledger share of what was not refunded, frees the goods and closes the order |
| SagaOutcomes.RefundAlone | internal/application/payment_refund.go:248-339 | a refund that its order and request allow pays the channel its part and the order's account the ledger share, takes the discount's share back or leaves a ticket for it, and ends REFUNDED exactly when everything paid is refunded |
| SagaOutcomes.RefundRefused | internal/application/payment_refund.go:256-264 | a refund that the status or the request does not allow changes nothing |
| SagaErrands.TicketAlone | internal/application/compensate.go:32-99 | a ticket that is pending or was left running does what its kind names and nothing else, and is then done if its handling works and pending if not |
| SagaErrands.ManualAlone | internal/application/compensate.go:57-99 | an operator's retry does the same for a ticket in any status |
| SagaErrands.ReconAlone | internal/application/recon.go:65-150 | a reconciliation tickets an active reservation of an order past payment, cancelled or closed, unless an open ticket is there, records a missing redemption id of a committed one, and changes nothing else |
| SagaErrands.DivergentIsTicketed | internal/application/recon.go:82-140 | so a divergent order ends with an open ticket of the fitting kind |
| SagaErrands.CheckoutAlone | internal/application/checkout.go:108-345 | a first checkout is accepted if and only if the buyer's balance covers the ledger part, and then its order is stored with its reservation, freeze and inventory; otherwise only a released reservation is left |
| SagaErrands.RepeatAlone | internal/application/checkout.go:108-143 | a checkout under a known key is answered with its order exactly when the hashes agree, and a taken client id is refused, with nothing changed |
| SagaErrands.BalanceAlone | internal/application/preview.go:124-133 | a balance query opens the account and changes nothing else |
| SagaFailures.CheckoutGivesBack | internal/application/checkout.go:205-338 | whichever call of a checkout fails, and when its insert is refused, everything acquired so far is given back; only one whose key was taken meanwhile is still answered |
| SagaFailures.LateRepeatAlone | internal/application/checkout.go:136-143 | a request that finds its answer only at the second lookup is answered all the same |
| SagaFailures.PaymentFails | internal/application/payment_refund.go:104-146 | wherever a payment fails once the order is PAID, the order ends COMPENSATING with an after-paid ticket |
| SagaFailures.RetryFails | internal/application/payment_refund.go:148-163 | a failing retry changes no order and leaves its ticket open |
| SagaFailures.ReversalFails | internal/application/payment_refund.go:311-336 | a refund whose reversal fails is finished all the same and leaves a ticket for the reversal |
| SagaFailures.CloseFails | internal/application/close.go:57-90 | a close that fails on the way closes nothing |
| SagaFailures.CommitFails | internal/application/recon.go:113-140 | a reconciliation that cannot learn the redemption id leaves an open after-paid ticket |
| SagaAlone.AloneIsRun | internal/application/payment_refund.go:104-339 | a call left alone is a run of the saga, so all of this is about reachable states |
| Orders.SqlRefinesMemory | internal/infra/persistence/order_repo.go:154-222 | for every command a service issues, the SQL update and the in-memory transition accept alike and produce the same order |
| Orders.RepositoriesAgreeIffTableBacked | internal/infra/persistence/order_repo.go:154-222 | the two repositories agree on all orders if and only if the transition table backs every source status the command names |
| Repository.OrderRepo.Transition | internal/infra/memory/order_repo.go:121-167 | the object's compare-and-swap gives exactly the specified order, error and event, and changes nothing when refused |
| Repository.OrderRepo.InsertCheckout | internal/infra/memory/order_repo.go:50-76 | order, client index, idempotency record and event are stored together or not at all |
| Repository.InsertedIsTheStep | internal/infra/memory/order_repo.go:50-76 | the object's insert is the saga's atomic insert step |
| Ledger.FreezeBooked | internal/infra/ledgerclient/client.go:143-160 | a freeze of any amount, even a negative one, conserves money |
| Ledger.CaptureBooked | internal/infra/ledgerclient/client.go:162-172 | capturing conserves money, also on a ledger with negative amounts |
| Ledger.ReleaseBooked | internal/infra/ledgerclient/client.go:174-187 | releasing conserves money, also on a ledger with negative amounts |
| Ledger.CreditBooked | internal/infra/ledgerclient/client.go:189-195 | a credit of any amount conserves money against the credits booked |
| Ledger.FreezeSound | internal/infra/ledgerclient/client.go:143-160 | while no amount is negative, freezing keeps every balance and freeze non-negative |
| Ledger.CaptureSound | internal/infra/ledgerclient/client.go:162-172 | capturing keeps every balance and freeze non-negative |
| Ledger.ReleaseSound | internal/infra/ledgerclient/client.go:174-187 | releasing keeps every balance and freeze non-negative, however often it is repeated |
| Ledger.CreditSound | internal/infra/ledgerclient/client.go:189-195 | while no amount is negative, crediting keeps every balance and freeze non-negative |
| Ledger.CaptureSettles | internal/infra/ledgerclient/client.go:162-187 | a captured open freeze moves its amount from frozen to captured money, is never open again, and a later release pays nothing |
| Ledger.ReleaseSettles | internal/infra/ledgerclient/client.go:162-187 | a released open freeze goes back into its account once, and a later capture takes nothing |
| Ledger.LedgerMock.GetBalance | internal/infra/ledgerclient/client.go:132-141 | the first query opens the account with the default balance, and the books stay sound |
| Ledger.LedgerMock.Freeze | internal/infra/ledgerclient/client.go:143-160 | the object freezes any amount as specified, keeps its books, and stays non-negative for non-negative amounts |
| Ledger.LedgerMock.Capture | internal/infra/ledgerclient/client.go:162-172 | the object captures as specified, keeps its books, and leaves no known freeze open |
| Ledger.LedgerMock.Release | internal/infra/ledgerclient/client.go:174-187 | the object releases as specified, keeps its books, and leaves no known freeze open |
| Ledger.LedgerMock.Credit | internal/infra/ledgerclient/client.go:189-195 | the object credits any amount as specified, keeps its books, and stays non-negative for non-negative amounts |
| Offer.ReversalWithin | internal/infra/offerclient/client.go:339-358 | a reversal is refused exactly when it asks for more than remains; non-positive amounts reverse everything left |
| Offer.CommitSound | internal/infra/offerclient/client.go:294-316 | a commit keeps reservations and redemptions consistent, answers with the reservation's own redemption, and leaves earlier redemptions as they are |
| Offer.ReverseSound | internal/infra/offerclient/client.go:339-358 | a reversal keeps every redemption within its discount, never takes anything back, and without an amount reverses all of it |
| Offer.OfferMock.Reserve | internal/infra/offerclient/client.go:282-292 | the object refuses an unknown quote, and otherwise stores an active reservation for the quoted discount under the order's own id |
| Offer.OfferMock.Release | internal/infra/offerclient/client.go:318-325 | the object releases a known reservation and ignores others |
| Offer.OfferMock.Commit | internal/infra/offerclient/client.go:294-316 | the object commits as specified |
| Offer.OfferMock.Reverse | internal/infra/offerclient/client.go:339-358 | the object reverses as specified |
| Checkout.CheckoutService.Checkout | internal/application/checkout.go:78-338 | an order is stored if and only if the client id is given, the scene known, no lookup fails or finds the key or the client id, the inputs resolve and have a price, quote, balance and inventory can be had, the insert goes through and both keys are free; without a new order, orders, records, outbox, held inventory and everyone's money are as before and a reservation made is RELEASED; with one, a version-1 PENDING_PAY order is stored holding exactly its reservation, freeze and inventory, priced as billed; every success names the order recorded under the key, and that record has the request's own hash if and only if the order is new or a lookup found it |
| Checkout.CheckoutService.PriceAndPlace | internal/application/checkout.go:145-338 | a new request is stored if and only if it has a price and can be placed at it, and leaves nothing behind otherwise; it is answered from a record with its own hash exactly when it stored the order |
| Checkout.CheckoutService.Acquire | internal/application/checkout.go:205-304 | reservation, freeze and inventory are all acquired if and only if the hub knows the quote, the balance covers the freeze and every call needed succeeds, or all are given back |
| Checkout.CheckoutService.Rollback | internal/application/checkout.go:210-225 | gives back exactly what was acquired |
| Checkout.CheckoutService.Place | internal/application/checkout.go:205-338 | an order is stored if and only if everything can be acquired, the insert goes through and both keys are free; a refused insert is undone completely, and a lost race answers with the recorded order of a request with another hash |
| Checkout.CheckoutService.Recall | internal/application/checkout.go:108-143 | a known key is answered with its order exactly when the request hash matches, and a request goes on if and only if no lookup fails or finds its key or client id |
| Checkout.CheckoutService.Price | internal/application/checkout.go:145-200 | a request is billed if and only if its inputs resolve and have a price, and that price is the only one |
| Checkout.FreezeUndone | internal/infra/ledgerclient/client.go:143-187 | freezing and releasing, or failing to freeze, changes no one's available, frozen, captured or credited money |
| Amounts.AddExact | internal/domain/amount.go:28-34 | addition on wrapping int64 reports overflow exactly when the true sum does not fit |
| Amounts.SubExact | internal/domain/amount.go:36-38 | subtraction is exact if and only if the subtrahend is not the smallest int64 |
| Amounts.MulExact | internal/domain/amount.go:17-26 | multiplication reports overflow exactly when the true product does not fit, except for -1 times the smallest int64 |
| Amounts.LineOriginalExact | internal/domain/amount.go:40-45 | on valid prices and quantities a line's original is its true product, or an overflow exactly when that does not fit |
| Amounts.SumOriginal | internal/domain/amount.go:47-64 | succeeds if and only if every line is valid, matches its declared original and the true total fits; then returns that total and prices every line in place |
| Amounts.ValidateExact | internal/domain/amount.go:98-118 | validation accepts exactly the balanced amounts |
| Amounts.BuildAmountsExact | internal/domain/amount.go:66-96 | building succeeds exactly for 0 <= discount <= original and 0 <= ledger share <= payable, and yields balanced amounts |
| Allocation.AllocateDiscount | internal/domain/amount.go:120-162 | the in-place loops accept exactly the discounts up to the original and leave the specified shares in the lines |
| Allocation.AllocationLaw | internal/domain/amount.go:120-162 | line discounts sum to the discount, payables to the rest, lines before the last stay within 0 and their original, the last within 0 and original + (n - 2), provided the products of the lines before the last with the discount fit int64 |
| Allocation.TwoLinesLawfulIff | internal/domain/amount.go:152-159 | over two lines that law holds for every discount if and only if the first line's original times the order total fits int64; two lines of 2^32 units each with everything discounted break it |
| Allocation.LastBoundAttained | internal/domain/amount.go:152-159 | for every n the bound on the last line is attained |
| Allocation.ShareIsFloorIffFits | internal/domain/amount.go:155-156 | a line's share is its floor share exactly when the product fits int64 |
| Allocation.FillKeepsPriced | internal/domain/amount.go:126-137 | on priced lines the filling pass changes nothing and finds the true total |
| Allocation.FillPrices | internal/domain/amount.go:126-137 | the filling pass prices exactly the lines without an original at their true product and adds the originals up without overflow |
| RefundMath.SplitExact | internal/application/payment_refund.go:391-403 | for every refund of balanced amounts, also when the int64 product wraps: the parts add up to the refund, the ledger part is at most its floor share and equals it exactly when the product fits, and the clamp is dead |
| RefundMath.ResolveRefundLines | internal/application/payment_refund.go:341-379 | a request without lines is granted exactly as asked, or all that is left when it names no amount, and refused beyond that; the accumulating loop over lines never lets a refund exceed what is left |
| RefundMath.LinesResolveIff | internal/application/payment_refund.go:346-371 | a request by lines whose sum does not overflow is granted, for that sum, if and only if every line allows its part, what is left allows the sum, and an amount named agrees |
| RefundRuns.RefundLaw | internal/application/payment_refund.go:391-403 | over any k refunds totalling S: parts sum to S, ledger total at most the floor share of S, and, provided LedgerPay times each refund fits int64, channel total at most ChannelPay + (k - 1), and a full refund's ledger total at least LedgerPay - (k - 1) |
| RefundRuns.ChannelBoundIff | internal/application/payment_refund.go:391-403 | every history of k refunds keeps the channel total within ChannelPay + (k - 1) if and only if LedgerPay times Payable fits int64 |
| RefundRuns.LedgerBoundIff | internal/application/payment_refund.go:391-403 | every history of k refunds of the whole order gives the ledger at least LedgerPay - (k - 1) if and only if LedgerPay times Payable fits int64 |
| RefundRuns.WrappedRefund | internal/application/payment_refund.go:391-403 | amounts of 2^32 units, all paid by the ledger, are accepted, and a full refund of them goes to the channel |
| RefundRuns.DuesAreFloors | internal/application/payment_refund.go:391-403 | while no product overflows, what refunds owe the ledger are the floors of its shares, and the channel is owed the rest |
| RefundRuns.DuesCover | internal/application/payment_refund.go:391-403 | what ledger and channel are owed together is never less than the refunds, and exactly that if and only if no share is computed negative |
| RefundRuns.OverpaidRefund | internal/application/payment_refund.go:391-403 | half of an order of 2^32 units paid by the ledger is owed twice to the channel |
| RefundRuns.NeverOverReversed | internal/application/payment_refund.go:311-318 | over any refund history the reversed discount stays within the redeemed discount |
| RefundRuns.PartialReversals | internal/application/payment_refund.go:381-389 | when every share, as int64 computes it, is at least one, each partial refund is reversed by exactly that share, none is refused, and at least one unit remains |
| RefundRuns.ShareIsFloorIff | internal/application/payment_refund.go:381-389 | the computed share is the floor of Discount times amount over Payable if and only if that product fits int64, and never more |
| RefundRuns.FloorsReversedIff | internal/application/payment_refund.go:381-389 | every history of partial refunds worth at least a unit of discount each is reversed by exactly its floors if and only if Discount times (Payable - 1) fits int64 |
| RefundRuns.FullRefundReversesAll | internal/application/payment_refund.go:381-389 | the refund that empties the order brings the reversed total to exactly the discount |
| RefundRuns.PartialReversedByShareIff | internal/infra/offerclient/client.go:345-357 | a partial refund is reversed by its share if and only if the share is positive and available, or zero with nothing left |
| RefundRuns.SmallRefundReversesEverything | internal/application/payment_refund.go:388-388 | a partial refund too small for a unit of discount reverses all that is left |
| RefundRuns.SmallRefundExists | internal/application/payment_refund.go:388-388 | such a refund exists |
| Hashing.SortCanonical | internal/domain/hash.go:22-23 | sorted coupons are equal exactly when the coupons are permutations of each other |
| Hashing.ContextsAgree | internal/domain/hash.go:21-47 | two contexts have the same document exactly when they agree on everything but coupon order and computed amounts |
| Hashing.ContextHash | internal/domain/hash.go:21-47 | the loop builds the canonical context document |
| Hashing.CheckoutHash | internal/domain/hash.go:49-76 | the loop builds the canonical checkout document that CheckoutsAgree characterises |
| Hashing.CheckoutsAgree | internal/domain/hash.go:49-76 | two checkout requests have the same document exactly when they agree on client order, quote and everything but coupon order, computed amounts and currency |
| Quoting.ValidateLines | internal/application/preview.go:187-205 | accepts exactly non-empty lists of complete lines with distinct ids |
| Quoting.Preview | internal/application/preview.go:67-185 | succeeds exactly on valid billable lines with a fitting quote and a possible ledger share; charges the lines in place, caches a snapshot of what it showed, and opens the ledger account it asks about |
| Quoting.ResolveSnapshot | internal/application/checkout.go:352-406 | what the buyer omits comes from the snapshot, which is accepted exactly when it still stands for the command |
| Quoting.PriceCheckout | internal/application/checkout.go:145-200 | succeeds exactly on valid billable lines under a fitting quote that keeps the promised discount, and bills the charged lines |
| Quoting.DefaultsAgree | internal/application/checkout.go:187-196 | preview's and checkout's ways of defaulting the ledger share give the same amounts, everything payable where the scene freezes and nothing is asked for, also when the defaulted share is fed back in |
| Quoting.BilledLinesLawful | internal/domain/amount.go:120-162 | the lines of a bill sum to its discount and payable and obey the allocation law, provided the products of their originals with the discount fit int64 |
| Quoting.StandsIffRepeatedOrOmitted | internal/application/checkout.go:352-406 | a cited quote stands exactly when it has not expired and the command repeats or omits items, coupons in any order, resolved ledger share and context |
| Quoting.AmountsMatchIffSameDiscount | internal/application/checkout.go:172-196 | a checkout citing a preview reproduces its amounts if and only if the hub gives the same discount again, and then also its lines |
| Quoting.CheckoutMatchesPreview | internal/application/checkout.go:145-196 | a successful checkout citing a preview charges what the preview showed, given equal discounts for equal quote ids and a cache entry that survives both reads |
| Quoting.RepeatsIffRemembered | internal/application/checkout.go:145-196 | over all answers of the hub, a checkout citing a preview is bound to repeat it if and only if the quote id repeats, the snapshot is found again, the ledger share leaves no room for another discount, or the lines cannot be billed |
| Quoting.OtherDiscount | internal/application/checkout.go:172-178 | whenever another id comes back, the snapshot is gone and another discount fits, the checkout is accepted at amounts the preview did not show |
| Quoting.ResendStandsIff | internal/application/checkout.go:366-402 | resending the previewed command word for word stands exactly until it expires, unless it spelled out a zero ledger share that preview replaced by a default |
| Tickets.Backoff | internal/application/compensate.go:101-110 | between 1 and 60 seconds for any number of attempts |
| Tickets.BackoffMonotone | internal/application/compensate.go:101-110 | more attempts never wait less |
| Tickets.ClaimsApart | internal/application/compensate.go:32-55 | the n-th claim comes at least the accumulated backoff after the first |
| Tickets.PassKeepsBudget | internal/application/compensate.go:32-55 | a ticket that is claimed when due and settled stays within its attempts and its backoff |
| Tickets.RetryBudget | internal/application/compensate.go:32-55 | in a store whose tickets all rest within their budget, at most 20 attempts, and a 20th claimed at least 843 seconds after the first |
| Tickets.OverrunIffSpent | internal/infra/memory/order_repo.go:330-350 | over any store, a claim scan hands out an attempt past the twentieth if and only if it meets a due pending or running ticket with its attempts used up |
| Tickets.SpentIff | internal/application/compensate.go:32-68 | after any events on a ticket it is pending or running with its attempts used up if and only if the last event was an attempt not reported on, a failed manual retry, or a failed report on an earlier attempt than the twentieth |
| Tickets.PastBudgetIff | internal/application/compensate.go:32-68 | after any events a ticket was tried more than 20 times if and only if some attempt came right after one of those events |
| Tickets.OverBudgetIff | internal/application/compensate.go:32-68 | both hold of every ticket in a store, whatever claims, reports, inserts and manual retries were called on it in whatever order |
| Tickets.PassDies | internal/application/compensate.go:32-55 | events in which a pass dies after the twentieth attempt and a twenty-first follows |
| Tickets.RetriedInVain | internal/application/compensate.go:57-68 | events in which a ticket failed for good is retried by hand in vain and then tried a twenty-first time |
| Tickets.ReportedLate | internal/application/compensate.go:32-55 | events in which a slow worker's report on the nineteenth attempt follows the twentieth and a twenty-first comes |
| Tickets.TicketStore.Retry | internal/application/compensate.go:57-68 | takes the ticket with that id in any status, done if its handler went well and otherwise pending after one more backoff with its attempts unchanged; under a forward clock it keeps every budget if and only if it succeeds or attempts are left |
| Tickets.TicketStore.Finish | internal/application/compensate.go:39-50 | a worker's report overwrites status and retry time by the attempt it was handed, even when the ticket has moved on |
| Tickets.TicketStore.Claim | internal/infra/memory/order_repo.go:330-350 | over any store, the in-place scan claims the due pending and running tickets in order up to the limit and touches no other |
| Tickets.TicketStore.Update | internal/infra/memory/order_repo.go:352-364 | overwrites the ticket with that id, if any, and nothing else |
| Tickets.TicketStore.Insert | internal/infra/memory/order_repo.go:317-328 | appends a pending ticket with the next id and no attempts |
| Tickets.TicketStore.Tick | internal/application/compensate.go:32-55 | over any store, the batch is the due tickets in order of their ids, all of them unless it is full of earlier ones; each is settled by how its handler went, the successes are counted, and all others, and all done or failed ones, stay as they are; the budget of every ticket is kept when all were within it and the clock runs forward |
| Snowflake.Generator.Next | internal/infra/idgen/snowflake.go:37-57 | for any clock readings each issued stamp is later than all before it; the call keeps spinning exactly when the sequence is used up and no reading is later |
| Snowflake.IdsIncrease | internal/infra/idgen/snowflake.go:37-57 | ids of one generator strictly increase while the millisecond field does not overflow |
| Snowflake.MachinesNeverCollide | internal/infra/idgen/snowflake.go:37-57 | generators with different machine ids never issue the same id, whatever their clocks do |
| Snowflake.FieldsRecovered | internal/infra/idgen/snowflake.go:56-56 | machine and sequence are recovered from every id, the timestamp if and only if its field did not overflow |
| Snowflake.SameIdIff | internal/infra/idgen/snowflake.go:56-56 | two stamps give one id exactly when machine and sequence agree and the milliseconds differ by whole turns of their field |
| Snowflake.EncodeIsSum | internal/infra/idgen/snowflake.go:56-56 | shifting and joining by bitwise or on 64-bit words puts the fields side by side, and only the millisecond field can lose bits |
| Snowflake.EncodeExact | internal/infra/idgen/snowflake.go:56-56 | the id is the plain sum of its fields exactly when the millisecond field fits |
| Snowflake.OrIsSum | internal/infra/idgen/snowflake.go:56-56 | bitwise or of a multiple of 2^k with a field of k bits is their sum |
| Outbox.OutboxStore.Tick | internal/application/payment_refund.go:414-436 | every event ever appended stays pending or published, whatever fails, arrives meanwhile or aliases; every position of the batch is tried and the successes are counted; of at most 200 pending events exactly those are published whose call succeeds, once each in order, and the failed ones stay in order before what arrived; a quiet pass over any number of events publishes and leaves exactly the specified ones, in order if and only if at most 200 are pending |
| Outbox.ChosenInOrder | internal/application/payment_refund.go:419-434 | the published and the failed events of a batch are each of its events once, in order |
| Outbox.OutboxStore.MarkPublished | internal/infra/memory/order_repo.go:491-502 | the in-place filter removes exactly the rows with that id and keeps the order of the rest |
| Outbox.OutboxStore.List | internal/infra/memory/order_repo.go:482-489 | a copy of the first rows up to the limit, a window into the array beyond it |
| Outbox.OutboxStore.Append | internal/infra/memory/order_repo.go:74-74 | appends at the end, in place or in a larger array |
| Outbox.OutboxStore.Deliver | internal/application/payment_refund.go:420-433 | an event is removed only after that same event was published |
| Outbox.CopyDrains | internal/application/payment_refund.go:414-436 | a quiet pass over at most 200 events publishes each once in order and empties the outbox |
| Outbox.InOrderIffCopied | internal/infra/memory/order_repo.go:482-489 | attempts that all succeed publish the oldest events once each in order if and only if the batch is a copy |
| Outbox.RepeatsIff | internal/infra/memory/order_repo.go:482-502 | k attempts over a window publish some event twice if and only if at most 2k - 3 events were pending |
| Outbox.LastRepeats | internal/infra/memory/order_repo.go:482-502 | past its middle a window publishes its last event with every attempt: 100 times for 201 pending |
| Outbox.CellsStep | internal/infra/memory/order_repo.go:491-502 | the cells behind the remaining events all hold the last event, since the filter leaves them alone |

## Left out

- HTTP handlers, admin page, authentication, configuration and boot wiring: plumbing without an invariant.
- HTTP clients of the ledger and the offer hub, webhook publisher, Redis: represented by the stand-ins plus arbitrary failure and lost replies.
- Payment intents and the payment adapter: a channel refund is a recorded payment of an amount for an order; what the channel does with it is not modelled.
- The offer hub's own quoting: a quote is an input; that equal ids mean equal discounts is a hypothesis of the preview theorems, and that a reserved quote carries the discount it was answered with one of checkout.
- Renewal of pending orders and reservations: an easy compare-and-swap argument.
- List, count and paging queries, refund records, seed data, event payloads, order timestamps.
- SQL details beyond the conditional update of Transition.
- Ownership checks on the caller's user id: calls may be started by anyone, which only adds runs.
- JSON and SHA-256: a hash is its canonical document; free-form maps are opaque values.
- The checkout lock: it may refuse at any time; nothing is proved from its exclusion.
- Repository calls in the saga either take effect and answer, or fail without effect; lost replies are modelled for downstream calls and the redemption write.
- Times between attempts in `Tickets` are bounded for a store whose tickets all rest within their budget; after an interrupted pass, an overlapping worker or a vain manual retry only the events are related to the attempts, not their times.
- The SQL claim of tickets takes pending ones only, and when its transaction fails lists pending and running ones without counting an attempt; only the in-memory claim is modelled.
- In a scene that allows close, what refunds credit to the ledger is not separated from what closes credit; the exact sums of `SagaTheorems.RefundsPaidOut` are then for the channel alone.
- What a call left alone achieves is stated for succeeding steps and for one failing step; for any mixture of failures the theorems over all runs apply.
- Ledger balances are unbounded integers; wrap-around of an account balance is not modelled.
- The stand-in ledger's freezes are numbered from zero and kept in a sequence; the source prints a counter into a string id.
