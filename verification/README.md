# Verification of the marketplace's money and order core

This project models the core of a tutoring marketplace's backend in Dafny 4.11 and proves what its
services promise: students publish requests, experts are found through offers, pool invitations or
direct assignments, an accepted one becomes an order, the order is paid, delivered, revised,
approved, disputed, refunded and paid out, and every movement of money is an entry of an
append-only ledger.

`dafny verify dfyconfig.toml` checks everything. The modules, bottom up:

- `Core`, `Ledger`: errors, time, users; the signed ledger and its groupings.
- `Money`, `Allocation`, `Binary64`: rounding and the commission split; `allocate` as a loop, its
  optimality in exact arithmetic, and how far binary64 division leads to the same result.
- `OrderFile`, `OrderSteps`: the rows that reference one order, and each service call as one atomic
  step on them.
- `OrderInvariant`, `OrderBooks`, `Timeline`, `Progress`, `Payouts`: what every call keeps - rows,
  books, timeline, the bound on status changes, payouts.
- `Platform`, `Runs`, `Webhooks`: all orders over one ledger and one webhook table, and the
  theorems about whole runs.
- `Sessions`, `Backend`: the services and workers as they run, on mutable fields and in loops, each
  method proved against its step.
- `Reconciliation`: the consistency checkers, exact and empty in every sound state.
- `Acquisition`, `AcquisitionInvariant`, `Market`, `Negotiations`: requests, offers, invitations and
  assignments; their invariants over runs; the services on mutable fields.
- `Marketplace`: both halves together.
- `OrderPromises`, `RequestPromises`: what each service promises its caller, field by field - when it
  succeeds, what it leaves, what a refusal says, and what the next service makes of it.
- `Resolutions`: a dispute resolution on whatever it read before it locked - when it succeeds, when it
  is what the atomic one would do, when it keeps the order sound.
- `AcceptRace`, `MoneyRace`: the transactions with every lock and every read a step of its own -
  acceptances of one request; confirmation, refund, settlement, delivery, revision, dispute and
  resolution of one order.
- `Shortfalls`: where the code does less than its documents promise - for each promise the exact
  condition under which the code keeps it, and a run or an input at which it does not.
- `Ratings`: reviews and the cached weighted rating.

A step of the order machine is a function from rows and entries to rows, new entries and an error;
the methods of the classes in `Sessions`, `Negotiations`, `Backend` and `Ratings` assign fields one at a
time and are proved to leave exactly what those functions say, service by service. Their rows below are the
entry points - `Serve`, `Call`, the workers - which every service method is reached through; the lemmas say
what holds of the functions: service by service in `OrderPromises` and `RequestPromises`, and over all of them in
the modules of invariants and runs.

## What the proofs found

Where the code and its documents differ the model follows the code.

- `allocate` promises parts that always sum to the total. With float division that holds for every total
  below 2^53, whatever the weights (`Binary64.FloatSumsExactly`), and fails at 2^54 + 3 with a single weight
  (`Binary64.FloatAllocationOvershoots`, backend/apps/core/money.py:51-71). That each part is the floor of its
  share or one more is proved while total * weight stays below 2^53 (`Binary64.FloatAllocationExact`). The
  order machine divides exactly; up to 67,108,863 minor units that is what binary64 computes
  (`Payouts.FloatRefundIsExact`).
- Commission is said never to be recomputed (backend/apps/payments/services.py:4-6), yet an order booked at a
  zero rate is charged the default rate, because the factory leaves `commission_rate` at its default:
  `Payouts.BookedIsSnapshot`, `Payouts.ZeroRateStillCharges`.
- BR-30 promises every completed, dispute-free order its payout. The sweeper's query selects such an order
  without one exactly when nothing was ever refunded: `Backend.SweepableExactly`, and
  `Backend.UnpaidAfterAnySweep` over runs. A dispute settled by a partial refund or split before the order was
  ever completed therefore leaves the expert without a payout for good, unless somebody schedules one by hand:
  `Shortfalls.PartialResolutionUnswept`, `Shortfalls.RefundedNeverSwept`, `Shortfalls.UnpaidForGood`, and in
  `Shortfalls.SettledRunUnpaid` a run that leaves 76.50 owed.
- A payout voided by a full refund can still be settled: `Payouts.VoidedPayoutStillSettles`. Direct refunds
  leave a scheduled payout as it is: `Payouts.DirectRefundInStep`.
- `payment.failed` overwrites a paid order's payment status exactly when something was refunded
  (backend/apps/payments/webhooks.py:44-46, `Shortfalls.FailedEventOverwrites`). From then on every refund,
  direct or by resolution, is refused for ever: `Shortfalls.StuckForever`, reached in
  `Shortfalls.StuckRunStuck`. The handler also saves without a lock, so a failure that raced with a successful
  confirmation does the same to an order nothing was refunded of: `Shortfalls.StaleFailureOverwritesPayment`.
- Staff can cancel a disputed order while its freeze flag is still set; no other call leaves a cancelled order
  flagged, and its dispute can then only be resolved by a full refund: `Shortfalls.StaffCancelsDisputed`,
  `Shortfalls.FlaggedByStaffCancel`, `Shortfalls.FlaggedResolvesInFull`.
- docs/workflows/disputes.md says opening a dispute stops the auto-approve timer. Its deadline is kept:
  `Shortfalls.TimerRunsThroughDispute`.
- The worker re-checks under its lock that there is a deadline, not that it has passed: an order revised and
  delivered again after the listing is approved 72 hours early. `Shortfalls.RecheckApprovesEarly`,
  `Shortfalls.RecheckMisses`.
- `resolve` checks the dispute before it locks anything and never reads it again, and fixes the amount on a
  payment it has not locked yet (backend/apps/disputes/services.py:183-219). A second resolution therefore goes
  through for the pairs of outcomes in `Resolutions.StaleSecondResolution`, and a partial one beside a direct
  refund returns everything for exactly one amount: `Resolutions.StalePartialReturnsAll`. Over all schedules the
  order stays sound exactly as long as no no-fault close misplaces it (`MoneyRace.ScheduleIsSound`, broken in
  `MoneyRace.SecondCloseMisplaces`), and what is committed is a serial run exactly as long as resolutions commit
  on a dispute still under review and partial ones leave something (`MoneyRace.ScheduleIsSerial`, broken in
  `MoneyRace.PartialBesideRefund`). One resolution at a time is enough: `MoneyRace.OneResolutionIsSerial`.
- Moving a dispute through review writes without a lock; saved over a dispute settled in between it reopens it with
  the order unfrozen: `Shortfalls.StaleMoveReopens`.
- BR-08 allows one reopening. Publishing lists an expired request again any number of times, and reopening
  also opens a draft without attestation: `Market.PublishReopens`, `Market.ReopenSucceeds`.
- A refused publish still renews the expiry: `Market.RefusedPublishRenews` says exactly when.
- The unpaid sweep leaves the payment attempt open and the request matched, unlike a cancellation
  (backend/apps/orders/services.py:342-358): `Shortfalls.SweepLeavesAttempt`, `Marketplace.SweepLeavesRequest`,
  `Marketplace.CancelClosesRequest`. The attempt can never be confirmed: `Shortfalls.SweptCannotConfirm`.
- BR-24 gives managed orders three revisions. The factory stores the default two for every order:
  `OrderPromises.NewOrder`.
- docs/workflows/student-journey.md lets a review be edited for 24 hours. The code has no such limit; it stops edits
  once the expert has answered: `Ratings.Edits`.
- BR-09 lets a student cancel a request before it is matched; the table allows it for a matched one and one in
  progress too, and leaves the order. A paid order goes on without its request exactly when the student cancels
  the request in progress, or pays after cancelling it: `Marketplace.OrphanedExactly`, and a run that gets there
  in `Shortfalls.OrphaningRunOrphans`.

## Model

| member | source | states |
|---|---|---|
| Allocation.Allocate | backend/apps/core/money.py:51-71 | Succeeds exactly on the inputs the docstring admits (non-empty weights, none negative, a positive sum, a non-negative total) and else raises ValueError; the parts are the floors of the quotients plus one unit for the indices the stable sort ranks first; they sum to the total exactly when the leftover is between 0 and the number of weights. For any division, exact or rounded. |
| Allocation.Rank | backend/apps/core/money.py:67 | The stable descending sort: every index once, larger fraction first, earlier index first on ties. |
| Allocation.InsertRanked | backend/apps/core/money.py:67 | Inserting one more index keeps a ranking ordered and stable. |
| Allocation.HandOut | backend/apps/core/money.py:68-70 | The loop adds one unit to each of the first `served` ranked indices and to no other; the sum grows by `served`. |
| Allocation.ExactAllocationIsLargestRemainder | backend/apps/core/money.py:63-71 | In exact arithmetic the loop computes the largest-remainder split: floor or floor plus one, summing to the total, extra units to the largest remainders, ties to the earlier index. |
| Allocation.CloseFloors | backend/apps/core/money.py:64-66 | With quotients less than one unit of the denominator off, floors are exact and the leftover is a genuine count of units: nothing is lost. |
| Money.LargestRemainderUnique | backend/apps/core/money.py:51-71 | The declarative definition has at most one solution, so the split does not depend on how it is computed. |
| Money.RemainderSplitOptimal | backend/apps/core/money.py:51-55 | No integer split of the same total has a smaller sum of absolute deviations from the exact shares. |
| Money.ZeroWeightGetsNothing | backend/apps/core/money.py:66-70 | A zero weight never receives a leftover unit. |
| Money.TwoWayIsRoundHalfUp | backend/apps/core/money.py:63-71 | Between two weights the split is, and is only, the first share rounded half up and the rest. |
| Money.RefundRounding | backend/apps/payments/services.py:316-318 | One refund reverses its exact commission share up to half a minor unit. |
| Money.RoundHalfUpUnique | backend/apps/payments/config.py:46-51 | ROUND_HALF_UP is the only integer within half a unit, the half upwards. |
| Money.RoundHalfUpWithin | backend/apps/payments/config.py:46-51 | For rates between 0 and 100% the commission lies between zero and the amount, so neither side of the split is negative. |
| Binary64.FloatSumsExactly | backend/apps/core/money.py:51-71 | The docstring's "always sum exactly" for binary64 division and any non-negative weights whatever, as long as the total is below 2^53. |
| Binary64.FloatAllocationExact | backend/apps/core/money.py:63-71 | Running in binary64, as long as total * weight < 2^53 for every weight, each part is moreover the floor of its exact share or one more, and zero for a zero weight, summing exactly to the total. |
| Binary64.FloatAllocationOptimal | backend/apps/core/money.py:63-71 | As long as 2 * total * weight < 2^53, the binary64 result is still a closest split. |
| Binary64.FloatTwoWayIsRoundHalfUp | backend/apps/core/money.py:63-71 | Under that bound a two-way refund split comes out of binary64 exactly as out of exact arithmetic, ties included. |
| Binary64.FractionRepresentable | backend/apps/core/money.py:67 | The sort key raw - floor is itself representable, so IEEE subtraction computes it exactly. |
| Binary64.QuotientClose | backend/apps/core/money.py:64-65 | The rounded quotient is off by less than 1/d, and is an integer exactly when the exact quotient is. |
| Binary64.FloatAllocationOvershoots | backend/apps/core/money.py:51-71 | For larger totals the promise fails: allocate(2^54 + 3, [1]) returns one unit more than the total. |
| Ledger.GroupedByOrder | backend/apps/payments/services.py:540-561 | Summing an entry type per order and adding up loses nothing. |
| Ledger.GroupedByUser | backend/apps/payments/services.py:563-578 | The same per user, for entry types that always name a user. |
| Sessions.Session.SplitRefund | backend/apps/payments/services.py:313-318 | The refund's parts from the largest-remainder loop over any division: no weights is a ValueError; in binary64 they sum exactly to any amount below 2^53; divided exactly, or in binary64 while 2 * amount * weight < 2^53, the commission part is its share rounded half up. |
| Sessions.Session.Serve | backend/apps/orders/services.py:68-83 | Any service call of orders, payments, payouts and disputes or webhook handler, run as assignments field by field, leaves exactly the rows, entries and error of the atomic specification; a sound order stays sound with the entries posted; a refused call posts nothing and rolls everything back, except that a rejected attempt is marked failed and an operator's confirmation keeps the payment row it created. |
| OrderPromises.NewOrder | backend/apps/orders/services.py:364-406 | A new order has the parties, amount and currency given, a commission that is the rate's share of the amount rounded half up and the rest for the expert, two revisions, and nothing else yet. |
| OrderPromises.StartSucceeds | backend/apps/payments/services.py:84-104 | A payment can be started exactly by the student while the order awaits payment and none has succeeded. |
| OrderPromises.Started | backend/apps/payments/services.py:99-128 | A started payment is pending at the booked amount and currency. A pending one stays as it is; any other is armed at the given gateway under a reference unequal to every earlier one; nothing else changes. |
| OrderPromises.OldReferencesDie | backend/apps/payments/services.py:102-119 | After arming afresh no earlier reference matches: its success event fails, its failure event is ignored, and neither changes anything. |
| OrderPromises.StartThenConfirm | backend/apps/payments/services.py:84-252 | Whatever became of earlier attempts, a started payment that is accepted makes the order active and paid. |
| OrderPromises.ConfirmSucceeds | backend/apps/payments/services.py:179-215 | Confirmation goes through exactly when accepted, for an order awaiting payment with a pending or failed attempt. |
| OrderPromises.Confirmed | backend/apps/payments/services.py:215-252 | It books one charge of the amount and a commission and credit that add up to it - the order's own, or 15% and the rest of an order without commission - and marks payment and order paid now; nothing else changes. |
| OrderPromises.Rejected | backend/apps/payments/services.py:135-176 | A rejected confirmation marks the attempt failed and nothing else, after which payment can be started again. |
| OrderPromises.OperatorConfirms | backend/apps/payments/services.py:255-269 | The operator's confirmation, on the manual rails only, creates the missing payment and otherwise is the confirmation. |
| OrderPromises.FailedEvent | backend/apps/payments/webhooks.py:41-48 | payment.failed marks every payment failed that has not succeeded or been cancelled, and changes nothing else. |
| OrderPromises.ProcessedExactly | backend/apps/payments/webhooks.py:31-65 | A delivery counts as processed exactly for a success whose payment is known and confirmed now or before, for any failure and any refund; never for an unknown type. |
| OrderPromises.HookStored | backend/apps/payments/webhooks.py:73-142 | An event keeps the content it first came with and the outcome of its last delivery; a processed one is left alone until redelivered; no event touches another's row. |
| OrderPromises.SubmitSucceeds | backend/apps/orders/services.py:170-190 | A delivery can be submitted exactly by the expert of an active or revision-requested order, with a proper summary and own files. |
| OrderPromises.Submitted | backend/apps/orders/services.py:190-212 | It is the next in number, under review for 72 hours from now; the order is delivered, earlier deliveries stay. |
| OrderPromises.ReviseSucceeds | backend/apps/orders/services.py:215-230 | A revision can be requested exactly by the student of a delivered order with one left and a note. |
| OrderPromises.Revised | backend/apps/orders/services.py:230-248 | The last delivery is sent back, one revision is used up, no deadline runs, earlier deliveries stay. |
| OrderPromises.ApproveSucceeds | backend/apps/orders/services.py:251-262 | A delivered order can be approved by its student, by staff and by the worker, and by nobody else. |
| OrderPromises.Approved | backend/apps/orders/services.py:262-284 | The order is completed now, its last delivery approved now, and a payout of the whole credit scheduled if it reaches the floor and there is none. |
| OrderPromises.CancelSucceeds | backend/apps/orders/services.py:290-300 | Cancelling takes a reason, and staff, or a party while payment is awaited; never once completed or cancelled. |
| OrderPromises.CancelledOrder | backend/apps/orders/services.py:300-311 | The order is cancelled now, a pending payment with it, nothing else changes. |
| OrderPromises.RefundSucceeds | backend/apps/payments/services.py:291-311 | A refund goes through exactly for staff, a known reason, a succeeded or partly refunded payment and a positive amount within what is left. |
| OrderPromises.RefundBooked | backend/apps/payments/services.py:313-350 | It books minus the amount, reversing the commission's share up to half a unit and the rest from the expert. |
| OrderPromises.RefundedOrder | backend/apps/payments/services.py:319-366 | One refund row more; the payment counts the amount and is refunded exactly when nothing is left. |
| OrderPromises.ScheduledPayout | backend/apps/payments/services.py:394-427 | A completed order gets a payout of its whole credit exactly when it has none, no dispute is open and the floor is reached. |
| OrderPromises.SettledPayout | backend/apps/payments/services.py:430-486 | Settling goes through exactly for staff, an unpaid payout and no open dispute, and pays out its amount. |
| OrderPromises.DisputeOpens | backend/apps/disputes/services.py:59-98 | A dispute opens exactly for a participant of an order without one, with a known reason, a text and own evidence, while the order is active, delivered or in revision or up to the window after its completion. |
| OrderPromises.Disputing | backend/apps/disputes/services.py:100-128 | It stores who opened it and what the order was, freezes the order and moves it to disputed; nothing else changes. |
| OrderPromises.NoFaultRestores | backend/apps/disputes/services.py:59-313 | Opened, taken and closed without fault, an order is as before but for its dispute and its timeline. |
| OrderPromises.DisputeMoves | backend/apps/disputes/services.py:144-171 | Staff take an open or waiting case and let an open one wait; only the dispute's status changes. |
| OrderPromises.ResolvedOrder | backend/apps/disputes/services.py:237-300 | A resolution leaves the order unfrozen in the status its outcome names and the dispute resolved with it; release and no-fault touch no money. |
| OrderPromises.ResolvedMoney | backend/apps/disputes/services.py:206-258 | A full refund returns all that is left, the others the amount asked; an unpaid payout is voided by the one and set to the remaining credit by the others, a paid one stays. |
| OrderBooks.StepSound | backend/apps/payments/services.py:179-252 | Every service call of orders, payments, disputes and webhook handlers, whatever its arguments, keeps the whole per-order invariant: terms, payment and refund rows, at most one charge and one payout, the ledger identity, the drift bound, the freeze flag, revision numbering and the review deadline. |
| OrderBooks.StepEffect | backend/apps/payments/services.py:61-62 | Every call has one of four money effects - nothing, one charge of the booked amount, one refund with its reversals, one payout - and leaves the booked terms alone. |
| OrderBooks.RefusedCall | backend/apps/payments/services.py:135-151 | Whatever refuses a call, nothing is posted and no row but the payment changes, and that one only where the code commits on its own: a rejected attempt, the row an operator's confirmation creates. |
| OrderInvariant.StepRows | backend/apps/orders/services.py:41-61 | Every call keeps the clauses about the rows alone. |
| OrderBooks.NewFileSound | backend/apps/orders/services.py:364-406 | What the order factory stores satisfies the invariant. |
| OrderInvariant.ResolutionRefundShape | backend/apps/disputes/services.py:206-235 | A resolution's refund is issue_refund of some amount, with the payout voided in the full case. |
| Platform.ReachableSound | backend/apps/payments/webhooks.py:101-142 | Over every run of creations, service calls, webhook ingestions and redeliveries, every order of the platform is sound and every entry belongs to an order. |
| Platform.ExecSound | backend/apps/payments/webhooks.py:73-142 | One command on any sound platform leaves it sound. |
| Runs.BooksBalance | backend/apps/payments/services.py:535-560 | In every reachable state charge + refund == commission + credit + fee; refunded_minor is the sum of the refund rows and minus the REFUND entries and never exceeds the amount. |
| Runs.RefundDriftBound | backend/apps/payments/services.py:313-359 | After any k refunds totalling R of an order with commission C > 0 and amount A, the commission reversed differs from R * C / A by at most k / 2 minor units. |
| Runs.ChargedOnce | backend/apps/payments/services.py:189-246 | Each order has at most one CHARGE, of its booked amount, exactly when paid_at is set; every active, delivered, revision-requested, completed or disputed order has it; an unpaid one does not. |
| Runs.TimelinesTell | backend/apps/orders/services.py:64-83 | Folding an order's events from `created` yields exactly its current status in every reachable state. |
| Timeline.StepTells | backend/apps/orders/services.py:64-83 | Every call keeps the timeline truthful, doubled events, disputes and markers included; the prior status of a dispute is what the fold remembers. |
| Runs.EveryOrderStops | backend/apps/orders/services.py:41-61 | Although the table is cyclic, one order's status changes at most 2 * revisions + 5 times over any run; what is left of that budget bounds the changes still to come. |
| Progress.StepPaid | backend/apps/orders/services.py:219-239 | Every change of status costs a unit of a budget that nothing replenishes. |
| Runs.LedgerAppendOnly | backend/apps/payments/services.py:61-62 | No run changes or removes a ledger entry. |
| Runs.FreezeFlagTells | backend/apps/disputes/services.py:52-56 | has_open_dispute is true exactly while the dispute is open, under review or awaiting a response; disputed implies flagged; flagged implies disputed or cancelled. |
| Runs.FrozenNoPayout | backend/apps/payments/services.py:447-449 | While the flag is up no command posts a PAYOUT entry for the order. |
| Payouts.FrozenPostsNoPayout | backend/apps/payments/services.py:437-449 | One call: none while frozen, none after the payout is paid, and a paid payout keeps its amount. |
| Runs.PaidIsForever | backend/apps/payments/services.py:437-446 | Once settled, an order's payout stays settled at its amount over any run, with exactly one PAYOUT entry. |
| Runs.RevisionNumbers | backend/apps/orders/delivery.py:37-42 | Deliveries are numbered without gaps, as many as the phase says - through disputes too - and the allowance is never exceeded. |
| Runs.NeverInconsistent | backend/apps/orders/services.py:189-196 | The uniqueness constraint on revision numbers, the amount check and the empty refund weights are never hit in a sound state. |
| Runs.Conservation | backend/apps/payments/services.py:563-590 | Over any run: charges + refunds + payouts (all signed) equal commission plus the sum over experts of outstanding earnings, and that sum equals the sum over orders of the remaining payable. |
| Runs.ScheduledIsOwed | backend/apps/payments/services.py:394-427 | In runs that refund an order directly only before it has a payout, every scheduled payout equals the order's credit balance. |
| Payouts.StepInStep | backend/apps/disputes/services.py:206-258 | The same for one call, through partial, split, full, release and no-fault outcomes. |
| Payouts.SettleClears | backend/apps/payments/services.py:450-472 | Settling a payout that equals the balance leaves nothing payable. |
| Payouts.DirectRefundInStep | backend/apps/payments/services.py:336-351 | A direct refund keeps a scheduled payout equal to the balance exactly when there is no scheduled payout or the refund takes nothing from the expert. |
| Payouts.VoidedPayoutStillSettles | backend/apps/payments/services.py:440-445 | After a full-refund resolution the failed payout can still be settled, leaving the expert exactly the refunded credit in debt. |
| Payouts.BookedIsSnapshot | backend/apps/payments/services.py:218-222 | Confirmation books the order's own split exactly when that split charged a commission or the default rate charges none. |
| Payouts.ZeroRateStillCharges | backend/apps/payments/services.py:218-222 | An order booked at a zero rate is charged the default commission at confirmation, 15.00 of 100.00. |
| Payouts.FullRefundZeroes | backend/apps/payments/services.py:313-351 | A single full refund brings commission and credit back to exactly zero. |
| Payouts.FloatRefundIsExact | backend/apps/payments/services.py:313-318 | For orders up to 67,108,863 minor units every refund split computed in binary64 is the exact one. |
| Webhooks.AnyTraffic | backend/apps/payments/webhooks.py:73-142 | From an order waiting for payment, any traffic - payment events repeated, reordered and redelivered by hand, ids reused, other orders' business in between - confirms it once, with the same rows and the same three entries, exactly when some command delivers a success of its reference that the gateway confirms; else it still waits and nothing was booked. |
| Webhooks.Confluence | backend/apps/payments/webhooks.py:101-142 | Without redeliveries and if event ids determine content, the same said of the events alone, whatever their order: confirmed exactly when one of them is a confirmed success not processed before the run. |
| Webhooks.StaysConfirmed | backend/apps/payments/webhooks.py:36-45 | Further events and redeliveries leave a confirmed order alone. |
| Webhooks.DeliveryOnOrder | backend/apps/payments/webhooks.py:73-142 | What one delivery or redelivery does to a waiting order. |
| Backend.Backend.CreateOrder | backend/apps/orders/services.py:364-406 | Exactly for different parties, an amount at the minimum and a rate up to 100%, one order is appended, with the parties, amount and currency given and its commission the rate's share rounded half up; else nothing changes. |
| Backend.Backend.Call | backend/apps/orders/services.py:170-174 | A service call rewrites the rows of its order, appends its entries and changes nothing else. |
| Backend.Backend.IngestEvent | backend/apps/payments/webhooks.py:101-142 | ingest: a processed event id is a no-op; otherwise the handler is dispatched on the received content and the outcome stored with the content first received. |
| Backend.Backend.RedeliverEvent | backend/apps/payments/webhooks.py:73-98 | redeliver runs the handler on the stored content whatever the stored status. |
| Backend.Backend.Handle | backend/apps/payments/webhooks.py:31-65 | Handler dispatch: unknown payments and types fail, unknown failed payments and refunds do not. |
| Backend.Backend.AutoApproveDue | backend/apps/orders/services.py:317-339 | Each order due at the listing is re-checked, approved by the worker at the clock its own approval reads, and completed; no other order changes, the count is exact, nothing is due afterwards, so a rerun returns 0; soundness is kept. |
| Backend.Backend.ApproveEach | backend/apps/orders/services.py:326-336 | The worker's loop on any list of ids: those that pass the re-check are approved once, the others skipped, nothing else changes. |
| Backend.NeverEarly | backend/apps/orders/services.py:199-200 | No reachable order is due before 72 hours from its last delivery. |
| Backend.DueExactly | backend/apps/orders/services.py:317-324 | A delivered order is due exactly from 72 hours after its last delivery on. |
| Backend.Backend.SweepUnpaidOrders | backend/apps/orders/services.py:342-358 | Exactly the orders unpaid for 72 hours are cancelled; none is left. |
| Backend.Backend.PayoutSweeper | backend/apps/payments/services.py:515-529 | Each completed, dispute-free order with a SUCCEEDED payment, no payout and a balance at or above the floor gets one payout of exactly that balance and nothing else changes; of a sound platform's completed, dispute-free orders exactly those are left without one that had none and were refunded something or are owed less than the floor; the count is exact. |
| Backend.Backend.ScheduleEach | backend/apps/payments/services.py:526-529 | The sweeper's loop is schedule_payout on each selected order, counting those that have a payout. |
| Backend.SweepableExactly | backend/apps/payments/services.py:517-524 | The sweeper selects exactly the completed, dispute-free orders without a payout of which nothing was ever refunded. |
| Backend.UnpaidAfterAnySweep | backend/apps/payments/services.py:515-529 | In every reachable state: what the sweep leaves without a payout, of the completed and dispute-free orders, is exactly what had none and was refunded something or is owed less than the floor. |
| Shortfalls.RefundedNeverSwept | backend/apps/payments/services.py:520-524 | Once any refund was issued the sweeper never selects the order again, over any run. |
| Shortfalls.UnpaidForGood | backend/apps/payments/services.py:394-427 | A finished order that was refunded something and has no payout has none after any continuation that does not schedule one for it directly, whatever else happens and however often the sweeper runs. |
| Shortfalls.PartialResolutionUnswept | backend/apps/disputes/services.py:206-275 | An order without a payout that a partial or split resolution completes has none afterwards and is not selected, while its expert is still owed the earlier credit less the expert part of the refund. |
| Shortfalls.SettledRunUnpaid | backend/apps/payments/services.py:515-529 | A run that ends so: 100.00 paid, 10.00 returned by a partial resolution, 76.50 owed against a floor of 10.00; no sweep of that state or after any continuation selects it, and no continuation without a payout scheduled by hand gives it one. |
| Shortfalls.FailedEventOverwrites | backend/apps/payments/webhooks.py:41-48 | On a paid order payment.failed changes the payment status if and only if something was refunded and the status is not FAILED yet. |
| Shortfalls.StuckForever | backend/apps/payments/services.py:303-316 | A paid order whose payment is FAILED keeps that status, its refunds and its refunded amount over any run, and every direct refund and every refunding resolution is refused. |
| Shortfalls.StuckRunStuck | backend/apps/payments/webhooks.py:41-48 | A run that gets there: 100.00 paid, 10.00 refunded, then a late payment.failed; 90.00 can never be returned. |
| Shortfalls.StaleFailureOverwritesPayment | backend/apps/payments/webhooks.py:44-48 | A failure handler that read its payment before a confirmation committed and saves after it leaves the order stuck - paid, nothing refunded, nothing refundable - if and only if the gateway accepted and the payment was pending or failed. |
| Shortfalls.SweepLeavesAttempt | backend/apps/orders/services.py:342-358 | The unpaid sweep cancels the order and leaves its payment untouched, so an open attempt survives exactly when there was one; a cancellation leaves none. |
| Shortfalls.SweptCannotConfirm | backend/apps/payments/services.py:184-197 | Nothing can be confirmed on an order the unpaid sweep cancelled. |
| Shortfalls.StaffCancelsDisputed | backend/apps/orders/services.py:290-311 | Cancelling a disputed order succeeds exactly for staff with a reason, and leaves the freeze flag up. |
| Shortfalls.FlaggedByStaffCancel | backend/apps/disputes/services.py:52-56 | Over all calls: a cancelled order carries the flag from then on exactly when staff cancelled it, with a reason, out of dispute. |
| Shortfalls.FlaggedResolvesInFull | backend/apps/disputes/services.py:174-235 | The dispute of such an order can be resolved exactly by staff, under review, with notes, by a full refund of a refundable payment, and in no other way. |
| Shortfalls.TimerRunsThroughDispute | backend/apps/disputes/services.py:118-123 | A dispute hides a delivered order from the worker but does not stop its deadline: after a no-fault close it is due exactly when it would have been. |
| Shortfalls.RecheckApprovesEarly | backend/apps/orders/services.py:329-333 | Any due order with a revision left, revised and delivered again between the worker's listing and its lock, passes the re-check and is approved with its new deadline 72 hours ahead. |
| Shortfalls.StaleMoveReopens | backend/apps/disputes/services.py:144-171 | A move through review saved over what the dispute has become keeps the freeze flag truthful if and only if the dispute is still open. |
| Shortfalls.OrphaningRunOrphans | backend/apps/service_requests/services.py:229-232 | A run of the marketplace after which a paid order is active and its request cancelled by its student. |
| Resolutions.ReadSucceeds | backend/apps/disputes/services.py:183-275 | resolve on any earlier reads succeeds exactly for staff, a dispute read as under review, notes, for refunds an amount that passes both the check on the payment as read and the one on the payment as locked, and an order status the outcome may conclude from. |
| Resolutions.ReadIsAtomic | backend/apps/disputes/services.py:183-300 | A resolution that succeeds on earlier reads does what the atomic one does to the order as it is if and only if the dispute is still under review and a partial amount leaves something; otherwise the atomic one is refused. |
| Resolutions.ReadIsSound | backend/apps/disputes/services.py:202-300 | Whatever it read, a resolution that succeeds keeps the whole per-order invariant if and only if it is not a no-fault close that moves an order which has left the dispute and moved on. |
| Resolutions.StaleSecondResolution | backend/apps/disputes/services.py:183-275 | For every pair of outcomes, exactly when a second resolution goes through on the dispute as it was before the first - by outcome, amount, payment and the status the dispute began in - while on the current dispute it is refused; a refunding one refunds again. |
| Resolutions.StalePartialReturnsAll | backend/apps/disputes/services.py:202-228 | For every amount: a partial resolution whose amount was checked before a direct refund goes through where the current figure would refuse it exactly when the amount is all that is left, and then the payment is refunded in full. |
| Reconciliation.LedgerCheck | backend/apps/payments/services.py:535-560 | ledger_check reports an order, once and with the two sides it found, exactly when the order has entries and they do not balance. |
| Reconciliation.DistinctOrders | backend/apps/payments/services.py:540-544 | The distinct order ids of the ledger. |
| Reconciliation.RefundLedgerParity | backend/apps/portal/services/reconciliation.py:31-58 | Reports exactly the orders whose succeeded refund rows differ from their REFUND entries. |
| Reconciliation.PaymentLedgerCoverage | backend/apps/portal/services/reconciliation.py:97-115 | Reports exactly the succeeded payments whose order has no CHARGE entry. |
| Reconciliation.PaymentRefundState | backend/apps/portal/services/reconciliation.py:118-138 | Reports exactly the payments with a positive refunded_minor that is not the sum of their refund rows. |
| Reconciliation.PayoutCreditParity | backend/apps/portal/services/reconciliation.py:61-94 | Reports exactly when the scheduled and travelling payouts exceed credit minus the (negative) PAYOUT entries. |
| Reconciliation.NothingToReport | backend/apps/portal/services/reconciliation.py:15-138 | In a sound world there is nothing any of the four checks on single orders looks for. |
| Reconciliation.ReconciliationReport | backend/apps/portal/services/reconciliation.py:141-169 | The six checks in order: ledger identity, payout credit parity and webhook health report exactly what they look for, and in every sound world all four checks on single orders come back empty. |
| Negotiations.Negotiation.Serve | backend/apps/bidding/services.py:39-190 | Any acquisition call leaves exactly the rows and error of the atomic specification; a sound case stays sound; a refused call leaves rows, order and request as they were, except for the expiry a refused publish renews. |
| RequestPromises.Published | backend/apps/service_requests/services.py:190-226 | A published open-market request takes offers for exactly 30 days and is due after them; a managed one is in review. |
| RequestPromises.Reopened | backend/apps/service_requests/services.py:235-247 | A reopened request takes offers for exactly 30 days from then, and cannot be reopened again by anybody. |
| RequestPromises.RequestCancels | backend/apps/service_requests/services.py:229-232 | The owner cancels exactly a request that is not completed, rejected, cancelled or expired. |
| RequestPromises.OfferSubmits | backend/apps/bidding/services.py:39-70 | An offer goes in exactly from an eligible expert without one, not the student, at the minimum, on a listed request, below 20 pending; it is the one row more. |
| RequestPromises.OfferUpdates | backend/apps/bidding/services.py:80-92 | Exactly an own pending offer of an eligible expert on a listed request can be updated, at the minimum. |
| RequestPromises.OfferUpdated | backend/apps/bidding/services.py:93-97 | It has the new price if one was given; nothing else of it, the other rows, the request or the orders changes. |
| RequestPromises.UpdateThenAccept | backend/apps/bidding/services.py:80-190 | An offer updated to an amount and accepted places an order of that amount with its expert. |
| RequestPromises.OfferWithdraws | backend/apps/bidding/services.py:100-110 | Exactly an own pending offer is withdrawn, and counted out. |
| RequestPromises.WithdrawResubmit | backend/apps/bidding/services.py:100-130 | Withdrawn and submitted again, everything is as before. |
| RequestPromises.OfferResubmits | backend/apps/bidding/services.py:113-130 | Exactly an own withdrawn offer, under the conditions of a new one, is pending again and counted in. |
| RequestPromises.OfferAccepts | backend/apps/bidding/services.py:147-190 | The student accepts exactly a pending offer of another, eligible user on an open request: it is accepted, its pending rivals declined, the request matched and one order placed at its price. |
| RequestPromises.InvitationAccepts | backend/apps/assignments/services.py:219-265 | An eligible expert accepts exactly an own pending, unexpired invitation of an unmatched request with a quote, at that quote. |
| RequestPromises.AssignmentAccepts | backend/apps/assignments/services.py:283-312 | The same of an assignment, at its own price, leaving the other rows. |
| RequestPromises.PoolApproves | backend/apps/assignments/services.py:65-100 | Staff pool exactly a managed request in review, at a quote given or set before, with at least one expert and nobody invited twice. |
| RequestPromises.PoolApproved | backend/apps/assignments/services.py:78-109 | The quote given takes precedence over the one before; every expert gets one invitation for 48 hours. |
| RequestPromises.PoolThenAccept | backend/apps/assignments/services.py:65-265 | An expert of the pool who accepts within 48 hours gets the order at that quote. |
| RequestPromises.Assigns | backend/apps/assignments/services.py:129-147 | Staff assign exactly a managed request in review or pooled, to an eligible expert without a pending assignment, at the minimum. |
| RequestPromises.AssignThenAccept | backend/apps/assignments/services.py:129-312 | The assigned expert who accepts within 24 hours gets the order at the assigned price. |
| RequestPromises.Rejects | backend/apps/assignments/services.py:180-194 | Staff reject, with a reason, exactly a managed request in review or pooled; its pending invitations lapse and no other row. |
| Negotiations.Desk.CountPending | backend/apps/bidding/services.py:49 | The expert's pending offers over all requests. |
| Negotiations.Desk.Call | backend/apps/bidding/services.py:39-70 | A call rewrites its own request only, counting the expert's pending offers where the limit applies. |
| Negotiations.Desk.ExpireStaleRequests | backend/apps/bidding/tasks.py:21-36 | Exactly the open requests past their expiry expire, with their pending offers; the count is exact and a rerun returns 0. |
| Negotiations.Desk.ExpireAssignments | backend/apps/assignments/services.py:333-347 | Exactly the pending invitations and assignments past their expiry lapse; the count is exact and a rerun returns 0. |
| AcquisitionInvariant.CaseStep | backend/apps/assignments/services.py:51-62 | Every acquisition call keeps: orders == accepted rows <= 1, the order's expert and price from the accepted row, statuses tell orders, modes tell rows, one offer and one invitation per expert, one pending assignment per expert, prices at least the minimum, offer_count. |
| AcquisitionInvariant.ConvergeSound | backend/apps/bidding/services.py:165-178 | An acceptance on a request without an order keeps the invariant. |
| Market.OneOrderPerRequest | backend/apps/bidding/services.py:147-190 | In every reachable market: per request #orders == #accepted rows <= 1; offer_count is the number of offers not withdrawn; matched, running or completed open-market requests have one accepted and no pending offer; one offer per expert; nobody has more than 20 pending offers. |
| Market.CasePending | backend/apps/bidding/services.py:49-50 | A call adds at most one pending offer, of its own expert, and only below the limit. |
| Market.PendingIsNumber | backend/apps/bidding/services.py:49-50 | What the limit counts is the number of the expert's pending offers over all requests. |
| Market.LimitBinds | backend/apps/bidding/services.py:49-50 | An expert with 20 of them can neither submit nor resubmit one, and the attempt changes nothing. |
| Market.AcceptedIsForever | backend/apps/assignments/services.py:51-62 | Once a request has an order, no later call adds one or touches the order or the accepted row, over any run. |
| Market.PublishSucceeds | backend/apps/service_requests/services.py:190-226 | publish succeeds exactly for the owner, attested and complete, of a managed draft or an open-market draft or expired request; it never counts as the one reopening. |
| Market.ReopenSucceeds | backend/apps/service_requests/services.py:235-247 | reopen succeeds exactly for the owner's never reopened expired requests - and drafts. |
| Market.PublishReopens | backend/apps/service_requests/services.py:216-226 | An expired request is listed again by publishing exactly when it is a complete open-market request of the attesting owner, however often it was reopened, and again when that listing runs out. |
| Market.RefusedPublishRenews | backend/apps/service_requests/services.py:216-225 | A refused publish changes the request exactly when owner, attestation, completeness and open market are given and only the status is in the way; then it renews the expiry and nothing else. |
| Marketplace.OneOrderAcrossPaths | backend/apps/assignments/services.py:51-62 | Over every run of the whole marketplace a request has an order row exactly when one of its offers, invitations or assignments was accepted, never two, with the accepted expert and price; matched means unpaid, in progress or completed means paid. |
| Marketplace.ReachableSystemSound | backend/apps/orders/services.py:146-164 | Requests, orders, payments and their follow-ups stay linked: every order stems from its request's one acceptance and the request follows its payment. |
| Marketplace.FollowUpInPhase | backend/apps/orders/services.py:280-307 | The follow-ups of payment, approval and cancellation keep the request in the phase of its order. |
| Marketplace.NewOrderMatched | backend/apps/assignments/services.py:244-252 | A call that produces an order found the request without one and leaves it matched. |
| Marketplace.NegotiatedOrder | backend/apps/orders/services.py:364-406 | A negotiation at some rate appends an order exactly when it places one: for the request and its student, at the accepted expert and amount, its commission that rate's share rounded half up. |
| Marketplace.RequestKeepsUp | backend/apps/orders/services.py:146-284 | Paying puts a matched request in progress, approving completes one in progress, and a cancelled one stays cancelled. |
| Marketplace.TermsForever | backend/apps/orders/services.py:364-406 | Over any run the parties, price, split and request of an order row never change. |
| Marketplace.OrphanedExactly | backend/apps/service_requests/services.py:229-232 | Over all commands: a paid order starts to go on without its request exactly when the owner cancels the request in progress or the order is paid after its request was cancelled. |
| Marketplace.SweepLeavesRequest | backend/apps/orders/services.py:342-358 | The unpaid sweep leaves the request of the order it cancels matched, unless the student had cancelled it. |
| Marketplace.CancelClosesRequest | backend/apps/orders/services.py:290-311 | A cancellation through the service cancels the request too, unless it was completed. |
| AcceptRace.AtMostOneWinner | backend/apps/assignments/services.py:219-265 | N acceptors of one request with every row lock a separate step, any interleaving and any aborts: at most one commits, and the result is a serial run of the atomic acceptances. |
| AcceptRace.ScheduleIsSerial | backend/apps/bidding/services.py:147-178 | Every schedule commits what the serial run of its committed calls does; each commit wins one order. |
| AcceptRace.CommitIsAtomic | backend/apps/bidding/services.py:147-178 | Under its locks, what a transaction wrote row by row is exactly the atomic acceptance. |
| AcceptRace.AloneIsAtomic | backend/apps/assignments/services.py:219-265 | Undisturbed, the protocol's steps do exactly what the atomic acceptance does, success and refusal alike. |
| MoneyRace.RaceStaysSound | backend/apps/payments/services.py:179-191 | Any number of concurrent confirmations, failed attempts, refunds, settlements, deliveries, revisions, disputes and resolutions other than no-fault closes of one order, starting from stale reads, with separate lock steps and aborts: one charge, one payout, refunds within the payment, all invariants. |
| MoneyRace.ScheduleIsSound | backend/apps/disputes/services.py:183-300 | Every schedule of these jobs, no-fault closes included and resolutions reading as the code reads, keeps the order sound after every event if and only if none of its no-fault closes misplaces the order. |
| MoneyRace.ScheduleIsSerial | backend/apps/disputes/services.py:183-300 | Every schedule commits, after every event, what its committed calls do atomically in commit order if and only if each resolution commits on a dispute still under review and, if partial, leaves something of the payment. |
| MoneyRace.OneResolutionIsSerial | backend/apps/disputes/services.py:174-300 | A single resolution that read the current dispute - a partial one with no refund beside it - among any other jobs: every schedule is sound and serial. |
| MoneyRace.SecondCloseMisplaces | backend/apps/disputes/services.py:262-275 | From any sound delivered order in dispute with a revision left: two no-fault closes with a revision between them leave it delivered with one delivery too few, and unsound. |
| MoneyRace.PartialBesideRefund | backend/apps/disputes/services.py:206-228 | A refund that commits between a partial resolution's read and its lock, leaving exactly its amount: what is committed is not a serial run. |
| MoneyRace.CommitIsAtomic | backend/apps/payments/services.py:303-354 | A transaction that re-reads what it locks - any job but a resolution - did, when it commits, what the atomic service does. |
| Ratings.WeightedAggregate | backend/apps/reviews/services.py:182-199 | The accumulating loop computes the live aggregate of the expert's published reviews. |
| Ratings.LiveIsMean | backend/apps/reviews/services.py:182-199 | The count is the number of the expert's reviews that are not hidden; the average is their weighted mean in hundredths, rounded to the nearest with halves to even, and there is one exactly if there is such a review. |
| Ratings.SumsOne | backend/apps/reviews/services.py:186-196 | One review enters with the weight of its age and its rating exactly if it is the expert's and not hidden. |
| Ratings.SumsConcat | backend/apps/reviews/services.py:186-196 | The sums and the count are those of the parts added up: no review enters twice or alters another. |
| Ratings.AbsentReview | backend/apps/reviews/services.py:185 | A hidden review, or one of another expert, is as if it were not there. |
| Ratings.ReviewDesk.RecomputeExpert | backend/apps/reviews/services.py:202-210 | The profile is stamped with the aggregate, or reported missing. |
| Ratings.ReviewDesk.SubmitReview | backend/apps/reviews/services.py:43-86 | submit_review: student, completed, once per order, valid rating, sub-scores and body; saved, then the profile stamped. |
| Ratings.ReviewDesk.EditReview | backend/apps/reviews/services.py:89-131 | edit_review: author, before the reply, valid changes of rating, sub-scores and body; saved, then stamped. |
| Ratings.ReviewDesk.HideReview | backend/apps/reviews/services.py:162-171 | set_hidden: staff; saved, then stamped. |
| Ratings.HideRemoves | backend/apps/reviews/services.py:162-171 | After staff hide a review its expert's profile is that of the other reviews alone; shown again, the reviews are as before. |
| Ratings.Submits | backend/apps/reviews/services.py:43-86 | A review is stored, as published now, exactly from the student of a completed order without one, well-formed. |
| Ratings.Edits | backend/apps/reviews/services.py:89-131 | The author changes the rating of exactly a review nobody has answered, and nothing else of it. |
| Ratings.CacheNeverStale | backend/apps/reviews/services.py:202-208 | After any chronological run of submissions, edits, replies and moderation, at every later time, every stored average and count equals the live recomputation. |
| Ratings.LiveIsTimeless | backend/apps/reviews/services.py:193-199 | Letting time pass scales all weights alike and leaves the aggregate unchanged. |
| Ratings.HalfLifeDecays | backend/apps/reviews/services.py:194 | 0.5 ** (age / half-life) is such a decay. |
| Ratings.AverageBetween | backend/apps/reviews/services.py:197-199 | There is an average exactly when there is a published review, and it lies between the smallest and largest published rating, rounding included. |

## Left out

- Views, serializers, permissions of the HTTP layer, admin forms, notifications, email, audit rows, messaging threads, files and the frontend: no state the modelled services read.
- The payment gateway is the parameter `accepted`; signature verification of webhooks is a precondition; a provider reference is the pair of order and attempt.
- Commission rates, the payout floor and the dispute window are parameters of each call, since the configuration can change between calls; the minimum offer is its default.
- Free text is its length, attachments and evidence are a truth value, expert eligibility is a parameter of each call, currencies are compared for equality only.
- Order numbers, titles, deadlines of work, deadline proposals, reminders and overdue flags: only their timeline markers appear, as events that do not change the status.
- Offers, invitations and assignments share one table tagged by path; a bulk update over all requests is a loop over them.
- Binary64: the exponent range is unbounded, so neither overflow nor underflow appears; ties are broken either way.
- Ratings.WeightedAggregate: exact reals instead of floats for the weights, because rounding there only shows in the displayed hundredth.
- The KPI queries, the report's summary counts and the earnings endpoints: plain queries.
- The text of replies and the expert's private rating of the student: stored only. A profile created after its reviews is not part of this model.
- A pending payment without a provider reference, which `start_payment` re-arms: a payment row always has one here.
- AcceptRace.ScheduleIsSerial: withdraw, decline, decline_invitation, decline_direct and supersede are atomic on fresh rows there, while the code checks a row read earlier and saves it without a lock (backend/apps/bidding/services.py:100-110,133-144, backend/apps/assignments/services.py:167-177,268-280,315-327), so a stale decline can overwrite an accepted row. The same holds of student cancel. publish, reopen, offer submission, update and resubmission, approve_pool, assign_direct, reject_managed, set_quote and the sweep of stale offers take no part in that race. Freedom from deadlock: the code does not promise it.
- MoneyRace.ScheduleIsSerial: a resolution that is refused counts as rolled back, also where the atomic one would have gone through, as for a full refund whose amount was fixed before another refund. `payment.failed` and the moves through review are not among the jobs because they write without a lock; `Shortfalls.StaleFailureOverwritesPayment` and `Shortfalls.StaleMoveReopens` say what they can do. Approval, cancellation and the payout services other than settlement take no part.
- Runs.RefundDriftBound: exact division; what binary64 computes for orders up to 67,108,863 minor units (`Payouts.FloatRefundIsExact`), not beyond.
- Backend.Backend.AutoApproveDue: no other call interleaves with the batch; `Shortfalls.RecheckApprovesEarly` says what one can do.
- Evidence uploaded by somebody else is a validation error here, a permission error in `open_dispute`.
- `mark_paid` for a named actor who is not staff: its one caller names nobody (backend/apps/orders/payment_hooks.py:23).
- The validation of a draft's budget, deadline and subject, and the fields of an offer other than its amount.
