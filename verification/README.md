# TunexPay payment core in Dafny

A model of the payment core of TunexPay (`apps/api`), with proofs of what the core promises about money: who paid,
what was told, what may be paid back, and that no income is overlooked. The source is TypeScript over a MySQL
database; the model is a state of tables (maps of rows) changed by atomic transactions. Every property about runs
speaks of arbitrary sequences of such transactions: any interleaving of API calls, workers, stale callers, crashes
and clock ticks.

## How the model is laid out

**Bill collector.** `AccountLog` is the gateway's ledger, its pages and the collector's time windows.
`CollectorProtocol` is the state machine of all collector runs in flight: one step per database statement or gateway
answer, each run with its own local memory. `CollectorCoverage` proves that the ledger stays covered,
`CollectorLease` that the stored position moves as if one worker were at work, `CollectorProgress` how far an
undisturbed run gets, `CollectorPacing` when the next one may start, `CollectorStall` when the collector is stuck.
`CollectorService` is the service itself: a class over the stored tables, one method per statement, and the loop that
issues them, with anything happening between two statements.

**Payments, orders, refunds, receipts.** `Rows` holds the tables. `PaymentSteps` and `RefundSteps` say what each
transaction writes, `Steps` collects them into one step type with its runs and reachable states, `Shapes` says which
rows a step touches. The theorems are in `OneWinner`, `Forward`, `News`, `ToldOnce`, `Scheduling`, `RecoveryClaims`,
`RefundTotals`, `RefundCap` (what stored refunds hold), `RefundRaces` (successes overwritten), `RefundLedger` (what was
paid back over a whole run), `SuccessReports` (which reports make a payment successful), `Creations` (what comes into
being, and when), `Announcements` (where successes are delivered), `ExceptionLife`, `Identities`, `BillPayments`,
`BillMatching`, `BillSeam`, `BillCrowd` and `Archive`.
`PaymentStore` is a class with one method per transaction, each proved equal to its step; its `log` is a ghost history,
so the theorems about runs hold of the store at any time. `ServiceSteps` says which transactions a service takes and
what it answers, `ChannelAnswers`, `RecoveryRounds`, `ExpiryOutcomes` and `LineLookup` what that comes to in the rows
stored, `ExpiryConflicts` when an expiration answers a conflict, and `PaymentServices` is the services: methods that
read a snapshot, call a channel, let anything happen, and write. `Policies` (modules `StateMachine` and
`RecoveryPolicy`) and `ReceiptText` are the pure rules they use.

**Owner notifications.** `OwnerTasks` is the tables and steps of the notifier with their theorems, `OwnerNotifier` the
class and its run.

**Texts.** `StableJson`, `SignedObject`, `Csv`, `AlipayBill` and `Money`. The JSON texts follow sections 2, 4 and 7 of
RFC 8259, the statement texts section 2 of RFC 4180.

Channel answers, random numbers, other workers' transactions and the outcome of sending a message are inputs. Where
the source runs a `$transaction`, the model takes one step; a service that spans several transactions takes several,
with arbitrary steps in between.

## What is false of the code, and exactly when

- The success of a refund is not final: `updateRefund` judges the channel's answer by the status read before the
  channel was asked, and writes it over whatever the row is by then (`refund-service.ts:89-107`).
  `RefundRaces.SuccessIsTakenBack` is a history in which a slow query undoes a success,
  `RefundRaces.SuccessStandsExactly` says for every run when a success stands, and `RefundRaces.StatusesFitExactly`
  when the statuses of orders are what their refunds add up to. Answers judged by the stored status would do no harm:
  `RefundRaces.FreshStatusesFit`, `RefundRaces.FreshSuccessStands`.
- A payment may pay back more than it received. Two things lead there. A refund may go from FAILED to SUCCESS
  (`lib/state-machine.ts:17`), or be left open again by such a slow answer, although its room was given to another one:
  `RefundCap.PaidBackTwice` is a history, and `RefundCap.CapHoldsIffNoReturnWithoutRoom` says for every run that the
  refunds as stored stay within the payment if and only if this never happens. And a failure of the call that asked for
  a refund (`refund-service.ts:80-86`) may be written over its success, so that the stored rows forget the payout and
  its room is paid out again: `RefundLedger.PaidAgainUnnoticed` is a history without any such return. Counting what was
  ever paid back, `RefundLedger.OverpaidExactly` says when a run stays within every payment,
  `RefundLedger.CoveredExactly` which steps give away room that is not there, `RefundLedger.CoveredIsSafe` that this is
  just what the refunds under way may still pay out, and `RefundLedger.UnforgottenStaysWithin` that without either of
  the two nothing is paid beyond.
- The collector may stall for good: the cursor keeps milliseconds, the query cuts its start down to the second, and an
  income line of the part second cut off is fetched and refused on every try. `CollectorStall.BlockedExactly` says when
  a window is blocked, `CollectorStall.BlockedForever` that it stays so, `CollectorStall.Stalls` is a history, and
  `CollectorStall.WholeSecondsNeverBlock` says that starts on whole seconds are safe.
- A recovery delay is not capped by 900 seconds, because the jitter comes after the cap:
  `RecoveryPolicy.ExceedsCapExactly` and `RecoveryPolicy.DelayBounds`.
- The very same refund request without a reason is refused as a conflict, because an absent reason is hashed
  differently from the one read back: `Identities.RepeatedRefundExactly`.
- A new refund whose channel answers with the one status it cannot take, CREATED, stays PROCESSING: the error is raised
  behind the `catch` meant for it, because the last call is not awaited (`refund-service.ts:79`).
  `PaymentServices.Service.CreateRefund` says what every answer leaves.
- Expiring an open order may report a state conflict, because the order and its payments are read one after the other:
  `ExpiryConflicts.ConflictHappens` is a history. It does so if and only if a payment listed is successful and every
  active one listed before it settles as closed (`ExpiryConflicts.ConflictExactly`), and with no active one before it
  if and only if the order is paid at the second read (`ExpiryConflicts.PaidBetweenExactly`).
- The lookup by amount may find two payments, exactly at the instant where one window ends and the next begins, both
  ends being inclusive: `BillMatching.AmountLookup` and `BillSeam.FoundTwice`.
- The lookup by reference may miss the payment a remark speaks for, exactly when more than three payments of the
  account had the reference: `BillMatching.ReferenceIsUnambiguous`, with `BillCrowd.Missed` as a history.
- One event deleted by an archive while the notifier is about to mark it rolls back its whole collecting transaction,
  and the other events read stay in the backlog for the next run: `OwnerNotifier.OwnerStore.CollectOwnerEvents` says
  exactly when the run lowers the backlog.
- A single empty cell at the end of a statement is lost when no line break follows: `Csv.LastRowWithoutBreak`. A plain
  first cell that begins with a byte order mark loses it: `Csv.UnmarkedExactly`.

## Model

| member | source | states |
|---|---|---|
| CollectorCoverage.LedgerCovered | apps/api/src/services/alipay-bill-collector-service.ts:29-119 | After every interleaving of collector runs, clock ticks, late ledger lines, crashes, lost leases and archives that delete receipts: for each payment still in demand, every income entry timed from its start up to the second of the cursor has, or had, a receipt row |
| CollectorCoverage.StepKeeps | apps/api/src/services/alipay-bill-collector-service.ts:29-119 | Each single statement of a run, and each event of the world, keeps coverage, the lease discipline and what every run remembers of the stored row |
| CollectorLease.LeaseRefinesSolo | apps/api/src/services/alipay-bill-collector-service.ts:49-116 | Whatever the interleaving, the history of cursor, window and page is one a single worker could have produced: begin at the earliest demand, skip idle time, open a window, turn a page, close the window |
| CollectorLease.CursorNeverDecreases | apps/api/src/services/alipay-bill-collector-service.ts:64-70 | Over any steps the stored cursor only moves forward, and the row once written stays |
| CollectorLease.OpenWindowSound | apps/api/src/services/alipay-bill-collector-service.ts:68-71 | In every reachable state an open window holds the cursor inside it, and all its pages before the next one have their receipts |
| CollectorStall.OwnerFailsExactly | apps/api/src/lib/alipay-account-log.ts:4-11 | Writing its next record of a truthful page, the lease owner gives up exactly when that record is income timed in the part of a second that the query cut off the start of the window |
| CollectorStall.BlockedExactly | apps/api/src/services/alipay-bill-collector-service.ts:68-90 | The query of the open window returns a line that the window check refuses exactly when some income line is timed before its start within the same second |
| CollectorStall.BlockedForever | apps/api/src/services/alipay-bill-collector-service.ts:74-114 | Once that is so, then over any steps of any runs the window stays open and the cursor stays where it is |
| CollectorStall.Stalls | apps/api/src/services/alipay-bill-collector-service.ts:12-119 | With the default settings there is a history after which, whatever follows, the collector never gets past its first window |
| CollectorStall.WholeSecondsNeverBlock | apps/api/src/lib/alipay-account-log.ts:4-11 | A window that starts on a whole second never blocks |
| CollectorProgress.WindowFinishes | apps/api/src/services/alipay-bill-collector-service.ts:72-107 | Reading five pages at a time finishes a window as soon as the pages counted reach its size and not before, and then leaves the cursor at its end |
| CollectorService.CollectorStore.FinishWindow | apps/api/src/services/alipay-bill-collector-service.ts:72-107 | From any open window that does not block, runs that are disturbed by nothing but the world close it, with the cursor at its end, exactly when the pages counted, five a run, reach the size of its query |
| CollectorService.CollectorStore.RunAlipayBillCollector | apps/api/src/services/alipay-bill-collector-service.ts:29-119 | A run starts exactly when some payment is in demand and the collector is due and free; it ends with its lease released, the cursor not behind and the ledger covered, whatever happens in between. Undisturbed and truthfully answered it moves the position by five pages or to the end of the window; and undisturbed, a run that fails with a time later than its claim leaves just that time as the next start, one that does not fail the time of the next poll |
| CollectorService.CollectorStore.CollectPages | apps/api/src/services/alipay-bill-collector-service.ts:74-107 | Up to five pages: undisturbed and truthfully answered, either all five are committed or the window is done, and no failure is reported |
| CollectorService.CollectorStore.CollectPage | apps/api/src/services/alipay-bill-collector-service.ts:75-102 | Undisturbed and truthfully answered, one page is fetched, written and committed, and the position advances by exactly this page; a page that fails the checks is a failure and moves nothing |
| CollectorService.CollectorStore.OpenOrResume | apps/api/src/services/alipay-bill-collector-service.ts:60-72 | An open window is resumed as it is; otherwise idle history is skipped to the earliest demanded start and the next window opened, or the run leaves when there is nothing to read yet |
| CollectorService.CollectorStore.WriteReceipts | apps/api/src/services/alipay-bill-collector-service.ts:84-93 | Undisturbed, every record of the page is written before the commit, and nothing else moves |
| CollectorService.CollectorStore.CollectionDemand | apps/api/src/services/alipay-bill-collector-service.ts:18-27 | Finds the earliest start among the unpaid payments recognised by now and until at most five minutes, or overlap and lag, ago, and nothing exactly when there is none |
| CollectorService.CollectorStore.ClaimLease | apps/api/src/services/alipay-bill-collector-service.ts:30-56 | Succeeds exactly when the row is due and no lease is live, and then leases it for a minute to a fresh owner; position and next start stay as they are, or begin at the demand |
| CollectorService.CollectorStore.Execute | apps/api/src/services/alipay-bill-collector-service.ts:29-119 | Any statement of any run, or event of the world, changes the stored tables exactly as the protocol step does and is kept in the history |
| CollectorService.CollectorStore.SkipIdleHistory | apps/api/src/services/alipay-bill-collector-service.ts:64-67 | The skip moves the cursor only for the lease owner, and only forward to the claimed demand |
| CollectorService.CollectorStore.PlanWindow | apps/api/src/services/alipay-bill-collector-service.ts:68-71 | The window stored starts the overlap before the cursor and ends at the lag before the claim or half an hour behind the cursor, whichever is earlier; it is stored at page one only for the lease owner, and only when it ends behind the cursor |
| CollectorService.CollectorStore.RenewLease | apps/api/src/services/alipay-bill-collector-service.ts:75-76 | The lease is prolonged by a minute exactly while it is live and owned, and the run goes on to fetch; otherwise nothing is written and the run leaves |
| CollectorService.CollectorStore.FetchPage | apps/api/src/services/alipay-bill-collector-service.ts:77-83 | An answer that fails the page checks ends the run; an accepted one is the page to write |
| CollectorService.CollectorStore.IngestRecord | apps/api/src/services/alipay-bill-collector-service.ts:84-93 | An income record inside the window gets its receipt row; one outside stops the run |
| CollectorService.CollectorStore.CommitPage | apps/api/src/services/alipay-bill-collector-service.ts:94-103 | Only behind the last record of the page and under a live owned lease is anything written: the next page, or the end of the window as the new cursor |
| CollectorService.CollectorStore.RecordFailure | apps/api/src/services/alipay-bill-collector-service.ts:108-114 | A failure sets the next start, and for the lease owner only |
| CollectorService.CollectorStore.ReleaseLease | apps/api/src/services/alipay-bill-collector-service.ts:115-116 | Release frees the lease of its owner alone and writes nothing else |
| CollectorService.CollectorStore.PaceNextRun | apps/api/src/services/alipay-bill-collector-service.ts:117-118 | The next start is written, in a write of its own, only while nobody holds the lease and the one stored is not later than the claim |
| CollectorPacing.PaceWrites | apps/api/src/services/alipay-bill-collector-service.ts:117-118 | At the end of a run the next start becomes the time of the next poll exactly if nobody holds the lease and the stored start is not later than the claim; otherwise it stays |
| CollectorPacing.StartChanges | apps/api/src/services/alipay-bill-collector-service.ts:29-119 | No statement but a wake, a failure, the first claim or the end of a run changes the stored next start |
| CollectorPacing.BackoffStands | apps/api/src/services/alipay-bill-collector-service.ts:108-118 | Over any steps of any runs in flight, before the time of a backoff and without a wake or another failure, the next start stays where it is and no run is claimed |
| CollectorPacing.DemandAsks | apps/api/src/services/alipay-bill-collector-service.ts:18-27 | The payments that coverage speaks of are just the unpaid ones recognised by now and until at most five minutes, or overlap and lag, ago |
| AccountLog.PagesConcatenate | apps/api/src/lib/alipay-account-log.ts:13-23 | Pages one to n join up to the first n pages of the list, and to the whole list once a page was complete |
| AccountLog.AcceptedPagesAddUp | apps/api/src/lib/alipay-account-log.ts:13-23 | Pages accepted against one total hold together exactly as many records as that total allows, whatever the gateway sent |
| OneWinner.OneWinnerAlways | apps/api/src/services/payment-service.ts:132-198 | In every reachable state an order is SUCCESS, PARTIALLY_REFUNDED or REFUNDED exactly when it has a winner, the winner is a successful payment of it, and any other successful payment has its LATE_DUPLICATE exception until the order is archived |
| OneWinner.ToldOnceAlways | apps/api/src/services/outbox-service.ts:44-55 | In every reachable state an order has at most one ORDER_SUCCEEDED event and at most one payment.succeeded delivery, and only once it is paid |
| ToldOnce.PaidIsToldOnce | apps/api/src/services/payment-service.ts:186-195 | Over any run, counting events that were archived since, ORDER_SUCCEEDED was stored exactly once for an order that has a winner, and never for one that has none |
| ToldOnce.PaidIsDeliveredAtMostOnce | apps/api/src/services/outbox-service.ts:10-56 | Over any run, counting deliveries that were archived since, payment.succeeded was added at most once for an order, and only for one that has a winner |
| OneWinner.ClosingIsSafe | apps/api/src/services/expiration-service.ts:87-108 | In every reachable state all payments of a CLOSED order are FAILED or CLOSED, and the closing transaction never meets a successful payment |
| OneWinner.LateSuccessMovesBoth | apps/api/src/services/payment-service.ts:153-190 | Whatever single step makes a payment of a CLOSED order successful makes that order SUCCESS with this payment as its winner |
| OneWinner.StepKeeps | apps/api/src/services/payment-service.ts:111-198 | Every transaction of any worker, however stale its caller, keeps the links between rows, the single winner, the reports of duplicates and what has been told |
| Forward.RunMovesForward | apps/api/src/services/payment-service.ts:111-250 | Over any steps: a successful payment is never deleted and stays successful with its order, amount, terms, received amount and payment time, a bill payment also with its trade number; a winner is never replaced; a paid order stays paid; attempts never fall; refunds keep payment, amount and number; numbers are not used again |
| Shapes.StepWrites | apps/api/src/services/payment-service.ts:111-250 | Every step but the deletion of an application writes one row at most per table, and which one |
| PaymentStore.Store.CreatePayment | apps/api/src/services/payment-service.ts:32-78 | Creates the payment with its reservation, or answers with the payment of the same idempotency key without writing, or refuses and writes nothing, each exactly when the source does |
| PaymentStore.Store.FindByKey | apps/api/src/services/payment-service.ts:43-46 | Finds a payment of the order with this idempotency key exactly when there is one |
| PaymentStore.Store.UpdatePaymentObservation | apps/api/src/services/payment-service.ts:111-130 | Writes a channel answer other than success, and only over a row that is not successful and may change so; a next query is set over ALIPAY only |
| PaymentStore.Store.MarkPaymentSucceeded | apps/api/src/services/payment-service.ts:132-198 | A report of another amount, or on a payment that has succeeded, writes nothing, and neither does any other that is refused; an accepted one makes the payment successful with the amount, trade number and time reported, changes no other payment, and pays the order or files a duplicate |
| PaymentStore.Store.CheckReport | apps/api/src/services/payment-service.ts:136-153 | Refuses a report of another amount; for a payment that has succeeded, one of another trade number, then one of another received amount; for any other payment, one whose trade number another payment has; and nothing else |
| SuccessReports.SucceedsExactly | apps/api/src/services/payment-service.ts:132-182 | Any single step makes a payment successful if and only if it is a report that vouches for its whole amount over its own channel, or a bill line that fits it on its account, and no other payment has the trade number it ends up with; what it received and when is what was reported |
| SuccessReports.PaidInFull | apps/api/src/services/payment-service.ts:137-161 | In every reachable state a successful payment over ALIPAY or MOCK received exactly its amount, one over a bill exactly the amount it asked for |
| SuccessReports.RepeatChangesNothing | apps/api/src/services/payment-service.ts:138-151 | Whatever a later report says of a successful payment, another trade number or another amount included, no table changes |
| PaymentStore.Store.WinOrder | apps/api/src/services/payment-service.ts:186-195 | The order is SUCCESS with this payment as its winner, its payment time, and off the expiration schedule; two events are told, the delivery is added, and no other order changes |
| PaymentStore.Store.IsTradeNoFree | prisma/schema.prisma:189 | No other payment carries the trade number |
| PaymentStore.Store.WriteClosed | apps/api/src/services/payment-service.ts:238-249 | Closes a payment that is CREATED, PROCESSING or UNKNOWN and takes it off the schedule; FAILED, CLOSED and SUCCESS are left alone |
| PaymentStore.Store.WriteTradeNo | apps/api/src/services/reconciliation-service.ts:106-108 | Adds the trade number a statement found to a payment over ALIPAY, unless another payment has it |
| PaymentStore.Store.CreateDelivery | apps/api/src/services/outbox-service.ts:44-95 | Adds the delivery under order, event and address, changes no existing one, and adds none for the refunds of an EPAY order |
| Announcements.AlwaysAnnounced | apps/api/src/services/outbox-service.ts:1-95 | In every reachable state each delivery goes to the address of its order, which is the order's own or else its application's, and none is missing: every paid order and every successful refund of its winner has one, unless the order is deleted or has no address, or it is a refund of an EPAY order |
| PaymentStore.Store.OpenPaymentException | apps/api/src/services/payment-exception-service.ts:24-72 | Afterwards the exception of its kind and subject exists and is live, PROCESSING if it was and OPEN otherwise; an event is told exactly when it is new or reopened and names order and payment; no other exception changes |
| PaymentStore.Store.UpdatePaymentException | apps/api/src/services/payment-exception-service.ts:107-142 | An exception that is not resolved takes the status asked for, unless that is OPEN; a resolved one stays as it is, and no exception comes or goes |
| ExceptionLife.ExceptionsMove | apps/api/src/services/payment-exception-service.ts:24-167 | Every step but a deletion: exceptions come by a second success of a paid order and by receipts that need a person, and by nothing else; an open one is resolved by refunds that pay the second payment back in full, by matching the receipt or by a person, and by nothing else |
| ExceptionLife.DuplicateStaysOpen | apps/api/src/services/payment-exception-service.ts:144-167 | Over any run the exception of a second payment stays open unless a person takes it on, an archive removes it, or refunds pay the payment back in full |
| PaymentStore.Store.InsertOrder | apps/api/src/services/order-service.ts:21-95 | Answers a repeated request with the order it made, refuses another request under the same number or key, and otherwise creates an order that is open, unpaid and scheduled for its own expiry; only then is anything written |
| Creations.OrderCreatedExactly | apps/api/src/services/order-service.ts:21-95 | An order comes into being if and only if its application exists, its amount is above zero and no order of the application, deleted or not, has its number or key; it is the row the request describes, and otherwise nothing is written |
| Identities.NoIdentityTwice | prisma/schema.prisma:167-168 | In every reachable state two orders of one application differ in their external number and, where there is one, in their idempotency key, and two refunds of it in their number |
| Identities.RepeatGetsItsOrder | apps/api/src/services/order-service.ts:30-43 | Whatever happened since, the request that made an order is answered with that order as long as it is not deleted |
| PaymentStore.Store.Execute | apps/api/src/services/payment-service.ts:32-250 | Any transaction changes the stored tables exactly as its step does and is kept in the history, so every history is one the theorems speak of |
| PaymentServices.Service.CreatePayment | apps/api/src/services/payment-service.ts:25-109 | Takes the creating transaction and, only for a new payment, writes the channel's answer afterwards over whatever the row has become; undisturbed, the payment is UNKNOWN after an uncertain answer, FAILED after a rejection, and otherwise what was answered, with a next query while it is undecided over ALIPAY |
| Creations.PaymentCreatedExactly | apps/api/src/services/payment-service.ts:32-78 | A payment comes into being if and only if the order is there, open and not expired, the number and key are new, and a bill payment can be told apart; it is PROCESSING and worth the order, and the order PENDING |
| Creations.PaymentRefused | apps/api/src/services/payment-service.ts:38-46 | Which refusal is answered: a missing or deleted order, an expired one, one that is not open, in this order |
| Creations.PaymentsFitOrders | apps/api/src/services/receipt-reservation-service.ts:7-62 | In every reachable state a payment is worth its order, and a bill payment asks for no less and is recognised no longer than its order may be paid |
| ChannelAnswers.CreationLands | apps/api/src/services/payment-service.ts:83-108 | What each answer to its creation leaves of a payment that is still PROCESSING |
| ChannelAnswers.UncertainKeepsWaiting | apps/api/src/services/payment-service.ts:101-107 | An uncertain answer never ends a payment, whatever it has become meanwhile |
| ChannelAnswers.ObservationWritten | apps/api/src/services/payment-service.ts:111-130 | An answer short of success is written exactly if the row, as it is by then, may become so: status, channel number and next query, and nothing else |
| PaymentServices.Service.QueryPayment | apps/api/src/services/payment-service.ts:200-223 | Takes exactly the transaction that answer and snapshot call for; SUCCESS is answered only for a payment stored as successful, and a success the core refuses is an error |
| ChannelAnswers.QuestionLands | apps/api/src/services/payment-service.ts:200-223 | Undisturbed: nothing is written without an answer; a success over ALIPAY is stored if its trade number is free; other news is stored if the status may change so; a forgotten payment is asked about again in 15 seconds; anything else leaves it as it is |
| ChannelAnswers.QuestionAnswered | apps/api/src/services/payment-service.ts:200-223 | Undisturbed: what is answered is what is stored, and an error exactly where the channel could not be asked or its success was refused |
| PaymentServices.Service.ClosePayment | apps/api/src/services/payment-service.ts:231-251 | Closes only after the channel confirmed; CLOSED and SUCCESS are answered only for a payment stored so, and an unconfirmed close writes nothing |
| ChannelAnswers.ClosingLands | apps/api/src/services/payment-service.ts:225-251 | Undisturbed: a payment that is CREATED, PROCESSING or UNKNOWN is closed exactly if its channel confirmed, and no other payment changes |
| ChannelAnswers.ClosingAnswered | apps/api/src/services/payment-service.ts:225-251 | Undisturbed: what is answered for each status and each answer of the channel |
| PaymentServices.Service.ExpireOrder | apps/api/src/services/expiration-service.ts:63-109 | With anything happening in between: asks about and closes each active payment read, then closes the order; "closed" is answered only when the order is CLOSED with all payments FAILED or CLOSED, "paid" only when it is paid; a state conflict never when nothing happens between the two reads. With nobody around it ends as the next row says |
| ExpiryOutcomes.QuietExpiry | apps/api/src/services/expiration-service.ts:63-109 | With nobody around, an open order is closed, and that is answered, if and only if every payment under way ends closed: over ALIPAY asked first and not successful, then confirmed closed by its channel; it is paid, and that is answered, only if a channel told of a success; after any error it is exactly as before |
| ExpiryOutcomes.QuietRound | apps/api/src/services/expiration-service.ts:24-58 | With nobody around, one round of the worker over a due order closes it under the same condition, finds it paid, or leaves it open and unlocked with one attempt more and its next one after the delay of that attempt |
| ServiceSteps.DueOrdersAre | apps/api/src/services/expiration-service.ts:9-22 | The worker takes up open orders that are not deleted, past their expiry, due and unlocked, and all of them unless they are too many |
| ServiceSteps.CountedOnce | apps/api/src/services/expiration-service.ts:36-58 | A round counts one claim and one closed, paid, skipped or failed order, as it ended |
| ExpiryConflicts.ConflictExactly | apps/api/src/services/expiration-service.ts:67-85 | The payments being listed, the state conflict is answered if and only if one of them is successful and every active one listed before it settles as closed; the closing transaction never answers it |
| ExpiryConflicts.PaidBetweenExactly | apps/api/src/services/expiration-service.ts:64-68 | Unless an active payment is listed before a successful one, it is answered if and only if the order is paid at the second read |
| ExpiryConflicts.ConflictMeansPaidBetween | apps/api/src/services/expiration-service.ts:64-68 | Whenever it is answered, the order was open at the first read and paid at the second |
| ExpiryConflicts.ConflictHappens | apps/api/src/services/expiration-service.ts:64-68 | A history in which a due order is paid between the two reads and its expiration answers the conflict |
| PaymentServices.Service.CloseExpired | apps/api/src/services/expiration-service.ts:87-108 | The closing transaction answers by what it finds under the lock, and a conflict is never among it |
| PaymentServices.Service.RunDueOrderExpirations | apps/api/src/services/expiration-service.ts:8-61 | Takes up the first orders due by their time, each claimed by the attempts read; a claimed order is expired and, when that fails, put back on the schedule; every claim is counted under one outcome |
| PaymentStore.Store.ClaimExpirationRow | apps/api/src/services/expiration-service.ts:25-36 | Succeeds exactly when the order is open, due, at the attempts seen and its lock, if any, has lapsed; then it counts one attempt more and is locked for a minute, and otherwise nothing is written |
| PaymentStore.Store.RetryExpiration | apps/api/src/services/expiration-service.ts:45-57 | An order that is still open is unlocked and due after the delay of its attempt; any other is left alone |
| PaymentStore.Store.CloseOrderRow | apps/api/src/services/expiration-service.ts:87-108 | Closes the order, with an event, exactly if it is open and all its payments are FAILED or CLOSED; a paid or closed one is taken off the schedule, one with payments under way stays as it is |
| PaymentStore.Store.ReleaseExpirationOf | apps/api/src/services/expiration-service.ts:111-115 | Takes the order of a successful payment off the schedule, and writes nothing for any other payment |
| Scheduling.NothingFallsOff | apps/api/src/services/expiration-service.ts:44-115 | In every reachable state each open order has a next attempt, and each ALIPAY payment or refund in PROCESSING or UNKNOWN with fewer than 20 attempts has a next query |
| ServiceSteps.OpenOrderBecomesDue | apps/api/src/services/expiration-service.ts:10-20 | In every reachable state each open order that is not deleted comes up in what the expiration worker reads, by waiting alone |
| ServiceSteps.UndecidedRecordBecomesDue | apps/api/src/services/recovery-service.ts:10-21 | So does each undecided payment or refund over ALIPAY with attempts left, in what the recovery worker reads |
| Scheduling.HandedOverOnce | apps/api/src/services/recovery-service.ts:116-139 | In every reachable state a record has at most one exhausted event, and only once its twenty attempts are spent and none can be claimed again |
| ToldOnce.HandedOverAtMostOnce | apps/api/src/services/recovery-service.ts:116-139 | Over any run, counting events that were archived since, a record is handed over to a person at most once, and from then on its attempts are spent |
| RecoveryClaims.ClaimsAreConsecutive | apps/api/src/services/recovery-service.ts:24-36 | Over any steps by any number of workers, the attempts claimed of a record are consecutive numbers, each claimed once, twenty at most |
| RecoveryPolicy.DelayBounds | apps/api/src/lib/recovery-policy.ts:23-27 | Every delay lies between 15 and 990 seconds |
| RecoveryPolicy.DelayMonotone | apps/api/src/lib/recovery-policy.ts:23-27 | With the same jitter a later attempt never waits less |
| RecoveryPolicy.ExceedsCapExactly | apps/api/src/lib/recovery-policy.ts:23-27 | The jitter comes after the cap of 900 seconds: the delay exceeds it exactly from attempt 7 on and with random * 180 at least 90.5 |
| RecoveryPolicy.JitterExceedsCap | apps/api/src/lib/recovery-policy.ts:23-27 | An instance: attempt 7 with jitter 0.9 waits 972 seconds |
| RecoveryPolicy.RecoveryDelayDoubles | apps/api/src/lib/recovery-policy.ts:23-27 | Without jitter the first attempt waits 15 seconds and each further one twice as long as the one before, up to 900 |
| RecoveryPolicy.JitterIsATenth | apps/api/src/lib/recovery-policy.ts:23-27 | The jitter takes away or adds up to a tenth, rounded to whole seconds, and never goes below 15 |
| RecoveryPolicy.ExpirationDelayDoubles | apps/api/src/lib/expiration-policy.ts:5-8 | A failed expiration waits 30 seconds at first and then twice as long each time, up to an hour |
| PaymentServices.Service.RunDuePaymentRecoveries | apps/api/src/services/recovery-service.ts:10-61 | Takes up the first payments due by the time of their next query; every claimed one is asked about and its attempt ended by the step its answer calls for; the counts are those of the rounds |
| PaymentServices.Service.RunDueRefundRecoveries | apps/api/src/services/recovery-service.ts:63-114 | The same for refunds |
| PaymentServices.Service.Recover | apps/api/src/services/recovery-service.ts:22-58 | One record: claimed only if nobody was faster, asked about, ended; exhausted is counted exactly when the record is handed over. Undisturbed, an attempt that learns nothing puts the record off and is counted as the next row says |
| RecoveryRounds.RoundPutsOff | apps/api/src/services/recovery-service.ts:22-58 | Undisturbed, an attempt that learns nothing counts once more and waits, from its claim, the delay of that attempt; after the twentieth there is no next query and a person is told. It is counted as claimed, as failed exactly when the channel could not be asked, as exhausted exactly when it was the twentieth |
| RecoveryRounds.EndIsCounted | apps/api/src/services/recovery-service.ts:37-40 | Undisturbed, an attempt that learns how the payment or refund ended is counted as claimed and resolved and as nothing else |
| RecoveryRounds.ClaimWrites | apps/api/src/services/recovery-service.ts:22-36 | A claim takes exactly an undecided record over ALIPAY that is due, at the attempts seen and below twenty; it counts the attempt, puts off the next query by its delay, and writes nothing else |
| RecoveryRounds.EndWrites | apps/api/src/services/recovery-service.ts:41-58 | What the holder of an attempt writes at its end: the next query after a failure, none and an event at the twentieth attempt, and otherwise nothing |
| RecoveryRounds.DueRecordsAre | apps/api/src/services/recovery-service.ts:11-21 | The worker takes up undecided records over ALIPAY whose time has come with attempts left, and all of them unless they are too many |
| PaymentStore.Store.ClaimRecoveryRow | apps/api/src/services/recovery-service.ts:24-36 | Succeeds exactly when the record is undecided, due and still at the attempts seen; then the record counts one attempt more, and otherwise nothing is written |
| PaymentStore.Store.RetryRecovery | apps/api/src/services/recovery-service.ts:41-58 | After a failed query the claim is over and the attempts are kept; the record is handed over, without a next query, only when this was its last attempt |
| PaymentStore.Store.FinishRecovery | apps/api/src/services/recovery-service.ts:116-139 | The same after a query that settled nothing |
| PaymentStore.Store.PutBack | apps/api/src/services/payment-service.ts:219-221 | A forgotten record over ALIPAY gets a next query time again |
| RefundRaces.StatusIsRefundTotal | apps/api/src/services/refund-service.ts:109-139 | After any run that unsettles no order, a paid order is SUCCESS, PARTIALLY_REFUNDED or REFUNDED exactly as the winner's successful refunds total nothing, something below the order amount, or at least the order amount |
| RefundRaces.StatusesFitExactly | apps/api/src/services/refund-service.ts:89-139 | All along a run order statuses are what refunds add up to if and only if no step of it writes another answer over a successful refund of a winner whose other refunds ask for another status |
| RefundRaces.SuccessStandsExactly | apps/api/src/services/refund-service.ts:89-107 | Through any run the success of a refund stands if and only if no step of it writes another answer over the refund, judged by a status read before the success |
| RefundRaces.StepStands | apps/api/src/services/refund-service.ts:89-107 | A single step takes a success back if and only if it is such an answer; archiving, recovery and repeated successes never do |
| RefundRaces.FreshStatusesFit | apps/api/src/services/refund-service.ts:89-91 | If every answer were judged by the status stored when it is written, order statuses would be what refunds add up to all along every run |
| RefundRaces.FreshSuccessStands | apps/api/src/services/refund-service.ts:89-91 | And the success of a refund would stand for good |
| RefundRaces.SuccessIsTakenBack | apps/api/src/services/refund-service.ts:153-154 | A history in which a slow query writes PROCESSING over a refund that has succeeded: the order is REFUNDED, and its winner has paid back nothing |
| RefundTotals.RefundBound | apps/api/src/services/refund-service.ts:33-48 | In every reachable state the refunds of a payment that are stored as holding or having paid out money total at most its amount plus those of them that came back after they had failed |
| RefundTotals.NoRevivalWithinCap | apps/api/src/services/refund-service.ts:33-48 | Without such a refund the stored refunds of a payment total at most its amount at every moment |
| RefundCap.CapHoldsIffNoReturnWithoutRoom | apps/api/src/lib/state-machine.ts:13-19 | From any sound state within the cap, a run keeps the stored refunds of every payment within the payment at every moment if and only if it never brings a failed refund back, by success or by a slow answer, whose amount no longer fits |
| RefundCap.StepCapped | apps/api/src/services/refund-service.ts:109-139 | A single step leaves the cap on the stored refunds standing if and only if it brings no failed refund back without room |
| RefundCap.PaidBackTwice | apps/api/src/lib/state-machine.ts:17 | The unconditional cap on stored refunds is false: a history in which refunds of 200 are stored as successful for a payment of 100 |
| RefundLedger.OverpaidExactly | apps/api/src/services/refund-service.ts:109-139 | Counted over the whole run, whatever is stored of it by now, what was ever paid back stays within every payment at every moment if and only if no refund is paid for the first time whose amount no longer fits beside all that was ever paid back |
| RefundLedger.CoveredExactly | apps/api/src/services/refund-service.ts:33-48 | What refunds hold and what was ever paid back stays, together, within every payment if and only if no step gives away room that is not there: to a new refund, because the room check overlooks a payout stored as failed, or to a failed refund that comes back |
| RefundLedger.CoveredIsSafe | apps/api/src/services/refund-service.ts:109-139 | After any run that sum is within every payment if and only if the refunds still under way may all succeed, in any order, without paying back more than was paid |
| RefundLedger.NeverOvercommittedNeverOverpaid | apps/api/src/services/refund-service.ts:33-48 | A run that gives no such room away never pays back more than was paid |
| RefundLedger.UnforgottenStaysWithin | apps/api/src/services/refund-service.ts:80-107 | Neither does a run that brings no failed refund back without room and writes no failure over a refund that was paid back; every payout is then still stored |
| RefundLedger.PaidAgainUnnoticed | apps/api/src/services/refund-service.ts:80-86 | A history in which a failure is written over a payout and its room paid out again: 200 of 100 are paid back, while no failed refund ever came back and the stored successes total 100 |
| RefundLedger.FreshStaysWithin | apps/api/src/services/refund-service.ts:89-91 | If every answer were judged by the status stored when it is written, only a failed refund that succeeds without room could make a payment pay back more than it received |
| RefundTotals.RevivalBreaksCap | apps/api/src/services/refund-service.ts:109-120 | A successful answer breaks the cap of its payment exactly when it revives a refund without room |
| Rows.TotalWithout | apps/api/src/services/refund-service.ts:39-43 | The sum over a payment's refunds does not depend on the order in which the rows are taken |
| PaymentStore.Store.Aggregate | apps/api/src/services/refund-service.ts:39-43 | Computes the sum over the stored refunds of a class |
| PaymentStore.Store.ReserveRefund | apps/api/src/services/refund-service.ts:32-58 | Creates the refund only for a successful payment of the application with room left, answers with the existing one for the same request again, and refuses otherwise without writing |
| Identities.RepeatedRefundExactly | apps/api/src/services/refund-service.ts:22-30 | The very request that made a refund, sent again, is answered with that refund if it gives a reason, and refused as a conflict if it gives none |
| PaymentStore.Store.UpdateRefund | apps/api/src/services/refund-service.ts:89-107 | Writes an answer other than success over whatever the row is, when the status seen before the channel was asked may change so |
| PaymentStore.Store.FinalizeRefund | apps/api/src/services/refund-service.ts:109-139 | Refund, order status, event, duplicate exception and delivery are written together, or nothing for a refund that succeeded before; the refund keeps its amount, and every other refund and every order of which the payment is not the winner stays as it is |
| PaymentStore.Store.ResolveLateDuplicate | apps/api/src/services/payment-exception-service.ts:144-167 | The duplicate exception is resolved exactly if it is open or in progress and the payment is paid back in full; every other exception stays as it is |
| PaymentServices.Service.CreateRefund | apps/api/src/services/refund-service.ts:21-87 | Reserves room first; only a new refund is sent, anything may happen meanwhile. Whatever happened, an uncertain answer leaves the refund UNKNOWN, holding its room and asked about again over ALIPAY, a rejection FAILED, and any other answer is what is stored; an answer the refund cannot take is an error and writes nothing |
| ChannelAnswers.AnswerLands | apps/api/src/services/refund-service.ts:73-107 | Whatever became of the refund while the channel was asked, its answer is what is stored of it |
| Creations.RefundCreatedExactly | apps/api/src/services/refund-service.ts:32-58 | A refund comes into being if and only if its amount is above zero, its number is new to the application, the payment is a successful one of an undeleted order of the application and what is held already leaves room for it; it is PROCESSING |
| Creations.RefundRefused | apps/api/src/services/refund-service.ts:22-43 | Which refusal is answered for which of these |
| PaymentServices.Service.QueryRefund | apps/api/src/services/refund-service.ts:142-161 | With anything happening between its read and its write: takes exactly the transaction that the answer and the refund as read call for |
| ChannelAnswers.RefundQuestionLands | apps/api/src/services/refund-service.ts:142-161 | Undisturbed: a success is always stored, other news if the refund may become so, a forgotten refund is asked about again in 15 seconds, and anything else leaves it as it is |
| ChannelAnswers.RefundQuestionAnswered | apps/api/src/services/refund-service.ts:142-161 | Undisturbed: what is answered is what is stored, and an error exactly where the channel could not be asked |
| ChannelAnswers.RefundObservationWritten | apps/api/src/services/refund-service.ts:89-107 | An answer short of success is written exactly if the status seen before may become so |
| BillMatching.WindowsMeetAtEnds | apps/api/src/services/receipt-reservation-service.ts:22-62 | Two payments of one account with the same mode and match value that are both recognisable at an instant meet there end to start |
| BillMatching.LeastOffset | apps/api/src/services/receipt-reservation-service.ts:29-42 | The amount taken is the least free one from the order's amount up to the largest offset, the business amount stays, and the pool is exhausted exactly when every one of them is live |
| BillPayments.FirstFreeIsLeast | apps/api/src/services/receipt-reservation-service.ts:38-40 | The offset found is free and every smaller one is taken; none is found exactly when all are taken |
| BillMatching.PoolAmountsDiffer | apps/api/src/services/receipt-reservation-service.ts:42 | Different amounts are different reservations |
| BillPayments.StepReserves | apps/api/src/services/receipt-reservation-service.ts:22-62 | Every step keeps each live bill payment in possession of its reservation, and the recognition windows of one key apart |
| BillMatching.AmountLookup | apps/api/src/services/receipt-flow-service.ts:258-271 | In every reachable state the lookup by amount finds two payments at most, and two exactly when the line is paid at an instant where the window of one ends and that of the other begins |
| BillSeam.FoundTwice | apps/api/src/services/receipt-flow-service.ts:258-271 | A history in which a line is found twice by its amount: a second payment created in the very second in which the first stops being recognisable |
| BillMatching.AmountIsUnambiguous | apps/api/src/services/receipt-flow-service.ts:258-271 | A line with the amount of a payment, paid strictly inside its window and without another hint, is matched to that payment and to nothing else |
| BillMatching.ReferenceIsUnambiguous | apps/api/src/services/receipt-flow-service.ts:241-256 | A line with a payment's reference and amount strictly inside its window, and no other hint, is sure to be matched to that payment if and only if at most three payments of the account ever had the reference |
| BillCrowd.Missed | apps/api/src/services/receipt-flow-service.ts:241-256 | A history in which four payments of one order had one reference, one after the other, and a line that speaks for the last of them may be refused |
| BillMatching.ProperSuccess | apps/api/src/services/receipt-flow-service.ts:113-161 | In every reachable state a successful bill payment received exactly its channel amount, inside its window, under the trade number of a line that fits it; in remark mode that line's remark yields its reference |
| BillMatching.RemarkHeldItsReference | apps/api/src/lib/receipt-flow.ts:36-39 | The remark that paid a remark-mode payment holds that payment's reference as its only token |
| BillMatching.MatchedOnce | apps/api/src/services/receipt-flow-service.ts:154-196 | In every reachable state two different MATCHED bill receipts name different payments |
| BillMatching.TradePaysOnce | prisma/schema.prisma:189 | In every reachable state no two payments share a trade number |
| BillMatching.OnlyWatcherPays | apps/api/src/services/payment-service.ts:200-285 | No webhook, query, mock or statement step brings a bill payment to SUCCESS: the step that does is a bill line of its account that fits it |
| PaymentStore.Store.PrepareReceiptPayment | apps/api/src/services/receipt-reservation-service.ts:7-62 | Reserves the amount or reference for the recognition window, dropping expired reservations, or refuses and leaves all reservations alone |
| Creations.PreparedExactly | apps/api/src/services/receipt-reservation-service.ts:7-62 | A bill payment is prepared if and only if bills are enabled, its window is not over before it begins and an amount or the reference is free |
| Creations.PreparedAs | apps/api/src/services/receipt-reservation-service.ts:22-62 | Its window ends with the order or after the configured seconds, whichever is earlier, and its amount is the least free one, or its reference its own |
| PaymentStore.Store.FindOffset | apps/api/src/services/receipt-reservation-service.ts:33-41 | The loop over offsets finds the first free amount |
| PaymentServices.Service.LocatePayment | apps/api/src/services/receipt-flow-service.ts:212-273 | Answers by order number and trade number first, then by the remark's reference, then by the amount, and refuses where they disagree or several fit; the next rows say what that comes to |
| LineLookup.NamesOne | apps/api/src/services/receipt-flow-service.ts:212-235 | A line that names one payment of the account by its number or channel number is taken to that one, unless another payment has the line's trade number: then it is a conflict, naming the payment or the one with the trade number if that is foreign |
| LineLookup.NamesTwo | apps/api/src/services/receipt-flow-service.ts:221 | A line that names two payments of the account is ambiguous |
| LineLookup.NamesNone | apps/api/src/services/receipt-flow-service.ts:222-235 | A line that names none is taken to the payment that has its trade number, if that is one of the account, and is a conflict otherwise |
| LineLookup.TwoTokens | apps/api/src/services/receipt-flow-service.ts:237-240 | A remark with two tokens is refused |
| LineLookup.ReferenceUnfit | apps/api/src/services/receipt-flow-service.ts:241-256 | A reference that no payment of the account has, or only payments that the line does not fit, is refused |
| LineLookup.ByAmountAlone | apps/api/src/services/receipt-flow-service.ts:258-272 | Neither named nor traded nor with a token, a line is taken to the one payment asking for just its amount then, left unmatched if there is none and refused if there are several |
| PaymentServices.Service.IngestFlow | apps/api/src/services/receipt-flow-service.ts:71-210 | With anything happening between its transactions: takes the transactions the line, its lookup and its checks call for; a line is answered as matched only when its receipt is stored as MATCHED to a payment settled under its trade number. Undisturbed it ends as its lookup says, and a line that names one payment settles no other |
| LineLookup.QuietLineEnds | apps/api/src/services/receipt-flow-service.ts:71-210 | Undisturbed, a line is left unmatched, refused with the exception its lookup calls for, or pays the payment found and is matched to it exactly if amount, window, reference and trade number fit; no other payment changes |
| LineLookup.NamedLineEnds | apps/api/src/services/receipt-flow-service.ts:71-235 | Undisturbed, a line that names one payment pays that one or is refused with it, and touches no other payment |
| LineLookup.OvertakenLine | apps/api/src/services/receipt-flow-service.ts:138-208 | A line that fits but is overtaken writes no payment: it is put off for a minute, with an error, while another payment has just got its trade number, and refused as a conflict when its own payment was paid by another trade |
| LineLookup.SeenLineEnds | apps/api/src/services/receipt-flow-service.ts:98-111 | Undisturbed, a line whose receipt is matched, refused or still being matched changes nothing and is answered from its receipt |
| PaymentServices.Service.RematchReceipt | apps/api/src/services/receipt-flow-service.ts:44-51 | A matched receipt is left alone; any other is opened again and its line taken in once more, with the same promise; undisturbed it ends as the lookup of its stored line says |
| PaymentServices.Service.RecoverStaleFlows | apps/api/src/services/receipt-flow-service.ts:53-69 | Takes in again the first lines by the time their lock ran out; those found are counted once each, and no line is counted both as matched and as failed |
| ServiceSteps.StaleReceiptsAre | apps/api/src/services/receipt-flow-service.ts:54-58 | Taken in again are the receipts in MATCHING whose lock ran out, and all of them unless they are too many |
| ServiceSteps.StaleCountedOnce | apps/api/src/services/receipt-flow-service.ts:60-67 | A line taken in again counts as matched, as failed or as neither, as it ended |
| PaymentStore.Store.CreateReceipt | apps/api/src/services/receipt-flow-service.ts:77-97 | Adds the receipt under its fingerprint once; a second try is a duplicate |
| PaymentStore.Store.ClaimReceiptRow | apps/api/src/services/receipt-flow-service.ts:100-111 | Succeeds exactly for a receipt that is unmatched, or in MATCHING with its lock run out, which is then locked for a minute; otherwise nothing is written |
| PaymentStore.Store.DeferReceiptRow | apps/api/src/services/receipt-flow-service.ts:203-208 | Leaves the receipt in MATCHING, locked for a minute, and every other one as it is |
| PaymentStore.Store.MarkUnmatched | apps/api/src/services/receipt-flow-service.ts:279-287 | The receipt is unmatched and names no payment |
| PaymentStore.Store.MarkMismatch | apps/api/src/services/receipt-flow-service.ts:289-329 | The receipt is MISMATCH with the payment found, the exception for a conflict or an ambiguity exists, and an event about that payment and its order is told when one is named; no other receipt changes |
| PaymentStore.Store.MarkMatched | apps/api/src/services/receipt-flow-service.ts:154-196 | Exactly for a bill payment of the account that this trade paid: the receipt is MATCHED to it, one event is told, its exceptions are no longer live and no other one changes; otherwise nothing is written |
| ReceiptText.MatchesAreTokens | apps/api/src/lib/receipt-flow.ts:36-39 | Scanning a remark finds every reference token and nothing else, although a match swallows the character before it |
| ReceiptText.OnlyTokenExtracted | apps/api/src/lib/receipt-flow.ts:36-39 | A remark with one token yields it |
| ReceiptText.ExtractedIsOnlyToken | apps/api/src/lib/receipt-flow.ts:36-39 | A remark that yields a reference holds that token and no second one |
| ReceiptText.ReferenceRoundTrip | apps/api/src/services/receipt-reservation-service.ts:44 | The reference issued for a payment is read back from a remark that holds just it |
| Archive.TrailIsKept | apps/api/src/services/application-service.ts:124-179 | After archiving, every successful or closed payment and every refund underway or done survives unchanged, every surviving refund has its successful payment, and no payment that went had a refund |
| Archive.ArchiveTakesOwnRows | apps/api/src/services/application-service.ts:124-179 | Exactly the rows of the application go: its deliveries and undecided refunds, the payments of its live orders that neither succeeded nor closed with their reservations, and the events, exceptions and receipts about those orders; its orders are marked, it is disabled, and every other row of every table stays as it is |
| Archive.CountsAreRows | apps/api/src/services/application-service.ts:164-177 | The counts answered are exactly the rows that went from each table, and the orders newly marked |
| PaymentStore.Store.ArchiveApplication | apps/api/src/services/application-service.ts:124-179 | Reads, deletes table by table, marks the orders and disables the application: exactly its own rows go, every other one stays as it is, and the counts answered are the rows that went |
| PaymentStore.Store.CountCleared | apps/api/src/services/application-service.ts:127-142 | The counts taken before anything is deleted are the rows that the archive will remove from each table, and the orders it will mark |
| PaymentStore.Store.RemoveApplication | apps/api/src/services/application-service.ts:89-107 | The internal application is refused; one that orders, refunds or deliveries refer to is archived, with its own rows alone, and answered with the rows that went; any other one is removed and nothing else |
| OwnerTasks.FinalIsFinal | apps/api/src/services/owner-notification-service.ts:126-145 | Over any steps a task that was sent, given up or cancelled stays exactly as it is, even when a worker outlives its lease |
| OwnerTasks.MarkedWithItsTasks | apps/api/src/services/owner-notification-service.ts:86-96 | An event is marked together with its tasks: over any later steps it has a task on a channel exactly if, when it was marked, the channel was enabled, its kind was asked for and its payment was no mock |
| OwnerTasks.LeaseSettlesOnce | apps/api/src/services/owner-notification-service.ts:132-143 | Once a worker has settled its lease nothing it writes later changes any task |
| OwnerTasks.TaskChanges | apps/api/src/services/owner-notification-service.ts:126-145 | A task changes in three ways: pending, it is claimed for two minutes and counts an attempt; claimed, its holder writes how it ended, DEAD at the fifth attempt; lapsed, it is taken back with nothing else changed |
| OwnerTasks.QuietDelivery | apps/api/src/services/owner-notification-service.ts:131-144 | Undisturbed, a pending task ends SENT exactly if its channel is enabled and sending worked, CANCELLED exactly if the channel is disabled, DEAD exactly if sending failed at the fifth attempt, and otherwise pending after the delay of that attempt; no other task changes |
| OwnerTasks.RetryDelayDoubles | apps/api/src/services/owner-notification-service.ts:143 | A retry waits 30 seconds at first and then twice as long each time, up to an hour |
| OwnerTasks.AlertedOnce | apps/api/src/services/owner-notification-service.ts:98-101 | An alert about a collector is enqueued once in a quarter of an hour and channel, and again after it |
| OwnerTasks.BacklogShrinks | apps/api/src/services/owner-notification-service.ts:81-97 | Without new events no step ever adds to the unseen backlog |
| OwnerTasks.RunMoves | apps/api/src/services/owner-notification-service.ts:81-145 | Over any steps seen markers and events go only by being deleted, final tasks stay, attempts never fall, and an event that was marked or deleted gets no further task |
| OwnerNotifier.OwnerStore.EraseEvents | apps/api/src/services/application-service.ts:146 | Events are deleted together with their seen markers, as the schema asks; their tasks stay |
| OwnerNotifier.OwnerStore.CollectOwnerEvents | apps/api/src/services/owner-notification-service.ts:81-102 | Reads the first twenty unseen events and, with anything happening in between, takes them off the backlog exactly if none of them was deleted meanwhile: then it is lowered by the twenty or by all of them when no new event arrives; otherwise the transaction takes nothing off |
| OwnerNotifier.OwnerStore.ReadBacklog | apps/api/src/services/owner-notification-service.ts:83 | The events read are of the kinds the owner is told about, not older than the settings and not yet looked at: the twenty with the lowest numbers, or all of them |
| OwnerNotifier.OwnerStore.MarkEvents | apps/api/src/services/owner-notification-service.ts:86-96 | Skips events marked meanwhile, marks the others and enqueues their tasks in the same transaction, which writes nothing at all when an event to be marked is gone |
| OwnerNotifier.OwnerStore.EnqueueTasks | apps/api/src/services/owner-notification-service.ts:62-64 | One task per enabled channel; an existing one is left alone |
| OwnerNotifier.OwnerStore.ClaimTask | apps/api/src/services/owner-notification-service.ts:133-134 | Succeeds exactly for a task that is still pending |
| OwnerNotifier.OwnerStore.SettleTask | apps/api/src/services/owner-notification-service.ts:135-143 | Writes the outcome only while this worker still holds the delivery |
| OwnerNotifier.OwnerStore.Send | apps/api/src/services/owner-notification-service.ts:131-144 | Claims one task and settles it with what the settings and the send said; undisturbed it ends as stated for a quiet delivery |
| OwnerNotifier.OwnerStore.RunOwnerNotifications | apps/api/src/services/owner-notification-service.ts:126-145 | Collects, takes over expired leases, then claims and settles the first tasks due by their time, in these transactions and no others, and ends behind the collecting transaction when that is rolled back; nothing final changes |
| StableJson.TextsCompareValues | apps/api/src/lib/crypto.ts:51-56 | Two JSON values have the same text exactly when they are equal up to the order of members |
| StableJson.QuotedInjective | apps/api/src/lib/crypto.ts:55 | Equal texts that start with string literals start with equal strings |
| StableJson.SortedAscends | apps/api/src/lib/crypto.ts:55 | Member names come out in strictly ascending order of their code units |
| SignedObject.FindsTheObject | apps/api/src/channels/alipay.ts:224-252 | For every JSON object text with nested braces and escaped quotes, and any text behind it, the scanner returns exactly the object of the key whose name occurs first as that member's name |
| SignedObject.ResultIsBalanced | apps/api/src/channels/alipay.ts:233-250 | Whatever is returned is a piece of the text that starts with a brace and is balanced, while none of its proper prefixes is |
| SignedObject.ExtractTopLevelObject | apps/api/src/channels/alipay.ts:224-252 | The loop computes what the other two rows speak of |
| SignedObject.ScanObject | apps/api/src/channels/alipay.ts:233-251 | The scan over depth, string and escape flags ends where the object ends, or finds no end |
| Csv.RoundTrip | apps/api/src/lib/alipay-bill.ts:57-76 | Any rows written with cells quoted or plain and either line break are read back: exactly behind a byte order mark; without one, with the mark taken off a plain first cell that begins with that character |
| Csv.UnmarkedExactly | apps/api/src/lib/alipay-bill.ts:62 | Rows written without a mark come back exactly if and only if no plain first cell begins with its character |
| Csv.LastRowWithoutBreak | apps/api/src/lib/alipay-bill.ts:74 | A last row without a line break is read too, except a single empty cell, which is lost |
| Csv.ParseCsv | apps/api/src/lib/alipay-bill.ts:57-76 | The loop with its cell, row and quote flag computes the reader the round trip speaks of |
| AlipayBill.EveryRowCounted | apps/api/src/lib/alipay-bill.ts:23-52 | Behind the header, every row that holds anything becomes one receipt or one skipped row |
| AlipayBill.StatementAccounted | apps/api/src/lib/alipay-bill.ts:16-55 | For a statement written row by row with any quoting: it is refused for want of a header exactly when no row is one, and otherwise receipts and skipped rows together are the rows that hold anything |
| AlipayBill.HeaderIs | apps/api/src/lib/alipay-bill.ts:18 | A row is the header exactly if, all white space left out, one of its cells names the trade number and one the merchant order number |
| AlipayBill.ReceiptsProper | apps/api/src/lib/alipay-bill.ts:25-52 | Every receipt names its trade or its order and has an amount above zero |
| AlipayBill.ReceiptIsSaid | apps/api/src/lib/alipay-bill.ts:25-52 | A row becomes a receipt exactly if it names a trade or an order and has an amount and a time; it is a refund exactly if its kind mentions one or what was refunded or received is below zero; a refund counts what was refunded, received or ordered, whichever is an amount first, an income what was ordered or received |
| AlipayBill.FieldIsSaid | apps/api/src/lib/alipay-bill.ts:86-92 | What is read under several names is the value under the first of them that has one, in the last column of that name, blanks trimmed and a dash not counted |
| AlipayBill.AmountRead | apps/api/src/lib/alipay-bill.ts:98-107 | An amount spelled in yuan, with or without sign, commas and white space, is read in cents |
| AlipayBill.CommasGo | apps/api/src/lib/alipay-bill.ts:101 | Leaving out commas works letter by letter, so that nothing but commas goes |
| AlipayBill.SpacesGo | apps/api/src/lib/alipay-bill.ts:78-80 | So does leaving out white space in headers |
| AlipayBill.OneLetter | apps/api/src/lib/alipay-bill.ts:78-101 | Of a single letter, just white space is left out of headers and just the comma of amounts |
| AlipayBill.ParseAlipayBill | apps/api/src/lib/alipay-bill.ts:16-55 | The loops over the rows compute the receipts and the count the other rows speak of |
| Money.CentsRoundTrip | apps/api/src/lib/money.ts:3-15 | Cents from 1 to 99,999,999,999 survive the trip through yuan |
| Money.YuanRoundTrip | apps/api/src/lib/money.ts:3-15 | An accepted text comes back as its own two-decimal spelling |
| Money.FewerDecimals | apps/api/src/lib/money.ts:3-10 | One decimal counts tenths of a yuan, and an amount without decimals whole yuan |
| Money.AcceptedExactly | apps/api/src/lib/money.ts:3-10 | A text is accepted exactly when it is spelled as an amount with some digit above zero |

## Left out

- CollectorCoverage.LedgerCovered: overlap, lag and account binding are fixed, the gateway is truthful for the window asked for or its answer refused, ledger lines have whole seconds and become visible within the lag, and a query returns the lines from its first second up to, but not including, its last.
- CollectorService.CollectorStore.RunAlipayBillCollector: one account whose binding does not change.
- PaymentServices.Service.RunDueOrderExpirations: rows due at the same time are taken up in any order; the same goes for the two recovery workers, the stale receipts and the due notifications.
- PaymentServices.Service.ExpireOrder: the payments of an order are listed in any order; the source lists them by attempt number.
- PaymentStore.Store.CreateDelivery: the payloads.
- PaymentStore.Store.InsertOrder: the parts of a request other than number, key, protocol, amount and notification address count through one text each, which stands for the hash; `StableJson.TextsCompareValues` says what comparing such texts amounts to.
- PaymentStore.Store.ArchiveApplication: receipts of account statements, which are tied to payments and refunds, are no rows of the model.
- StableJson.TextsCompareValues: a number stands for the text JavaScript prints it as.
- AlipayBill.ParseAlipayBill: how a text names a time is a parameter, and the raw row kept with a receipt is left out.
- Sending of business webhooks (`webhook-worker-service.ts`): its settling writes carry no lease check.
- Receipts of account statements and the lookups of reconciliation: statements enter as success reports on ALIPAY payments and refunds and as the write of a missing trade number.
- Purely informational events (PAYMENT_CREATED and the like), error texts, heartbeats and display columns.
- Which application a request comes from, channel instances and their configuration, verification and settings.
- MySQL isolation, deadlocks and retries of serializable transactions: a transaction is one atomic step; an error of the database itself, which refund creation takes for a failed refund, does not occur.
- Cryptography, HTTP, SMTP, DNS and queues: answers and outcomes are inputs; hashes appear as the texts they are taken of.
- Time zones, field aliases of bill records, and statement headers beyond the names the source lists.
- Payments without a stored channel id, and empty strings as trade numbers.
- Collector-failure alerts and test messages enter the notifier as steps that enqueue tasks; message texts are left out.
- Malformed quoting in statements: the reader does there what the code does, and the round trip speaks of well-formed texts.
- The web front end, route handlers, authentication, audit and logging.
