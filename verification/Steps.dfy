/** Every step the payment core can take, and the states reachable by them. */
module Steps {
  import opened Wrappers
  import opened StateMachine
  import opened Rows
  import opened PaymentSteps
  import opened RefundSteps

  datatype Step =
    | Tick(seconds: nat)
    | CreateApp(appId: string, webhookUrl: Option<string>)
    | DeleteApplication(appId: string)
    | CreateOrder(orderNo: string, wanted: OrderRequest)
    | CreatePayment(request: PaymentRequest)
    | Observe(no: string, status: PaymentStatus, seenAttempts: nat, random: real, channelOrderNo: Option<string>)
    | Close(no: string)
    | Webhook(no: string, amount: nat, tradeNo: Option<string>, paidAt: int)
    | QuerySuccess(no: string, tradeNo: Option<string>, paidAt: int)
    | MockSucceed(no: string)
    | StatementIncome(no: string, amount: nat, tradeNo: Option<string>, paidAt: int)
    | StatementTradeNo(no: string, tradeNoFound: string)
    | InsertReceipt(accountId: string, flow: Flow)
    | ClaimReceipt(id: ReceiptId)
    | DeferReceipt(id: ReceiptId)
    | UnmatchReceipt(id: ReceiptId)
    | ReopenReceipt(id: ReceiptId)
    | Mismatch(id: ReceiptId, found: Option<string>, ambiguous: bool, conflict: bool)
    | ReceiptSuccess(accountId: string, no: string, flow: Flow)
    | MatchReceipt(id: ReceiptId, no: string)
    | ClaimExpiration(orderNo: string, seenAttempts: nat)
    | ExpirationFailed(orderNo: string, attempt: nat)
    | CloseOrder(orderNo: string)
    | ReleaseExpiration(no: string)
    | CreateRefund(refund: RefundRequest)
    | RefundObserved(refundNo: string, seen: Seen, refundStatus: RefundStatus, random: real)
    | RefundSucceeded(refundNo: string)
    | ClaimRecovery(record: Record, seenAttempts: nat, random: real)
    | RecoveryFailed(record: Record, attempt: nat, retryAt: int)
    | RecoveryDone(record: Record, attempt: nat)
    | Reschedule(record: Record)
    | UpdateException(key: ExceptionKey, exceptionStatus: ExceptionStatus)

  // ---- The kinds of steps ------------------------------------------------------------------

  /** Somebody says that a payment succeeded. */
  predicate IsReport(step: Step) {
    step.Webhook? || step.QuerySuccess? || step.MockSucceed? || step.StatementIncome? || step.ReceiptSuccess?
  }

  /** One payment's row is rewritten, short of success. */
  predicate IsPaymentStep(step: Step) {
    step.Observe? || step.Close? || step.StatementTradeNo?
  }

  predicate IsOrderStep(step: Step) {
    step.CreateOrder? || step.ClaimExpiration? || step.ExpirationFailed? || step.CloseOrder? || step.ReleaseExpiration?
  }

  predicate IsRecovery(step: Step) {
    step.ClaimRecovery? || step.RecoveryFailed? || step.RecoveryDone? || step.Reschedule?
  }

  /** Paperwork that leaves orders, payments and refunds alone. */
  predicate IsFiling(step: Step) {
    step.CreateApp? || step.InsertReceipt? || step.ClaimReceipt? || step.DeferReceipt? || step.UnmatchReceipt?
      || step.ReopenReceipt?
    || step.MatchReceipt? || step.UpdateException?
  }

  /** The report a success step hands to the core, if its channel may make one. */
  function ReportOf(db: Db, step: Step): Option<Report>
    requires IsReport(step)
  {
    match step
    case Webhook(no, amount, tradeNo, paidAt) => WebhookReport(db, no, amount, tradeNo, paidAt)
    case QuerySuccess(no, tradeNo, paidAt) => QueryReport(db, no, tradeNo, paidAt)
    case MockSucceed(no) => MockReport(db, no)
    case StatementIncome(no, amount, tradeNo, paidAt) => StatementReport(db, no, amount, tradeNo, paidAt)
    case ReceiptSuccess(accountId, no, flow) => ReceiptReport(db, accountId, no, flow)
  }

  /** The payment row written short of success. */
  function PaymentStepRow(db: Db, step: Step): Option<Payment>
    requires IsPaymentStep(step)
  {
    match step
    case Observe(no, status, seen, random, channelOrderNo) => ObservedRow(db, no, status, seen, random, channelOrderNo)
    case Close(no) => ClosedRow(db, no)
    case StatementTradeNo(no, tradeNo) => TradeNoRow(db, no, tradeNo)
  }

  function AfterPaymentStep(db: Db, step: Step): Db
    requires IsPaymentStep(step)
  {
    db.(payments := Put(db.payments, step.no, PaymentStepRow(db, step)))
  }

  function OrderStepKey(db: Db, step: Step): string
    requires IsOrderStep(step)
  {
    if step.ReleaseExpiration? then OrderOf(db, step.no) else step.orderNo
  }

  function OrderStepRow(db: Db, step: Step): Option<Order>
    requires IsOrderStep(step)
  {
    match step
    case CreateOrder(no, wanted) => NewOrder(db, no, wanted)
    case ClaimExpiration(no, seen) => ExpirationClaim(db, no, seen)
    case ExpirationFailed(no, attempt) => ExpirationRetry(db, no, attempt)
    case CloseOrder(no) => ExpiredOrder(db, no)
    case ReleaseExpiration(no) => ReleasedRow(db, no)
  }

  /** Closing an order is told. */
  function AfterOrderStep(db: Db, step: Step): Db
    requires IsOrderStep(step)
  {
    var news := step.CloseOrder? && ClosesNow(db, step.orderNo);
    db.(orders := Put(db.orders, OrderStepKey(db, step), OrderStepRow(db, step)),
        events := if news
          then db.events[db.nextEventId := Event(OrderExpiredEvent, OrderRecord(step.orderNo), Some(step.orderNo),
                                                 None)] else db.events,
        nextEventId := if news then db.nextEventId + 1 else db.nextEventId)
  }

  ghost function AfterCreateRefund(db: Db, req: RefundRequest): Db {
    db.(refunds := Put(db.refunds, req.refundNo, NewRefund(db, req)),
        issued := if NewRefund(db, req).Some? then db.issued + {req.refundNo} else db.issued)
  }

  function AfterRefundObserved(db: Db, no: string, seen: Seen, status: RefundStatus, random: real): Db {
    db.(refunds := Put(db.refunds, no, ObservedRefund(db, no, seen, status, random)))
  }

  function ScheduleOf(db: Db, step: Step): Schedule
    requires IsRecovery(step)
  {
    match step
    case ClaimRecovery(record, seen, random) => ClaimSchedule(db, record, seen, random)
    case RecoveryFailed(record, attempt, retryAt) => FailureSchedule(db, record, attempt, retryAt)
    case RecoveryDone(record, attempt) => EndSchedule(db, record, attempt)
    case Reschedule(record) => Rescheduling(db, record)
  }

  /** A claim takes the ticket of its attempt; its outcome gives it back. */
  function TicketsAfter(db: Db, step: Step): set<Ticket>
    requires IsRecovery(step)
  {
    match step
    case ClaimRecovery(record, seen, _) => if ScheduleOf(db, step).Some? then db.tickets + {Ticket(record, seen + 1)}
                                           else db.tickets
    case RecoveryFailed(record, attempt, _) => db.tickets - {Ticket(record, attempt)}
    case RecoveryDone(record, attempt) => db.tickets - {Ticket(record, attempt)}
    case Reschedule(_) => db.tickets
  }

  function AfterRecovery(db: Db, step: Step): Db
    requires IsRecovery(step)
  {
    Scheduled(db, step.record, ScheduleOf(db, step), TicketsAfter(db, step))
  }

  function ReceiptKey(step: Step): ReceiptId {
    match step
    case InsertReceipt(accountId, flow) => ReceiptId(accountId, flow.tradeNo)
    case ClaimReceipt(id) => id
    case DeferReceipt(id) => id
    case UnmatchReceipt(id) => id
    case ReopenReceipt(id) => id
    case Mismatch(id, _, _, _) => id
    case MatchReceipt(id, _) => id
    case _ => ReceiptId("", "")
  }

  /** The receipt row a step writes. */
  function ReceiptRow(db: Db, step: Step): Option<Receipt> {
    match step
    case InsertReceipt(accountId, flow) => NewReceipt(db, ReceiptId(accountId, flow.tradeNo), flow)
    case ClaimReceipt(id) => if ReceiptClaimable(db, id) then LockedReceipt(db, id) else None
    case DeferReceipt(id) => LockedReceipt(db, id)
    case UnmatchReceipt(id) => UnmatchedReceipt(db, id)
    case ReopenReceipt(id) => ReopenedReceipt(db, id)
    case Mismatch(id, no, _, _) => MismatchedReceipt(db, id, no)
    case MatchReceipt(id, no) => MatchedReceipt(db, id, no)
    case _ => None
  }

  /** Matching a receipt resolves its exceptions; a person may move any exception on. */
  function ExceptionsFiled(db: Db, step: Step): map<ExceptionKey, Exception> {
    match step
    case MatchReceipt(id, no) => if ReceiptRow(db, step).Some? then ResolveReceiptExceptions(db.exceptions, id)
                                 else db.exceptions
    case UpdateException(key, status) => Put(db.exceptions, key, UpdatedException(db, key, status))
    case _ => db.exceptions
  }

  function AppsFiled(db: Db, step: Step): map<string, App> {
    if step.CreateApp? then Put(db.apps, step.appId, NewApp(db, step.appId, step.webhookUrl)) else db.apps
  }

  function AfterFiling(db: Db, step: Step): Db
    requires IsFiling(step)
  {
    var news := step.MatchReceipt? && ReceiptRow(db, step).Some?;
    db.(apps := AppsFiled(db, step),
        receipts := Put(db.receipts, ReceiptKey(step), ReceiptRow(db, step)),
        exceptions := ExceptionsFiled(db, step),
        events := if news
          then db.events[db.nextEventId := Event(ReceiptMatchedEvent, ReceiptRecord(step.id),
                                                 Some(OrderOf(db, step.no)), Some(step.no))] else db.events,
        nextEventId := if news then db.nextEventId + 1 else db.nextEventId)
  }

  ghost function Apply(db: Db, step: Step): Db {
    if step.Tick? then db.(now := db.now + step.seconds)
    else if step.CreatePayment? then AfterCreatePayment(db, step.request)
    else if step.DeleteApplication? then AfterDeleteApplication(db, step.appId)
    else if step.CreateRefund? then AfterCreateRefund(db, step.refund)
    else if step.RefundObserved? then AfterRefundObserved(db, step.refundNo, step.seen, step.refundStatus, step.random)
    else if step.RefundSucceeded? then AfterRefundSucceeded(db, step.refundNo)
    else if step.Mismatch? then AfterMismatch(db, step.id, step.found, step.ambiguous, step.conflict)
    else if IsReport(step) then AfterReport(db, ReportOf(db, step))
    else if IsPaymentStep(step) then AfterPaymentStep(db, step)
    else if IsOrderStep(step) then AfterOrderStep(db, step)
    else if IsRecovery(step) then AfterRecovery(db, step)
    else AfterFiling(db, step)
  }

  lemma CreationTaken(db: Db, step: Step)
    ensures step.CreateOrder? ==> Apply(db, step) == AfterOrderStep(db, step)
    ensures step.CreatePayment? ==> Apply(db, step) == AfterCreatePayment(db, step.request)
    ensures step.CreateRefund? ==> Apply(db, step) == AfterCreateRefund(db, step.refund)
  {
    hide AfterCreatePayment, AfterOrderStep, AfterCreateRefund;
  }

  lemma ReportApplied(db: Db, step: Step)
    requires IsReport(step)
    ensures Apply(db, step) == AfterReport(db, ReportOf(db, step))
  {
    hide AfterReport, ReportOf, AfterRefundSucceeded, AfterMismatch, AfterOrderStep, AfterRecovery, AfterFiling,
         AfterDeleteApplication, AfterCreatePayment, AfterCreateRefund, AfterRefundObserved, AfterPaymentStep;
  }

  lemma RefundApplied(db: Db, step: Step)
    requires step.RefundSucceeded?
    ensures Apply(db, step) == AfterRefundSucceeded(db, step.refundNo)
  {
    hide AfterReport, ReportOf, AfterRefundSucceeded, AfterMismatch, AfterOrderStep, AfterRecovery, AfterFiling,
         AfterDeleteApplication, AfterCreatePayment, AfterCreateRefund, AfterRefundObserved, AfterPaymentStep;
  }

  lemma OrderApplied(db: Db, step: Step)
    requires IsOrderStep(step)
    ensures Apply(db, step) == AfterOrderStep(db, step)
  {
    hide AfterReport, ReportOf, AfterRefundSucceeded, AfterMismatch, AfterOrderStep, AfterRecovery, AfterFiling,
         AfterDeleteApplication, AfterCreatePayment, AfterCreateRefund, AfterRefundObserved, AfterPaymentStep;
  }

  lemma RecoveryApplied(db: Db, step: Step)
    requires IsRecovery(step)
    ensures Apply(db, step) == AfterRecovery(db, step)
  {
    hide AfterReport, ReportOf, AfterRefundSucceeded, AfterMismatch, AfterOrderStep, AfterRecovery, AfterFiling,
         AfterDeleteApplication, AfterCreatePayment, AfterCreateRefund, AfterRefundObserved, AfterPaymentStep;
  }

  lemma FilingApplied(db: Db, step: Step)
    requires IsFiling(step)
    ensures Apply(db, step) == AfterFiling(db, step)
  {
    hide AfterReport, ReportOf, AfterRefundSucceeded, AfterMismatch, AfterOrderStep, AfterRecovery, AfterFiling,
         AfterDeleteApplication, AfterCreatePayment, AfterCreateRefund, AfterRefundObserved, AfterPaymentStep;
  }

  lemma DeletionTaken(db: Db, appId: string)
    ensures Apply(db, DeleteApplication(appId)) == AfterDeleteApplication(db, appId)
  {
    hide AfterDeleteApplication;
  }

  // ---- Runs --------------------------------------------------------------------------------

  ghost function Replay(db: Db, steps: seq<Step>): Db {
    if steps == [] then db
    else Apply(Replay(db, steps[..|steps| - 1]), steps[|steps| - 1])
  }

  lemma {:induction false} ReplayAppend(db: Db, first: seq<Step>, later: seq<Step>)
    ensures Replay(db, first + later) == Replay(Replay(db, first), later)
  {
    if later == [] {
      assert first + later == first;
    } else {
      assert (first + later)[..|first + later| - 1] == first + later[..|later| - 1];
      ReplayAppend(db, first, later[..|later| - 1]);
    }
  }

  lemma ReplayNothing(db: Db)
    ensures Replay(db, []) == db
  {
    hide Apply;
  }

  lemma ReplayLast(db: Db, steps: seq<Step>)
    requires steps != []
    ensures Replay(db, steps) == Apply(Replay(db, steps[..|steps| - 1]), steps[|steps| - 1])
  {
    hide Apply;
  }

  lemma ReplayOne(db: Db, step: Step)
    ensures Replay(db, [step]) == Apply(db, step)
  {
    hide Apply, Replay;
    ReplayNothing(db);
    ReplayLast(db, [step]);
    assert [step][..0] == [];
  }

  lemma ReplayTwo(db: Db, first: Step, second: Step)
    ensures Replay(db, [first, second]) == Apply(Apply(db, first), second)
  {
    hide Apply, Replay;
    ReplayOne(db, first);
    ReplayLast(db, [first, second]);
    assert [first, second][..1] == [first];
  }

  lemma ReplayFour(db: Db, steps: seq<Step>)
    requires |steps| == 4
    ensures Replay(db, steps) == Apply(Apply(Apply(Apply(db, steps[0]), steps[1]), steps[2]), steps[3])
  {
    hide Apply, Replay;
    ReplayNothing(db);
    ReplayLast(db, steps);
    ReplayLast(db, steps[..3]);
    ReplayLast(db, steps[..3][..2]);
    ReplayLast(db, steps[..3][..2][..1]);
    assert steps[..3][..2][..1][..0] == [];
  }

  /** A run of the core: the tables before and after each of its steps, from an empty start. */
  ghost predicate IsRun(now: int, states: seq<Db>, steps: seq<Step>) {
    && |states| == |steps| + 1 && states[0] == EmptyDb(now)
    && forall i {:trigger steps[i]} | 0 <= i < |steps| :: states[i + 1] == Apply(states[i], steps[i])
  }

  /** Some run of transactions of any workers and requests ends in these tables. */
  ghost predicate Reachable(db: Db) {
    exists now, states, steps :: IsRun(now, states, steps) && db == states[|states| - 1]
  }

  lemma {:induction false} RunIsReplay(now: int, states: seq<Db>, steps: seq<Step>)
    requires IsRun(now, states, steps)
    ensures states[|steps|] == Replay(EmptyDb(now), steps)
  {
    hide Apply;
    if steps != [] {
      var n := |steps| - 1;
      assert forall i | 0 <= i < n :: steps[..n][i] == steps[i];
      RunIsReplay(now, states[..n + 1], steps[..n]);
      assert steps[n] == steps[|steps| - 1];
    }
  }

  lemma ReachedByReplay(db: Db) returns (now: int, steps: seq<Step>)
    requires Reachable(db)
    ensures db == Replay(EmptyDb(now), steps)
  {
    hide Apply, Replay;
    var n, states, run :| IsRun(n, states, run) && db == states[|states| - 1];
    RunIsReplay(n, states, run);
    now, steps := n, run;
  }

  lemma ReplayReaches(now: int, steps: seq<Step>)
    ensures Reachable(Replay(EmptyDb(now), steps))
  {
    hide Apply;
    var states := seq(|steps| + 1, i requires 0 <= i <= |steps| => Replay(EmptyDb(now), steps[..i]));
    forall i | 0 <= i < |steps| ensures states[i + 1] == Apply(states[i], steps[i]) {
      assert steps[..i + 1][..i] == steps[..i];
    }
    assert IsRun(now, states, steps);
    assert steps[..|steps|] == steps;
  }

  /** Whatever follows a reachable state is reachable. */
  lemma ReachableOnward(db: Db, steps: seq<Step>)
    requires Reachable(db)
    ensures Reachable(Replay(db, steps))
  {
    hide Reachable, Replay, Apply;
    var now, first := ReachedByReplay(db);
    ReplayAppend(EmptyDb(now), first, steps);
    ReplayReaches(now, first + steps);
  }
}
