/** Refunds, recovery attempts, exceptions and archiving. */
module RefundSteps {
  import opened Wrappers
  import opened StateMachine
  import opened RecoveryPolicy
  import opened Rows
  import opened PaymentSteps

  // ---- Refunds -----------------------------------------------------------------------------

  datatype RefundRequest = RefundRequest(
    appId: string, refundNo: string, external: string, paymentNo: string, amount: nat, reason: Option<string>)

  datatype RefundError = RefundVanished | RefundPaymentNotFound | PaymentNotRefundable | RefundAmountExceeded
    | RefundNumberTaken
    | RefundAmountInvalid
    | RefundIdempotencyConflict
    | RefundAnswerInvalid

  predicate ExternalUsed(db: Db, appId: string, external: string) {
    exists no | no in db.refunds :: db.refunds[no].appId == appId && db.refunds[no].external == external
  }

  /**
   The hashed text of a stored refund is the request's again: same payment, same amount, same reason. A stored refund
   without a reason is hashed with the word undefined in its place, which no request has.
   */
  predicate Repeats(r: Refund, req: RefundRequest) {
    && r.appId == req.appId && r.external == req.external
    && r.paymentNo == req.paymentNo && r.amount == req.amount && r.reason.Some? && r.reason == req.reason
  }

  predicate Repeated(db: Db, req: RefundRequest) {
    exists no | no in db.refunds :: Repeats(db.refunds[no], req)
  }

  /** The refund a request creates; `None` inside `Ok` stands for a replay that returns an existing refund. */
  ghost function RefundVerdict(db: Db, req: RefundRequest): Result<Option<Refund>, RefundError> {
    if req.amount == 0 then Err(RefundAmountInvalid)
    else if ExternalUsed(db, req.appId, req.external) then if Repeated(db, req) then Ok(None)
         else Err(RefundIdempotencyConflict)
    else if req.paymentNo !in db.payments || db.payments[req.paymentNo].orderNo !in db.orders
         then Err(RefundPaymentNotFound)
    else
      var payment := db.payments[req.paymentNo];
      var order := db.orders[payment.orderNo];
      if order.appId != req.appId || order.deleted then Err(RefundPaymentNotFound)
      else if payment.status != Success then Err(PaymentNotRefundable)
      else if Total(db.refunds, req.paymentNo, Reserving) + req.amount > payment.amount then Err(RefundAmountExceeded)
      else if req.refundNo in db.issued then Err(RefundNumberTaken)
      else Ok(Some(Refund(req.appId, req.external, req.paymentNo, req.amount, req.reason, RefundProcessing, 0,
                          if payment.channel == Alipay then Some(db.now + RECOVERY_INITIAL_DELAY) else None, false)))
  }

  ghost function NewRefund(db: Db, req: RefundRequest): Option<Refund> {
    var v := RefundVerdict(db, req);
    if v.Ok? then v.value else None
  }

  /** A refund's status and attempts as they were read before the channel was asked. */
  datatype Seen = Seen(status: RefundStatus, attempts: nat)

  /** What `createRefund` knows of the refund it just reserved. */
  const JUST_RESERVED := Seen(RefundProcessing, 0)

  /** Leaving the failed state by whatever write makes the refund hold money again. */
  function CameBack(r: Refund): bool {
    r.revived || r.status == RefundFailed
  }

  /** `updateRefund`: the transition is checked on what was seen, and written over whatever the row is by now. */
  function ObservedRefund(db: Db, no: string, seen: Seen, status: RefundStatus, random: real): Option<Refund> {
    if no !in db.refunds || db.refunds[no].paymentNo !in db.payments || status == RefundSuccess
       || !CanRefundTransition(seen.status, status) then None
    else
      var current := db.refunds[no];
      var attempt := if seen.attempts < 1 then 1 else seen.attempts;
      Some(current.(
             status := status, revived := CameBack(current),
             nextQueryAt := if db.payments[current.paymentNo].channel == Alipay && IsRecoverableRefund(status)
                            then Some(db.now + RecoveryDelaySeconds(attempt, random)) else None))
  }

  predicate RefundOpen(db: Db, no: string) {
    && no in db.refunds && db.refunds[no].status != RefundSuccess
    && db.refunds[no].paymentNo in db.payments && db.payments[db.refunds[no].paymentNo].orderNo in db.orders
  }

  function RefundedOrderNo(db: Db, no: string): string
    requires RefundOpen(db, no)
  {
    db.payments[db.refunds[no].paymentNo].orderNo
  }

  function SucceededRefund(r: Refund): Refund {
    r.(status := RefundSuccess, nextQueryAt := None, revived := CameBack(r))
  }

  /** What the payment of a refund has paid back once the refund succeeded. */
  ghost function TotalPaidBack(db: Db, no: string): nat
    requires RefundOpen(db, no)
  {
    Total(db.refunds[no := SucceededRefund(db.refunds[no])], db.refunds[no].paymentNo, Succeeded)
  }

  predicate RefundsWinner(db: Db, no: string)
    requires RefundOpen(db, no)
  {
    db.orders[RefundedOrderNo(db, no)].winner == Some(db.refunds[no].paymentNo)
  }

  ghost function StatusPaidBack(db: Db, no: string): Result<OrderStatus, TotalError>
    requires RefundOpen(db, no)
  {
    RefundedOrderStatus(TotalPaidBack(db, no), db.orders[RefundedOrderNo(db, no)].amount)
  }

  /** The rows of a successful refund: the refund and, for the winning payment, the order's status. */
  ghost function PaidOut(db: Db, no: string): Db
    requires RefundOpen(db, no)
  {
    var orderNo := RefundedOrderNo(db, no);
    var status := StatusPaidBack(db, no);
    db.(refunds := db.refunds[no := SucceededRefund(db.refunds[no])],
        orders := if RefundsWinner(db, no) && status.Ok?
          then db.orders[orderNo := db.orders[orderNo].(status := status.value)] else db.orders)
  }

  /** `finalizeRefund`: the refunds of the winning payment decide the order's status. */
  ghost function AfterRefundSucceeded(db: Db, no: string): Db {
    if !RefundOpen(db, no) || (RefundsWinner(db, no) && StatusPaidBack(db, no).Err?) then db
    else AnnounceRefund(PaidOut(db, no), no, db.refunds[no].paymentNo, RefundedOrderNo(db, no), TotalPaidBack(db, no),
                        RefundsWinner(db, no))
  }

  function AnnounceRefund(db: Db, no: string, paymentNo: string, orderNo: string, total: nat, wins: bool): Db {
    var told := Emit(db, Event(RefundSucceededEvent, RefundRecord(no), Some(orderNo), Some(paymentNo)));
    var settled := ResolveDuplicate(told, total, paymentNo);
    if wins && orderNo in settled.orders then Deliver(settled, orderNo, RefundSucceededDelivery(no)) else settled
  }

  /** A payment refunded in full has no open late-duplicate exception left. */
  function ResolveDuplicate(db: Db, total: nat, paymentNo: string): Db {
    var key := DuplicateKey(paymentNo);
    if paymentNo in db.payments && total >= db.payments[paymentNo].amount
       && key in db.exceptions && IsLive(db.exceptions[key].status)
    then db.(exceptions := db.exceptions[key := db.exceptions[key].(status := ExceptionResolved)])
    else db
  }

  // ---- Recovery of payments and refunds ----------------------------------------------------

  predicate Recoverable(db: Db, record: Record) {
    match record
    case PaymentRecord(no) => no in db.payments && IsRecoverablePayment(db.payments[no].status)
    case RefundRecord(no) => no in db.refunds && IsRecoverableRefund(db.refunds[no].status)
    case _ => false
  }

  function Attempts(db: Db, record: Record): nat {
    match record
    case PaymentRecord(no) => if no in db.payments then db.payments[no].attempts else 0
    case RefundRecord(no) => if no in db.refunds then db.refunds[no].attempts else 0
    case _ => 0
  }

  function NextQueryAt(db: Db, record: Record): Option<int> {
    match record
    case PaymentRecord(no) => if no in db.payments then db.payments[no].nextQueryAt else None
    case RefundRecord(no) => if no in db.refunds then db.refunds[no].nextQueryAt else None
    case _ => None
  }

  predicate OverAlipay(db: Db, record: Record) {
    match record
    case PaymentRecord(no) => OnChannel(db, no, Alipay)
    case RefundRecord(no) => no in db.refunds && OnChannel(db, db.refunds[no].paymentNo, Alipay)
    case _ => false
  }

  /** The compare-and-set claim of a due record, seen earlier with `seenAttempts` below the maximum. */
  predicate RecoveryClaimable(db: Db, record: Record, seenAttempts: nat) {
    && OverAlipay(db, record) && Recoverable(db, record)
    && seenAttempts < RECOVERY_MAX_ATTEMPTS && Attempts(db, record) == seenAttempts
    && NextQueryAt(db, record).Some? && NextQueryAt(db, record).value <= db.now
  }

  /** The attempts and the next query time a recovery worker writes on its record, if it writes any. */
  type Schedule = Option<(nat, Option<int>)>

  function ScheduledPayments(payments: map<string, Payment>, record: Record, w: Schedule): map<string, Payment> {
    if record.PaymentRecord? && record.paymentNo in payments && w.Some?
    then payments[record.paymentNo := payments[record.paymentNo].(attempts := w.value.0, nextQueryAt := w.value.1)]
         else payments
  }

  function ScheduledRefunds(refunds: map<string, Refund>, record: Record, w: Schedule): map<string, Refund> {
    if record.RefundRecord? && record.refundNo in refunds && w.Some?
    then refunds[record.refundNo := refunds[record.refundNo].(attempts := w.value.0, nextQueryAt := w.value.1)]
         else refunds
  }

  function RecordOrder(db: Db, record: Record): Option<string> {
    match record
    case PaymentRecord(no) => if no in db.payments then Some(db.payments[no].orderNo) else None
    case RefundRecord(no) =>
      if no in db.refunds && db.refunds[no].paymentNo in db.payments
        then Some(db.payments[db.refunds[no].paymentNo].orderNo) else None
    case _ => None
  }

  function RecordPayment(db: Db, record: Record): Option<string> {
    match record
    case PaymentRecord(no) => Some(no)
    case RefundRecord(no) => if no in db.refunds then Some(db.refunds[no].paymentNo) else None
    case _ => None
  }

  /** A record without a next query time is handed over to a person, which is told. */
  predicate HandedOver(w: Schedule) {
    w.Some? && w.value.1.None?
  }

  function Scheduled(db: Db, record: Record, w: Schedule, tickets: set<Ticket>): Db {
    db.(payments := ScheduledPayments(db.payments, record, w),
        refunds := ScheduledRefunds(db.refunds, record, w),
        tickets := tickets,
        events := if HandedOver(w)
          then db.events[db.nextEventId := Event(RecoveryExhaustedEvent, record, RecordOrder(db, record),
                                                 RecordPayment(db, record))]
                  else db.events,
        nextEventId := if HandedOver(w) then db.nextEventId + 1 else db.nextEventId)
  }

  function ClaimSchedule(db: Db, record: Record, seenAttempts: nat, random: real): Schedule {
    if RecoveryClaimable(db, record, seenAttempts)
    then Some((seenAttempts + 1, Some(db.now + RecoveryDelaySeconds(seenAttempts + 1, random)))) else None
  }

  /** The query failed: the worker that claimed the attempt schedules the next one or gives up. */
  function FailureSchedule(db: Db, record: Record, attempt: nat, retryAt: int): Schedule {
    if Ticket(record, attempt) !in db.tickets || !Recoverable(db, record) then None
    else Some((Attempts(db, record), if attempt >= RECOVERY_MAX_ATTEMPTS then None else Some(retryAt)))
  }

  /** The query answered without an end: the last attempt hands the record over to a person. */
  function EndSchedule(db: Db, record: Record, attempt: nat): Schedule {
    if Ticket(record, attempt) in db.tickets && attempt >= RECOVERY_MAX_ATTEMPTS && Recoverable(db, record)
      && NextQueryAt(db, record).Some?
    then Some((Attempts(db, record), None)) else None
  }

  /** A query that changed nothing puts a forgotten record back on the schedule. */
  function Rescheduling(db: Db, record: Record): Schedule {
    if OverAlipay(db, record) then Some((Attempts(db, record), Some(db.now + RECOVERY_INITIAL_DELAY))) else None
  }

  // ---- Exceptions --------------------------------------------------------------------------

  function UpdatedException(db: Db, key: ExceptionKey, status: ExceptionStatus): Option<Exception> {
    if key !in db.exceptions || status == ExceptionOpen
       || (db.exceptions[key].status == ExceptionResolved && status != ExceptionResolved) then None
    else Some(db.exceptions[key].(status := status))
  }

  // ---- Applications ------------------------------------------------------------------------

  function NewApp(db: Db, appId: string, webhookUrl: Option<string>): Option<App> {
    if appId in db.apps then None else Some(App(true, webhookUrl))
  }

  predicate InArchive(db: Db, appId: string, orderNo: string) {
    orderNo in db.orders && db.orders[orderNo].appId == appId && !db.orders[orderNo].deleted
  }

  predicate PaymentInArchive(db: Db, appId: string, no: string) {
    no in db.payments && InArchive(db, appId, db.payments[no].orderNo)
  }

  /** A row whose order, or whose payment's order, is archived. */
  predicate SubjectInArchive(db: Db, appId: string, orderNo: Option<string>, no: Option<string>) {
    (orderNo.Some? && InArchive(db, appId, orderNo.value)) || (no.Some? && PaymentInArchive(db, appId, no.value))
  }

  function ClearedEvents(db: Db, appId: string): set<nat> {
    set e | e in db.events && SubjectInArchive(db, appId, db.events[e].orderNo, db.events[e].paymentNo)
  }

  function ClearedExceptions(db: Db, appId: string): set<ExceptionKey> {
    set k | k in db.exceptions && SubjectInArchive(db, appId, db.exceptions[k].orderNo, db.exceptions[k].paymentNo)
  }

  function ClearedReceipts(db: Db, appId: string): set<ReceiptId> {
    set id | id in db.receipts && db.receipts[id].paymentNo.Some?
      && PaymentInArchive(db, appId, db.receipts[id].paymentNo.value)
  }

  function ClearedRefunds(db: Db, appId: string): set<string> {
    set no | no in db.refunds && db.refunds[no].appId == appId
      && (db.refunds[no].status == RefundCreated || db.refunds[no].status == RefundFailed)
  }

  function ClearedPayments(db: Db, appId: string): set<string> {
    set no | no in db.payments && PaymentInArchive(db, appId, no) && db.payments[no].status != Success
      && db.payments[no].status != Closed
  }

  function ClearedDeliveries(db: Db, appId: string): set<DeliveryKey> {
    set k | k in db.deliveries && db.deliveries[k] == appId
  }

  /** Deleting a payment deletes its reservation. */
  function WithoutReservations(reservations: map<ReservationKey, Reservation>,
                               payments: set<string>): map<ReservationKey, Reservation> {
    map k | k in reservations && reservations[k].paymentNo !in payments :: reservations[k]
  }

  function ArchivedOrders(db: Db, appId: string): map<string, Order> {
    map no | no in db.orders :: if InArchive(db, appId, no) then db.orders[no].(deleted := true) else db.orders[no]
  }

  function AfterArchive(db: Db, appId: string): Db {
    db.(receipts := db.receipts - ClearedReceipts(db, appId),
        events := db.events - ClearedEvents(db, appId),
        exceptions := db.exceptions - ClearedExceptions(db, appId),
        refunds := db.refunds - ClearedRefunds(db, appId),
        deliveries := db.deliveries - ClearedDeliveries(db, appId),
        payments := db.payments - ClearedPayments(db, appId),
        reservations := WithoutReservations(db.reservations, ClearedPayments(db, appId)),
        orders := ArchivedOrders(db, appId),
        apps := db.apps[appId := App(false, None)])
  }

  /** Whether rows of other tables still refer to the application. */
  predicate HasBusiness(db: Db, appId: string) {
    || (exists no | no in db.orders :: db.orders[no].appId == appId)
    || (exists no | no in db.refunds :: db.refunds[no].appId == appId)
    || (exists k | k in db.deliveries :: db.deliveries[k] == appId)
  }

  /** The application of the channel diagnostics. */
  const INTERNAL_APPLICATION := "channel-diagnostics"

  /** Deleting the application archives it. */
  predicate Archives(db: Db, appId: string) {
    appId in db.apps && appId != INTERNAL_APPLICATION && HasBusiness(db, appId)
  }

  function AfterDeleteApplication(db: Db, appId: string): Db {
    if appId !in db.apps || appId == INTERNAL_APPLICATION then db
    else if Archives(db, appId) then AfterArchive(db, appId)
    else db.(apps := db.apps - {appId})
  }
}
