/**
 What each transaction of the payment core does to the tables. A transaction that is refused, throws or
 finds nothing to do leaves them unchanged, so every function is total.
 */
module PaymentSteps {
  import opened Wrappers
  import opened StateMachine
  import opened RecoveryPolicy
  import opened ReceiptText
  import opened Rows
  import Money

  // ---- Exceptions, events and deliveries ---------------------------------------------------

  /** A closed exception opens again; an open one only learns its order and payment. */
  function OpenedException(before: Option<Exception>, orderNo: Option<string>, paymentNo: Option<string>): Exception {
    match before
    case None => Exception(ExceptionOpen, orderNo, paymentNo)
    case Some(e) =>
      Exception(if IsLive(e.status) then e.status else ExceptionOpen,
                if orderNo.Some? then orderNo else e.orderNo,
                if paymentNo.Some? then paymentNo else e.paymentNo)
  }

  /** Whether opening it is news: a new exception, or a closed one that opens again. */
  predicate OpensAnew(before: Option<Exception>, orderNo: Option<string>, paymentNo: Option<string>) {
    (before.None? || !IsLive(before.value.status)) && orderNo.Some? && paymentNo.Some?
  }

  function OpenException(db: Db, key: ExceptionKey, orderNo: Option<string>, paymentNo: Option<string>): Db {
    var before := Lookup(db.exceptions, key);
    var news := OpensAnew(before, orderNo, paymentNo);
    db.(exceptions := db.exceptions[key := OpenedException(before, orderNo, paymentNo)],
        events := if news then db.events[db.nextEventId := Event(ExceptionOpenedEvent, key.subject, orderNo, paymentNo)]
          else db.events,
        nextEventId := if news then db.nextEventId + 1 else db.nextEventId)
  }

  function DuplicateKey(paymentNo: string): ExceptionKey {
    ExceptionKey(LateDuplicate, PaymentRecord(paymentNo))
  }

  function NotificationUrl(db: Db, order: Order): Option<string> {
    if order.notifyUrl.Some? then order.notifyUrl
    else if order.appId in db.apps then db.apps[order.appId].webhookUrl
    else None
  }

  /** Where an event of the order is delivered to, if anywhere: one protocol knows no refund events. */
  function DeliveryUrl(db: Db, order: Order, event: DeliveryEvent): Option<string> {
    if event.RefundSucceededDelivery? && order.protocol == Epay then None else NotificationUrl(db, order)
  }

  /** An upsert that leaves an existing delivery alone. */
  function Deliver(db: Db, orderNo: string, event: DeliveryEvent): Db
    requires orderNo in db.orders
  {
    var order := db.orders[orderNo];
    match DeliveryUrl(db, order, event)
    case None => db
    case Some(url) =>
      var key := DeliveryKey(orderNo, event, url);
      if key in db.deliveries then db else db.(deliveries := db.deliveries[key := order.appId])
  }

  // ---- Orders and payments -----------------------------------------------------------------

  datatype OrderRequest = OrderRequest(
    appId: string, identity: Identity, protocol: Protocol, amount: nat, ttl: nat, notifyUrl: Option<string>)

  datatype OrderError = OrderRequestInvalid | IdempotencyConflict | OrderNumberTaken

  /** The order goes by the same number, or the same key, of its application. */
  predicate SameIdentity(o: Order, appId: string, identity: Identity) {
    o.appId == appId
      && (o.identity.external == identity.external || (identity.key.Some? && o.identity.key == identity.key))
  }

  /** The unique columns of orders; deleted orders keep theirs. */
  predicate IdentityTaken(db: Db, appId: string, identity: Identity) {
    exists no | no in db.orders :: SameIdentity(db.orders[no], appId, identity)
  }

  predicate OrderRequestValid(db: Db, orderNo: string, w: OrderRequest) {
    orderNo !in db.orders && w.appId in db.apps && w.amount > 0
  }

  function NewOrder(db: Db, orderNo: string, w: OrderRequest): Option<Order> {
    if !OrderRequestValid(db, orderNo, w) || IdentityTaken(db, w.appId, w.identity) then None
    else
      Some(Order(w.appId, w.identity, w.protocol, w.amount, OrderCreated, None, db.now + w.ttl, 0, Some(db.now + w.ttl),
                 None,
                 w.notifyUrl, None, false))
  }

  datatype BillSettings = BillSettings(enabled: bool, validSeconds: int, mode: MatchMode, offsetMax: nat)

  datatype PaymentRequest = PaymentRequest(orderNo: string, paymentNo: string, key: Option<string>, channel: Channel,
                                           accountId: string, bill: BillSettings)

  datatype PaymentError =
    | OrderNotFound | OrderExpired | OrderNotPayable | NumberTaken
    | BillNotConfigured | AmountPoolExhausted | ReferenceTaken

  /** The reservations that are still live, expired ones being deleted first. */
  function LiveReservations(db: Db, accountId: string): map<ReservationKey, Reservation> {
    map k | k in db.reservations && !(k.accountId == accountId && db.reservations[k].expiresAt <= db.now) ::
      db.reservations[k]
  }

  function AmountKey(accountId: string, amount: nat): ReservationKey {
    ReservationKey(accountId, AmountMode, Money.Decimal(amount))
  }

  /** The least offset from `from` up to `max` whose amount is not reserved. */
  function FirstFree(live: map<ReservationKey, Reservation>, accountId: string, amount: nat, from: nat,
                     max: nat): (r: Option<nat>)
    decreases max + 1 - from
  {
    if from > max then None
    else if AmountKey(accountId, amount + from) !in live then Some(from)
    else FirstFree(live, accountId, amount, from + 1, max)
  }

  /** What a bill payment reserves: its recognition terms and the amount the customer is asked to pay. */
  function PrepareReceipt(db: Db, req: PaymentRequest, order: Order): Result<(Terms, nat), PaymentError> {
    var until := if order.expiresAt < db.now + req.bill.validSeconds then order.expiresAt
                 else db.now + req.bill.validSeconds;
    if !req.bill.enabled then Err(BillNotConfigured)
    else if until <= db.now then Err(OrderExpired)
    else
      var live := LiveReservations(db, req.accountId);
      match req.bill.mode
      case AmountMode =>
        (match FirstFree(live, req.accountId, order.amount, 0, req.bill.offsetMax)
         case None => Err(AmountPoolExhausted)
         case Some(offset) => Ok((Terms(AmountMode, Money.Decimal(order.amount + offset), db.now, until),
                                  order.amount + offset)))
      case RemarkMode =>
        var reference := RemarkReference(req.paymentNo);
        if ReservationKey(req.accountId, RemarkMode, reference) in live then Err(ReferenceTaken)
        else Ok((Terms(RemarkMode, reference, db.now, until), order.amount))
  }

  predicate KeyUsed(db: Db, orderNo: string, key: Option<string>) {
    key.Some? && exists no | no in db.payments :: db.payments[no].orderNo == orderNo && db.payments[no].key == key
  }

  /** The payment a request creates; `None` inside `Ok` stands for a replay that returns an existing payment. */
  function PaymentVerdict(db: Db, req: PaymentRequest): Result<Option<Payment>, PaymentError> {
    if req.orderNo !in db.orders || db.orders[req.orderNo].deleted then Err(OrderNotFound)
    else
      var order := db.orders[req.orderNo];
      if order.expiresAt <= db.now then Err(OrderExpired)
      else if !IsOpen(order.status) then Err(OrderNotPayable)
      else if KeyUsed(db, req.orderNo, req.key) then Ok(None)
      else if req.paymentNo in db.issued then Err(NumberTaken)
      else
        var nextQueryAt := if req.channel == Alipay then Some(db.now + RECOVERY_INITIAL_DELAY) else None;
        var plain := Payment(req.orderNo, req.key, req.channel, req.accountId, Processing, order.amount, order.amount,
                             None, None, None, None, None, 0, nextQueryAt, None);
        if req.channel != AlipayBill then Ok(Some(plain))
        else
          match PrepareReceipt(db, req, order)
          case Err(e) => Err(e)
          case Ok(p) => Ok(Some(plain.(terms := Some(p.0), channelAmount := p.1)))
  }

  function NewPayment(db: Db, req: PaymentRequest): Option<Payment> {
    var v := PaymentVerdict(db, req);
    if v.Ok? then v.value else None
  }

  /** A bill payment's reservation replaces the expired ones of its account. */
  function Reserved(db: Db, req: PaymentRequest, terms: Option<Terms>): map<ReservationKey, Reservation> {
    if terms.None? then db.reservations
    else
      LiveReservations(db, req.accountId)[ReservationKey(req.accountId, terms.value.mode, terms.value.reference) :=
                                            Reservation(req.paymentNo, terms.value.validUntil)]
  }

  function PendingOrder(db: Db, orderNo: string): Option<Order> {
    if orderNo in db.orders then Some(db.orders[orderNo].(status := OrderPending)) else None
  }

  function AfterCreatePayment(db: Db, req: PaymentRequest): Db {
    var payment := NewPayment(db, req);
    db.(payments := Put(db.payments, req.paymentNo, payment),
        issued := if payment.Some? then db.issued + {req.paymentNo} else db.issued,
        reservations := if payment.Some? then Reserved(db, req, payment.value.terms) else db.reservations,
        orders := if payment.Some? then Put(db.orders, req.orderNo, PendingOrder(db, req.orderNo)) else db.orders)
  }

  /** `updatePaymentObservation`: a channel answer other than success, checked against the locked row. */
  function ObservedRow(db: Db, no: string, status: PaymentStatus, seenAttempts: nat, random: real,
                       channelOrderNo: Option<string>): Option<Payment> {
    if no !in db.payments || status == Success || db.payments[no].status == Success
      || !CanPaymentTransition(db.payments[no].status, status) then None
    else
      var current := db.payments[no];
      var attempt := if seenAttempts < 1 then 1 else seenAttempts;
      Some(current.(
             status := status,
             nextQueryAt := if current.channel == Alipay && IsRecoverablePayment(status)
                            then Some(db.now + RecoveryDelaySeconds(attempt, random)) else None,
             channelOrderNo := if channelOrderNo.Some? then channelOrderNo else current.channelOrderNo))
  }

  function ClosedRow(db: Db, no: string): Option<Payment> {
    if no !in db.payments || db.payments[no].status == Success || db.payments[no].status == Closed
       || !CanPaymentTransition(db.payments[no].status, Closed) then None
    else Some(db.payments[no].(status := Closed, nextQueryAt := None))
  }

  // ---- Success -----------------------------------------------------------------------------

  datatype Report = Report(paymentNo: string, amount: nat, received: Option<nat>, tradeNo: Option<string>, paidAt: int,
                           flow: Option<Flow>)

  datatype SuccessError = PaymentNotFound | AmountMismatch | TradeConflict | ReceivedConflict | TradeNoTaken

  datatype SuccessVerdict = Accepted | AlreadySucceeded | Refused(error: SuccessError)

  /** The trade number column is unique. */
  predicate TradeNoFree(db: Db, no: string, tradeNo: Option<string>) {
    tradeNo.Some? ==> forall other | other in db.payments && other != no :: db.payments[other].tradeNo != tradeNo
  }

  function JudgeSuccess(db: Db, r: Report): SuccessVerdict {
    if r.paymentNo !in db.payments || db.payments[r.paymentNo].orderNo !in db.orders then Refused(PaymentNotFound)
    else
      var current := db.payments[r.paymentNo];
      if current.amount != r.amount then Refused(AmountMismatch)
      else if current.status == Success then
        if current.tradeNo.Some? && r.tradeNo.Some? && current.tradeNo != r.tradeNo then Refused(TradeConflict)
        else if current.received.Some? && r.received.Some? && current.received != r.received
             then Refused(ReceivedConflict)
        else AlreadySucceeded
      else if !TradeNoFree(db, r.paymentNo, r.tradeNo) then Refused(TradeNoTaken)
      else Accepted
  }

  function SucceededPayment(current: Payment, r: Report): Payment {
    current.(status := Success,
             tradeNo := if r.tradeNo.Some? then r.tradeNo else current.tradeNo,
             received := if r.received.Some? then r.received else Some(r.amount),
             paidAt := Some(r.paidAt), flow := r.flow, nextQueryAt := None)
  }

  /** `markPaymentSucceeded`: the first success of an order wins it, a later one is a late duplicate. */
  function AfterSuccess(db: Db, r: Report): Db {
    if JudgeSuccess(db, r) != Accepted then db
    else
      var current := db.payments[r.paymentNo];
      var order := db.orders[current.orderNo];
      var paid := db.(payments := db.payments[r.paymentNo := SucceededPayment(current, r)]);
      if IsPaid(order.status) then
        OpenException(Emit(paid,
                           Event(PaymentLateDuplicateEvent, PaymentRecord(r.paymentNo), Some(current.orderNo),
                                 Some(r.paymentNo))),
                      DuplicateKey(r.paymentNo), Some(current.orderNo), Some(r.paymentNo))
      else AfterWin(paid, r.paymentNo, current.orderNo, r.paidAt)
  }

  function AfterWin(db: Db, no: string, orderNo: string, paidAt: int): Db
    requires orderNo in db.orders
  {
    var won := db.(orders := db.orders[orderNo := db.orders[orderNo].(
                     status := OrderSuccess, winner := Some(no), paidAt := Some(paidAt), nextAttemptAt := None,
                       lockedUntil := None)]);
    var told := Emit(Emit(won, Event(PaymentSucceededEvent, PaymentRecord(no), Some(orderNo), Some(no))),
                     Event(OrderSucceededEvent, OrderRecord(orderNo), Some(orderNo), Some(no)));
    Deliver(told, orderNo, PaymentSucceededDelivery)
  }

  predicate OnChannel(db: Db, no: string, channel: Channel) {
    no in db.payments && db.payments[no].channel == channel
  }

  /** A verified webhook; other channels have no webhook. */
  function WebhookReport(db: Db, no: string, amount: nat, tradeNo: Option<string>, paidAt: int): Option<Report> {
    if OnChannel(db, no, Alipay) then Some(Report(no, amount, None, tradeNo, paidAt, None)) else None
  }

  /** A query answered with success; the bill and mock channels never answer so. */
  function QueryReport(db: Db, no: string, tradeNo: Option<string>, paidAt: int): Option<Report> {
    if OnChannel(db, no, Alipay) then Some(Report(no, db.payments[no].amount, None, tradeNo, paidAt, None)) else None
  }

  function MockReport(db: Db, no: string): Option<Report> {
    if OnChannel(db, no, Mock) then Some(Report(no, db.payments[no].amount, None, Some("mock_" + no), db.now, None))
      else None
  }

  /** A statement line naming the payment; the trade number it is judged by may come from the line or the payment. */
  function StatementReport(db: Db, no: string, amount: nat, tradeNo: Option<string>, paidAt: int): Option<Report> {
    if OnChannel(db, no, Alipay) && db.payments[no].amount == amount
       && !(db.payments[no].tradeNo.Some? && tradeNo.Some? && db.payments[no].tradeNo != tradeNo)
    then Some(Report(no, amount, None, if tradeNo.Some? then tradeNo else db.payments[no].tradeNo, paidAt, None))
    else None
  }

  function AfterReport(db: Db, r: Option<Report>): Db {
    if r.Some? then AfterSuccess(db, r.value) else db
  }

  /** The follow-up write of a statement match that found the payment without a trade number. */
  function TradeNoRow(db: Db, no: string, tradeNo: string): Option<Payment> {
    if OnChannel(db, no, Alipay) && TradeNoFree(db, no, Some(tradeNo))
      then Some(db.payments[no].(tradeNo := Some(tradeNo))) else None
  }

  // ---- Bill receipts -----------------------------------------------------------------------

  predicate InWindow(paidAt: int, t: Terms) {
    t.validFrom <= paidAt <= t.validUntil
  }

  /** The checks a located payment must pass before a bill line may pay it. */
  predicate FlowFits(p: Payment, flow: Flow) {
    && (p.terms.Some? && p.terms.value.mode == RemarkMode ==>
        ExtractReference(flow.remark) == Some(p.terms.value.reference))
    && p.channelAmount == flow.amount
    && p.terms.Some? && InWindow(flow.paidAt, p.terms.value)
  }

  /** A bill line reports on a bill payment of its account that it fits. */
  function ReceiptReport(db: Db, accountId: string, no: string, flow: Flow): Option<Report> {
    if OnChannel(db, no, AlipayBill) && db.payments[no].accountId == accountId && FlowFits(db.payments[no], flow)
    then Some(Report(no, db.payments[no].amount, Some(flow.amount), Some(flow.tradeNo), flow.paidAt, Some(flow)))
    else None
  }

  function NewReceipt(db: Db, id: ReceiptId, flow: Flow): Option<Receipt> {
    if id in db.receipts then None else Some(Receipt(Unmatched, flow, None, None))
  }

  const FLOW_LOCK := 60

  predicate ReceiptClaimable(db: Db, id: ReceiptId) {
    && id in db.receipts
    && (db.receipts[id].status == Unmatched
        || (db.receipts[id].status == Matching && db.receipts[id].lockedUntil.Some?
            && db.receipts[id].lockedUntil.value <= db.now))
  }

  function LockedReceipt(db: Db, id: ReceiptId): Option<Receipt> {
    if id in db.receipts then Some(db.receipts[id].(status := Matching, lockedUntil := Some(db.now + FLOW_LOCK)))
      else None
  }

  function UnmatchedReceipt(db: Db, id: ReceiptId): Option<Receipt> {
    if id in db.receipts then Some(db.receipts[id].(status := Unmatched, paymentNo := None, lockedUntil := None))
      else None
  }

  /** A person asks for another try; what the receipt named stays named until then. */
  function ReopenedReceipt(db: Db, id: ReceiptId): Option<Receipt> {
    if id in db.receipts then Some(db.receipts[id].(status := Unmatched, lockedUntil := None)) else None
  }

  function MismatchedReceipt(db: Db, id: ReceiptId, no: Option<string>): Option<Receipt> {
    if id !in db.receipts || (no.Some? && no.value !in db.payments) then None
    else Some(db.receipts[id].(status := Mismatched, paymentNo := no, lockedUntil := None))
  }

  /** Conflicts and ambiguity open an exception on the receipt. */
  function NoteMismatch(db: Db, id: ReceiptId, orderNo: Option<string>, no: Option<string>, ambiguous: bool,
                        conflict: bool): Db {
    if conflict then OpenException(db, ExceptionKey(PaymentStateConflict, ReceiptRecord(id)), orderNo, no)
    else if ambiguous then OpenException(db, ExceptionKey(ReceiptAmbiguous, ReceiptRecord(id)), orderNo, no)
    else db
  }

  function TellMismatch(db: Db, id: ReceiptId, orderNo: Option<string>, no: Option<string>): Db {
    if no.Some? then Emit(db, Event(ReceiptMismatchEvent, ReceiptRecord(id), orderNo, no)) else db
  }

  /** `markMismatch`. */
  function AfterMismatch(db: Db, id: ReceiptId, no: Option<string>, ambiguous: bool, conflict: bool): Db {
    if MismatchedReceipt(db, id, no).None? then db
    else
      var orderNo := if no.Some? then Some(OrderOf(db, no.value)) else None;
      var marked := db.(receipts := Put(db.receipts, id, MismatchedReceipt(db, id, no)));
      TellMismatch(NoteMismatch(marked, id, orderNo, no, ambiguous, conflict), id, orderNo, no)
  }

  function OrderOf(db: Db, paymentNo: string): string {
    if paymentNo in db.payments then db.payments[paymentNo].orderNo else ""
  }

  predicate SettledBy(db: Db, id: ReceiptId, no: string) {
    && OnChannel(db, no, AlipayBill) && db.payments[no].accountId == id.accountId
    && db.payments[no].status == Success && db.payments[no].tradeNo == Some(id.tradeNo)
  }

  /** Exceptions a receipt left open are resolved once it is matched. */
  function ResolveReceiptExceptions(exceptions: map<ExceptionKey, Exception>,
                                    id: ReceiptId): map<ExceptionKey, Exception> {
    map k | k in exceptions ::
      if k.subject == ReceiptRecord(id) && IsLive(exceptions[k].status)
      then exceptions[k].(status := ExceptionResolved) else exceptions[k]
  }

  /** A receipt is matched only after the payment was found to have succeeded by this very line. */
  function MatchedReceipt(db: Db, id: ReceiptId, no: string): Option<Receipt> {
    if id in db.receipts && SettledBy(db, id, no)
      then Some(db.receipts[id].(status := Matched, paymentNo := Some(no), lockedUntil := None)) else None
  }

  // ---- Expiration --------------------------------------------------------------------------

  predicate ExpirationClaimable(db: Db, no: string, seenAttempts: nat) {
    && no in db.orders && IsOpen(db.orders[no].status)
    && db.orders[no].expirationAttempts == seenAttempts
    && db.orders[no].nextAttemptAt.Some? && db.orders[no].nextAttemptAt.value <= db.now
    && (db.orders[no].lockedUntil.None? || db.orders[no].lockedUntil.value < db.now)
  }

  function ExpirationClaim(db: Db, no: string, seenAttempts: nat): Option<Order> {
    if ExpirationClaimable(db, no, seenAttempts)
    then Some(db.orders[no].(expirationAttempts := seenAttempts + 1, lockedUntil := Some(db.now + EXPIRATION_LOCK)))
         else None
  }

  function ExpirationRetry(db: Db, no: string, attempt: nat): Option<Order> {
    if no in db.orders && IsOpen(db.orders[no].status)
    then Some(db.orders[no].(lockedUntil := None, nextAttemptAt := Some(db.now + ExpirationRetryDelaySeconds(attempt))))
         else None
  }

  predicate HasSuccess(payments: map<string, Payment>, orderNo: string) {
    exists no | no in payments :: payments[no].orderNo == orderNo && payments[no].status == Success
  }

  predicate HasActive(payments: map<string, Payment>, orderNo: string) {
    exists no | no in payments :: payments[no].orderNo == orderNo && IsActive(payments[no].status)
  }

  datatype CloseOutcome = OrderNowClosed | OrderFoundPaid | OrderSkipped | SuccessConflict | StillActive

  /** What the closing transaction finds once it holds the order's lock. */
  function JudgeClose(db: Db, orderNo: string): CloseOutcome
    requires orderNo in db.orders
  {
    if !IsOpen(db.orders[orderNo].status)
      then (if IsPaid(db.orders[orderNo].status) then OrderFoundPaid else OrderSkipped)
    else if HasSuccess(db.payments, orderNo) then SuccessConflict
    else if HasActive(db.payments, orderNo) then StillActive
    else OrderNowClosed
  }

  function Released(o: Order): Order {
    o.(lockedUntil := None, nextAttemptAt := None)
  }

  function ExpiredOrder(db: Db, orderNo: string): Option<Order> {
    if orderNo !in db.orders then None
    else
      match JudgeClose(db, orderNo)
      case OrderNowClosed => Some(Released(db.orders[orderNo]).(status := OrderClosed))
      case SuccessConflict => None
      case StillActive => None
      case _ => Some(Released(db.orders[orderNo]))
  }

  /** `releaseExpiration`, reached only after a payment of the order was read as successful. */
  function ReleasedRow(db: Db, paymentNo: string): Option<Order> {
    if paymentNo in db.payments && db.payments[paymentNo].status == Success
      && db.payments[paymentNo].orderNo in db.orders
    then Some(Released(db.orders[db.payments[paymentNo].orderNo])) else None
  }

  predicate ClosesNow(db: Db, orderNo: string) {
    orderNo in db.orders && JudgeClose(db, orderNo) == OrderNowClosed
  }
}
