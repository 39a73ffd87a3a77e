/** What each kind of step writes, table by table: every other table is equal before and after. */
module Shapes {
  import opened Wrappers
  import opened StateMachine
  import opened Rows
  import opened PaymentSteps
  import opened RefundSteps
  import opened Steps
  import RecoveryPolicy

  /** Two states that differ at most in exceptions, events and deliveries. */
  ghost predicate NotedOnly(db: Db, t: Db) {
    t == db.(exceptions := t.exceptions, events := t.events, nextEventId := t.nextEventId, deliveries := t.deliveries)
  }

  lemma OpenExceptionShape(db: Db, key: ExceptionKey, orderNo: Option<string>, no: Option<string>)
    ensures var t := OpenException(db, key, orderNo, no);
            t == db.(exceptions := t.exceptions, events := t.events, nextEventId := t.nextEventId)
    ensures OpenException(db, key, orderNo, no).exceptions
            == db.exceptions[key := OpenedException(Lookup(db.exceptions, key), orderNo, no)]
  {
    hide OpenedException, Lookup, OpensAnew;
  }

  lemma DeliverShape(db: Db, orderNo: string, event: DeliveryEvent)
    requires orderNo in db.orders
    ensures var t := Deliver(db, orderNo, event); t == db.(deliveries := t.deliveries)
  {
    hide NotificationUrl;
  }

  // ---- Rows written ------------------------------------------------------------------------

  function WonOrder(o: Order, no: string, paidAt: int): Order {
    o.(status := OrderSuccess, winner := Some(no), paidAt := Some(paidAt), nextAttemptAt := None, lockedUntil := None)
  }

  lemma WinShape(db: Db, no: string, orderNo: string, paidAt: int)
    requires orderNo in db.orders
    ensures var t := AfterWin(db, no, orderNo, paidAt);
            t == db.(orders := db.orders[orderNo := WonOrder(db.orders[orderNo], no, paidAt)],
                     events := t.events, nextEventId := t.nextEventId, deliveries := t.deliveries)
  {
    hide Deliver;
    var won := db.(orders := db.orders[orderNo := WonOrder(db.orders[orderNo], no, paidAt)]);
    var told := Emit(Emit(won, Event(PaymentSucceededEvent, PaymentRecord(no), Some(orderNo), Some(no))),
                     Event(OrderSucceededEvent, OrderRecord(orderNo), Some(orderNo), Some(no)));
    DeliverShape(told, orderNo, PaymentSucceededDelivery);
  }

  function SucceededRow(db: Db, r: Report): Option<Payment> {
    if JudgeSuccess(db, r) == Accepted then Some(SucceededPayment(db.payments[r.paymentNo], r)) else None
  }

  function WonRow(db: Db, r: Report): Option<Order> {
    if JudgeSuccess(db, r) == Accepted && !IsPaid(db.orders[OrderOf(db, r.paymentNo)].status)
    then Some(WonOrder(db.orders[OrderOf(db, r.paymentNo)], r.paymentNo, r.paidAt)) else None
  }

  /** The money a report moves: one payment and, if the order was not yet paid, that order. */
  function PaidIn(db: Db, r: Report): Db {
    db.(payments := Put(db.payments, r.paymentNo, SucceededRow(db, r)),
        orders := Put(db.orders, OrderOf(db, r.paymentNo), WonRow(db, r)))
  }

  lemma SuccessShape(db: Db, r: Report)
    ensures NotedOnly(PaidIn(db, r), AfterSuccess(db, r))
  {
    if JudgeSuccess(db, r) == Accepted { AcceptedShape(db, r); }
  }

  lemma AcceptedShape(db: Db, r: Report)
    requires JudgeSuccess(db, r) == Accepted
    ensures NotedOnly(PaidIn(db, r), AfterSuccess(db, r))
  {
    hide OpenException, AfterWin, TradeNoFree, SucceededPayment, OpenedException;
    var p := db.payments[r.paymentNo];
    var paid := db.(payments := db.payments[r.paymentNo := SucceededPayment(p, r)]);
    OpenExceptionShape(Emit(paid,
                            Event(PaymentLateDuplicateEvent, PaymentRecord(r.paymentNo), Some(p.orderNo),
                                  Some(r.paymentNo))),
                       DuplicateKey(r.paymentNo), Some(p.orderNo), Some(r.paymentNo));
    WinShape(paid, r.paymentNo, p.orderNo, r.paidAt);
  }

  function PaymentKey(step: Step): string {
    if step.CreatePayment? then step.request.paymentNo
    else if IsReport(step) || IsPaymentStep(step) then step.no
    else if IsRecovery(step) && step.record.PaymentRecord? then step.record.paymentNo
    else ""
  }

  function ScheduledPayment(db: Db, step: Step): Option<Payment>
    requires IsRecovery(step)
  {
    var w := ScheduleOf(db, step);
    if step.record.PaymentRecord? && step.record.paymentNo in db.payments && w.Some?
    then Some(db.payments[step.record.paymentNo].(attempts := w.value.0, nextQueryAt := w.value.1)) else None
  }

  function ScheduledRefund(db: Db, step: Step): Option<Refund>
    requires IsRecovery(step)
  {
    var w := ScheduleOf(db, step);
    if step.record.RefundRecord? && step.record.refundNo in db.refunds && w.Some?
    then Some(db.refunds[step.record.refundNo].(attempts := w.value.0, nextQueryAt := w.value.1)) else None
  }

  /** The payment row a step writes. */
  function PaymentRow(db: Db, step: Step): Option<Payment> {
    if step.CreatePayment? then NewPayment(db, step.request)
    else if IsReport(step) then (if ReportOf(db, step).Some? then SucceededRow(db, ReportOf(db, step).value) else None)
    else if IsPaymentStep(step) then PaymentStepRow(db, step)
    else if IsRecovery(step) then ScheduledPayment(db, step)
    else None
  }

  function OrderKey(db: Db, step: Step): string {
    if step.CreatePayment? then step.request.orderNo
    else if IsReport(step) then OrderOf(db, step.no)
    else if IsOrderStep(step) then OrderStepKey(db, step)
    else if step.RefundSucceeded? && RefundOpen(db, step.refundNo) then RefundedOrderNo(db, step.refundNo)
    else ""
  }

  ghost predicate PaysBack(db: Db, no: string) {
    RefundOpen(db, no) && (RefundsWinner(db, no) ==> StatusPaidBack(db, no).Ok?)
  }

  ghost function PaidBackOrder(db: Db, no: string): Option<Order> {
    if PaysBack(db, no) && RefundsWinner(db, no)
    then Some(db.orders[RefundedOrderNo(db, no)].(status := StatusPaidBack(db, no).value)) else None
  }

  /** The order row a step writes. */
  ghost function OrderRow(db: Db, step: Step): Option<Order> {
    if step.CreatePayment?
      then (if NewPayment(db, step.request).Some? then PendingOrder(db, step.request.orderNo) else None)
    else if IsReport(step) then (if ReportOf(db, step).Some? then WonRow(db, ReportOf(db, step).value) else None)
    else if IsOrderStep(step) then OrderStepRow(db, step)
    else if step.RefundSucceeded? then PaidBackOrder(db, step.refundNo)
    else None
  }

  function RefundKey(step: Step): string {
    if step.CreateRefund? then step.refund.refundNo
    else if step.RefundObserved? || step.RefundSucceeded? then step.refundNo
    else if IsRecovery(step) && step.record.RefundRecord? then step.record.refundNo
    else ""
  }

  /** The refund row a step writes. */
  ghost function RefundRow(db: Db, step: Step): Option<Refund> {
    if step.CreateRefund? then NewRefund(db, step.refund)
    else if step.RefundObserved? then ObservedRefund(db, step.refundNo, step.seen, step.refundStatus, step.random)
    else if step.RefundSucceeded?
         then (if PaysBack(db, step.refundNo) then Some(SucceededRefund(db.refunds[step.refundNo])) else None)
    else if IsRecovery(step) then ScheduledRefund(db, step)
    else None
  }

  // ---- Every step writes those rows --------------------------------------------------------

  /** The tables of the money after a step that archives nothing. */
  ghost predicate Moves(db: Db, step: Step, t: Db) {
    && t.payments == Put(db.payments, PaymentKey(step), PaymentRow(db, step))
    && t.orders == Put(db.orders, OrderKey(db, step), OrderRow(db, step))
    && t.refunds == Put(db.refunds, RefundKey(step), RefundRow(db, step))
  }

  /** The other tables: the clock ticks alone, numbers are issued with their rows, reservations come with payments. */
  ghost predicate Frames(db: Db, step: Step, t: Db) {
    && t.now == (if step.Tick? then db.now + step.seconds else db.now)
    && t.issued == (if step.CreatePayment? && PaymentRow(db, step).Some? then db.issued + {step.request.paymentNo}
                    else if step.CreateRefund? && RefundRow(db, step).Some? then db.issued + {step.refund.refundNo}
                         else db.issued)
    && t.reservations
       == (if step.CreatePayment? && PaymentRow(db, step).Some?
           then Reserved(db, step.request, PaymentRow(db, step).value.terms)
                          else db.reservations)
    && t.receipts == Put(db.receipts, ReceiptKey(step), ReceiptRow(db, step))
    && t.tickets == (if IsRecovery(step) then TicketsAfter(db, step) else db.tickets)
  }

  /** Reports name the payment of their step; only the watcher reports on bill payments. */
  lemma ReportNamesPayment(db: Db, step: Step)
    requires IsReport(step)
    ensures ReportOf(db, step).Some? ==> ReportOf(db, step).value.paymentNo == step.no && step.no in db.payments
    ensures ReportOf(db, step).Some? ==> (db.payments[step.no].channel == AlipayBill <==> step.ReceiptSuccess?)
  {
    hide FlowFits;
  }

  lemma ReportWrites(db: Db, step: Step)
    requires IsReport(step)
    ensures Moves(db, step, AfterReport(db, ReportOf(db, step)))
    ensures Frames(db, step, AfterReport(db, ReportOf(db, step)))
  {
    hide AfterSuccess, NewPayment, PendingOrder, Reserved, SucceededRow, WonRow, ReportOf, OrderOf, PaymentStepRow,
         OrderStepRow, OrderStepKey, NewRefund, ObservedRefund, SucceededRefund, PaysBack, PaidBackOrder,
         RefundedOrderNo, RefundOpen, ScheduledPayment, ScheduledRefund, ScheduleOf;
    ReportNamesPayment(db, step);
    if ReportOf(db, step).Some? {
      AcceptedReportWrites(db, step, ReportOf(db, step).value);
    }
  }

  lemma AcceptedReportWrites(db: Db, step: Step, r: Report)
    requires IsReport(step) && ReportOf(db, step) == Some(r) && r.paymentNo == step.no
    ensures Moves(db, step, AfterSuccess(db, r)) && Frames(db, step, AfterSuccess(db, r))
  {
    hide AfterSuccess, NewPayment, PendingOrder, Reserved, SucceededRow, WonRow, ReportOf, OrderOf, PaymentStepRow,
         OrderStepRow, OrderStepKey, NewRefund, ObservedRefund, SucceededRefund, PaysBack, PaidBackOrder,
         RefundedOrderNo, RefundOpen, ScheduledPayment, ScheduledRefund, ScheduleOf;
    SuccessShape(db, r);
  }

  lemma PaymentWrites(db: Db, step: Step)
    requires IsPaymentStep(step)
    ensures Moves(db, step, AfterPaymentStep(db, step)) && Frames(db, step, AfterPaymentStep(db, step))
  {
    hide NewPayment, PendingOrder, Reserved, SucceededRow, WonRow, ReportOf, OrderOf, PaymentStepRow, OrderStepRow,
         OrderStepKey, NewRefund, ObservedRefund, SucceededRefund, PaysBack, PaidBackOrder, RefundedOrderNo, RefundOpen,
         ScheduledPayment, ScheduledRefund, ScheduleOf;
  }

  lemma CreatePaymentWrites(db: Db, step: Step)
    requires step.CreatePayment?
    ensures Moves(db, step, AfterCreatePayment(db, step.request))
            && Frames(db, step, AfterCreatePayment(db, step.request))
  {
    hide NewPayment, PendingOrder, Reserved, SucceededRow, WonRow, ReportOf, OrderOf, PaymentStepRow, OrderStepRow,
         OrderStepKey, NewRefund, ObservedRefund, SucceededRefund, PaysBack, PaidBackOrder, RefundedOrderNo, RefundOpen,
         ScheduledPayment, ScheduledRefund, ScheduleOf;
  }

  lemma OrderWrites(db: Db, step: Step)
    requires IsOrderStep(step)
    ensures Moves(db, step, AfterOrderStep(db, step)) && Frames(db, step, AfterOrderStep(db, step))
  {
    hide ClosesNow, NewPayment, PendingOrder, Reserved, SucceededRow, WonRow, ReportOf, OrderOf, PaymentStepRow,
         OrderStepRow, OrderStepKey, NewRefund, ObservedRefund, SucceededRefund, PaysBack, PaidBackOrder,
         RefundedOrderNo, RefundOpen, ScheduledPayment, ScheduledRefund, ScheduleOf;
  }

  lemma RefundWrites(db: Db, step: Step)
    requires step.CreateRefund? || step.RefundObserved?
    ensures Moves(db, step, Apply(db, step)) && Frames(db, step, Apply(db, step))
  {
    hide NewPayment, PendingOrder, Reserved, SucceededRow, WonRow, ReportOf, OrderOf, PaymentStepRow, OrderStepRow,
         OrderStepKey, NewRefund, ObservedRefund, SucceededRefund, PaysBack, PaidBackOrder, RefundedOrderNo, RefundOpen,
         ScheduledPayment, ScheduledRefund, ScheduleOf;
  }

  lemma RecoveryWrites(db: Db, step: Step)
    requires IsRecovery(step)
    ensures Moves(db, step, AfterRecovery(db, step)) && Frames(db, step, AfterRecovery(db, step))
  {
    hide AfterRecovery, Moves, Frames;
    RecoveryMoves(db, step);
    RecoveryFrames(db, step);
  }

  lemma RecoveryFrames(db: Db, step: Step)
    requires IsRecovery(step)
    ensures Frames(db, step, AfterRecovery(db, step))
  {
    hide RecordOrder, RecordPayment, HandedOver, ScheduleOf, TicketsAfter, PaymentRow, RefundRow;
  }

  lemma RecoveryMoves(db: Db, step: Step)
    requires IsRecovery(step)
    ensures Moves(db, step, AfterRecovery(db, step))
  {
    hide RecordOrder, RecordPayment, HandedOver, ScheduleOf, TicketsAfter, NewPayment, PendingOrder, Reserved,
         SucceededRow, WonRow, ReportOf, OrderOf, PaymentStepRow, OrderStepRow, OrderStepKey, NewRefund,
         ObservedRefund, SucceededRefund, PaysBack, PaidBackOrder, RefundedOrderNo, RefundOpen;
  }

  lemma FilingWrites(db: Db, step: Step)
    requires IsFiling(step)
    ensures Moves(db, step, AfterFiling(db, step)) && Frames(db, step, AfterFiling(db, step))
  {
    hide AppsFiled, ExceptionsFiled, NewPayment, PendingOrder, Reserved, SucceededRow, WonRow, ReportOf, OrderOf,
         PaymentStepRow, OrderStepRow, OrderStepKey, NewRefund, ObservedRefund, SucceededRefund, PaysBack,
         PaidBackOrder, RefundedOrderNo, RefundOpen, ScheduledPayment, ScheduledRefund, ScheduleOf, ReceiptRow;
  }

  lemma MismatchWrites(db: Db, step: Step)
    requires step.Mismatch?
    ensures var t := AfterMismatch(db, step.id, step.found, step.ambiguous, step.conflict);
            Moves(db, step, t) && Frames(db, step, t)
  {
    hide AfterMismatch, MismatchedReceipt, NewPayment, PendingOrder, Reserved, SucceededRow, WonRow, ReportOf,
         OrderOf, PaymentStepRow, OrderStepRow, OrderStepKey, NewRefund, ObservedRefund, SucceededRefund, PaysBack,
         PaidBackOrder, RefundedOrderNo, RefundOpen, ScheduledPayment, ScheduledRefund, ScheduleOf;
    MismatchShape(db, step.id, step.found, step.ambiguous, step.conflict);
  }

  lemma TickWrites(db: Db, step: Step)
    requires step.Tick?
    ensures var t := db.(now := db.now + step.seconds); Moves(db, step, t) && Frames(db, step, t)
  {
    hide NewPayment, PendingOrder, Reserved, SucceededRow, WonRow, ReportOf, OrderOf, PaymentStepRow, OrderStepRow,
         OrderStepKey, NewRefund, ObservedRefund, SucceededRefund, PaysBack, PaidBackOrder, RefundedOrderNo, RefundOpen,
         ScheduledPayment, ScheduledRefund, ScheduleOf;
  }

  /** What every step but the deletion of an application does to the tables. */
  lemma StepWrites(db: Db, step: Step)
    requires !step.DeleteApplication?
    ensures Moves(db, step, Apply(db, step)) && Frames(db, step, Apply(db, step))
  {
    hide Moves, Frames, ReportOf, AfterCreatePayment, AfterDeleteApplication, AfterReport, AfterPaymentStep,
         AfterOrderStep, AfterCreateRefund, AfterRefundObserved, AfterRefundSucceeded, AfterRecovery, AfterFiling,
         AfterMismatch;
    if step.Tick? { TickWrites(db, step); }
    else if step.CreatePayment? { CreatePaymentWrites(db, step); }
    else if step.CreateRefund? || step.RefundObserved? { RefundWrites(db, step); }
    else if step.RefundSucceeded? { RefundSucceededWrites(db, step.refundNo); }
    else if step.Mismatch? { MismatchWrites(db, step); }
    else if IsReport(step) { ReportWrites(db, step); }
    else if IsPaymentStep(step) { PaymentWrites(db, step); }
    else if IsOrderStep(step) { OrderWrites(db, step); }
    else if IsRecovery(step) { RecoveryWrites(db, step); }
    else { FilingWrites(db, step); }
  }

  // ---- Deletion ----------------------------------------------------------------------------

  /** Deleting an application changes nothing but the application, or archives what belongs to it. */
  ghost predicate Deletes(db: Db, appId: string, t: Db) {
    && t.now == db.now && t.issued == db.issued && t.tickets == db.tickets
    && if Archives(db, appId) then
         && t.payments == db.payments - ClearedPayments(db, appId)
         && t.refunds == db.refunds - ClearedRefunds(db, appId)
         && t.orders == ArchivedOrders(db, appId)
         && t.reservations == WithoutReservations(db.reservations, ClearedPayments(db, appId))
         && t.receipts == db.receipts - ClearedReceipts(db, appId)
         && t.exceptions == db.exceptions - ClearedExceptions(db, appId)
         && t.events == db.events - ClearedEvents(db, appId)
         && t.deliveries == db.deliveries - ClearedDeliveries(db, appId)
       else
         && t.payments == db.payments && t.refunds == db.refunds && t.orders == db.orders
         && t.reservations == db.reservations
         && t.receipts == db.receipts && t.exceptions == db.exceptions && t.events == db.events
         && t.deliveries == db.deliveries
  }

  lemma ArchiveWrites(db: Db, appId: string)
    requires Archives(db, appId)
    ensures Deletes(db, appId, AfterArchive(db, appId))
  {
    hide Archives, ClearedEvents, ClearedReceipts, ClearedExceptions, ClearedDeliveries, ClearedPayments,
         ClearedRefunds, WithoutReservations, ArchivedOrders;
  }

  lemma PlainDeletionWrites(db: Db, appId: string, apps: map<string, App>)
    requires !Archives(db, appId)
    ensures Deletes(db, appId, db.(apps := apps))
  {
    hide Archives;
  }

  lemma DeletionWrites(db: Db, appId: string)
    ensures Deletes(db, appId, AfterDeleteApplication(db, appId))
  {
    hide HasBusiness, AfterArchive, Deletes;
    if Archives(db, appId) {
      ArchiveWrites(db, appId);
    } else {
      PlainDeletionWrites(db, appId, db.apps);
      PlainDeletionWrites(db, appId, db.apps - {appId});
    }
  }

  // ---- New payments ------------------------------------------------------------------------

  lemma NewPaymentShape(db: Db, req: PaymentRequest)
    ensures NewPayment(db, req).Some? ==>
              var p := NewPayment(db, req).value;
              && req.paymentNo !in db.issued && req.orderNo in db.orders && IsOpen(db.orders[req.orderNo].status)
              && p.orderNo == req.orderNo && p.amount == db.orders[req.orderNo].amount
              && p.status == Processing && p.attempts == 0 && p.channel == req.channel && p.accountId == req.accountId
              && (p.terms.Some? <==> req.channel == AlipayBill)
              && (req.channel == Alipay ==> p.nextQueryAt.Some?) && p.received.None? && p.tradeNo.None?
              && (p.terms.None? ==> p.channelAmount == p.amount)
  {
    hide PrepareReceipt, KeyUsed;
  }

  // ---- Refunds that succeed ----------------------------------------------------------------

  lemma ResolveShape(db: Db, total: nat, no: string)
    ensures var t := ResolveDuplicate(db, total, no); t == db.(exceptions := t.exceptions)
    ensures no in db.payments && total >= db.payments[no].amount
            && DuplicateKey(no) in ResolveDuplicate(db, total, no).exceptions
            ==> !IsLive(ResolveDuplicate(db, total, no).exceptions[DuplicateKey(no)].status)
  {
  }

  /** What follows the rows of a successful refund. */
  lemma AnnounceShape(db: Db, no: string, paymentNo: string, orderNo: string, total: nat, wins: bool)
    ensures var t := AnnounceRefund(db, no, paymentNo, orderNo, total, wins);
            && NotedOnly(db, t)
            && (paymentNo in db.payments && total >= db.payments[paymentNo].amount
                && DuplicateKey(paymentNo) in t.exceptions
                ==> !IsLive(t.exceptions[DuplicateKey(paymentNo)].status))
  {
    hide ResolveDuplicate, Deliver;
    var told := Emit(db, Event(RefundSucceededEvent, RefundRecord(no), Some(orderNo), Some(paymentNo)));
    ResolveShape(told, total, paymentNo);
    if orderNo in db.orders {
      DeliverShape(ResolveDuplicate(told, total, paymentNo), orderNo, RefundSucceededDelivery(no));
    }
  }

  lemma RefundSucceededShape(db: Db, no: string)
    ensures !PaysBack(db, no) ==> AfterRefundSucceeded(db, no) == db
    ensures PaysBack(db, no) ==> NotedOnly(PaidOut(db, no), AfterRefundSucceeded(db, no))
    ensures var t := AfterRefundSucceeded(db, no);
            PaysBack(db, no) && TotalPaidBack(db, no) >= db.payments[db.refunds[no].paymentNo].amount
              && DuplicateKey(db.refunds[no].paymentNo) in t.exceptions
            ==> !IsLive(t.exceptions[DuplicateKey(db.refunds[no].paymentNo)].status)
  {
    hide AnnounceRefund, TotalPaidBack, StatusPaidBack;
    if RefundOpen(db, no) {
      AnnounceShape(PaidOut(db, no), no, db.refunds[no].paymentNo, RefundedOrderNo(db, no), TotalPaidBack(db, no),
                    RefundsWinner(db, no));
    }
  }

  lemma RefundSucceededWrites(db: Db, no: string)
    ensures var t := AfterRefundSucceeded(db, no);
            Moves(db, RefundSucceeded(no), t) && Frames(db, RefundSucceeded(no), t)
  {
    hide AfterRefundSucceeded, StatusPaidBack, TotalPaidBack, NewPayment, PendingOrder, Reserved, SucceededRow, WonRow,
         ReportOf, OrderOf, PaymentStepRow, OrderStepRow, OrderStepKey, ScheduledPayment, ScheduledRefund, ScheduleOf;
    RefundSucceededShape(db, no);
  }

  // ---- Paperwork ---------------------------------------------------------------------------

  /** Two states that differ at most in exceptions and events. */
  ghost predicate FiledOnly(db: Db, t: Db) {
    t == db.(exceptions := t.exceptions, events := t.events, nextEventId := t.nextEventId)
  }

  lemma NoteShape(db: Db, id: ReceiptId, orderNo: Option<string>, no: Option<string>, ambiguous: bool, conflict: bool)
    ensures FiledOnly(db, NoteMismatch(db, id, orderNo, no, ambiguous, conflict))
  {
    hide OpenException;
    OpenExceptionShape(db, ExceptionKey(PaymentStateConflict, ReceiptRecord(id)), orderNo, no);
    OpenExceptionShape(db, ExceptionKey(ReceiptAmbiguous, ReceiptRecord(id)), orderNo, no);
  }

  lemma TellShape(db: Db, id: ReceiptId, orderNo: Option<string>, no: Option<string>)
    ensures FiledOnly(db, TellMismatch(db, id, orderNo, no))
  {
  }

  lemma MismatchShape(db: Db, id: ReceiptId, no: Option<string>, ambiguous: bool, conflict: bool)
    ensures FiledOnly(db.(receipts := Put(db.receipts, id, MismatchedReceipt(db, id, no))),
                      AfterMismatch(db, id, no, ambiguous, conflict))
  {
    hide NoteMismatch, TellMismatch, MismatchedReceipt, OrderOf;
    var orderNo := if no.Some? then Some(OrderOf(db, no.value)) else None;
    var marked := db.(receipts := Put(db.receipts, id, MismatchedReceipt(db, id, no)));
    NoteShape(marked, id, orderNo, no, ambiguous, conflict);
    TellShape(NoteMismatch(marked, id, orderNo, no, ambiguous, conflict), id, orderNo, no);
  }
}
