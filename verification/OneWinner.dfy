/** Rows refer to rows that exist, an order has one winner, and a closed order holds no money. */
module OneWinner {
  import opened Wrappers
  import opened StateMachine
  import opened Rows
  import opened PaymentSteps
  import opened RefundSteps
  import opened Steps
  import opened Shapes
  import RecoveryPolicy

  type Orders = map<string, Order>
  type Payments = map<string, Payment>
  type Refunds = map<string, Refund>
  type Exceptions = map<ExceptionKey, Exception>
  type Events = map<nat, Event>
  type Deliveries = map<DeliveryKey, string>

  // ---- The invariant -----------------------------------------------------------------------

  /** A payment belongs to an order and carries its amount. */
  ghost predicate PaymentsLinked(orders: Orders, payments: Payments, issued: set<string>) {
    && (forall o | o in orders :: orders[o].amount > 0)
    && (forall no | no in payments ::
          no in issued && payments[no].orderNo in orders && payments[no].amount == orders[payments[no].orderNo].amount)
  }

  /** A refund belongs to a successful payment of its application. */
  ghost predicate RefundsLinked(orders: Orders, payments: Payments, refunds: Refunds, issued: set<string>) {
    forall no | no in refunds ::
      && no in issued && refunds[no].amount > 0
      && refunds[no].paymentNo in payments && payments[refunds[no].paymentNo].status == Success
      && payments[refunds[no].paymentNo].orderNo in orders
      && refunds[no].appId == orders[payments[refunds[no].paymentNo].orderNo].appId
  }

  /** An order has a winner exactly while it is paid, and the winner is one of its successful payments. */
  ghost predicate Won(orders: Orders, payments: Payments) {
    && (forall o | o in orders :: IsPaid(orders[o].status) <==> orders[o].winner.Some?)
    && (forall o | o in orders && orders[o].winner.Some? ::
          && orders[o].winner.value in payments
          && payments[orders[o].winner.value].orderNo == o && payments[orders[o].winner.value].status == Success)
    && (forall no | no in payments && payments[no].status == Success ::
          payments[no].orderNo in orders && IsPaid(orders[payments[no].orderNo].status))
  }

  /** A successful payment that did not win is reported, until its order is archived. */
  ghost predicate Reported(orders: Orders, payments: Payments, exceptions: Exceptions) {
    forall no | no in payments && payments[no].status == Success ::
      payments[no].orderNo in orders
      && (orders[payments[no].orderNo].winner == Some(no) || orders[payments[no].orderNo].deleted
          || DuplicateKey(no) in exceptions)
  }

  /** The exception of a duplicate payment is filed under that payment and its order. */
  ghost predicate Filed(payments: Payments, exceptions: Exceptions) {
    forall no | no in payments && DuplicateKey(no) in exceptions ::
      && exceptions[DuplicateKey(no)].paymentNo == Some(no)
      && exceptions[DuplicateKey(no)].orderNo == Some(payments[no].orderNo)
  }

  /** Exceptions about duplicates name payments that were issued. */
  ghost predicate FiledIssued(exceptions: Exceptions, issued: set<string>) {
    forall k | k in exceptions && k.kind == LateDuplicate && k.subject.PaymentRecord? :: k.subject.paymentNo in issued
  }

  /** A closed order has no payment that is active or successful. */
  ghost predicate ClosedSafe(orders: Orders, payments: Payments) {
    forall no | no in payments && payments[no].orderNo in orders
      && orders[payments[no].orderNo].status == OrderClosed ::
      payments[no].status == Failed || payments[no].status == Closed
  }

  ghost predicate Core(orders: Orders, payments: Payments, refunds: Refunds, exceptions: Exceptions,
                       issued: set<string>) {
    && PaymentsLinked(orders, payments, issued)
    && RefundsLinked(orders, payments, refunds, issued)
    && Won(orders, payments)
    && Reported(orders, payments, exceptions)
    && Filed(payments, exceptions)
    && FiledIssued(exceptions, issued)
    && ClosedSafe(orders, payments)
  }

  ghost predicate PaidOrder(orders: Orders, orderNo: string) {
    orderNo in orders && IsPaid(orders[orderNo].status)
  }

  /** One ORDER_SUCCEEDED event at most, and only for a paid order. */
  ghost predicate EventsOnce(orders: Orders, events: Events) {
    && (forall e | e in events && events[e].kind == OrderSucceededEvent ::
          events[e].record.OrderRecord? && PaidOrder(orders, events[e].record.orderNo))
    && (forall e, f | e in events && f in events && events[e].kind == OrderSucceededEvent
        && events[f].kind == OrderSucceededEvent ::
          events[e].record == events[f].record ==> e == f)
  }

  /** One payment.succeeded delivery at most, and only for a paid order. */
  ghost predicate DeliveriesOnce(orders: Orders, deliveries: Deliveries) {
    && (forall k | k in deliveries && k.event == PaymentSucceededDelivery :: PaidOrder(orders, k.orderNo))
    && (forall k, l | k in deliveries && l in deliveries && k.event == PaymentSucceededDelivery
        && l.event == PaymentSucceededDelivery ::
          k.orderNo == l.orderNo ==> k == l)
  }

  ghost predicate Told(orders: Orders, events: Events, nextEventId: nat, deliveries: Deliveries) {
    && (forall id | id in events :: id < nextEventId)
    && EventsOnce(orders, events)
    && DeliveriesOnce(orders, deliveries)
  }

  ghost predicate CoreInv(db: Db) {
    Core(db.orders, db.payments, db.refunds, db.exceptions, db.issued)
  }

  ghost predicate ToldInv(db: Db) {
    Told(db.orders, db.events, db.nextEventId, db.deliveries)
  }

  ghost predicate Inv(db: Db) {
    CoreInv(db) && ToldInv(db)
  }

  // ---- Small changes to the tables ---------------------------------------------------------

  /** Writing one payment that stays on its order and in its standing with respect to success. */
  lemma PaymentWritten(orders: Orders, payments: Payments, refunds: Refunds, exceptions: Exceptions,
                       issued: set<string>, no: string, p: Payment)
    requires Core(orders, payments, refunds, exceptions, issued) && no in payments
    requires p.orderNo == payments[no].orderNo && p.amount == payments[no].amount
    requires p.status == Success <==> payments[no].status == Success
    requires IsActive(p.status) ==> IsActive(payments[no].status)
    ensures Core(orders, payments[no := p], refunds, exceptions, issued)
  {
    hide PaymentsLinked, RefundsLinked, Filed, FiledIssued, Won, Reported, ClosedSafe;
    StandingKept(orders, payments, exceptions, no, p);
    LinksKept(orders, payments, refunds, exceptions, issued, no, p);
  }

  lemma LinksKept(orders: Orders, payments: Payments, refunds: Refunds, exceptions: Exceptions, issued: set<string>,
                  no: string, p: Payment)
    requires PaymentsLinked(orders, payments, issued) && RefundsLinked(orders, payments, refunds, issued)
             && Filed(payments, exceptions) && no in payments
    requires p.orderNo == payments[no].orderNo && p.amount == payments[no].amount
    requires payments[no].status == Success ==> p.status == Success
    ensures PaymentsLinked(orders, payments[no := p], issued)
    ensures RefundsLinked(orders, payments[no := p], refunds, issued)
    ensures Filed(payments[no := p], exceptions)
  {
  }

  lemma StandingKept(orders: Orders, payments: Payments, exceptions: Exceptions, no: string, p: Payment)
    requires Won(orders, payments) && Reported(orders, payments, exceptions) && ClosedSafe(orders, payments)
             && no in payments
    requires p.orderNo == payments[no].orderNo && (p.status == Success <==> payments[no].status == Success)
    requires IsActive(p.status) ==> IsActive(payments[no].status)
    ensures Won(orders, payments[no := p]) && Reported(orders, payments[no := p], exceptions)
            && ClosedSafe(orders, payments[no := p])
  {
  }

  lemma PaymentAdded(orders: Orders, payments: Payments, refunds: Refunds, exceptions: Exceptions, issued: set<string>,
                     no: string, p: Payment)
    requires Core(orders, payments, refunds, exceptions, issued) && no !in issued
    requires p.orderNo in orders && p.amount == orders[p.orderNo].amount > 0 && p.status == Processing
             && IsOpen(orders[p.orderNo].status)
    ensures Core(orders, payments[no := p], refunds, exceptions, issued + {no})
  {
    assert DuplicateKey(no) !in exceptions;
  }

  lemma OrderLinksKept(orders: Orders, payments: Payments, refunds: Refunds, issued: set<string>, no: string, o: Order)
    requires PaymentsLinked(orders, payments, issued) && RefundsLinked(orders, payments, refunds, issued)
             && no in orders
    requires o.appId == orders[no].appId && o.amount == orders[no].amount
    ensures PaymentsLinked(orders[no := o], payments, issued)
    ensures RefundsLinked(orders[no := o], payments, refunds, issued)
  {
  }

  lemma OrderWritten(orders: Orders, payments: Payments, refunds: Refunds, exceptions: Exceptions, issued: set<string>,
                     no: string, o: Order)
    requires Core(orders, payments, refunds, exceptions, issued) && no in orders
    requires o.appId == orders[no].appId && o.amount == orders[no].amount && o.deleted == orders[no].deleted
    requires o.winner == orders[no].winner && (IsPaid(o.status) <==> IsPaid(orders[no].status))
    requires o.status == OrderClosed && orders[no].status != OrderClosed ==>
               !HasSuccess(payments, no) && !HasActive(payments, no)
    ensures Core(orders[no := o], payments, refunds, exceptions, issued)
  {
    hide PaymentsLinked, RefundsLinked, Filed, FiledIssued, Won, Reported, ClosedSafe;
    OrderLinksKept(orders, payments, refunds, issued, no, o);
    OrderStandingKept(orders, payments, exceptions, no, o);
  }

  lemma OrderStandingKept(orders: Orders, payments: Payments, exceptions: Exceptions, no: string, o: Order)
    requires Won(orders, payments) && Reported(orders, payments, exceptions) && ClosedSafe(orders, payments)
             && no in orders
    requires o.deleted == orders[no].deleted && o.winner == orders[no].winner
             && (IsPaid(o.status) <==> IsPaid(orders[no].status))
    requires o.status == OrderClosed && orders[no].status != OrderClosed ==>
               !HasSuccess(payments, no) && !HasActive(payments, no)
    ensures Won(orders[no := o], payments)
    ensures Reported(orders[no := o], payments, exceptions)
    ensures ClosedSafe(orders[no := o], payments)
  {
  }

  lemma RefundWritten(orders: Orders, payments: Payments, refunds: Refunds, exceptions: Exceptions, issued: set<string>,
                      no: string, r: Refund)
    requires Core(orders, payments, refunds, exceptions, issued) && no in refunds
    requires r.appId == refunds[no].appId && r.amount == refunds[no].amount && r.paymentNo == refunds[no].paymentNo
    ensures Core(orders, payments, refunds[no := r], exceptions, issued)
  {
  }

  lemma ExceptionWritten(orders: Orders, payments: Payments, refunds: Refunds, exceptions: Exceptions,
                         issued: set<string>, k: ExceptionKey, e: Exception)
    requires Core(orders, payments, refunds, exceptions, issued)
    requires k.kind == LateDuplicate && k.subject.PaymentRecord? ==>
      k.subject.paymentNo in payments && e.paymentNo == Some(k.subject.paymentNo)
        && e.orderNo == Some(payments[k.subject.paymentNo].orderNo)
    ensures Core(orders, payments, refunds, exceptions[k := e], issued)
  {
  }

  /** A first success: payment and order change together. */
  lemma WinWritten(orders: Orders, payments: Payments, refunds: Refunds, exceptions: Exceptions, issued: set<string>,
                   no: string, p: Payment, o: Order)
    requires Core(orders, payments, refunds, exceptions, issued) && no in payments
    requires p.orderNo == payments[no].orderNo && p.amount == payments[no].amount && p.status == Success
    requires !IsPaid(orders[p.orderNo].status)
    requires o.appId == orders[p.orderNo].appId && o.amount == orders[p.orderNo].amount
             && o.deleted == orders[p.orderNo].deleted
    requires o.winner == Some(no) && IsPaid(o.status)
    ensures Core(orders[p.orderNo := o], payments[no := p], refunds, exceptions, issued)
  {
    hide RefundsLinked, Filed, FiledIssued, Won, Reported, ClosedSafe;
    WinStanding(orders, payments, exceptions, no, p, o);
    LinksKept(orders, payments, refunds, exceptions, issued, no, p);
    OrderLinksKept(orders, payments[no := p], refunds, issued, p.orderNo, o);
  }

  lemma WinStanding(orders: Orders, payments: Payments, exceptions: Exceptions, no: string, p: Payment, o: Order)
    requires Won(orders, payments) && Reported(orders, payments, exceptions) && ClosedSafe(orders, payments)
             && no in payments
    requires p.orderNo == payments[no].orderNo && p.orderNo in orders && p.status == Success
    requires !IsPaid(orders[p.orderNo].status) && o.winner == Some(no) && IsPaid(o.status)
    ensures var later, paid := orders[p.orderNo := o], payments[no := p];
            Won(later, paid) && Reported(later, paid, exceptions) && ClosedSafe(later, paid)
  {
  }

  /** A later success: the payment changes once its exception is there. */
  lemma DuplicateWritten(orders: Orders, payments: Payments, refunds: Refunds, exceptions: Exceptions,
                         issued: set<string>, no: string, p: Payment)
    requires Core(orders, payments, refunds, exceptions, issued) && no in payments && DuplicateKey(no) in exceptions
    requires p.orderNo == payments[no].orderNo && p.amount == payments[no].amount && p.status == Success
    requires p.orderNo in orders && IsPaid(orders[p.orderNo].status)
    ensures Core(orders, payments[no := p], refunds, exceptions, issued)
  {
    hide PaymentsLinked, RefundsLinked, Filed, FiledIssued, Won, Reported, ClosedSafe;
    LinksKept(orders, payments, refunds, exceptions, issued, no, p);
    DuplicateStanding(orders, payments, exceptions, no, p);
  }

  lemma DuplicateStanding(orders: Orders, payments: Payments, exceptions: Exceptions, no: string, p: Payment)
    requires Won(orders, payments) && Reported(orders, payments, exceptions) && ClosedSafe(orders, payments)
    requires no in payments && DuplicateKey(no) in exceptions && p.orderNo == payments[no].orderNo
             && p.status == Success
    requires p.orderNo in orders && IsPaid(orders[p.orderNo].status)
    ensures Won(orders, payments[no := p])
    ensures Reported(orders, payments[no := p], exceptions)
    ensures ClosedSafe(orders, payments[no := p])
  {
  }

  /** What has been told stays right while paid orders stay paid. */
  lemma ToldOn(orders: Orders, later: Orders, events: Events, nextEventId: nat, deliveries: Deliveries)
    requires Told(orders, events, nextEventId, deliveries)
    requires forall o :: PaidOrder(orders, o) ==> PaidOrder(later, o)
    ensures Told(later, events, nextEventId, deliveries)
  {
  }

  lemma EventAdded(orders: Orders, events: Events, nextEventId: nat, deliveries: Deliveries, e: Event)
    requires Told(orders, events, nextEventId, deliveries)
    requires e.kind == OrderSucceededEvent ==>
      && e.record.OrderRecord? && PaidOrder(orders, e.record.orderNo)
      && forall f | f in events && events[f].kind == OrderSucceededEvent :: events[f].record != e.record
    ensures Told(orders, events[nextEventId := e], nextEventId + 1, deliveries)
  {
  }

  lemma DeliveryAdded(orders: Orders, events: Events, nextEventId: nat, deliveries: Deliveries, k: DeliveryKey,
                      appId: string)
    requires Told(orders, events, nextEventId, deliveries)
    requires k.event == PaymentSucceededDelivery ==>
      PaidOrder(orders, k.orderNo) && forall l | l in deliveries && l.event == PaymentSucceededDelivery ::
        l.orderNo != k.orderNo
    ensures Told(orders, events, nextEventId, deliveries[k := appId])
  {
  }

  // ---- The same for whole states -----------------------------------------------------------

  lemma Emitted(db: Db, e: Event)
    requires ToldInv(db) && e.kind != OrderSucceededEvent
    ensures ToldInv(Emit(db, e))
  {
    hide Told;
    EventAdded(db.orders, db.events, db.nextEventId, db.deliveries, e);
  }

  lemma Delivered(db: Db, orderNo: string, event: DeliveryEvent)
    requires ToldInv(db) && orderNo in db.orders && event != PaymentSucceededDelivery
    ensures ToldInv(Deliver(db, orderNo, event))
  {
    hide Told;
    var url := NotificationUrl(db, db.orders[orderNo]);
    if url.Some? {
      DeliveryAdded(db.orders, db.events, db.nextEventId, db.deliveries, DeliveryKey(orderNo, event, url.value),
                    db.orders[orderNo].appId);
    }
  }

  lemma ExceptionOpened(db: Db, key: ExceptionKey, orderNo: Option<string>, no: Option<string>)
    requires Inv(db)
    requires key.kind != LateDuplicate || !key.subject.PaymentRecord?
      || (key.subject.paymentNo in db.payments && no == Some(key.subject.paymentNo)
          && orderNo == Some(db.payments[key.subject.paymentNo].orderNo))
    ensures Inv(OpenException(db, key, orderNo, no))
  {
    hide Core, Told;
    ExceptionWritten(db.orders, db.payments, db.refunds, db.exceptions, db.issued, key,
                     OpenedException(Lookup(db.exceptions, key), orderNo, no));
    EventAdded(db.orders, db.events, db.nextEventId, db.deliveries,
               Event(ExceptionOpenedEvent, key.subject, orderNo, no));
  }

  // ---- Success -----------------------------------------------------------------------------

  lemma WinKeeps(db: Db, no: string, p: Payment, paidAt: int)
    requires Inv(db) && no in db.payments
    requires p.orderNo == db.payments[no].orderNo && p.amount == db.payments[no].amount && p.status == Success
    requires p.orderNo in db.orders && !IsPaid(db.orders[p.orderNo].status)
    ensures Inv(AfterWin(db.(payments := db.payments[no := p]), no, p.orderNo, paidAt))
  {
    hide Core, Told;
    var orderNo := p.orderNo;
    var o := db.orders[orderNo].(status := OrderSuccess, winner := Some(no), paidAt := Some(paidAt),
                                 nextAttemptAt := None, lockedUntil := None);
    WinWritten(db.orders, db.payments, db.refunds, db.exceptions, db.issued, no, p, o);
    var url := NotificationUrl(db.(payments := db.payments[no := p], orders := db.orders[orderNo := o]), o);
    WinTold(db, orderNo, o, no, url);
    NotifiedAlike(db, db.(payments := db.payments[no := p], orders := db.orders[orderNo := o]), o);
  }

  lemma NotifiedAlike(a: Db, b: Db, o: Order)
    requires a.apps == b.apps
    ensures NotificationUrl(a, o) == NotificationUrl(b, o)
  {
  }

  /** Before an order is paid nothing has been told about it; then it is told once. */
  lemma WinTold(db: Db, orderNo: string, o: Order, no: string, url: Option<string>)
    requires ToldInv(db) && orderNo in db.orders && !IsPaid(db.orders[orderNo].status) && IsPaid(o.status)
    ensures var orders := db.orders[orderNo := o];
            var events := db.events[db.nextEventId := Event(PaymentSucceededEvent, PaymentRecord(no), Some(orderNo),
                                                            Some(no))]
                                   [db.nextEventId
                                    + 1 := Event(OrderSucceededEvent, OrderRecord(orderNo), Some(orderNo), Some(no))];
            && Told(orders, events, db.nextEventId + 2, db.deliveries)
            && (url.Some? ==> Told(orders, events, db.nextEventId + 2,
                                   db.deliveries[DeliveryKey(orderNo, PaymentSucceededDelivery, url.value) := o.appId]))
  {
    hide Told;
    NothingTold(db, orderNo, o);
    var orders := db.orders[orderNo := o];
    var e1 := Event(PaymentSucceededEvent, PaymentRecord(no), Some(orderNo), Some(no));
    var e2 := Event(OrderSucceededEvent, OrderRecord(orderNo), Some(orderNo), Some(no));
    EventAdded(orders, db.events, db.nextEventId, db.deliveries, e1);
    var events := db.events[db.nextEventId := e1];
    EventAdded(orders, events, db.nextEventId + 1, db.deliveries, e2);
    if url.Some? {
      DeliveryAdded(orders, events[db.nextEventId + 1 := e2], db.nextEventId + 2, db.deliveries,
                    DeliveryKey(orderNo, PaymentSucceededDelivery, url.value), o.appId);
    }
  }

  lemma NothingTold(db: Db, orderNo: string, o: Order)
    requires ToldInv(db) && orderNo in db.orders && !IsPaid(db.orders[orderNo].status) && IsPaid(o.status)
    ensures Told(db.orders[orderNo := o], db.events, db.nextEventId, db.deliveries)
    ensures forall f | f in db.events && db.events[f].kind == OrderSucceededEvent ::
              db.events[f].record != OrderRecord(orderNo)
    ensures forall l | l in db.deliveries && l.event == PaymentSucceededDelivery :: l.orderNo != orderNo
  {
  }

  lemma DuplicateKeeps(db: Db, no: string, p: Payment)
    requires Inv(db) && no in db.payments
    requires p.orderNo == db.payments[no].orderNo && p.amount == db.payments[no].amount && p.status == Success
    requires p.orderNo in db.orders && IsPaid(db.orders[p.orderNo].status)
    ensures Inv(OpenException(Emit(db.(payments := db.payments[no := p]),
                                   Event(PaymentLateDuplicateEvent, PaymentRecord(no), Some(p.orderNo), Some(no))),
                              DuplicateKey(no), Some(p.orderNo), Some(no)))
  {
    hide Core, Told;
    // The exception touches no payment, so it may be filed first; then the success is already reported.
    var orderNo, key := p.orderNo, DuplicateKey(no);
    var e := Event(PaymentLateDuplicateEvent, PaymentRecord(no), Some(orderNo), Some(no));
    var x := OpenedException(Lookup(db.exceptions, key), Some(orderNo), Some(no));
    ExceptionWritten(db.orders, db.payments, db.refunds, db.exceptions, db.issued, key, x);
    DuplicateWritten(db.orders, db.payments, db.refunds, db.exceptions[key := x], db.issued, no, p);
    Emitted(db, e);
    EventAdded(db.orders, db.events[db.nextEventId := e], db.nextEventId + 1, db.deliveries,
               Event(ExceptionOpenedEvent, key.subject, Some(orderNo), Some(no)));
  }

  lemma SuccessKeeps(db: Db, r: Report)
    requires Inv(db)
    ensures Inv(AfterSuccess(db, r))
  {
    hide Inv, AfterWin, OpenException, Emit;
    if JudgeSuccess(db, r) == Accepted {
      var current := db.payments[r.paymentNo];
      var p := SucceededPayment(current, r);
      if IsPaid(db.orders[current.orderNo].status) {
        DuplicateKeeps(db, r.paymentNo, p);
      } else {
        WinKeeps(db, r.paymentNo, p, r.paidAt);
      }
    }
  }

  lemma ReportStepsKeep(db: Db, step: Step)
    requires Inv(db) && IsReport(step)
    ensures Inv(AfterReport(db, ReportOf(db, step)))
  {
    hide Inv, AfterSuccess, ReportOf;
    var r := ReportOf(db, step);
    if r.Some? { SuccessKeeps(db, r.value); }
  }

  // ---- Payments ----------------------------------------------------------------------------

  lemma PaymentRewritten(db: Db, no: string, p: Payment)
    requires Inv(db) && no in db.payments
    requires p.orderNo == db.payments[no].orderNo && p.amount == db.payments[no].amount
    requires p.status == Success <==> db.payments[no].status == Success
    requires IsActive(p.status) ==> IsActive(db.payments[no].status)
    ensures Inv(db.(payments := db.payments[no := p]))
  {
    hide Core, Told;
    PaymentWritten(db.orders, db.payments, db.refunds, db.exceptions, db.issued, no, p);
  }

  /** A row written short of success stays on its order and in its standing. */
  lemma StandingRow(db: Db, step: Step)
    requires IsPaymentStep(step)
    ensures PaymentStepRow(db, step).Some? ==>
              var p := PaymentStepRow(db, step).value;
              && step.no in db.payments && p.orderNo == db.payments[step.no].orderNo
              && p.amount == db.payments[step.no].amount
              && (p.status == Success <==> db.payments[step.no].status == Success)
              && (IsActive(p.status) ==> IsActive(db.payments[step.no].status))
  {
    hide TradeNoFree;
  }

  lemma PaymentStepKeeps(db: Db, step: Step)
    requires Inv(db) && IsPaymentStep(step)
    ensures Inv(AfterPaymentStep(db, step))
  {
    hide Inv, PaymentStepRow;
    StandingRow(db, step);
    var row := PaymentStepRow(db, step);
    if row.Some? { PaymentRewritten(db, step.no, row.value); }
  }

  lemma CreatePaymentKeeps(db: Db, req: PaymentRequest)
    requires Inv(db)
    ensures Inv(AfterCreatePayment(db, req))
  {
    hide NewPayment, Reserved;
    NewPaymentShape(db, req);
    var p := NewPayment(db, req);
    if p.Some? {
      var o := db.orders[req.orderNo].(status := OrderPending);
      PaymentAdded(db.orders, db.payments, db.refunds, db.exceptions, db.issued, req.paymentNo, p.value);
      OrderWritten(db.orders, db.payments[req.paymentNo := p.value], db.refunds, db.exceptions,
                   db.issued + {req.paymentNo}, req.orderNo, o);
      ToldOn(db.orders, db.orders[req.orderNo := o], db.events, db.nextEventId, db.deliveries);
    }
  }

  // ---- Orders ------------------------------------------------------------------------------

  lemma OrderRewritten(db: Db, no: string, o: Order)
    requires Inv(db) && no in db.orders
    requires o.appId == db.orders[no].appId && o.amount == db.orders[no].amount && o.deleted == db.orders[no].deleted
    requires o.winner == db.orders[no].winner && (IsPaid(o.status) <==> IsPaid(db.orders[no].status))
    requires o.status == OrderClosed && db.orders[no].status != OrderClosed ==>
               !HasSuccess(db.payments, no) && !HasActive(db.payments, no)
    ensures Inv(db.(orders := db.orders[no := o]))
  {
    hide Core, Told;
    OrderWritten(db.orders, db.payments, db.refunds, db.exceptions, db.issued, no, o);
    ToldOn(db.orders, db.orders[no := o], db.events, db.nextEventId, db.deliveries);
  }

  lemma CreateOrderKeeps(db: Db, no: string, o: Order)
    requires Inv(db) && no !in db.orders && o.amount > 0 && o.status == OrderCreated && o.winner == None
    ensures Inv(db.(orders := db.orders[no := o]))
  {
    hide Core, Told;
    OrderAdded(db.orders, db.payments, db.refunds, db.exceptions, db.issued, no, o);
    ToldOn(db.orders, db.orders[no := o], db.events, db.nextEventId, db.deliveries);
  }

  lemma OrderAdded(orders: Orders, payments: Payments, refunds: Refunds, exceptions: Exceptions, issued: set<string>,
                   no: string, o: Order)
    requires Core(orders, payments, refunds, exceptions, issued) && no !in orders
    requires o.amount > 0 && o.status == OrderCreated && o.winner == None
    ensures Core(orders[no := o], payments, refunds, exceptions, issued)
  {
  }

  lemma CoreEmit(db: Db, e: Event)
    ensures CoreInv(Emit(db, e)) == CoreInv(db)
  {
    hide Core;
  }

  /** An order row written without success keeps amount, winner and standing, and is closed only when that is safe. */
  lemma StandingOrder(db: Db, step: Step)
    requires IsOrderStep(step) && !step.CreateOrder?
    ensures OrderStepRow(db, step).Some? ==>
              var no, o := OrderStepKey(db, step), OrderStepRow(db, step).value;
              && no in db.orders && o.appId == db.orders[no].appId && o.amount == db.orders[no].amount
              && o.deleted == db.orders[no].deleted
              && o.winner == db.orders[no].winner && (IsPaid(o.status) <==> IsPaid(db.orders[no].status))
              && (o.status == OrderClosed && db.orders[no].status != OrderClosed ==>
                  !HasSuccess(db.payments, no) && !HasActive(db.payments, no))
  {
    hide HasSuccess, HasActive;
  }

  lemma OrderStepKeeps(db: Db, step: Step)
    requires Inv(db) && IsOrderStep(step)
    ensures Inv(AfterOrderStep(db, step))
  {
    hide Inv;
    if step.CreateOrder? {
      var o := OrderStepRow(db, step);
      if o.Some? { CreateOrderKeeps(db, step.orderNo, o.value); }
    } else {
      RewritingKeeps(db, step);
      var t := db.(orders := Put(db.orders, OrderStepKey(db, step), OrderStepRow(db, step)));
      if step.CloseOrder? {
        TellKeeps(t, Event(OrderExpiredEvent, OrderRecord(step.orderNo), Some(step.orderNo), None));
      }
    }
  }

  lemma RewritingKeeps(db: Db, step: Step)
    requires Inv(db) && IsOrderStep(step) && !step.CreateOrder?
    ensures Inv(db.(orders := Put(db.orders, OrderStepKey(db, step), OrderStepRow(db, step))))
  {
    hide Inv, OrderStepRow, OrderStepKey;
    StandingOrder(db, step);
    var no, o := OrderStepKey(db, step), OrderStepRow(db, step);
    if o.Some? { OrderRewritten(db, no, o.value); }
  }

  // ---- Receipts ----------------------------------------------------------------------------

  lemma NoteKeeps(db: Db, id: ReceiptId, orderNo: Option<string>, no: Option<string>, ambiguous: bool, conflict: bool)
    requires Inv(db)
    ensures Inv(NoteMismatch(db, id, orderNo, no, ambiguous, conflict))
  {
    hide Inv, OpenException;
    ExceptionOpened(db, ExceptionKey(PaymentStateConflict, ReceiptRecord(id)), orderNo, no);
    ExceptionOpened(db, ExceptionKey(ReceiptAmbiguous, ReceiptRecord(id)), orderNo, no);
  }

  lemma ReceiptsKeep(db: Db, receipts: map<ReceiptId, Receipt>)
    requires Inv(db)
    ensures Inv(db.(receipts := receipts))
  {
    hide Core, Told;
  }

  lemma MismatchKeeps(db: Db, id: ReceiptId, no: Option<string>, ambiguous: bool, conflict: bool)
    requires Inv(db)
    ensures Inv(AfterMismatch(db, id, no, ambiguous, conflict))
  {
    hide Inv, NoteMismatch, MismatchedReceipt, OrderOf;
    var orderNo := if no.Some? then Some(OrderOf(db, no.value)) else None;
    var marked := db.(receipts := Put(db.receipts, id, MismatchedReceipt(db, id, no)));
    ReceiptsKeep(db, marked.receipts);
    NoteKeeps(marked, id, orderNo, no, ambiguous, conflict);
    TellKeeps(NoteMismatch(marked, id, orderNo, no, ambiguous, conflict),
              Event(ReceiptMismatchEvent, ReceiptRecord(id), orderNo, no));
  }

  lemma ExceptionsMoved(orders: Orders, payments: Payments, refunds: Refunds, exceptions: Exceptions, moved: Exceptions,
                        issued: set<string>)
    requires Core(orders, payments, refunds, exceptions, issued) && moved.Keys == exceptions.Keys
    requires forall k | k in moved ::
               moved[k].paymentNo == exceptions[k].paymentNo && moved[k].orderNo == exceptions[k].orderNo
    ensures Core(orders, payments, refunds, moved, issued)
  {
    assert forall no | DuplicateKey(no) in moved :: DuplicateKey(no) in exceptions.Keys;
  }

  /** Filing never renames the order or the payment of an exception. */
  lemma FiledExceptions(db: Db, step: Step)
    ensures var moved := ExceptionsFiled(db, step);
            && moved.Keys == db.exceptions.Keys
            && forall k | k in moved ::
                 moved[k].paymentNo == db.exceptions[k].paymentNo && moved[k].orderNo == db.exceptions[k].orderNo
  {
    hide ReceiptRow;
  }

  lemma FilingKeeps(db: Db, step: Step)
    requires Inv(db) && IsFiling(step)
    ensures Inv(AfterFiling(db, step))
  {
    hide Inv, ReceiptRow, ReceiptKey, ExceptionsFiled, AppsFiled;
    FiledExceptions(db, step);
    ExceptionsKeep(db, ExceptionsFiled(db, step));
    var t := db.(exceptions := ExceptionsFiled(db, step));
    var u := t.(apps := AppsFiled(db, step), receipts := Put(db.receipts, ReceiptKey(step), ReceiptRow(db, step)));
    PapersKeep(t, u.apps, u.receipts);
    if step.MatchReceipt? {
      TellKeeps(u, Event(ReceiptMatchedEvent, ReceiptRecord(step.id), Some(OrderOf(db, step.no)), Some(step.no)));
    }
  }

  lemma ExceptionsKeep(db: Db, moved: Exceptions)
    requires Inv(db) && moved.Keys == db.exceptions.Keys
    requires forall k | k in moved ::
               moved[k].paymentNo == db.exceptions[k].paymentNo && moved[k].orderNo == db.exceptions[k].orderNo
    ensures Inv(db.(exceptions := moved))
  {
    hide Core, Told;
    ExceptionsMoved(db.orders, db.payments, db.refunds, db.exceptions, moved, db.issued);
  }

  lemma PapersKeep(db: Db, apps: map<string, App>, receipts: map<ReceiptId, Receipt>)
    requires Inv(db)
    ensures Inv(db.(apps := apps, receipts := receipts))
  {
    hide Core, Told;
  }

  // ---- Refunds and recovery ----------------------------------------------------------------

  lemma RefundRewritten(db: Db, no: string, r: Refund)
    requires Inv(db) && no in db.refunds
    requires r.appId == db.refunds[no].appId && r.amount == db.refunds[no].amount
             && r.paymentNo == db.refunds[no].paymentNo
    ensures Inv(db.(refunds := db.refunds[no := r]))
  {
    hide Core, Told;
    RefundWritten(db.orders, db.payments, db.refunds, db.exceptions, db.issued, no, r);
  }

  lemma RefundAdded(orders: Orders, payments: Payments, refunds: Refunds, exceptions: Exceptions, issued: set<string>,
                    no: string, r: Refund)
    requires Core(orders, payments, refunds, exceptions, issued)
    requires r.amount > 0 && r.paymentNo in payments && payments[r.paymentNo].status == Success
    requires payments[r.paymentNo].orderNo in orders && r.appId == orders[payments[r.paymentNo].orderNo].appId
    ensures Core(orders, payments, refunds[no := r], exceptions, issued + {no})
  {
  }

  lemma NewRefundLinked(db: Db, req: RefundRequest)
    ensures NewRefund(db, req).Some? ==>
              var r := NewRefund(db, req).value;
              && r.amount > 0 && r.paymentNo in db.payments && db.payments[r.paymentNo].status == Success
              && db.payments[r.paymentNo].orderNo in db.orders
              && r.appId == db.orders[db.payments[r.paymentNo].orderNo].appId
  {
    hide Total, ExternalUsed;
  }

  lemma CreateRefundKeeps(db: Db, req: RefundRequest)
    requires Inv(db)
    ensures Inv(AfterCreateRefund(db, req))
  {
    hide Core, Told, NewRefund;
    NewRefundLinked(db, req);
    var r := NewRefund(db, req);
    if r.Some? { RefundAdded(db.orders, db.payments, db.refunds, db.exceptions, db.issued, req.refundNo, r.value); }
  }

  lemma RefundObservedKeeps(db: Db, no: string, seen: Seen, status: RefundStatus, random: real)
    requires Inv(db)
    ensures Inv(AfterRefundObserved(db, no, seen, status, random))
  {
    hide Inv;
    var r := ObservedRefund(db, no, seen, status, random);
    if r.Some? { RefundRewritten(db, no, r.value); }
  }

  lemma ResolvedKeeps(db: Db, total: nat, no: string)
    requires Inv(db)
    ensures Inv(ResolveDuplicate(db, total, no))
    ensures ResolveDuplicate(db, total, no).orders == db.orders
  {
    hide Core, Told;
    var key := DuplicateKey(no);
    if key in db.exceptions {
      ExceptionsMoved(db.orders, db.payments, db.refunds, db.exceptions,
                      db.exceptions[key := db.exceptions[key].(status := ExceptionResolved)], db.issued);
    }
  }

  lemma TellKeeps(db: Db, e: Event)
    requires Inv(db) && e.kind != OrderSucceededEvent
    ensures Inv(Emit(db, e)) && Emit(db, e).orders == db.orders
  {
    hide CoreInv, ToldInv;
    Emitted(db, e);
    CoreEmit(db, e);
  }

  lemma DeliverKeeps(db: Db, orderNo: string, event: DeliveryEvent)
    requires Inv(db) && orderNo in db.orders && event != PaymentSucceededDelivery
    ensures Inv(Deliver(db, orderNo, event))
  {
    hide Core, Told;
    Delivered(db, orderNo, event);
  }

  lemma AnnounceKeeps(db: Db, no: string, paymentNo: string, orderNo: string, total: nat, wins: bool)
    requires Inv(db)
    ensures Inv(AnnounceRefund(db, no, paymentNo, orderNo, total, wins))
  {
    hide Inv, ResolveDuplicate, Deliver;
    TellKeeps(db, Event(RefundSucceededEvent, RefundRecord(no), Some(orderNo), Some(paymentNo)));
    var told := Emit(db, Event(RefundSucceededEvent, RefundRecord(no), Some(orderNo), Some(paymentNo)));
    ResolvedKeeps(told, total, paymentNo);
    if orderNo in ResolveDuplicate(told, total, paymentNo).orders {
      DeliverKeeps(ResolveDuplicate(told, total, paymentNo), orderNo, RefundSucceededDelivery(no));
    }
  }

  lemma RefundSucceededKeeps(db: Db, no: string)
    requires Inv(db)
    ensures Inv(AfterRefundSucceeded(db, no))
  {
    hide Inv, AnnounceRefund, PaidOut, TotalPaidBack, StatusPaidBack, RefundsWinner, RefundedOrderNo;
    if RefundOpen(db, no) {
      PaidOutKeeps(db, no);
      AnnounceKeeps(PaidOut(db, no), no, db.refunds[no].paymentNo, RefundedOrderNo(db, no), TotalPaidBack(db, no),
                    RefundsWinner(db, no));
    }
  }

  lemma PaidOutKeeps(db: Db, no: string)
    requires Inv(db) && RefundOpen(db, no)
    ensures Inv(PaidOut(db, no))
  {
    var r := db.refunds[no];
    RefundRewritten(db, no, SucceededRefund(r));
    var paid := db.(refunds := db.refunds[no := SucceededRefund(r)]);
    if RefundsWinner(db, no) && StatusPaidBack(db, no).Ok? {
      WinnersPaid(db);
      OrderRestated(paid, RefundedOrderNo(db, no), StatusPaidBack(db, no).value);
    }
  }

  lemma RefundPositive(db: Db, no: string)
    requires Inv(db) && no in db.refunds
    ensures db.refunds[no].amount > 0
  {
  }

  lemma OrderRestated(db: Db, orderNo: string, status: OrderStatus)
    requires Inv(db) && orderNo in db.orders && IsPaid(status) && IsPaid(db.orders[orderNo].status)
    ensures Inv(db.(orders := db.orders[orderNo := db.orders[orderNo].(status := status)]))
  {
    hide Inv;
    OrderRewritten(db, orderNo, db.orders[orderNo].(status := status));
  }

  ghost predicate WonOrders(db: Db) {
    forall o | o in db.orders && db.orders[o].winner.Some? :: IsPaid(db.orders[o].status)
  }

  lemma WinnersPaid(db: Db)
    requires Inv(db)
    ensures WonOrders(db)
  {
  }

  lemma ScheduledRowsKeep(db: Db, record: Record, w: Schedule)
    requires Inv(db)
    ensures Inv(db.(payments := ScheduledPayments(db.payments, record, w),
                    refunds := ScheduledRefunds(db.refunds, record, w)))
  {
    hide Inv;
    if w.Some? && record.PaymentRecord? && record.paymentNo in db.payments {
      PaymentRewritten(db, record.paymentNo,
                       db.payments[record.paymentNo].(attempts := w.value.0, nextQueryAt := w.value.1));
    } else if w.Some? && record.RefundRecord? && record.refundNo in db.refunds {
      RefundRewritten(db, record.refundNo,
                      db.refunds[record.refundNo].(attempts := w.value.0, nextQueryAt := w.value.1));
    }
  }

  lemma ScheduledKeeps(db: Db, record: Record, w: Schedule, tickets: set<Ticket>)
    requires Inv(db)
    ensures Inv(Scheduled(db, record, w, tickets))
  {
    hide Inv, HandedOver, RecordOrder, RecordPayment, ScheduledPayments, ScheduledRefunds;
    ScheduledRowsKeep(db, record, w);
    var t := db.(payments := ScheduledPayments(db.payments, record, w),
                 refunds := ScheduledRefunds(db.refunds, record, w));
    TicketsKeep(t, tickets);
    TellKeeps(t.(tickets := tickets),
              Event(RecoveryExhaustedEvent, record, RecordOrder(db, record), RecordPayment(db, record)));
  }

  lemma TicketsKeep(db: Db, tickets: set<Ticket>)
    requires Inv(db)
    ensures Inv(db.(tickets := tickets))
  {
    hide Core, Told;
  }

  // ---- Applications ------------------------------------------------------------------------

  lemma ArchiveKeepsCore(db: Db, appId: string)
    requires CoreInv(db)
    ensures CoreInv(AfterArchive(db, appId))
  {
    hide PaymentsLinked, RefundsLinked, Won, Reported, Filed, FiledIssued, ClosedSafe, AfterArchive;
    ArchiveKeepsLinks(db, appId);
    ArchiveKeepsWinners(db, appId);
    ArchiveKeepsFiles(db, appId);
    ArchiveKeepsReports(db, appId);
  }

  lemma ArchiveKeepsLinks(db: Db, appId: string)
    requires PaymentsLinked(db.orders, db.payments, db.issued)
             && RefundsLinked(db.orders, db.payments, db.refunds, db.issued)
    ensures var t := AfterArchive(db, appId);
            PaymentsLinked(t.orders, t.payments, t.issued) && RefundsLinked(t.orders, t.payments, t.refunds, t.issued)
  {
    hide ClearedEvents, ClearedReceipts, ClearedExceptions, ClearedDeliveries, WithoutReservations;
  }

  lemma ArchiveKeepsWinners(db: Db, appId: string)
    requires Won(db.orders, db.payments) && ClosedSafe(db.orders, db.payments)
    ensures var t := AfterArchive(db, appId); Won(t.orders, t.payments) && ClosedSafe(t.orders, t.payments)
  {
    hide ClearedEvents, ClearedReceipts, ClearedExceptions, ClearedDeliveries, WithoutReservations;
  }

  lemma ArchiveKeepsFiles(db: Db, appId: string)
    requires Filed(db.payments, db.exceptions) && FiledIssued(db.exceptions, db.issued)
    ensures var t := AfterArchive(db, appId); Filed(t.payments, t.exceptions) && FiledIssued(t.exceptions, t.issued)
  {
    hide ClearedEvents, ClearedReceipts, ClearedExceptions, ClearedDeliveries, WithoutReservations;
  }

  lemma ArchiveKeepsReports(db: Db, appId: string)
    requires PaymentsLinked(db.orders, db.payments, db.issued) && Filed(db.payments, db.exceptions)
    requires Reported(db.orders, db.payments, db.exceptions)
    ensures var t := AfterArchive(db, appId); Reported(t.orders, t.payments, t.exceptions)
  {
    var t := AfterArchive(db, appId);
    forall no | no in t.payments && t.payments[no].status == Success
      ensures t.payments[no].orderNo in t.orders
      ensures t.orders[t.payments[no].orderNo].winner == Some(no) || t.orders[t.payments[no].orderNo].deleted
              || DuplicateKey(no) in t.exceptions
    {
      var o := db.payments[no].orderNo;
      if DuplicateKey(no) in db.exceptions && DuplicateKey(no) !in t.exceptions {
        assert db.exceptions[DuplicateKey(no)].paymentNo == Some(no)
               && db.exceptions[DuplicateKey(no)].orderNo == Some(o);
      }
    }
  }

  lemma ArchiveKeepsTold(db: Db, appId: string)
    requires ToldInv(db)
    ensures ToldInv(AfterArchive(db, appId))
  {
    var t := AfterArchive(db, appId);
    assert forall o :: PaidOrder(db.orders, o) ==> PaidOrder(t.orders, o);
  }

  lemma DeleteApplicationKeeps(db: Db, appId: string)
    requires Inv(db)
    ensures Inv(AfterDeleteApplication(db, appId))
  {
    hide Core, Told, AfterArchive, Archives;
    ArchiveKeepsCore(db, appId);
    ArchiveKeepsTold(db, appId);
  }

  lemma ClockKeeps(db: Db, seconds: nat)
    requires Inv(db)
    ensures Inv(db.(now := db.now + seconds))
  {
    hide Core, Told;
  }

  // ---- Every step, every run ---------------------------------------------------------------

  lemma StepKeeps(db: Db, step: Step)
    requires Inv(db)
    ensures Inv(Apply(db, step))
  {
    hide Inv, ReportOf, AfterCreatePayment, AfterDeleteApplication, AfterReport, AfterPaymentStep, AfterOrderStep,
         AfterCreateRefund, AfterRefundObserved, AfterRefundSucceeded, Scheduled, ScheduleOf, TicketsAfter,
         AfterFiling, AfterMismatch;
    if step.Tick? { ClockKeeps(db, step.seconds); }
    else if step.CreatePayment? { CreatePaymentKeeps(db, step.request); }
    else if step.DeleteApplication? { DeleteApplicationKeeps(db, step.appId); }
    else if step.CreateRefund? { CreateRefundKeeps(db, step.refund); }
    else if step.RefundObserved? { RefundObservedKeeps(db, step.refundNo, step.seen, step.refundStatus, step.random); }
    else if step.RefundSucceeded? { RefundSucceededKeeps(db, step.refundNo); }
    else if step.Mismatch? { MismatchKeeps(db, step.id, step.found, step.ambiguous, step.conflict); }
    else if IsReport(step) { ReportStepsKeep(db, step); }
    else if IsPaymentStep(step) { PaymentStepKeeps(db, step); }
    else if IsOrderStep(step) { OrderStepKeeps(db, step); }
    else if IsRecovery(step) { ScheduledKeeps(db, step.record, ScheduleOf(db, step), TicketsAfter(db, step)); }
    else { FilingKeeps(db, step); }
  }

  lemma {:induction false} ReplayKeeps(db: Db, steps: seq<Step>)
    requires Inv(db)
    ensures Inv(Replay(db, steps))
  {
    hide Inv, Apply;
    if steps != [] {
      ReplayKeeps(db, steps[..|steps| - 1]);
      StepKeeps(Replay(db, steps[..|steps| - 1]), steps[|steps| - 1]);
    }
  }

  lemma EmptyInv(now: int)
    ensures Inv(EmptyDb(now))
  {
  }

  // ---- What it means for a reader ----------------------------------------------------------

  /** The invariant holds after every run of the payment core. */
  lemma AlwaysInv(now: int, steps: seq<Step>)
    ensures Inv(Replay(EmptyDb(now), steps))
  {
    hide Inv, Replay;
    EmptyInv(now);
    ReplayKeeps(EmptyDb(now), steps);
  }

  lemma ReachableInv(db: Db)
    requires Reachable(db)
    ensures Inv(db)
  {
    hide Inv, Replay, Reachable;
    var now, steps := ReachedByReplay(db);
    AlwaysInv(now, steps);
  }

  /** One winner: an order is paid exactly while it has a winner, and any other success is reported. */
  lemma OneWinnerAlways(db: Db)
    requires Reachable(db)
    ensures Won(db.orders, db.payments)
    ensures Reported(db.orders, db.payments, db.exceptions)
  {
    hide Reachable, Won, Reported, Told;
    ReachableInv(db);
  }

  /** Success is told once, whatever was retried or interleaved. */
  lemma ToldOnceAlways(db: Db)
    requires Reachable(db)
    ensures EventsOnce(db.orders, db.events) && DeliveriesOnce(db.orders, db.deliveries)
  {
    hide Reachable, Core, EventsOnce, DeliveriesOnce;
    ReachableInv(db);
  }

  /** A closed order holds no active and no successful payment, and closing never finds a success to conflict with. */
  lemma ClosingIsSafe(db: Db, orderNo: string)
    requires Reachable(db)
    ensures ClosedSafe(db.orders, db.payments)
    ensures orderNo in db.orders ==> JudgeClose(db, orderNo) != SuccessConflict
  {
    hide Reachable, Told;
    ReachableInv(db);
  }

  lemma SuccessIsReported(db: Db, step: Step)
    requires PaymentRow(db, step).Some? && PaymentRow(db, step).value.status == Success
    ensures || (PaymentKey(step) in db.payments && db.payments[PaymentKey(step)].status == Success)
            || (IsReport(step) && ReportOf(db, step).Some? && JudgeSuccess(db, ReportOf(db, step).value) == Accepted
                && ReportOf(db, step).value.paymentNo == step.no == PaymentKey(step))
  {
    hide ReportOf, JudgeSuccess, ScheduleOf, RecoveryPolicy.RecoveryDelaySeconds, PrepareReceipt, SucceededPayment;
    if IsReport(step) { ReportNamesPayment(db, step); }
  }

  lemma ReportWins(db: Db, step: Step)
    requires IsReport(step) && ReportOf(db, step).Some? && ReportOf(db, step).value.paymentNo == step.no
    requires JudgeSuccess(db, ReportOf(db, step).value) == Accepted
    requires !IsPaid(db.orders[OrderOf(db, step.no)].status)
    ensures OrderKey(db, step) == OrderOf(db, step.no) && OrderRow(db, step).Some?
    ensures OrderRow(db, step).value.status == OrderSuccess && OrderRow(db, step).value.winner == Some(step.no)
  {
    hide ReportOf, JudgeSuccess;
  }

  /** Whatever makes a payment of a closed order successful reopens the order and pays it, in the same step. */
  lemma LateSuccessMovesBoth(db: Db, step: Step, no: string)
    requires Inv(db) && no in db.payments && db.payments[no].status != Success
    requires db.payments[no].orderNo in db.orders && db.orders[db.payments[no].orderNo].status == OrderClosed
    requires no in Apply(db, step).payments && Apply(db, step).payments[no].status == Success
    ensures var orderNo, t := db.payments[no].orderNo, Apply(db, step);
            && orderNo in t.orders && t.orders[orderNo].status == OrderSuccess && t.orders[orderNo].winner == Some(no)
  {
    hide Inv, Apply, Frames, PaymentRow, PaymentKey, OrderRow, OrderKey, RefundRow, RefundKey, ReportOf, JudgeSuccess,
         AfterDeleteApplication, Archives, ClearedEvents, ClearedReceipts, ClearedExceptions, ClearedDeliveries,
         WithoutReservations, ClearedRefunds, ClearedPayments, ArchivedOrders;
    if step.DeleteApplication? {
      DeletionTaken(db, step.appId);
      DeletionWrites(db, step.appId);
    } else {
      StepWrites(db, step);
      SuccessIsReported(db, step);
      ReportWins(db, step);
    }
  }
}
