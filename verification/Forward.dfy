/** What later steps can no longer change. */
module Forward {
  import opened Wrappers
  import opened StateMachine
  import opened Rows
  import opened PaymentSteps
  import opened RefundSteps
  import opened Steps
  import opened Shapes
  import opened RecoveryPolicy
  import opened OneWinner

  // ---- From one row to a later version of it -----------------------------------------------

  /** A payment keeps its identity, never loses attempts, and a success stays as it was reported. */
  predicate PaymentLater(p: Payment, q: Payment) {
    && q.orderNo == p.orderNo && q.key == p.key && q.channel == p.channel && q.accountId == p.accountId
    && q.amount == p.amount && q.channelAmount == p.channelAmount && q.terms == p.terms
    && q.attempts >= p.attempts
    && (p.status == Success ==>
        q.status == Success && q.flow == p.flow && q.received == p.received && q.paidAt == p.paidAt)
    && (p.status == Success && p.channel == AlipayBill ==> q.tradeNo == p.tradeNo)
  }

  /** An order keeps its amount and its winner; once it left the open states it does not return. */
  predicate OrderLater(o: Order, q: Order) {
    && q.appId == o.appId && q.identity == o.identity && q.protocol == o.protocol && q.amount == o.amount
    && q.expiresAt == o.expiresAt
    && (o.winner.Some? ==> q.winner == o.winner)
    && (IsPaid(o.status) ==> IsPaid(q.status))
    && (!IsOpen(o.status) ==> !IsOpen(q.status))
    && (o.deleted ==> q.deleted)
    && q.expirationAttempts >= o.expirationAttempts
  }

  predicate RefundLater(r: Refund, q: Refund) {
    && q.appId == r.appId && q.external == r.external && q.paymentNo == r.paymentNo && q.amount == r.amount
    && q.reason == r.reason
    && q.attempts >= r.attempts
  }

  // ---- From one table to a later version of it ---------------------------------------------

  /** Rows may go, but not successful ones, and a number that was issued is not used again. */
  ghost predicate PaymentsLater(a: Payments, b: Payments, issued: set<string>) {
    && (forall no | no in a && no in b :: PaymentLater(a[no], b[no]))
    && (forall no | no in a && a[no].status == Success :: no in b)
    && (forall no | no in b && no in issued :: no in a)
  }

  ghost predicate OrdersLater(a: Orders, b: Orders) {
    forall o | o in a :: o in b && OrderLater(a[o], b[o])
  }

  ghost predicate RefundsLater(a: Refunds, b: Refunds, issued: set<string>) {
    && (forall no | no in a && no in b :: RefundLater(a[no], b[no]))
    && (forall no | no in b && no in issued :: no in a)
  }

  ghost predicate Later(a: Db, b: Db) {
    && a.now <= b.now && a.issued <= b.issued
    && PaymentsLater(a.payments, b.payments, a.issued)
    && OrdersLater(a.orders, b.orders)
    && RefundsLater(a.refunds, b.refunds, a.issued)
  }

  lemma LaterReflexive(a: Db)
    ensures Later(a, a)
  {
  }

  ghost predicate Numbered(db: Db) {
    (forall no | no in db.payments :: no in db.issued) && (forall no | no in db.refunds :: no in db.issued)
  }

  lemma LaterTransitive(a: Db, b: Db, c: Db)
    requires Numbered(a) && Later(a, b) && Later(b, c)
    ensures Later(a, c)
  {
    hide PaymentsLater, OrdersLater, RefundsLater;
    PaymentsTransitive(a.payments, b.payments, c.payments, a.issued, b.issued);
    RefundsTransitive(a.refunds, b.refunds, c.refunds, a.issued, b.issued);
    OrdersTransitive(a.orders, b.orders, c.orders);
  }

  lemma PaymentsTransitive(a: Payments, b: Payments, c: Payments, i: set<string>, j: set<string>)
    requires PaymentsLater(a, b, i) && PaymentsLater(b, c, j) && i <= j
    requires forall no | no in a :: no in i
    ensures PaymentsLater(a, c, i)
  {
    forall no | no in a && no in c ensures PaymentLater(a[no], c[no]) {
      assert no in b;
      assert PaymentLater(a[no], b[no]) && PaymentLater(b[no], c[no]);
    }
  }

  lemma RefundsTransitive(a: Refunds, b: Refunds, c: Refunds, i: set<string>, j: set<string>)
    requires RefundsLater(a, b, i) && RefundsLater(b, c, j) && i <= j
    requires forall no | no in a :: no in i
    ensures RefundsLater(a, c, i)
  {
    forall no | no in a && no in c ensures RefundLater(a[no], c[no]) {
      assert no in b;
      assert RefundLater(a[no], b[no]) && RefundLater(b[no], c[no]);
    }
  }

  lemma OrdersTransitive(a: Orders, b: Orders, c: Orders)
    requires OrdersLater(a, b) && OrdersLater(b, c)
    ensures OrdersLater(a, c)
  {
    forall o | o in a ensures o in c && OrderLater(a[o], c[o]) {
      assert OrderLater(a[o], b[o]) && OrderLater(b[o], c[o]);
    }
  }

  // ---- Every step moves forward ------------------------------------------------------------

  lemma PaymentsPut(payments: Payments, issued: set<string>, no: string, row: Option<Payment>)
    requires row.Some? ==> if no in payments then PaymentLater(payments[no], row.value) else no !in issued
    ensures PaymentsLater(payments, Put(payments, no, row), issued)
  {
  }

  lemma OrdersPut(orders: Orders, no: string, row: Option<Order>)
    requires row.Some? && no in orders ==> OrderLater(orders[no], row.value)
    ensures OrdersLater(orders, Put(orders, no, row))
  {
  }

  lemma RefundsPut(refunds: Refunds, issued: set<string>, no: string, row: Option<Refund>)
    requires row.Some? ==> if no in refunds then RefundLater(refunds[no], row.value) else no !in issued
    ensures RefundsLater(refunds, Put(refunds, no, row), issued)
  {
  }

  lemma InvNumbered(db: Db)
    requires Inv(db)
    ensures Numbered(db)
  {
  }

  lemma InvWinners(db: Db, no: string)
    requires Inv(db)
    ensures no in db.orders ==> (IsPaid(db.orders[no].status) <==> db.orders[no].winner.Some?)
  {
  }

  lemma ReportLater(db: Db, r: Report)
    ensures SucceededRow(db, r).Some? ==>
              r.paymentNo in db.payments && PaymentLater(db.payments[r.paymentNo], SucceededRow(db, r).value)
    ensures WonRow(db, r).Some? && OrderOf(db, r.paymentNo) in db.orders
            && db.orders[OrderOf(db, r.paymentNo)].winner.None?
            ==> OrderLater(db.orders[OrderOf(db, r.paymentNo)], WonRow(db, r).value)
  {
    hide TradeNoFree;
  }

  lemma PaymentStepLater(db: Db, step: Step)
    requires IsPaymentStep(step)
    ensures PaymentStepRow(db, step).Some? ==>
              step.no in db.payments && PaymentLater(db.payments[step.no], PaymentStepRow(db, step).value)
  {
    hide TradeNoFree;
  }

  /** Recovery never takes attempts back. */
  lemma ScheduleGrows(db: Db, step: Step)
    requires IsRecovery(step)
    ensures ScheduleOf(db, step).Some? ==> ScheduleOf(db, step).value.0 >= Attempts(db, step.record)
  {
    hide Recoverable, OverAlipay, NextQueryAt, Attempts;
  }

  lemma PaymentRowLater(db: Db, step: Step)
    requires Numbered(db)
    ensures var no, row := PaymentKey(step), PaymentRow(db, step);
            row.Some? ==> if no in db.payments then PaymentLater(db.payments[no], row.value) else no !in db.issued
  {
    hide ScheduleOf, NewPayment, PendingOrder, SucceededRow, WonRow, ReportOf, PaymentStepRow;
    if step.CreatePayment? { NewPaymentShape(db, step.request); }
    else if IsReport(step) {
      ReportNamesPayment(db, step);
      if ReportOf(db, step).Some? { ReportLater(db, ReportOf(db, step).value); }
    }
    else if IsPaymentStep(step) { PaymentStepLater(db, step); }
    else if IsRecovery(step) { ScheduleGrows(db, step); }
  }

  lemma OrderStepLater(db: Db, step: Step)
    requires IsOrderStep(step)
    ensures OrderStepRow(db, step).Some? && OrderStepKey(db, step) in db.orders
            ==> OrderLater(db.orders[OrderStepKey(db, step)], OrderStepRow(db, step).value)
  {
    hide HasSuccess, HasActive;
  }

  lemma PaidBackLater(db: Db, no: string)
    requires RefundOpen(db, no) && db.orders[RefundedOrderNo(db, no)].winner.Some? ==>
               IsPaid(db.orders[RefundedOrderNo(db, no)].status)
    ensures PaidBackOrder(db, no).Some?
            ==> RefundOpen(db, no) && OrderLater(db.orders[RefundedOrderNo(db, no)], PaidBackOrder(db, no).value)
  {
    hide TotalPaidBack;
  }

  lemma PendingLater(db: Db, req: PaymentRequest)
    ensures NewPayment(db, req).Some? ==> req.orderNo in db.orders && IsOpen(db.orders[req.orderNo].status)
  {
    hide NewPayment;
    NewPaymentShape(db, req);
  }

  lemma PendingOrderLater(db: Db, req: PaymentRequest)
    ensures NewPayment(db, req).Some? && PendingOrder(db, req.orderNo).Some? ==>
              req.orderNo in db.orders && OrderLater(db.orders[req.orderNo], PendingOrder(db, req.orderNo).value)
  {
    hide NewPayment;
    PendingLater(db, req);
  }

  lemma OrderRowLater(db: Db, step: Step)
    requires Inv(db)
    ensures var no, row := OrderKey(db, step), OrderRow(db, step);
            row.Some? && no in db.orders ==> OrderLater(db.orders[no], row.value)
  {
    hide Inv, NewPayment, PendingOrder, ReportOf, WonRow, OrderStepRow, OrderStepKey, PaidBackOrder, PaysBack,
         RefundsWinner, OrderLater;
    InvWinners(db, OrderKey(db, step));
    if step.CreatePayment? { PendingOrderLater(db, step.request); }
    else if IsReport(step) {
      ReportNamesPayment(db, step);
      if ReportOf(db, step).Some? { WonLater(db, ReportOf(db, step).value); }
    }
    else if IsOrderStep(step) { OrderStepLater(db, step); }
    else if step.RefundSucceeded? { PaidBackLater(db, step.refundNo); }
  }

  lemma WonLater(db: Db, r: Report)
    requires OrderOf(db, r.paymentNo) in db.orders ==>
               (IsPaid(db.orders[OrderOf(db, r.paymentNo)].status)
                <==> db.orders[OrderOf(db, r.paymentNo)].winner.Some?)
    ensures WonRow(db, r).Some? && OrderOf(db, r.paymentNo) in db.orders
            ==> OrderLater(db.orders[OrderOf(db, r.paymentNo)], WonRow(db, r).value)
  {
    hide OrderLater, JudgeSuccess;
    ReportLater(db, r);
  }

  lemma NewRefundNumber(db: Db, req: RefundRequest)
    ensures NewRefund(db, req).Some? ==> req.refundNo !in db.issued
  {
    hide Total, ExternalUsed;
  }

  lemma RefundRowLater(db: Db, step: Step)
    requires Numbered(db)
    ensures var no, row := RefundKey(step), RefundRow(db, step);
            row.Some? ==> if no in db.refunds then RefundLater(db.refunds[no], row.value) else no !in db.issued
  {
    hide ScheduleOf, NewRefund, StatusPaidBack, RefundsWinner;
    if step.CreateRefund? { NewRefundNumber(db, step.refund); }
    else if IsRecovery(step) { ScheduleGrows(db, step); }
  }

  lemma DeletionMoves(db: Db, appId: string, t: Db)
    requires Deletes(db, appId, t)
    ensures Later(db, t)
  {
    hide Archives, ClearedEvents, ClearedReceipts, ClearedExceptions, ClearedDeliveries, WithoutReservations;
  }

  lemma TakenMoves(db: Db, step: Step)
    requires Inv(db) && !step.DeleteApplication?
    ensures Later(db, Apply(db, step))
  {
    hide Inv, Apply, PaymentRow, OrderRow, RefundRow, PaymentKey, OrderKey, RefundKey, PaymentLater, OrderLater,
         RefundLater, PaymentsLater, OrdersLater, RefundsLater, Reserved, ReceiptRow, ReceiptKey;
    InvNumbered(db);
    PaymentRowLater(db, step);
    OrderRowLater(db, step);
    RefundRowLater(db, step);
    StepWrites(db, step);
    PaymentsPut(db.payments, db.issued, PaymentKey(step), PaymentRow(db, step));
    OrdersPut(db.orders, OrderKey(db, step), OrderRow(db, step));
    RefundsPut(db.refunds, db.issued, RefundKey(step), RefundRow(db, step));
  }

  lemma StepMoves(db: Db, step: Step)
    requires Inv(db)
    ensures Later(db, Apply(db, step))
  {
    hide Inv, Later, AfterDeleteApplication, Deletes;
    if step.DeleteApplication? {
      DeletionWrites(db, step.appId);
      DeletionMoves(db, step.appId, Apply(db, step));
    } else {
      TakenMoves(db, step);
    }
  }

  /**
   Over any run: a success, its trade and its winner are final, attempts and the clock only grow, an order
   never reopens, and an issued number never names a second row.
   */
  lemma {:induction false} RunMovesForward(db: Db, steps: seq<Step>)
    requires Inv(db)
    ensures Later(db, Replay(db, steps))
  {
    hide Inv, Later, Apply;
    if steps == [] {
      LaterReflexive(db);
    } else {
      var before := Replay(db, steps[..|steps| - 1]);
      RunMovesForward(db, steps[..|steps| - 1]);
      ReplayKeeps(db, steps[..|steps| - 1]);
      StepMoves(before, steps[|steps| - 1]);
      InvNumbered(db);
      LaterTransitive(db, before, Replay(db, steps));
    }
  }
}
