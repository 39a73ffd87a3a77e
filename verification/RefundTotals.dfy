/** What refunds add up to: the status of a paid order, and how much a payment can pay back. */
module RefundTotals {
  import opened Wrappers
  import opened StateMachine
  import opened RecoveryPolicy
  import opened Rows
  import opened PaymentSteps
  import opened RefundSteps
  import opened Steps
  import opened Shapes
  import opened OneWinner
  import opened Forward

  // ---- The invariant -----------------------------------------------------------------------

  /** The status of a paid order whose winning payment has paid back `total`. */
  function StatusFor(total: nat, amount: nat): OrderStatus {
    if total == 0 then OrderSuccess else if total >= amount then OrderRefunded else OrderPartiallyRefunded
  }

  /** A paid order's status is what its winner's successful refunds add up to. */
  ghost predicate StatusesFit(orders: Orders, refunds: Refunds) {
    forall o | o in orders && orders[o].winner.Some? ::
      orders[o].status == StatusFor(Total(refunds, orders[o].winner.value, Succeeded), orders[o].amount)
  }

  /** Refunds that never failed hold no more than their payment. */
  ghost predicate Bounded(payments: Payments, refunds: Refunds) {
    forall no | no in payments :: Total(refunds, no, ReservingNotRevived) <= payments[no].amount
  }

  ghost predicate HoldsBounded(db: Db) {
    Bounded(db.payments, db.refunds)
  }

  ghost predicate Fitting(db: Db) {
    StatusesFit(db.orders, db.refunds)
  }

  // ---- Refund rows -------------------------------------------------------------------------

  /** How the row a step writes relates to the refund it replaces. */
  ghost predicate SameMoney(before: Refund, r: Refund) {
    r.paymentNo == before.paymentNo && r.amount == before.amount
  }

  /** A rewritten refund that failed holds no money before it comes back, and is marked when it does. */
  ghost predicate MarksReturn(before: Refund, r: Refund) {
    SameMoney(before, r) && (before.revived || before.status == RefundFailed ==> r.revived || r.status == RefundFailed)
  }

  lemma ObservedMarks(db: Db, no: string, seen: Seen, status: RefundStatus, random: real)
    ensures ObservedRefund(db, no, seen, status, random).Some? ==>
              var r := ObservedRefund(db, no, seen, status, random).value;
              no in db.refunds && MarksReturn(db.refunds[no], r) && r.status == status != RefundSuccess
  {
    hide RecoveryDelaySeconds;
  }

  /** A recovery step leaves status and mark of its refund alone. */
  lemma ScheduledSame(db: Db, step: Step)
    requires IsRecovery(step)
    ensures ScheduledRefund(db, step).Some? ==>
              var r := ScheduledRefund(db, step).value;
              && step.record.refundNo in db.refunds && SameMoney(db.refunds[step.record.refundNo], r)
              && r.status == db.refunds[step.record.refundNo].status
              && r.revived == db.refunds[step.record.refundNo].revived
  {
    hide ScheduleOf;
  }

  lemma MarkedBounded(payments: Payments, refunds: Refunds, no: string, r: Refund)
    requires Bounded(payments, refunds) && no in refunds && MarksReturn(refunds[no], r)
    ensures Bounded(payments, refunds[no := r])
  {
    hide Total;
    forall p ensures Total(refunds[no := r], p, ReservingNotRevived) <= Total(refunds, p, ReservingNotRevived) {
      TotalUpdated(refunds, no, r, p, ReservingNotRevived);
    }
  }

  /** A new refund fits under the payment together with everything already held. */
  lemma NewRefundFits(db: Db, req: RefundRequest)
    ensures NewRefund(db, req).Some? ==>
              var r := NewRefund(db, req).value;
              && r.paymentNo == req.paymentNo && r.amount == req.amount && r.status == RefundProcessing && !r.revived
              && req.refundNo !in db.issued
              && req.paymentNo in db.payments
              && Total(db.refunds, req.paymentNo, Reserving) + req.amount <= db.payments[req.paymentNo].amount
  {
    hide Total, ExternalUsed;
  }

  lemma JoinBounded(payments: Payments, refunds: Refunds, no: string, r: Refund)
    requires Bounded(payments, refunds) && no !in refunds && r.paymentNo in payments
    requires Total(refunds, r.paymentNo, Reserving) + r.amount <= payments[r.paymentNo].amount
    ensures Bounded(payments, refunds[no := r])
  {
    hide Total;
    TotalOrdered(refunds, r.paymentNo);
    forall p ensures Total(refunds[no := r], p, ReservingNotRevived)
                  <= Total(refunds, p, ReservingNotRevived) + (if p == r.paymentNo then r.amount else 0)
    {
      TotalUpdated(refunds, no, r, p, ReservingNotRevived);
    }
  }

  /** The order a payment won is its own. */
  lemma WinnersOwnOrder(db: Db, no: string)
    requires Inv(db) && RefundOpen(db, no)
    ensures forall o | o in db.orders && db.orders[o].winner == Some(db.refunds[no].paymentNo) ::
              o == RefundedOrderNo(db, no)
  {
  }

  // ---- Order and payment rows --------------------------------------------------------------

  /**
   How the row a step writes relates to the order it replaces: winners keep status and amount, and a new winner starts
   unrefunded.
   */
  ghost predicate KeepsWinner(db: Db, no: string, o: Order) {
    o.winner.Some? ==>
      || (no in db.orders && o.winner == db.orders[no].winner && o.status == db.orders[no].status
          && o.amount == db.orders[no].amount)
      || (o.status == OrderSuccess && o.winner.value in db.payments && db.payments[o.winner.value].status != Success)
  }

  lemma WonKeepsWinner(db: Db, r: Report)
    ensures WonRow(db, r).Some? ==> KeepsWinner(db, OrderOf(db, r.paymentNo), WonRow(db, r).value)
  {
    hide TradeNoFree;
  }

  lemma PendingKeepsWinner(db: Db, req: PaymentRequest)
    requires Inv(db)
    ensures NewPayment(db, req).Some? && PendingOrder(db, req.orderNo).Some? ==>
              KeepsWinner(db, req.orderNo, PendingOrder(db, req.orderNo).value)
  {
    hide Inv, NewPayment;
    PendingLater(db, req);
    InvWinners(db, req.orderNo);
  }

  lemma OrderStepKeepsWinner(db: Db, step: Step)
    requires Inv(db) && IsOrderStep(step)
    ensures OrderStepRow(db, step).Some? ==> KeepsWinner(db, OrderStepKey(db, step), OrderStepRow(db, step).value)
  {
    hide Inv, HasSuccess, HasActive, ExpirationRetryDelaySeconds;
    InvWinners(db, OrderStepKey(db, step));
  }

  lemma OrderRowKeepsWinner(db: Db, step: Step)
    requires Inv(db) && !step.RefundSucceeded?
    ensures OrderRow(db, step).Some? ==> KeepsWinner(db, OrderKey(db, step), OrderRow(db, step).value)
  {
    hide Inv, NewPayment, PendingOrder, ReportOf, WonRow, OrderStepRow, OrderStepKey, KeepsWinner;
    if step.CreatePayment? { PendingKeepsWinner(db, step.request); }
    else if IsReport(step) {
      ReportNamesPayment(db, step);
      if ReportOf(db, step).Some? { WonKeepsWinner(db, ReportOf(db, step).value); }
    }
    else if IsOrderStep(step) { OrderStepKeepsWinner(db, step); }
  }

  lemma InvNoRefunds(db: Db, no: string)
    requires Inv(db)
    ensures (no in db.payments ==> db.payments[no].status != Success) ==> forall r | r in db.refunds ::
              db.refunds[r].paymentNo != no
  {
  }

  lemma OrderPutFits(db: Db, no: string, row: Option<Order>)
    requires Inv(db) && StatusesFit(db.orders, db.refunds) && (row.Some? ==> KeepsWinner(db, no, row.value))
    ensures StatusesFit(Put(db.orders, no, row), db.refunds)
  {
    hide Inv, Total;
    if row.Some? && row.value.winner.Some? {
      InvNoRefunds(db, row.value.winner.value);
      if row.value.winner.value in db.payments && db.payments[row.value.winner.value].status != Success {
        TotalOfNone(db.refunds, row.value.winner.value, Succeeded);
      }
    }
  }

  /** A payment keeps its amount; a new one has no refunds yet. */
  lemma PaymentPutBounded(db: Db, no: string, row: Option<Payment>)
    requires Inv(db) && Bounded(db.payments, db.refunds)
    requires row.Some? ==> if no in db.payments then PaymentLater(db.payments[no], row.value) else no !in db.issued
    ensures Bounded(Put(db.payments, no, row), db.refunds)
  {
    hide Inv, Total;
    if row.Some? && no !in db.payments {
      InvNoRefunds(db, no);
      TotalOfNone(db.refunds, no, ReservingNotRevived);
    }
  }

  lemma RefundSucceededRows(db: Db, no: string)
    ensures var step := RefundSucceeded(no);
            && PaymentRow(db, step) == None && RefundKey(step) == no && OrderRow(db, step) == PaidBackOrder(db, no)
            && RefundRow(db, step) == (if PaysBack(db, no) then Some(SucceededRefund(db.refunds[no])) else None)
            && (PaysBack(db, no) ==> OrderKey(db, step) == RefundedOrderNo(db, no))
  {
    hide StatusPaidBack, SucceededRefund, RefundsWinner;
  }

  // ---- What refunds hold -------------------------------------------------------------------

  lemma RefundPutBounded(db: Db, step: Step, payments: Payments)
    requires Inv(db) && !step.DeleteApplication? && Bounded(payments, db.refunds)
    requires forall no | no in db.payments :: no in payments && payments[no].amount == db.payments[no].amount
    ensures Bounded(payments, Put(db.refunds, RefundKey(step), RefundRow(db, step)))
  {
    hide Inv, Bounded, MarksReturn, Total, NewRefund, ObservedRefund, ScheduleOf, SucceededRefund, PaysBack;
    InvNumbered(db);
    if step.CreateRefund? {
      NewRefundFits(db, step.refund);
      var r := NewRefund(db, step.refund);
      if r.Some? { JoinBounded(payments, db.refunds, step.refund.refundNo, r.value); }
    } else if step.RefundObserved? {
      ObservedMarks(db, step.refundNo, step.seen, step.refundStatus, step.random);
      var r := ObservedRefund(db, step.refundNo, step.seen, step.refundStatus, step.random);
      if r.Some? { MarkedBounded(payments, db.refunds, step.refundNo, r.value); }
    } else if step.RefundSucceeded? {
      SucceededMarks(db, step.refundNo);
      if PaysBack(db, step.refundNo) {
        MarkedBounded(payments, db.refunds, step.refundNo, SucceededRefund(db.refunds[step.refundNo]));
      }
    } else if IsRecovery(step) {
      ScheduledMarks(db, step);
      var r := ScheduledRefund(db, step);
      if r.Some? { MarkedBounded(payments, db.refunds, step.record.refundNo, r.value); }
    }
  }

  lemma SucceededMarks(db: Db, no: string)
    ensures PaysBack(db, no) ==> no in db.refunds && MarksReturn(db.refunds[no], SucceededRefund(db.refunds[no]))
  {
    hide StatusPaidBack, RefundsWinner;
  }

  lemma ScheduledMarks(db: Db, step: Step)
    requires IsRecovery(step)
    ensures ScheduledRefund(db, step).Some? ==>
              step.record.refundNo in db.refunds
              && MarksReturn(db.refunds[step.record.refundNo], ScheduledRefund(db, step).value)
  {
    hide ScheduledRefund;
    ScheduledSame(db, step);
  }

  lemma AmountsStay(db: Db, t: Db)
    requires Later(db, t) && Numbered(db)
    ensures forall no | no in db.payments && no in t.payments :: t.payments[no].amount == db.payments[no].amount
  {
    hide OrdersLater, RefundsLater;
  }

  lemma MovesBounded(db: Db, step: Step, t: Db)
    requires Inv(db) && HoldsBounded(db) && !step.DeleteApplication? && Moves(db, step, t) && Later(db, t)
    ensures HoldsBounded(t)
  {
    hide Inv, OrderRow, PaymentRow, RefundRow, OrderKey, PaymentKey, RefundKey, Bounded, Later;
    InvNumbered(db);
    PaymentRowLater(db, step);
    PaymentPutBounded(db, PaymentKey(step), PaymentRow(db, step));
    AmountsStay(db, t);
    RefundPutBounded(db, step, t.payments);
  }

  lemma ArchivedBounds(payments: Payments, kept: Payments, refunds: Refunds, dropped: set<string>)
    requires Bounded(payments, refunds)
    requires forall no | no in kept :: no in payments && kept[no] == payments[no]
    ensures Bounded(kept, refunds - dropped)
  {
    hide Total;
    forall p ensures Total(refunds - dropped, p, ReservingNotRevived) <= Total(refunds, p, ReservingNotRevived) {
      TotalShrinks(refunds, dropped, p, ReservingNotRevived);
    }
  }

  lemma DeletionBounded(db: Db, appId: string, t: Db)
    requires HoldsBounded(db) && Deletes(db, appId, t)
    ensures HoldsBounded(t)
  {
    hide Bounded, Archives, ClearedEvents, ClearedReceipts, ClearedExceptions, ClearedDeliveries, WithoutReservations,
         ClearedRefunds, ClearedPayments, ArchivedOrders;
    ArchivedBounds(db.payments, db.payments - ClearedPayments(db, appId), db.refunds, ClearedRefunds(db, appId));
  }

  lemma StepBounded(db: Db, step: Step)
    requires Inv(db) && HoldsBounded(db)
    ensures HoldsBounded(Apply(db, step))
  {
    hide Inv, HoldsBounded, Later, Apply, AfterDeleteApplication, Deletes, Moves, Frames;
    StepMoves(db, step);
    if step.DeleteApplication? {
      DeletionTaken(db, step.appId);
      DeletionWrites(db, step.appId);
      DeletionBounded(db, step.appId, Apply(db, step));
    } else {
      StepWrites(db, step);
      MovesBounded(db, step, Apply(db, step));
    }
  }

  lemma {:induction false} RunBounded(db: Db, steps: seq<Step>)
    requires Inv(db) && HoldsBounded(db)
    ensures HoldsBounded(Replay(db, steps))
  {
    hide Inv, HoldsBounded, Apply;
    if steps != [] {
      RunBounded(db, steps[..|steps| - 1]);
      ReplayKeeps(db, steps[..|steps| - 1]);
      StepBounded(Replay(db, steps[..|steps| - 1]), steps[|steps| - 1]);
    }
  }

  lemma EmptySums(now: int)
    ensures HoldsBounded(EmptyDb(now)) && Fitting(EmptyDb(now))
  {
  }

  lemma ReachableBounded(db: Db)
    requires Reachable(db)
    ensures Inv(db) && HoldsBounded(db)
  {
    hide Inv, HoldsBounded, Fitting, Replay, Reachable;
    var now, steps := ReachedByReplay(db);
    AlwaysInv(now, steps);
    EmptySums(now);
    EmptyInv(now);
    RunBounded(EmptyDb(now), steps);
  }

  // ---- What it means for a reader ----------------------------------------------------------

  /**
   Refunds are stored as holding and having paid no more than the payment plus those of them that came back after they
   had failed.
   */
  lemma RefundBound(db: Db, no: string)
    requires Reachable(db) && no in db.payments
    ensures Total(db.refunds, no, Reserving) <= db.payments[no].amount + Total(db.refunds, no, Revived)
    ensures Total(db.refunds, no, Succeeded) <= db.payments[no].amount + Total(db.refunds, no, Revived)
  {
    hide Inv, Reachable, Total;
    ReachableBounded(db);
    TotalSplits(db.refunds, no);
    TotalOrdered(db.refunds, no);
  }

  /** Without a revival the stored refunds of a payment stay within it. */
  lemma NoRevivalWithinCap(db: Db, no: string)
    requires Reachable(db) && no in db.payments
    requires forall r | r in db.refunds && db.refunds[r].paymentNo == no :: !db.refunds[r].revived
    ensures Total(db.refunds, no, Reserving) <= db.payments[no].amount
    ensures Total(db.refunds, no, Succeeded) <= db.payments[no].amount
  {
    hide Reachable, Total;
    RefundBound(db, no);
    TotalOfEmptyClass(db.refunds, no, Revived);
  }

  /** What a payment's refunds hold stays within the payment. */
  ghost predicate Capped(db: Db, no: string) {
    no in db.payments ==> Total(db.refunds, no, Reserving) <= db.payments[no].amount
  }

  /** A failed refund succeeds although other refunds have taken its room. */
  ghost predicate RevivesWithoutRoom(db: Db, refundNo: string) {
    && PaysBack(db, refundNo) && db.refunds[refundNo].status == RefundFailed
    && Total(db.refunds, db.refunds[refundNo].paymentNo, Reserving)
       + db.refunds[refundNo].amount > db.payments[db.refunds[refundNo].paymentNo].amount
  }

  /** A successful answer breaks the cap of its payment exactly when it revives a refund without room. */
  lemma RevivalBreaksCap(db: Db, refundNo: string)
    requires PaysBack(db, refundNo) && Capped(db, db.refunds[refundNo].paymentNo)
    ensures Capped(PaidOut(db, refundNo), db.refunds[refundNo].paymentNo) <==> !RevivesWithoutRoom(db, refundNo)
  {
    hide Total, StatusPaidBack, RefundsWinner;
    TotalUpdated(db.refunds, refundNo, SucceededRefund(db.refunds[refundNo]), db.refunds[refundNo].paymentNo,
                 Reserving);
  }
}
