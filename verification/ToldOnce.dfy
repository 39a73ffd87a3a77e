/** Counted over the whole history of steps, archived news included: what is told once. */
module ToldOnce {
  import opened Wrappers
  import opened StateMachine
  import opened Rows
  import opened PaymentSteps
  import opened RefundSteps
  import opened Steps
  import opened Shapes
  import opened OneWinner
  import opened Forward
  import opened News
  import opened Scheduling
  import RecoveryPolicy

  /** The events of the kind about the record that the step stores. */
  ghost function NewsOf(db: Db, step: Step, kind: Milestone, record: Record): set<nat> {
    var t := Apply(db, step);
    set e | e in t.events && e !in db.events && t.events[e].kind == kind && t.events[e].record == record
  }

  /** How many events of the kind about the record were ever stored. */
  ghost function TimesTold(db: Db, steps: seq<Step>, kind: Milestone, record: Record): nat {
    if steps == [] then 0
    else
      var front, last := steps[..|steps| - 1], steps[|steps| - 1];
      TimesTold(db, front, kind, record) + |NewsOf(Replay(db, front), last, kind, record)|
  }

  lemma QuietTellsNothing(db: Db, step: Step, kind: Milestone, record: Record)
    requires !Announces(kind, db, step)
    ensures NewsOf(db, step, kind, record) == {}
  {
    hide Apply, Announces;
    StepQuiet(kind, db, step);
  }

  // ---- An order is paid --------------------------------------------------------------------

  predicate HasWinner(db: Db, orderNo: string) {
    orderNo in db.orders && db.orders[orderNo].winner.Some?
  }

  lemma OrderStepNoWinner(db: Db, step: Step)
    requires IsOrderStep(step)
    ensures OrderStepRow(db, step).Some? && OrderStepRow(db, step).value.winner.Some? ==>
              HasWinner(db, OrderStepKey(db, step))
  {
    hide HasSuccess, HasActive;
  }

  lemma RowNoWinner(db: Db, step: Step)
    requires !Announces(OrderSucceededEvent, db, step)
    ensures OrderRow(db, step).Some? && OrderRow(db, step).value.winner.Some? ==> HasWinner(db, OrderKey(db, step))
  {
    hide NewPayment, ReportOf, WonRow, OrderStepRow, OrderStepKey, StatusPaidBack;
    if IsOrderStep(step) { OrderStepNoWinner(db, step); }
  }

  /** Only a winning success gives an order a winner, and a winner stays. */
  lemma WinnersStay(db: Db, step: Step, orderNo: string)
    requires Inv(db)
    ensures HasWinner(db, orderNo) ==> HasWinner(Apply(db, step), orderNo)
    ensures !Announces(OrderSucceededEvent, db, step) && HasWinner(Apply(db, step), orderNo) ==> HasWinner(db, orderNo)
  {
    hide Inv, Apply, Announces, OrderRow, OrderKey, PaymentRow, RefundRow, Frames, AfterDeleteApplication,
         PaymentsLater, RefundsLater;
    StepMoves(db, step);
    if step.DeleteApplication? {
      DeletionTaken(db, step.appId);
      DeletionWrites(db, step.appId);
    } else {
      StepWrites(db, step);
      if !Announces(OrderSucceededEvent, db, step) { RowNoWinner(db, step); }
    }
  }

  lemma ReportIs(db: Db, step: Step)
    requires IsReport(step) && ReportOf(db, step).Some?
    ensures Apply(db, step) == AfterSuccess(db, ReportOf(db, step).value)
  {
    hide AfterSuccess, ReportOf;
  }

  /** What a winning success stores: that the payment succeeded, and that its order is paid. */
  lemma WinStores(db: Db, r: Report)
    requires WonRow(db, r).Some?
    ensures var orderNo, t := OrderOf(db, r.paymentNo), AfterSuccess(db, r);
            && t.events == db.events[db.nextEventId := Event(PaymentSucceededEvent, PaymentRecord(r.paymentNo),
                                                             Some(orderNo), Some(r.paymentNo))]
                           [db.nextEventId
                            + 1 := Event(OrderSucceededEvent, OrderRecord(orderNo), Some(orderNo), Some(r.paymentNo))]
            && orderNo in t.orders && t.orders[orderNo].winner == Some(r.paymentNo)
  {
    hide JudgeSuccess, Deliver, SucceededPayment;
    JudgedPresent(db, r);
    SuccessShape(db, r);
    var orderNo := OrderOf(db, r.paymentNo);
    var paid := db.(payments := db.payments[r.paymentNo := SucceededPayment(db.payments[r.paymentNo], r)]);
    var won := paid.(orders := paid.orders[orderNo := WonOrder(paid.orders[orderNo], r.paymentNo, r.paidAt)]);
    var told := Emit(Emit(won,
                          Event(PaymentSucceededEvent, PaymentRecord(r.paymentNo), Some(orderNo), Some(r.paymentNo))),
                     Event(OrderSucceededEvent, OrderRecord(orderNo), Some(orderNo), Some(r.paymentNo)));
    DeliverQuiet(told, orderNo, PaymentSucceededDelivery);
  }

  lemma EventsFresh(db: Db)
    requires Inv(db)
    ensures db.nextEventId !in db.events && db.nextEventId + 1 !in db.events
  {
  }

  lemma UnpaidHasNoWinner(db: Db, r: Report)
    requires Inv(db) && WonRow(db, r).Some?
    ensures !HasWinner(db, OrderOf(db, r.paymentNo))
  {
    hide Inv, JudgeSuccess;
    InvWinners(db, OrderOf(db, r.paymentNo));
    JudgedPresent(db, r);
  }

  /** A winning success tells of the one order it gives a winner. */
  lemma WinTells(db: Db, step: Step, orderNo: string)
    requires Inv(db) && Announces(OrderSucceededEvent, db, step)
    ensures |NewsOf(db, step, OrderSucceededEvent, OrderRecord(orderNo))|
         == if HasWinner(Apply(db, step), orderNo) && !HasWinner(db, orderNo) then 1 else 0
  {
    hide Inv, Apply, ReportOf, AfterSuccess, WonRow;
    var r := ReportOf(db, step).value;
    ReportIs(db, step);
    WinStores(db, r);
    EventsFresh(db);
    UnpaidHasNoWinner(db, r);
    var news := NewsOf(db, step, OrderSucceededEvent, OrderRecord(orderNo));
    if orderNo == OrderOf(db, r.paymentNo) {
      assert news == {db.nextEventId + 1};
    } else {
      assert news == {};
      OtherOrdersStay(db, r, orderNo);
    }
  }

  lemma OtherOrdersStay(db: Db, r: Report, orderNo: string)
    requires orderNo != OrderOf(db, r.paymentNo)
    ensures HasWinner(AfterSuccess(db, r), orderNo) ==> HasWinner(db, orderNo)
  {
    hide AfterSuccess, JudgeSuccess;
    SuccessShape(db, r);
  }

  /**
   Over any run, whatever was retried, interleaved or archived, the success of an order is told exactly once if the
   order has a winner, and never if it has none.
   */
  lemma {:induction false} PaidIsToldOnce(now: int, steps: seq<Step>, orderNo: string)
    ensures TimesTold(EmptyDb(now), steps, OrderSucceededEvent, OrderRecord(orderNo))
         == if HasWinner(Replay(EmptyDb(now), steps), orderNo) then 1 else 0
  {
    hide Inv, Apply, NewsOf, Announces;
    if steps != [] {
      var front, last := steps[..|steps| - 1], steps[|steps| - 1];
      var db := Replay(EmptyDb(now), front);
      PaidIsToldOnce(now, front, orderNo);
      AlwaysInv(now, front);
      WinnersStay(db, last, orderNo);
      if Announces(OrderSucceededEvent, db, last) {
        WinTells(db, last, orderNo);
      } else {
        QuietTellsNothing(db, last, OrderSucceededEvent, OrderRecord(orderNo));
      }
    }
  }

  // ---- An order's success is delivered -----------------------------------------------------

  /** The payment.succeeded deliveries of the order that the step adds. */
  ghost function DeliveriesOf(db: Db, step: Step, orderNo: string): set<DeliveryKey> {
    set k | k in Apply(db, step).deliveries && k !in db.deliveries && k.event == PaymentSucceededDelivery
            && k.orderNo == orderNo
  }

  /** How many payment.succeeded deliveries of the order were ever added. */
  ghost function TimesDelivered(db: Db, steps: seq<Step>, orderNo: string): nat {
    if steps == [] then 0
    else
      var front, last := steps[..|steps| - 1], steps[|steps| - 1];
      TimesDelivered(db, front, orderNo) + |DeliveriesOf(Replay(db, front), last, orderNo)|
  }

  /** No success was delivered between the two states. */
  ghost predicate NoneDelivered(a: Deliveries, b: Deliveries) {
    forall k | k in b && k.event == PaymentSucceededDelivery :: k in a
  }

  /** The one delivery an event of an order may bring. */
  function DeliveryFor(db: Db, orderNo: string, event: DeliveryEvent): DeliveryKey
    requires orderNo in db.orders
  {
    var url := DeliveryUrl(db, db.orders[orderNo], event);
    DeliveryKey(orderNo, event, if url.Some? then url.value else "")
  }

  lemma DeliverWrites(db: Db, orderNo: string, event: DeliveryEvent)
    requires orderNo in db.orders
    ensures Deliver(db, orderNo, event).deliveries == db.deliveries
            || Deliver(db, orderNo, event).deliveries
               == db.deliveries[DeliveryFor(db, orderNo, event) := db.orders[orderNo].appId]
  {
    hide DeliveryUrl;
  }

  lemma DeliverAdds(db: Db, orderNo: string, event: DeliveryEvent) returns (key: DeliveryKey)
    requires orderNo in db.orders
    ensures key.orderNo == orderNo && key.event == event
    ensures forall k | k in Deliver(db, orderNo, event).deliveries && k !in db.deliveries :: k == key
  {
    hide DeliveryUrl, Deliver;
    DeliverWrites(db, orderNo, event);
    key := DeliveryFor(db, orderNo, event);
  }

  lemma DuplicateDeliversNothing(db: Db, r: Report)
    requires WonRow(db, r).None?
    ensures AfterSuccess(db, r).deliveries == db.deliveries
  {
    hide JudgeSuccess, OpenException, AfterWin, SucceededPayment, Emit;
    if JudgeSuccess(db, r) == Accepted {
      JudgedPresent(db, r);
      var p := db.payments[r.paymentNo];
      var paid := db.(payments := db.payments[r.paymentNo := SucceededPayment(p, r)]);
      var e := Event(PaymentLateDuplicateEvent, PaymentRecord(r.paymentNo), Some(p.orderNo), Some(r.paymentNo));
      EmitOnly(paid, e);
      OpenExceptionShape(Emit(paid, e), DuplicateKey(r.paymentNo), Some(p.orderNo), Some(r.paymentNo));
    }
  }

  lemma EmitOnly(db: Db, e: Event)
    ensures Emit(db, e).deliveries == db.deliveries && Emit(db, e).orders == db.orders
  {
  }

  lemma RefundDeliversNoSuccess(db: Db, no: string)
    ensures NoneDelivered(db.deliveries, AfterRefundSucceeded(db, no).deliveries)
  {
    hide AnnounceRefund, TotalPaidBack, StatusPaidBack;
    if RefundOpen(db, no) {
      AnnounceDelivers(PaidOut(db, no), no, db.refunds[no].paymentNo, RefundedOrderNo(db, no), TotalPaidBack(db, no),
                       RefundsWinner(db, no));
    }
  }

  lemma AnnounceDelivers(db: Db, no: string, paymentNo: string, orderNo: string, total: nat, wins: bool)
    ensures NoneDelivered(db.deliveries, AnnounceRefund(db, no, paymentNo, orderNo, total, wins).deliveries)
  {
    hide ResolveDuplicate, Deliver, Emit;
    var e := Event(RefundSucceededEvent, RefundRecord(no), Some(orderNo), Some(paymentNo));
    EmitOnly(db, e);
    ResolveShape(Emit(db, e), total, paymentNo);
    var settled := ResolveDuplicate(Emit(db, e), total, paymentNo);
    if orderNo in settled.orders { var _ := DeliverAdds(settled, orderNo, RefundSucceededDelivery(no)); }
  }

  lemma MismatchDeliversNothing(db: Db, step: Step)
    requires step.Mismatch?
    ensures AfterMismatch(db, step.id, step.found, step.ambiguous, step.conflict).deliveries == db.deliveries
  {
    hide AfterMismatch, MismatchedReceipt;
    MismatchShape(db, step.id, step.found, step.ambiguous, step.conflict);
  }

  lemma ArchiveDeliversNothing(db: Db, appId: string, t: Db)
    requires Deletes(db, appId, t)
    ensures NoneDelivered(db.deliveries, t.deliveries)
  {
    hide Archives, ClearedEvents, ClearedDeliveries, ArchivedOrders, WithoutReservations;
  }

  lemma PlainDeliversNothing(db: Db, step: Step)
    requires step.Tick? || step.CreatePayment? || step.CreateRefund? || step.RefundObserved? || IsPaymentStep(step)
    ensures Apply(db, step).deliveries == db.deliveries
  {
    hide NewPayment, Reserved, PendingOrder, NewRefund, ObservedRefund, PaymentStepRow;
  }

  lemma OrderDeliversNothing(db: Db, step: Step)
    requires IsOrderStep(step)
    ensures AfterOrderStep(db, step).deliveries == db.deliveries
  {
    hide ClosesNow, OrderStepRow, OrderStepKey;
  }

  lemma RecoveryDeliversNothing(db: Db, step: Step)
    requires IsRecovery(step)
    ensures AfterRecovery(db, step).deliveries == db.deliveries
  {
    hide ScheduleOf, TicketsAfter, ScheduledPayments, ScheduledRefunds, HandedOver, RecordOrder, RecordPayment;
  }

  lemma FilingDeliversNothing(db: Db, step: Step)
    requires IsFiling(step)
    ensures AfterFiling(db, step).deliveries == db.deliveries
  {
    hide ReceiptRow, ReceiptKey, ExceptionsFiled, AppsFiled;
  }

  /** Only a winning success is delivered. */
  lemma StepDeliversNothing(db: Db, step: Step)
    requires !Announces(OrderSucceededEvent, db, step)
    ensures NoneDelivered(db.deliveries, Apply(db, step).deliveries)
  {
    hide AfterSuccess, AfterDeleteApplication, AfterRefundSucceeded, AfterMismatch, ReportOf, ScheduleOf, WonRow,
         AfterOrderStep, AfterRecovery, AfterFiling, AfterPaymentStep, AfterCreatePayment, AfterCreateRefund,
         AfterRefundObserved, HandedOver, Deletes;
    if step.Tick? || step.CreatePayment? || step.CreateRefund? || step.RefundObserved? || IsPaymentStep(step) {
      PlainDeliversNothing(db, step);
    }
    else if IsReport(step) {
      if ReportOf(db, step).Some? { DuplicateDeliversNothing(db, ReportOf(db, step).value); }
    }
    else if step.DeleteApplication? {
      DeletionWrites(db, step.appId);
      ArchiveDeliversNothing(db, step.appId, Apply(db, step));
    }
    else if step.RefundSucceeded? { RefundDeliversNoSuccess(db, step.refundNo); }
    else if step.Mismatch? { MismatchDeliversNothing(db, step); }
    else if IsOrderStep(step) { OrderDeliversNothing(db, step); }
    else if IsRecovery(step) { RecoveryDeliversNothing(db, step); }
    else { FilingDeliversNothing(db, step); }
  }

  /** A winning success adds one delivery at most, and of its own order. */
  lemma WinDelivers(db: Db, r: Report) returns (key: DeliveryKey)
    requires WonRow(db, r).Some?
    ensures forall k | k in AfterSuccess(db, r).deliveries && k !in db.deliveries ::
              k.orderNo == OrderOf(db, r.paymentNo)
    ensures forall k | k in AfterSuccess(db, r).deliveries && k !in db.deliveries :: k == key
  {
    hide JudgeSuccess, Deliver, SucceededPayment;
    JudgedPresent(db, r);
    var orderNo := OrderOf(db, r.paymentNo);
    var paid := db.(payments := db.payments[r.paymentNo := SucceededPayment(db.payments[r.paymentNo], r)]);
    var won := paid.(orders := paid.orders[orderNo := WonOrder(paid.orders[orderNo], r.paymentNo, r.paidAt)]);
    var told := Emit(Emit(won,
                          Event(PaymentSucceededEvent, PaymentRecord(r.paymentNo), Some(orderNo), Some(r.paymentNo))),
                     Event(OrderSucceededEvent, OrderRecord(orderNo), Some(orderNo), Some(r.paymentNo)));
    key := DeliverAdds(told, orderNo, PaymentSucceededDelivery);
  }

  lemma OneAtMost(s: set<DeliveryKey>, key: DeliveryKey)
    requires forall k | k in s :: k == key
    ensures |s| <= 1
  {
    assert s <= {key};
    assert |s - {key}| == 0;
  }

  lemma StepDelivers(db: Db, step: Step, orderNo: string)
    requires Inv(db)
    ensures |DeliveriesOf(db, step, orderNo)|
         <= if HasWinner(Apply(db, step), orderNo) && !HasWinner(db, orderNo) then 1 else 0
  {
    hide Inv, Apply, ReportOf, AfterSuccess, WonRow;
    if Announces(OrderSucceededEvent, db, step) {
      var r := ReportOf(db, step).value;
      ReportIs(db, step);
      WinStores(db, r);
      UnpaidHasNoWinner(db, r);
      var key := WinDelivers(db, r);
      OneAtMost(DeliveriesOf(db, step, orderNo), key);
      if orderNo != OrderOf(db, r.paymentNo) { assert DeliveriesOf(db, step, orderNo) == {}; }
    } else {
      StepDeliversNothing(db, step);
      assert DeliveriesOf(db, step, orderNo) == {};
    }
  }

  /** Over any run the success of an order is delivered at most once, and only if the order has a winner. */
  lemma {:induction false} PaidIsDeliveredAtMostOnce(now: int, steps: seq<Step>, orderNo: string)
    ensures TimesDelivered(EmptyDb(now), steps, orderNo)
         <= if HasWinner(Replay(EmptyDb(now), steps), orderNo) then 1 else 0
  {
    hide Inv, Apply, DeliveriesOf;
    if steps != [] {
      var front, last := steps[..|steps| - 1], steps[|steps| - 1];
      var db := Replay(EmptyDb(now), front);
      PaidIsDeliveredAtMostOnce(now, front, orderNo);
      AlwaysInv(now, front);
      WinnersStay(db, last, orderNo);
      StepDelivers(db, last, orderNo);
    }
  }

  // ---- A record is handed over -------------------------------------------------------------

  ghost predicate IsSpent(db: Db, record: Record) {
    Spent(db.payments, db.refunds, db.issued, db.tickets, record)
  }

  /** A record whose last attempt is spent stays so. */
  lemma SpentStays(db: Db, step: Step, record: Record)
    requires Inv(db) && IsSpent(db, record)
    ensures IsSpent(Apply(db, step), record)
  {
    hide Inv, Apply, Later, Spent, Moves, Frames, AfterDeleteApplication;
    var t := Apply(db, step);
    StepMoves(db, step);
    if step.DeleteApplication? {
      DeletionTaken(db, step.appId);
      DeletionWrites(db, step.appId);
      SpentWithoutTicket(db, record);
    } else {
      StepWrites(db, step);
      SpentUnclaimed(db, step, t, record);
    }
    SpentLater(db, t, record);
  }

  lemma SpentWithoutTicket(db: Db, record: Record)
    requires IsSpent(db, record)
    ensures Ticket(record, RecoveryPolicy.RECOVERY_MAX_ATTEMPTS) !in db.tickets
  {
  }

  lemma HandStores(db: Db, step: Step)
    requires IsRecovery(step) && HandedOver(ScheduleOf(db, step))
    ensures Apply(db, step).events
         == db.events[db.nextEventId := Event(RecoveryExhaustedEvent, step.record, RecordOrder(db, step.record),
                                              RecordPayment(db, step.record))]
    ensures Apply(db, step).tickets == TicketsAfter(db, step)
  {
    hide Apply, ScheduleOf, TicketsAfter, ScheduledPayments, ScheduledRefunds, RecordOrder, RecordPayment, HandedOver;
    RecoveryApplied(db, step);
  }

  /** A hand-over is told of its record alone, which was not spent before and is afterwards. */
  lemma HandTells(db: Db, step: Step, record: Record)
    requires Inv(db) && OnSchedule(db) && Announces(RecoveryExhaustedEvent, db, step)
    ensures |NewsOf(db, step, RecoveryExhaustedEvent, record)| == if record == step.record then 1 else 0
    ensures !IsSpent(db, step.record) && IsSpent(Apply(db, step), step.record)
  {
    hide Inv, Apply, ScheduleOf, TicketsAfter, HandedOver, Fits, PaymentsUp, RefundsUp, Spent, Later, Numbered,
         RecordOrder, RecordPayment;
    HandStores(db, step);
    EventsFresh(db);
    HandsOver(db, step);
    InvNumbered(db);
    StepMoves(db, step);
    SpentByHand(db, step, Apply(db, step));
    if IsSpent(db, step.record) { SpentWithoutTicket(db, step.record); }
    var news := NewsOf(db, step, RecoveryExhaustedEvent, record);
    if record == step.record { assert news == {db.nextEventId}; } else { assert news == {}; }
  }

  /** Over any run a record is handed over to a person at most once, and only when its attempts are spent for good. */
  lemma {:induction false} HandedOverAtMostOnce(now: int, steps: seq<Step>, record: Record)
    ensures TimesTold(EmptyDb(now), steps, RecoveryExhaustedEvent, record) <= 1
    ensures TimesTold(EmptyDb(now), steps, RecoveryExhaustedEvent, record) == 1 ==>
              IsSpent(Replay(EmptyDb(now), steps), record)
  {
    hide Inv, OnSchedule, Apply, NewsOf, Announces, IsSpent;
    if steps != [] {
      var front, last := steps[..|steps| - 1], steps[|steps| - 1];
      var db := Replay(EmptyDb(now), front);
      HandedOverAtMostOnce(now, front, record);
      AlwaysInv(now, front);
      EmptyInv(now);
      EmptyOnSchedule(now);
      RunOnSchedule(EmptyDb(now), front);
      if IsSpent(db, record) { SpentStays(db, last, record); }
      if Announces(RecoveryExhaustedEvent, db, last) {
        HandTells(db, last, record);
      } else {
        QuietTellsNothing(db, last, RecoveryExhaustedEvent, record);
      }
    }
  }
}
