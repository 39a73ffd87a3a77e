/** News that are told once: that an order is paid, and that a record is handed over to a person. */
module News {
  import opened Wrappers
  import opened StateMachine
  import opened Rows
  import opened PaymentSteps
  import opened RefundSteps
  import opened Steps
  import opened Shapes
  import opened OneWinner

  /** An order is paid; a record is handed over. */
  type Milestone = kind: EventKind | kind == OrderSucceededEvent
    || kind == RecoveryExhaustedEvent witness OrderSucceededEvent

  // ---- Steps that tell nothing -------------------------------------------------------------

  /** No event of the kind came in between the two states. */
  ghost predicate QuietNews(kind: Milestone, a: Events, b: Events) {
    forall e | e in b && b[e].kind == kind :: e in a && a[e] == b[e]
  }

  /** The success that wins its order, and the recovery step that leaves its record without a next query. */
  ghost predicate Announces(kind: Milestone, db: Db, step: Step) {
    if kind == RecoveryExhaustedEvent then IsRecovery(step) && HandedOver(ScheduleOf(db, step))
    else IsReport(step) && ReportOf(db, step).Some? && WonRow(db, ReportOf(db, step).value).Some?
  }

  lemma EmitQuiet(kind: Milestone, db: Db, e: Event)
    requires e.kind != kind
    ensures QuietNews(kind, db.events, Emit(db, e).events)
  {
  }

  lemma OpenExceptionQuiet(kind: Milestone, db: Db, key: ExceptionKey, orderNo: Option<string>, no: Option<string>)
    ensures QuietNews(kind, db.events, OpenException(db, key, orderNo, no).events)
  {
    hide OpensAnew, OpenedException;
  }

  lemma DeliverQuiet(db: Db, orderNo: string, event: DeliveryEvent)
    requires orderNo in db.orders
    ensures Deliver(db, orderNo, event).events == db.events
  {
    hide DeliveryUrl;
  }

  lemma WinQuiet(kind: Milestone, db: Db, no: string, orderNo: string, paidAt: int)
    requires orderNo in db.orders && kind != OrderSucceededEvent
    ensures QuietNews(kind, db.events, AfterWin(db, no, orderNo, paidAt).events)
  {
    hide Deliver;
    var won := db.(orders := db.orders[orderNo := WonOrder(db.orders[orderNo], no, paidAt)]);
    var told := Emit(Emit(won, Event(PaymentSucceededEvent, PaymentRecord(no), Some(orderNo), Some(no))),
                     Event(OrderSucceededEvent, OrderRecord(orderNo), Some(orderNo), Some(no)));
    DeliverQuiet(told, orderNo, PaymentSucceededDelivery);
  }

  lemma SuccessQuiet(kind: Milestone, db: Db, r: Report)
    requires kind == OrderSucceededEvent ==> WonRow(db, r).None?
    ensures QuietNews(kind, db.events, AfterSuccess(db, r).events)
  {
    hide JudgeSuccess, OpenException, AfterWin, SucceededPayment, Emit;
    if JudgeSuccess(db, r) == Accepted {
      JudgedPresent(db, r);
      var p := db.payments[r.paymentNo];
      var paid := db.(payments := db.payments[r.paymentNo := SucceededPayment(p, r)]);
      var e := Event(PaymentLateDuplicateEvent, PaymentRecord(r.paymentNo), Some(p.orderNo), Some(r.paymentNo));
      EmitQuiet(kind, paid, e);
      OpenExceptionQuiet(kind, Emit(paid, e), DuplicateKey(r.paymentNo), Some(p.orderNo), Some(r.paymentNo));
      if kind != OrderSucceededEvent { WinQuiet(kind, paid, r.paymentNo, p.orderNo, r.paidAt); }
    }
  }

  lemma JudgedPresent(db: Db, r: Report)
    requires JudgeSuccess(db, r) == Accepted
    ensures r.paymentNo in db.payments && db.payments[r.paymentNo].orderNo in db.orders
  {
  }

  lemma RefundQuiet(kind: Milestone, db: Db, no: string)
    ensures QuietNews(kind, db.events, AfterRefundSucceeded(db, no).events)
  {
    hide AnnounceRefund, TotalPaidBack, StatusPaidBack;
    if RefundOpen(db, no) {
      AnnounceQuiet(kind, PaidOut(db, no), no, db.refunds[no].paymentNo, RefundedOrderNo(db, no), TotalPaidBack(db, no),
                    RefundsWinner(db, no));
    }
  }

  lemma AnnounceQuiet(kind: Milestone, db: Db, no: string, paymentNo: string, orderNo: string, total: nat, wins: bool)
    ensures QuietNews(kind, db.events, AnnounceRefund(db, no, paymentNo, orderNo, total, wins).events)
  {
    hide ResolveDuplicate, Deliver, Emit;
    var e := Event(RefundSucceededEvent, RefundRecord(no), Some(orderNo), Some(paymentNo));
    EmitQuiet(kind, db, e);
    var settled := ResolveDuplicate(Emit(db, e), total, paymentNo);
    ResolveShape(Emit(db, e), total, paymentNo);
    if orderNo in settled.orders { DeliverQuiet(settled, orderNo, RefundSucceededDelivery(no)); }
  }

  lemma MismatchQuiet(kind: Milestone, db: Db, id: ReceiptId, no: Option<string>, ambiguous: bool, conflict: bool)
    ensures QuietNews(kind, db.events, AfterMismatch(db, id, no, ambiguous, conflict).events)
  {
    hide MismatchedReceipt, OrderOf, NoteMismatch, Emit;
    var orderNo := if no.Some? then Some(OrderOf(db, no.value)) else None;
    var marked := db.(receipts := Put(db.receipts, id, MismatchedReceipt(db, id, no)));
    NoteQuiet(kind, marked, id, orderNo, no, ambiguous, conflict);
    EmitQuiet(kind, NoteMismatch(marked, id, orderNo, no, ambiguous, conflict),
              Event(ReceiptMismatchEvent, ReceiptRecord(id), orderNo, no));
  }

  lemma NoteQuiet(kind: Milestone, db: Db, id: ReceiptId, orderNo: Option<string>, no: Option<string>, ambiguous: bool,
                  conflict: bool)
    ensures QuietNews(kind, db.events, NoteMismatch(db, id, orderNo, no, ambiguous, conflict).events)
  {
    hide OpenException;
    OpenExceptionQuiet(kind, db, ExceptionKey(PaymentStateConflict, ReceiptRecord(id)), orderNo, no);
    OpenExceptionQuiet(kind, db, ExceptionKey(ReceiptAmbiguous, ReceiptRecord(id)), orderNo, no);
  }

  lemma DeletionQuiet(kind: Milestone, db: Db, appId: string, t: Db)
    requires Deletes(db, appId, t)
    ensures QuietNews(kind, db.events, t.events)
  {
    hide Archives, ClearedEvents, ArchivedOrders, WithoutReservations;
  }

  lemma FilingQuiet(kind: Milestone, db: Db, step: Step)
    requires IsFiling(step)
    ensures QuietNews(kind, db.events, AfterFiling(db, step).events)
  {
    hide ReceiptRow, ReceiptKey, ExceptionsFiled, AppsFiled;
  }

  lemma OrderQuiet(kind: Milestone, db: Db, step: Step)
    requires IsOrderStep(step)
    ensures QuietNews(kind, db.events, AfterOrderStep(db, step).events)
  {
    hide ClosesNow, OrderStepRow, OrderStepKey;
  }

  /** The plain steps tell nothing. */
  lemma PlainQuiet(db: Db, step: Step)
    requires step.Tick? || step.CreatePayment? || step.CreateRefund? || step.RefundObserved? || IsPaymentStep(step)
    ensures Apply(db, step).events == db.events
  {
    hide NewPayment, Reserved, PendingOrder, NewRefund, ObservedRefund, PaymentStepRow;
  }

  /** Every step but the one that announces it leaves the news of a kind as they are. */
  lemma StepQuiet(kind: Milestone, db: Db, step: Step)
    requires !Announces(kind, db, step)
    ensures QuietNews(kind, db.events, Apply(db, step).events)
  {
    hide QuietNews, AfterSuccess, AfterDeleteApplication, AfterRefundSucceeded, AfterMismatch, ReportOf, ScheduleOf,
         WonRow, AfterOrderStep, AfterRecovery, AfterFiling, AfterPaymentStep, AfterCreatePayment, AfterCreateRefund,
         AfterRefundObserved, HandedOver, Deletes;
    QuietReflexive(kind, db.events);
    if step.Tick? || step.CreatePayment? || step.CreateRefund? || step.RefundObserved? || IsPaymentStep(step) {
      PlainQuiet(db, step);
    }
    else if IsReport(step) { if ReportOf(db, step).Some? { SuccessQuiet(kind, db, ReportOf(db, step).value); } }
    else if step.DeleteApplication? {
      DeletionWrites(db, step.appId);
      DeletionQuiet(kind, db, step.appId, Apply(db, step));
    }
    else if step.RefundSucceeded? { RefundQuiet(kind, db, step.refundNo); }
    else if step.Mismatch? { MismatchQuiet(kind, db, step.id, step.found, step.ambiguous, step.conflict); }
    else if IsOrderStep(step) { OrderQuiet(kind, db, step); }
    else if IsRecovery(step) { AnnouncedRecovery(kind, db, step); }
    else { FilingQuiet(kind, db, step); }
  }

  lemma AnnouncedRecovery(kind: Milestone, db: Db, step: Step)
    requires IsRecovery(step) && !Announces(kind, db, step)
    ensures QuietNews(kind, db.events, AfterRecovery(db, step).events)
  {
    hide ScheduleOf, TicketsAfter, ScheduledPayments, ScheduledRefunds, HandedOver, RecordOrder, RecordPayment;
  }

  lemma QuietReflexive(kind: Milestone, events: Events)
    ensures QuietNews(kind, events, events)
  {
  }
}
