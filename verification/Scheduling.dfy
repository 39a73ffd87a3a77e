/** Nothing falls off the schedulers, and recovery attempts are bounded and exclusive. */
module Scheduling {
  import opened Wrappers
  import opened StateMachine
  import opened RecoveryPolicy
  import opened Rows
  import opened PaymentSteps
  import opened RefundSteps
  import opened Steps
  import opened Shapes
  import opened OneWinner
  import opened Forward
  import opened News

  // ---- Rows that will come up again --------------------------------------------------------

  /** The expiration worker will look at an open order again. */
  predicate OrderUp(o: Order) {
    IsOpen(o.status) ==> o.nextAttemptAt.Some?
  }

  /** The recovery worker will look at an undecided payment again while it has attempts left. */
  predicate PaymentUp(p: Payment) {
    && p.attempts <= RECOVERY_MAX_ATTEMPTS
    && (p.channel == Alipay && IsRecoverablePayment(p.status) && p.attempts < RECOVERY_MAX_ATTEMPTS ==>
        p.nextQueryAt.Some?)
  }

  predicate RefundUp(r: Refund, overAlipay: bool) {
    && r.attempts <= RECOVERY_MAX_ATTEMPTS
    && (overAlipay && IsRecoverableRefund(r.status) && r.attempts < RECOVERY_MAX_ATTEMPTS ==> r.nextQueryAt.Some?)
  }

  predicate PaidOverAlipay(payments: Payments, no: string) {
    no in payments && payments[no].channel == Alipay
  }

  ghost predicate OrdersUp(orders: Orders) {
    forall o | o in orders :: OrderUp(orders[o])
  }

  ghost predicate PaymentsUp(payments: Payments) {
    forall no | no in payments :: PaymentUp(payments[no])
  }

  ghost predicate RefundsUp(payments: Payments, refunds: Refunds) {
    forall no | no in refunds :: RefundUp(refunds[no], PaidOverAlipay(payments, refunds[no].paymentNo))
  }

  // ---- Tickets and exhaustion --------------------------------------------------------------

  /** A claimed attempt is one of the attempts its record counts. */
  ghost predicate TicketFits(payments: Payments, refunds: Refunds, issued: set<string>, t: Ticket) {
    match t.record
    case PaymentRecord(no) => no in issued && (no in payments ==> t.attempt <= payments[no].attempts)
    case RefundRecord(no) => no in issued && (no in refunds ==> t.attempt <= refunds[no].attempts)
    case _ => false
  }

  ghost predicate TicketsFit(payments: Payments, refunds: Refunds, issued: set<string>, tickets: set<Ticket>) {
    forall t | t in tickets :: TicketFits(payments, refunds, issued, t)
  }

  /** The last attempt of the record is spent. */
  ghost predicate Spent(payments: Payments, refunds: Refunds, issued: set<string>, tickets: set<Ticket>,
                        record: Record) {
    && Ticket(record, RECOVERY_MAX_ATTEMPTS) !in tickets
    && match record
       case PaymentRecord(no) => no in issued && (no in payments ==> payments[no].attempts >= RECOVERY_MAX_ATTEMPTS)
       case RefundRecord(no) => no in issued && (no in refunds ==> refunds[no].attempts >= RECOVERY_MAX_ATTEMPTS)
       case _ => false
  }

  predicate Exhausts(events: Events, e: nat) {
    e in events && events[e].kind == RecoveryExhaustedEvent
  }

  /** A record is handed over once, after its last attempt. */
  ghost predicate ExhaustedOnce(payments: Payments, refunds: Refunds, issued: set<string>, tickets: set<Ticket>,
                                events: Events) {
    && (forall e | Exhausts(events, e) :: Spent(payments, refunds, issued, tickets, events[e].record))
    && (forall e, f | Exhausts(events, e) && Exhausts(events, f) :: events[e].record == events[f].record ==> e == f)
  }

  ghost predicate Ups(db: Db) {
    OrdersUp(db.orders) && PaymentsUp(db.payments) && RefundsUp(db.payments, db.refunds)
  }

  ghost predicate Fits(db: Db) {
    TicketsFit(db.payments, db.refunds, db.issued, db.tickets)
  }

  ghost predicate Once(db: Db) {
    ExhaustedOnce(db.payments, db.refunds, db.issued, db.tickets, db.events)
  }

  /** The invariant of the schedulers. */
  ghost predicate OnSchedule(db: Db) {
    Ups(db) && Fits(db) && Once(db)
  }

  // ---- Row by row --------------------------------------------------------------------------

  lemma InvSuccessIsPaid(db: Db, no: string)
    requires Inv(db)
    ensures no in db.payments && db.payments[no].status == Success && db.payments[no].orderNo in db.orders
            ==> IsPaid(db.orders[db.payments[no].orderNo].status)
  {
  }

  lemma OrderStepUp(db: Db, step: Step)
    requires IsOrderStep(step) && OrdersUp(db.orders)
    requires step.ReleaseExpiration? && ReleasedRow(db, step.no).Some? ==>
               IsPaid(db.orders[OrderOf(db, step.no)].status)
    ensures OrderStepRow(db, step).Some? ==> OrderUp(OrderStepRow(db, step).value)
  {
    hide HasSuccess, HasActive, ExpirationRetryDelaySeconds;
  }

  lemma PendingUp(db: Db, req: PaymentRequest)
    requires OrdersUp(db.orders)
    ensures NewPayment(db, req).Some? && PendingOrder(db, req.orderNo).Some? ==>
              OrderUp(PendingOrder(db, req.orderNo).value)
  {
    hide NewPayment;
    NewPaymentShape(db, req);
  }

  lemma WonUp(db: Db, r: Report)
    ensures WonRow(db, r).Some? ==> OrderUp(WonRow(db, r).value)
  {
    hide JudgeSuccess;
  }

  lemma PaidBackUp(db: Db, no: string)
    ensures PaidBackOrder(db, no).Some? ==> OrderUp(PaidBackOrder(db, no).value)
  {
    hide TotalPaidBack;
  }

  lemma OrderRowUp(db: Db, step: Step)
    requires Inv(db) && OrdersUp(db.orders)
    ensures OrderRow(db, step).Some? ==> OrderUp(OrderRow(db, step).value)
  {
    hide Inv, OrdersUp, NewPayment, PendingOrder, ReportOf, WonRow, OrderStepRow, PaidBackOrder, OrderUp;
    if step.CreatePayment? { PendingUp(db, step.request); }
    else if IsReport(step) { if ReportOf(db, step).Some? { WonUp(db, ReportOf(db, step).value); } }
    else if IsOrderStep(step) {
      if step.ReleaseExpiration? { InvSuccessIsPaid(db, step.no); }
      OrderStepUp(db, step);
    }
    else if step.RefundSucceeded? { PaidBackUp(db, step.refundNo); }
  }

  lemma PaymentStepUp(db: Db, step: Step)
    requires IsPaymentStep(step) && PaymentsUp(db.payments)
    ensures PaymentStepRow(db, step).Some? ==> PaymentUp(PaymentStepRow(db, step).value)
  {
    hide TradeNoFree, RecoveryDelaySeconds;
  }

  /** Only the last attempt of a record leaves it without a next query. */
  lemma ScheduleUp(db: Db, step: Step)
    requires IsRecovery(step) && Fits(db)
    ensures ScheduleOf(db, step).Some? && Attempts(db, step.record) <= RECOVERY_MAX_ATTEMPTS ==>
              var w := ScheduleOf(db, step).value;
              w.0 <= RECOVERY_MAX_ATTEMPTS && (w.0 < RECOVERY_MAX_ATTEMPTS ==> w.1.Some?)
  {
    hide RecoveryDelaySeconds, NextQueryAt, OverAlipay;
    if step.RecoveryFailed? || step.RecoveryDone? {
      assert Ticket(step.record, step.attempt) in db.tickets ==>
               TicketFits(db.payments, db.refunds, db.issued, Ticket(step.record, step.attempt));
    }
  }

  lemma NewPaymentUp(db: Db, req: PaymentRequest)
    ensures NewPayment(db, req).Some? ==> PaymentUp(NewPayment(db, req).value)
  {
    hide NewPayment;
    NewPaymentShape(db, req);
  }

  lemma SucceededUp(db: Db, r: Report)
    requires PaymentsUp(db.payments)
    ensures SucceededRow(db, r).Some? ==> PaymentUp(SucceededRow(db, r).value)
  {
    hide TradeNoFree;
  }

  lemma PaymentRowUp(db: Db, step: Step)
    requires PaymentsUp(db.payments) && Fits(db)
    ensures PaymentRow(db, step).Some? ==> PaymentUp(PaymentRow(db, step).value)
  {
    hide Fits, NewPayment, ReportOf, SucceededRow, PaymentStepRow, ScheduleOf;
    if step.CreatePayment? { NewPaymentUp(db, step.request); }
    else if IsReport(step) { if ReportOf(db, step).Some? { SucceededUp(db, ReportOf(db, step).value); } }
    else if IsPaymentStep(step) { PaymentStepUp(db, step); }
    else if IsRecovery(step) { ScheduleUp(db, step); }
  }

  lemma RefundRowUp(db: Db, step: Step)
    requires RefundsUp(db.payments, db.refunds) && Fits(db)
    ensures RefundRow(db, step).Some? ==>
              RefundUp(RefundRow(db, step).value, PaidOverAlipay(db.payments, RefundRow(db, step).value.paymentNo))
  {
    if step.CreateRefund? { hide Total, ExternalUsed, Fits, RefundsUp; }
    else if IsRecovery(step) { ScheduleUp(db, step); hide ScheduleOf, Fits; }
    else { hide RecoveryDelaySeconds, StatusPaidBack, Fits; }
  }

  // ---- The tables --------------------------------------------------------------------------

  lemma OrdersUpPut(orders: Orders, no: string, row: Option<Order>)
    requires OrdersUp(orders) && (row.Some? ==> OrderUp(row.value))
    ensures OrdersUp(Put(orders, no, row))
  {
  }

  lemma PaymentsUpPut(payments: Payments, no: string, row: Option<Payment>)
    requires PaymentsUp(payments) && (row.Some? ==> PaymentUp(row.value))
    ensures PaymentsUp(Put(payments, no, row))
  {
  }

  lemma RefundsUpPut(payments: Payments, refunds: Refunds, no: string, row: Option<Refund>)
    requires RefundsUp(payments, refunds)
             && (row.Some? ==> RefundUp(row.value, PaidOverAlipay(payments, row.value.paymentNo)))
    ensures RefundsUp(payments, Put(refunds, no, row))
  {
  }

  ghost predicate RefundsIssued(payments: Payments, refunds: Refunds) {
    forall no | no in refunds :: refunds[no].paymentNo in payments
  }

  /** A refund stays on its channel: payments keep theirs, and no payment appears under a refund. */
  lemma RefundsUpLater(payments: Payments, later: Payments, refunds: Refunds, issued: set<string>)
    requires RefundsUp(payments, refunds) && RefundsIssued(payments, refunds) && PaymentsLater(payments, later, issued)
    ensures RefundsUp(later, refunds)
  {
    forall no | no in refunds
      ensures PaidOverAlipay(later, refunds[no].paymentNo) ==> PaidOverAlipay(payments, refunds[no].paymentNo)
    {
    }
  }

  lemma InvRefundsIssued(db: Db)
    requires Inv(db)
    ensures RefundsIssued(db.payments, db.refunds)
  {
  }

  lemma StepUps(db: Db, step: Step)
    requires Inv(db) && OnSchedule(db) && !step.DeleteApplication?
    ensures Ups(Apply(db, step))
  {
    hide Inv, Once, Apply, PaymentRow, OrderRow, RefundRow, PaymentKey, OrderKey, RefundKey, Frames, OrderUp,
         PaymentUp, RefundUp, Fits, OrdersUp, PaymentsUp, RefundsUp, PaymentsLater, OrdersLater, RefundsLater,
         RefundsIssued;
    StepWrites(db, step);
    OrderRowUp(db, step);
    PaymentRowUp(db, step);
    RefundRowUp(db, step);
    InvRefundsIssued(db);
    StepMoves(db, step);
    RefundRowIssued(db, step);
    OrdersUpPut(db.orders, OrderKey(db, step), OrderRow(db, step));
    PaymentsUpPut(db.payments, PaymentKey(step), PaymentRow(db, step));
    RefundsUpPut(db.payments, db.refunds, RefundKey(step), RefundRow(db, step));
    RefundsUpLater(db.payments, Apply(db, step).payments, Put(db.refunds, RefundKey(step), RefundRow(db, step)),
                   db.issued);
  }

  lemma RefundRowIssued(db: Db, step: Step)
    requires RefundsIssued(db.payments, db.refunds)
    ensures RefundsIssued(db.payments, Put(db.refunds, RefundKey(step), RefundRow(db, step)))
  {
    if step.CreateRefund? { hide Total, ExternalUsed; }
    else { hide ScheduleOf, RecoveryDelaySeconds, StatusPaidBack; }
  }

  // ---- Tickets -----------------------------------------------------------------------------

  lemma TicketsFitLater(db: Db, t: Db, tickets: set<Ticket>)
    requires Later(db, t) && Fits(db) && tickets <= db.tickets
    ensures TicketsFit(t.payments, t.refunds, t.issued, tickets)
  {
    forall k | k in tickets ensures TicketFits(t.payments, t.refunds, t.issued, k) {
      assert TicketFits(db.payments, db.refunds, db.issued, k);
    }
  }

  /** Only a claim adds a ticket. */
  lemma TicketsShrink(db: Db, step: Step, t: Db)
    requires Frames(db, step, t) && !(step.ClaimRecovery? && ScheduleOf(db, step).Some?)
    ensures t.tickets <= db.tickets
  {
    hide ScheduleOf, Reserved, PaymentRow, RefundRow, ReceiptRow, ReceiptKey;
  }

  /** The claimed attempt is the number the record now counts. */
  lemma ClaimWrites(db: Db, step: Step, t: Db)
    requires step.ClaimRecovery? && ScheduleOf(db, step).Some? && Moves(db, step, t) && Frames(db, step, t)
    ensures t.tickets == db.tickets + {Ticket(step.record, step.seenAttempts + 1)}
    ensures step.record.PaymentRecord? || step.record.RefundRecord?
    ensures step.record.PaymentRecord? ==> step.record.paymentNo in db.payments && step.record.paymentNo in t.payments
    ensures step.record.RefundRecord? ==> step.record.refundNo in db.refunds && step.record.refundNo in t.refunds
    ensures Attempts(db, step.record) == step.seenAttempts < RECOVERY_MAX_ATTEMPTS
    ensures Attempts(t, step.record) == step.seenAttempts + 1
  {
    hide RecoveryDelaySeconds, Reserved, ReceiptRow, ReceiptKey;
  }

  lemma ClaimFits(db: Db, step: Step, t: Db)
    requires Numbered(db) && Fits(db) && Later(db, t)
    requires step.ClaimRecovery? && ScheduleOf(db, step).Some? && Moves(db, step, t) && Frames(db, step, t)
    ensures Fits(t)
  {
    hide Moves, Frames, ScheduleOf, PaymentsLater, OrdersLater, RefundsLater;
    ClaimWrites(db, step, t);
    TicketsFitLater(db, t, db.tickets);
  }

  lemma StepFits(db: Db, step: Step)
    requires Inv(db) && Fits(db)
    ensures Fits(Apply(db, step))
  {
    StepMoves(db, step);
    InvNumbered(db);
    if step.DeleteApplication? {
      DeletionWrites(db, step.appId);
      TicketsFitLater(db, Apply(db, step), db.tickets);
    } else {
      StepWrites(db, step);
      if step.ClaimRecovery? && ScheduleOf(db, step).Some? {
        ClaimFits(db, step, Apply(db, step));
      } else {
        TicketsShrink(db, step, Apply(db, step));
        TicketsFitLater(db, Apply(db, step), Apply(db, step).tickets);
      }
    }
  }

  // ---- Being handed over -------------------------------------------------------------------

  lemma SpentLater(db: Db, t: Db, record: Record)
    requires Later(db, t) && Spent(db.payments, db.refunds, db.issued, db.tickets, record)
    requires Ticket(record, RECOVERY_MAX_ATTEMPTS) !in t.tickets
    ensures Spent(t.payments, t.refunds, t.issued, t.tickets, record)
  {
    hide OrdersLater;
  }

  /** A spent record is never claimed again. */
  lemma SpentUnclaimed(db: Db, step: Step, t: Db, record: Record)
    requires !step.DeleteApplication? && Moves(db, step, t) && Frames(db, step, t)
    requires Spent(db.payments, db.refunds, db.issued, db.tickets, record)
    ensures Ticket(record, RECOVERY_MAX_ATTEMPTS) !in t.tickets
  {
    hide Moves, Frames, ScheduleOf;
    if step.ClaimRecovery? && ScheduleOf(db, step).Some? {
      ClaimWrites(db, step, t);
    } else {
      TicketsShrink(db, step, t);
    }
  }

  lemma OnceQuiet(db: Db, step: Step, t: Db)
    requires !step.DeleteApplication? && Moves(db, step, t) && Frames(db, step, t)
    requires Later(db, t) && Once(db) && QuietNews(RecoveryExhaustedEvent, db.events, t.events)
    ensures Once(t)
  {
    hide Later, Moves, Frames, Spent;
    forall e | Exhausts(t.events, e) ensures Spent(t.payments, t.refunds, t.issued, t.tickets, t.events[e].record) {
      SpentUnclaimed(db, step, t, t.events[e].record);
      SpentLater(db, t, t.events[e].record);
    }
  }

  /** What a recovery step that hands its record over does to tickets and events. */
  lemma HandsOver(db: Db, step: Step)
    requires IsRecovery(step) && HandedOver(ScheduleOf(db, step)) && Fits(db) && PaymentsUp(db.payments)
             && RefundsUp(db.payments, db.refunds)
    ensures Ticket(step.record, RECOVERY_MAX_ATTEMPTS) in db.tickets
    ensures Ticket(step.record, RECOVERY_MAX_ATTEMPTS) !in TicketsAfter(db, step)
    ensures Attempts(db, step.record) == RECOVERY_MAX_ATTEMPTS && Recoverable(db, step.record)
  {
    hide RecoveryDelaySeconds, NextQueryAt, OverAlipay;
    assert (step.RecoveryFailed? || step.RecoveryDone?) && Ticket(step.record, step.attempt) in db.tickets;
    assert TicketFits(db.payments, db.refunds, db.issued, Ticket(step.record, step.attempt));
  }

  lemma SpentByHand(db: Db, step: Step, t: Db)
    requires IsRecovery(step) && HandedOver(ScheduleOf(db, step)) && Fits(db) && PaymentsUp(db.payments)
             && RefundsUp(db.payments, db.refunds)
    requires Numbered(db) && Later(db, t) && t.tickets == TicketsAfter(db, step)
    ensures Spent(t.payments, t.refunds, t.issued, t.tickets, step.record)
    ensures forall e | Exhausts(db.events, e)
            && Spent(db.payments, db.refunds, db.issued, db.tickets, db.events[e].record) ::
              db.events[e].record != step.record
  {
    hide ScheduleOf, TicketsAfter, Fits, PaymentsUp, RefundsUp, OrdersLater;
    HandsOver(db, step);
  }

  lemma OldSpent(db: Db, t: Db)
    requires Once(db) && Later(db, t) && t.tickets <= db.tickets
    ensures forall e | Exhausts(db.events, e) :: Spent(t.payments, t.refunds, t.issued, t.tickets, db.events[e].record)
  {
    hide Later;
    forall e | Exhausts(db.events, e) ensures Spent(t.payments, t.refunds, t.issued, t.tickets, db.events[e].record) {
      SpentLater(db, t, db.events[e].record);
    }
  }

  lemma OnceAdds(payments: Payments, refunds: Refunds, issued: set<string>, tickets: set<Ticket>, events: Events,
                 id: nat, e: Event)
    requires forall f | Exhausts(events, f) :: Spent(payments, refunds, issued, tickets, events[f].record)
    requires forall f, g | Exhausts(events, f) && Exhausts(events, g) :: events[f].record == events[g].record ==> f == g
    requires Spent(payments, refunds, issued, tickets, e.record) && forall f | Exhausts(events, f) ::
               events[f].record != e.record
    ensures ExhaustedOnce(payments, refunds, issued, tickets, events[id := e])
  {
    hide Spent;
  }

  lemma OnceHanded(db: Db, step: Step)
    requires IsRecovery(step) && HandedOver(ScheduleOf(db, step))
    requires Inv(db) && OnSchedule(db) && Later(db, AfterRecovery(db, step))
    ensures Once(AfterRecovery(db, step))
  {
    InvNumbered(db);
    TicketsShrinkOnHand(db, step);
    var t := AfterRecovery(db, step);
    SpentByHand(db, step, t);
    OldSpent(db, t);
    OnceAdds(t.payments, t.refunds, t.issued, t.tickets, db.events, db.nextEventId,
             Event(RecoveryExhaustedEvent, step.record, RecordOrder(db, step.record), RecordPayment(db, step.record)));
  }

  lemma TicketsShrinkOnHand(db: Db, step: Step)
    requires IsRecovery(step) && HandedOver(ScheduleOf(db, step))
    ensures TicketsAfter(db, step) <= db.tickets
  {
    hide RecoveryDelaySeconds, Recoverable, NextQueryAt, OverAlipay, Attempts;
  }

  // ---- Every step, every run ---------------------------------------------------------------

  lemma DeletionUps(db: Db, appId: string, t: Db)
    requires Ups(db) && RefundsIssued(db.payments, db.refunds) && Deletes(db, appId, t)
    ensures Ups(t)
  {
    hide Archives, ClearedEvents, ClearedReceipts, ClearedExceptions, ClearedDeliveries, WithoutReservations;
  }

  lemma DeletionOnce(db: Db, appId: string, t: Db)
    requires Once(db) && Later(db, t) && Deletes(db, appId, t)
    ensures Once(t)
  {
    hide Archives, ClearedEvents, ArchivedOrders, WithoutReservations, Later, Spent;
    DeletionQuiet(RecoveryExhaustedEvent, db, appId, t);
    OldSpent(db, t);
  }

  lemma StepOnce(db: Db, step: Step)
    requires Inv(db) && OnSchedule(db) && Later(db, Apply(db, step)) && Once(db)
    ensures Once(Apply(db, step))
  {
    hide Inv, OnSchedule, Later, Once, AfterDeleteApplication, Deletes, Apply, AfterRecovery, HandedOver, ScheduleOf,
         Moves, Frames, QuietNews;
    if step.DeleteApplication? {
      DeletionTaken(db, step.appId);
      DeletionWrites(db, step.appId);
      DeletionOnce(db, step.appId, Apply(db, step));
    } else if IsRecovery(step) && HandedOver(ScheduleOf(db, step)) {
      RecoveryApplied(db, step);
      OnceHanded(db, step);
    } else {
      StepWrites(db, step);
      StepQuiet(RecoveryExhaustedEvent, db, step);
      OnceQuiet(db, step, Apply(db, step));
    }
  }

  lemma StepOnSchedule(db: Db, step: Step)
    requires Inv(db) && OnSchedule(db)
    ensures OnSchedule(Apply(db, step))
  {
    StepFits(db, step);
    StepMoves(db, step);
    StepOnce(db, step);
    if step.DeleteApplication? {
      InvRefundsIssued(db);
      DeletionWrites(db, step.appId);
      DeletionUps(db, step.appId, Apply(db, step));
    } else {
      StepUps(db, step);
    }
  }

  lemma {:induction false} RunOnSchedule(db: Db, steps: seq<Step>)
    requires Inv(db) && OnSchedule(db)
    ensures OnSchedule(Replay(db, steps))
  {
    hide Inv, OnSchedule, Apply;
    if steps != [] {
      RunOnSchedule(db, steps[..|steps| - 1]);
      ReplayKeeps(db, steps[..|steps| - 1]);
      StepOnSchedule(Replay(db, steps[..|steps| - 1]), steps[|steps| - 1]);
    }
  }

  lemma EmptyOnSchedule(now: int)
    ensures OnSchedule(EmptyDb(now))
  {
  }

  lemma ReachableOnSchedule(db: Db)
    requires Reachable(db)
    ensures Inv(db) && OnSchedule(db)
  {
    hide Inv, OnSchedule, Replay, Reachable;
    var now, steps := ReachedByReplay(db);
    AlwaysInv(now, steps);
    EmptyOnSchedule(now);
    EmptyInv(now);
    RunOnSchedule(EmptyDb(now), steps);
  }

  /**
   After every run, whatever failed or stopped half way, each open order keeps a time for its next attempt, and each
   undecided Alipay payment or refund with attempts left keeps a time for its next query.
   */
  lemma NothingFallsOff(db: Db)
    requires Reachable(db)
    ensures OrdersUp(db.orders) && PaymentsUp(db.payments) && RefundsUp(db.payments, db.refunds)
  {
    hide Inv, Reachable, Fits, Once, OrdersUp, PaymentsUp, RefundsUp;
    ReachableOnSchedule(db);
  }

  /** An open order expires and becomes claimable once enough time has passed. */
  lemma OpenOrderComesUp(db: Db, orderNo: string) returns (wait: nat)
    requires OrdersUp(db.orders) && orderNo in db.orders && IsOpen(db.orders[orderNo].status)
    ensures ExpirationClaimable(db.(now := db.now + wait), orderNo, db.orders[orderNo].expirationAttempts)
    ensures db.orders[orderNo].expiresAt <= db.now + wait
  {
    var o := db.orders[orderNo];
    wait := 0;
    if o.nextAttemptAt.value > db.now { wait := o.nextAttemptAt.value - db.now; }
    if o.lockedUntil.Some? && o.lockedUntil.value >= db.now + wait { wait := o.lockedUntil.value + 1 - db.now; }
    if o.expiresAt > db.now + wait { wait := o.expiresAt - db.now; }
  }

  /** So does an undecided payment or refund with attempts left. */
  lemma UndecidedRecordComesUp(db: Db, record: Record) returns (wait: nat)
    requires PaymentsUp(db.payments) && RefundsUp(db.payments, db.refunds)
    requires OverAlipay(db, record) && Recoverable(db, record) && Attempts(db, record) < RECOVERY_MAX_ATTEMPTS
    ensures RecoveryClaimable(db.(now := db.now + wait), record, Attempts(db, record))
  {
    assert NextQueryAt(db, record).Some?;
    wait := if NextQueryAt(db, record).value > db.now then NextQueryAt(db, record).value - db.now else 0;
  }

  /** A record is handed over to a person at most once, and only when all its attempts are spent. */
  lemma HandedOverOnce(db: Db)
    requires Reachable(db)
    ensures ExhaustedOnce(db.payments, db.refunds, db.issued, db.tickets, db.events)
  {
    hide Inv, Reachable, Fits, Ups, ExhaustedOnce;
    ReachableOnSchedule(db);
  }
}
