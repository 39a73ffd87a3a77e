/** How exceptions open and how they are resolved. */
module ExceptionLife {
  import opened Wrappers
  import opened StateMachine
  import opened Rows
  import opened PaymentSteps
  import opened RefundSteps
  import opened Steps
  import opened Shapes
  import opened OneWinner
  import opened News
  import opened RefundTotals

  /** The step makes a payment successful whose order was paid before. */
  ghost predicate PaysAgain(db: Db, step: Step, no: string) {
    && IsReport(step) && step.no == no && no in db.payments && db.payments[no].status != Success
    && no in Apply(db, step).payments && Apply(db, step).payments[no].status == Success
    && db.payments[no].orderNo in db.orders
    && db.orders[db.payments[no].orderNo].status in {OrderSuccess, OrderPartiallyRefunded, OrderRefunded}
  }

  /** The step files a receipt as a mismatch that needs a person. */
  predicate Puzzles(db: Db, step: Step, id: ReceiptId, kind: ExceptionType) {
    && step.Mismatch? && step.id == id && id in db.receipts && (step.found.Some? ==> step.found.value in db.payments)
    && (step.conflict || step.ambiguous) && kind == if step.conflict then PaymentStateConflict else ReceiptAmbiguous
  }

  /** The step opens the exception: a second payment of an order, or a receipt that needs a person. */
  ghost predicate Opens(db: Db, step: Step, key: ExceptionKey) {
    match key.subject
    case PaymentRecord(no) => key.kind == ExceptionType.LateDuplicate && PaysAgain(db, step, no)
    case ReceiptRecord(id) => Puzzles(db, step, id, key.kind)
    case _ => false
  }

  /** The step completes the refunds of the payment. */
  ghost predicate PaysBackInFull(db: Db, step: Step, no: string) {
    && step.RefundSucceeded? && step.refundNo in db.refunds && db.refunds[step.refundNo].status != RefundSuccess
    && db.refunds[step.refundNo].paymentNo == no && no in db.payments
    && step.refundNo in Apply(db, step).refunds && Apply(db, step).refunds[step.refundNo].status == RefundSuccess
    && Total(Apply(db, step).refunds, no, Succeeded) >= db.payments[no].amount
  }

  /** The step matches the receipt to a bill payment of its account that its very trade paid. */
  predicate Matches(db: Db, step: Step, id: ReceiptId) {
    && step.MatchReceipt? && step.id == id && id in db.receipts && step.no in db.payments
    && db.payments[step.no].channel == AlipayBill && db.payments[step.no].accountId == id.accountId
    && db.payments[step.no].status == Success && db.payments[step.no].tradeNo == Some(id.tradeNo)
  }

  /** The step answers the exception: the second payment is paid back in full, or the receipt is matched after all. */
  ghost predicate Answers(db: Db, step: Step, key: ExceptionKey) {
    match key.subject
    case PaymentRecord(no) => key.kind == ExceptionType.LateDuplicate && PaysBackInFull(db, step, no)
    case ReceiptRecord(id) => Matches(db, step, id)
    case _ => false
  }

  /** What becomes of the exception's status. */
  ghost function StatusAfter(db: Db, step: Step, key: ExceptionKey): ExceptionStatus
    requires key in db.exceptions
  {
    var status := db.exceptions[key].status;
    var live := status in {ExceptionOpen, ExceptionProcessing};
    if step.UpdateException? && step.key == key then
      if step.exceptionStatus == ExceptionOpen || status == ExceptionResolved then status else step.exceptionStatus
    else if Opens(db, step, key) then if live then status else ExceptionOpen
    else if Answers(db, step, key) && live then ExceptionResolved
    else status
  }

  /** The exception comes if the step opens it, and its status moves as it should. */
  ghost predicate KeyMoves(db: Db, step: Step, exceptions: Exceptions, key: ExceptionKey) {
    && (key in exceptions <==> key in db.exceptions || Opens(db, step, key))
    && (key in exceptions ==>
          exceptions[key].status == if key in db.exceptions then StatusAfter(db, step, key) else ExceptionOpen)
  }

  ghost predicate MovesAsItShould(db: Db, step: Step, exceptions: Exceptions) {
    forall key :: KeyMoves(db, step, exceptions, key)
  }

  // ---- What each transaction does to exceptions --------------------------------------------

  /** The exceptions with one opened. */
  function WithOpened(exceptions: Exceptions, key: ExceptionKey, orderNo: Option<string>,
                      no: Option<string>): Exceptions {
    exceptions[key := OpenedException(Lookup(exceptions, key), orderNo, no)]
  }

  lemma EmitSpares(db: Db, e: Event)
    ensures var t := Emit(db, e); t == db.(events := t.events, nextEventId := t.nextEventId)
  {
  }

  lemma SuccessOpens(db: Db, r: Report)
    ensures AfterSuccess(db, r).exceptions
         == if SucceededRow(db, r).Some? && WonRow(db, r).None?
            then WithOpened(db.exceptions, DuplicateKey(r.paymentNo), Some(OrderOf(db, r.paymentNo)), Some(r.paymentNo))
            else db.exceptions
  {
    hide JudgeSuccess, OpenException, AfterWin, SucceededPayment, Emit, OpenedException, WonOrder;
    if JudgeSuccess(db, r) == Accepted {
      JudgedPresent(db, r);
      var p := db.payments[r.paymentNo];
      var paid := db.(payments := db.payments[r.paymentNo := SucceededPayment(p, r)]);
      var e := Event(PaymentLateDuplicateEvent, PaymentRecord(r.paymentNo), Some(p.orderNo), Some(r.paymentNo));
      EmitSpares(paid, e);
      OpenExceptionShape(Emit(paid, e), DuplicateKey(r.paymentNo), Some(p.orderNo), Some(r.paymentNo));
      WinShape(paid, r.paymentNo, p.orderNo, r.paidAt);
    }
  }

  lemma RefundResolves(db: Db, no: string)
    ensures AfterRefundSucceeded(db, no).exceptions
         == if !PaysBack(db, no) then db.exceptions
            else
              var p := db.refunds[no].paymentNo;
              var key := DuplicateKey(p);
              if TotalPaidBack(db, no) >= db.payments[p].amount && key in db.exceptions
                && IsLive(db.exceptions[key].status)
              then db.exceptions[key := db.exceptions[key].(status := ExceptionResolved)] else db.exceptions
  {
    hide TotalPaidBack, StatusPaidBack, SucceededRefund, RefundsWinner, Deliver, Emit;
    if PaysBack(db, no) {
      AnnouncedResolves(PaidOut(db, no), no, db.refunds[no].paymentNo, RefundedOrderNo(db, no), TotalPaidBack(db, no),
                        RefundsWinner(db, no));
    }
  }

  lemma AnnouncedResolves(db: Db, no: string, p: string, orderNo: string, total: nat, wins: bool)
    requires p in db.payments
    ensures var key := DuplicateKey(p);
            AnnounceRefund(db, no, p, orderNo, total, wins).exceptions
            == if total >= db.payments[p].amount && key in db.exceptions && IsLive(db.exceptions[key].status)
               then db.exceptions[key := db.exceptions[key].(status := ExceptionResolved)] else db.exceptions
  {
    hide Deliver, Emit;
    var e := Event(RefundSucceededEvent, RefundRecord(no), Some(orderNo), Some(p));
    EmitSpares(db, e);
    var told := Emit(db, e);
    if orderNo in ResolveDuplicate(told, total, p).orders {
      DeliverShape(ResolveDuplicate(told, total, p), orderNo, RefundSucceededDelivery(no));
    }
  }

  lemma MismatchOpens(db: Db, id: ReceiptId, no: Option<string>, ambiguous: bool, conflict: bool)
    ensures var orderNo := if no.Some? then Some(OrderOf(db, no.value)) else None;
            AfterMismatch(db, id, no, ambiguous, conflict).exceptions
            == if id in db.receipts && (no.Some? ==> no.value in db.payments) && (conflict || ambiguous)
               then WithOpened(db.exceptions,
                               ExceptionKey(if conflict then PaymentStateConflict
                                            else ReceiptAmbiguous, ReceiptRecord(id)),
                               orderNo, no)
               else db.exceptions
  {
    hide OpenedException, OpensAnew, OrderOf;
  }

  // ---- Every step --------------------------------------------------------------------------

  /** A report makes its payment successful exactly if it is taken. */
  lemma TakenIsSuccess(db: Db, step: Step)
    requires IsReport(step)
    ensures var t, r := Apply(db, step), ReportOf(db, step);
            (r.Some? && SucceededRow(db, r.value).Some?)
            <==> && step.no in db.payments && db.payments[step.no].status != Success
                 && step.no in t.payments && t.payments[step.no].status == Success
    ensures var r := ReportOf(db, step);
            r.Some? && SucceededRow(db, r.value).Some? ==>
              && r.value.paymentNo == step.no && db.payments[step.no].orderNo in db.orders
              && (WonRow(db, r.value).None? <==> IsPaid(db.orders[db.payments[step.no].orderNo].status))
  {
    hide Apply, ReportOf, TradeNoFree, OrderRow, OrderKey, RefundRow, RefundKey, Frames;
    StepWrites(db, step);
    ReportNamesPayment(db, step);
  }

  lemma NothingMoves(db: Db, step: Step)
    requires !step.UpdateException? && Apply(db, step).exceptions == db.exceptions
    requires forall key :: !Opens(db, step, key)
    requires forall key | key in db.exceptions :: !(Answers(db, step, key) && IsLive(db.exceptions[key].status))
    ensures MovesAsItShould(db, step, Apply(db, step).exceptions)
  {
    hide Apply, Opens, Answers;
  }

  lemma OneOpens(db: Db, step: Step, key: ExceptionKey, orderNo: Option<string>, no: Option<string>)
    requires !step.UpdateException? && Apply(db, step).exceptions == WithOpened(db.exceptions, key, orderNo, no)
    requires forall k :: Opens(db, step, k) <==> k == key
    requires forall k :: !Answers(db, step, k)
    ensures MovesAsItShould(db, step, Apply(db, step).exceptions)
  {
    hide Apply, Opens, Answers, KeyMoves, WithOpened;
    forall k ensures KeyMoves(db, step, WithOpened(db.exceptions, key, orderNo, no), k) {
      OneMoves(db, step, key, orderNo, no, k);
    }
  }

  lemma OneMoves(db: Db, step: Step, key: ExceptionKey, orderNo: Option<string>, no: Option<string>, k: ExceptionKey)
    requires !step.UpdateException? && (Opens(db, step, k) <==> k == key) && !Answers(db, step, k)
    ensures KeyMoves(db, step, WithOpened(db.exceptions, key, orderNo, no), k)
  {
    hide Apply, Opens, Answers;
  }

  /** Reports answer no exception, and open the one of a second payment at most. */
  lemma ReportOpens(db: Db, step: Step, key: ExceptionKey)
    requires IsReport(step)
    ensures !Answers(db, step, key) && !step.UpdateException?
    ensures Opens(db, step, key) <==> key == DuplicateKey(step.no) && PaysAgain(db, step, step.no)
  {
    hide Apply;
  }

  lemma ReportMoves(db: Db, step: Step)
    requires IsReport(step)
    ensures MovesAsItShould(db, step, Apply(db, step).exceptions)
  {
    hide Apply, ReportOf, AfterSuccess, SucceededRow, WonRow, Opens, Answers, MovesAsItShould, WithOpened;
    ReportApplied(db, step);
    TakenIsSuccess(db, step);
    forall key
      ensures !Answers(db, step, key)
      ensures Opens(db, step, key) <==> key == DuplicateKey(step.no) && PaysAgain(db, step, step.no)
    {
      ReportOpens(db, step, key);
    }
    if ReportOf(db, step).Some? {
      SuccessOpens(db, ReportOf(db, step).value);
      if SucceededRow(db, ReportOf(db, step).value).Some? && WonRow(db, ReportOf(db, step).value).None? {
        OneOpens(db, step, DuplicateKey(step.no), Some(OrderOf(db, step.no)), Some(step.no));
      } else {
        NothingMoves(db, step);
      }
    } else {
      NothingMoves(db, step);
    }
  }

  lemma SuccessCompletes(db: Db, step: Step)
    requires step.RefundSucceeded?
    ensures var t := Apply(db, step);
            && PaysBack(db, step.refundNo)
               == (step.refundNo in db.refunds && db.refunds[step.refundNo].status != RefundSuccess
                   && step.refundNo in t.refunds && t.refunds[step.refundNo].status == RefundSuccess)
            && (PaysBack(db, step.refundNo) ==>
                  var p := db.refunds[step.refundNo].paymentNo;
                  p in db.payments && TotalPaidBack(db, step.refundNo) == Total(t.refunds, p, Succeeded))
  {
    hide Apply, Total, StatusPaidBack, OrderRow, OrderKey, PaymentRow, PaymentKey, Frames;
    StepWrites(db, step);
  }

  lemma RefundMoves(db: Db, step: Step)
    requires step.RefundSucceeded?
    ensures MovesAsItShould(db, step, Apply(db, step).exceptions)
  {
    hide Apply, AfterRefundSucceeded, PaysBack, Total, TotalPaidBack, StatusPaidBack;
    RefundApplied(db, step);
    SuccessCompletes(db, step);
    RefundResolves(db, step.refundNo);
  }

  lemma MismatchKeys(db: Db, step: Step, key: ExceptionKey)
    requires step.Mismatch?
    ensures !Answers(db, step, key)
    ensures Opens(db, step, key)
            <==> && step.id in db.receipts && (step.found.Some? ==> step.found.value in db.payments)
                 && (step.conflict || step.ambiguous)
                 && key == ExceptionKey(if step.conflict then PaymentStateConflict else ReceiptAmbiguous,
                                        ReceiptRecord(step.id))
  {
    hide Apply;
  }

  lemma MismatchApplied(db: Db, step: Step)
    requires step.Mismatch?
    ensures Apply(db, step) == AfterMismatch(db, step.id, step.found, step.ambiguous, step.conflict)
  {
    hide AfterMismatch;
  }

  lemma MismatchMoves(db: Db, step: Step)
    requires step.Mismatch?
    ensures MovesAsItShould(db, step, Apply(db, step).exceptions)
  {
    hide Apply, AfterMismatch, Opens, Answers, MovesAsItShould, WithOpened;
    MismatchApplied(db, step);
    MismatchOpens(db, step.id, step.found, step.ambiguous, step.conflict);
    forall key
      ensures !Answers(db, step, key)
      ensures Opens(db, step, key)
              <==> && step.id in db.receipts && (step.found.Some? ==> step.found.value in db.payments)
                   && (step.conflict || step.ambiguous)
                   && key == ExceptionKey(if step.conflict then PaymentStateConflict else ReceiptAmbiguous,
                                          ReceiptRecord(step.id))
    {
      MismatchKeys(db, step, key);
    }
    if step.id in db.receipts && (step.found.Some? ==> step.found.value in db.payments)
       && (step.conflict || step.ambiguous) {
      OneOpens(db, step,
               ExceptionKey(if step.conflict then PaymentStateConflict else ReceiptAmbiguous, ReceiptRecord(step.id)),
               if step.found.Some? then Some(OrderOf(db, step.found.value)) else None, step.found);
    } else {
      NothingMoves(db, step);
    }
  }

  lemma FilingMoves(db: Db, step: Step)
    requires IsFiling(step)
    ensures MovesAsItShould(db, step, AfterFiling(db, step).exceptions)
  {
    hide AppsFiled, Apply, AfterFiling;
    FiledExceptions(db, step);
    if step.MatchReceipt? { MatchMoves(db, step); } else if step.UpdateException? { UpdateMoves(db, step); }
  }

  lemma FiledExceptions(db: Db, step: Step)
    requires IsFiling(step)
    ensures AfterFiling(db, step).exceptions == ExceptionsFiled(db, step)
  {
    hide AppsFiled, ReceiptRow, ReceiptKey, ExceptionsFiled;
  }

  lemma MatchMoves(db: Db, step: Step)
    requires step.MatchReceipt?
    ensures MovesAsItShould(db, step, ExceptionsFiled(db, step))
  {
    hide Apply;
  }

  lemma UpdateMoves(db: Db, step: Step)
    requires step.UpdateException?
    ensures MovesAsItShould(db, step, ExceptionsFiled(db, step))
  {
    hide Apply;
  }

  lemma OthersLeaveExceptions(db: Db, step: Step)
    requires !step.DeleteApplication? && !IsReport(step) && !step.RefundSucceeded? && !step.Mismatch? && !IsFiling(step)
    ensures Apply(db, step).exceptions == db.exceptions
  {
    hide AfterOrderStep, AfterRecovery;
    if IsOrderStep(step) { OrdersLeaveExceptions(db, step); }
    else if IsRecovery(step) { RecoveryLeavesExceptions(db, step); }
    else { RowsLeaveExceptions(db, step); }
  }

  lemma RowsLeaveExceptions(db: Db, step: Step)
    requires step.Tick? || step.CreatePayment? || step.CreateRefund? || step.RefundObserved? || IsPaymentStep(step)
    ensures Apply(db, step).exceptions == db.exceptions
  {
    hide NewPayment, Reserved, PendingOrder, NewRefund, ObservedRefund, PaymentStepRow;
  }

  lemma OrdersLeaveExceptions(db: Db, step: Step)
    requires IsOrderStep(step)
    ensures AfterOrderStep(db, step).exceptions == db.exceptions
  {
    hide ClosesNow, OrderStepRow, OrderStepKey;
  }

  lemma RecoveryLeavesExceptions(db: Db, step: Step)
    requires IsRecovery(step)
    ensures AfterRecovery(db, step).exceptions == db.exceptions
  {
    hide ScheduleOf, TicketsAfter, ScheduledPayments, ScheduledRefunds, HandedOver, RecordOrder, RecordPayment;
  }

  lemma OthersOpenNothing(db: Db, step: Step)
    requires !step.DeleteApplication? && !IsReport(step) && !step.RefundSucceeded? && !step.Mismatch? && !IsFiling(step)
    requires Apply(db, step).exceptions == db.exceptions
    ensures MovesAsItShould(db, step, Apply(db, step).exceptions)
  {
    hide Apply;
  }

  /**
   Exceptions come by a second payment of an order and by receipts that need a person, and by nothing else. Open ones
   are resolved by paying the second payment back in full, by matching the receipt, or by a person, and by nothing else.
   */
  lemma ExceptionsMove(db: Db, step: Step)
    requires !step.DeleteApplication?
    ensures MovesAsItShould(db, step, Apply(db, step).exceptions)
  {
    hide Apply, MovesAsItShould;
    if IsReport(step) { ReportMoves(db, step); }
    else if step.RefundSucceeded? { RefundMoves(db, step); }
    else if step.Mismatch? { MismatchMoves(db, step); }
    else if IsFiling(step) {
      FilingApplied(db, step);
      FilingMoves(db, step);
    } else {
      OthersLeaveExceptions(db, step);
      OthersOpenNothing(db, step);
    }
  }

  // ---- Every run ---------------------------------------------------------------------------

  /** The second payment of the number is still open to whoever looks after exceptions. */
  predicate AwaitsAnswer(db: Db, no: string) {
    DuplicateKey(no) in db.exceptions && db.exceptions[DuplicateKey(no)].status in {ExceptionOpen, ExceptionProcessing}
  }

  /** A person moves the exception on, or an archive takes it. */
  ghost predicate IsTakenOn(db: Db, step: Step, key: ExceptionKey) {
    || (step.UpdateException? && step.key == key && step.exceptionStatus in {ExceptionResolved, ExceptionIgnored})
    || (step.DeleteApplication? && key !in Apply(db, step).exceptions)
  }

  /** A second payment stays open over any run in which nobody takes it on and it is never paid back in full. */
  lemma {:induction false} DuplicateStaysOpen(db: Db, steps: seq<Step>, no: string)
    requires AwaitsAnswer(db, no)
    requires forall i | 0 <= i < |steps| ::
               var before := Replay(db, steps[..i]);
               !IsTakenOn(before, steps[i], DuplicateKey(no)) && !PaysBackInFull(before, steps[i], no)
    ensures AwaitsAnswer(Replay(db, steps), no)
  {
    hide Apply, Replay, IsTakenOn, PaysBackInFull;
    if steps == [] {
      ReplayNothing(db);
    } else {
      var n := |steps| - 1;
      forall i | 0 <= i < n
        ensures var before := Replay(db, steps[..n][..i]);
                !IsTakenOn(before, steps[..n][i], DuplicateKey(no)) && !PaysBackInFull(before, steps[..n][i], no)
      {
        assert steps[..n][..i] == steps[..i];
      }
      DuplicateStaysOpen(db, steps[..n], no);
      ReplayLast(db, steps);
      StaysOpen(Replay(db, steps[..n]), steps[n], no);
    }
  }

  lemma StaysOpen(db: Db, step: Step, no: string)
    requires AwaitsAnswer(db, no) && !IsTakenOn(db, step, DuplicateKey(no)) && !PaysBackInFull(db, step, no)
    ensures AwaitsAnswer(Apply(db, step), no)
  {
    hide Apply, PaysBackInFull, PaysAgain;
    if step.DeleteApplication? {
      DeletionKeepsStatus(db, step.appId, DuplicateKey(no));
    } else {
      ExceptionsMove(db, step);
      assert KeyMoves(db, step, Apply(db, step).exceptions, DuplicateKey(no));
    }
  }

  lemma DeletionKeepsStatus(db: Db, appId: string, key: ExceptionKey)
    ensures var t := Apply(db, DeleteApplication(appId));
            key in t.exceptions ==> key in db.exceptions && t.exceptions[key] == db.exceptions[key]
  {
    hide Apply, ClearedEvents, ClearedReceipts, ClearedExceptions, ClearedDeliveries, ClearedPayments, ClearedRefunds,
         ArchivedOrders, WithoutReservations, HasBusiness;
    DeletionTaken(db, appId);
  }
}
