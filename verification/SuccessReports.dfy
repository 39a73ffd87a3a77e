/** Which reports make a payment successful, and what the payment then says it received. */
module SuccessReports {
  import opened Wrappers
  import opened StateMachine
  import opened ReceiptText
  import opened Rows
  import opened PaymentSteps
  import opened RefundSteps
  import opened Steps
  import opened Shapes
  import opened OneWinner
  import opened Forward
  import opened BillPayments
  import opened BillMatching
  import RecoveryPolicy

  /** The step vouches for the whole payment, over the payment's own channel. */
  predicate Vouches(step: Step, no: string, p: Payment) {
    match step
    case Webhook(named, amount, _, _) => named == no && p.channel == Alipay && amount == p.amount
    case QuerySuccess(named, _, _) => named == no && p.channel == Alipay
    case MockSucceed(named) => named == no && p.channel == Mock
    case StatementIncome(named, amount, tradeNo, _) =>
      && named == no && p.channel == Alipay && amount == p.amount
      && (p.tradeNo.None? || tradeNo.None? || p.tradeNo == tradeNo)
    case ReceiptSuccess(accountId, named, flow) =>
      && named == no && p.channel == AlipayBill && accountId == p.accountId && flow.amount == p.channelAmount
      && p.terms.Some? && p.terms.value.validFrom <= flow.paidAt <= p.terms.value.validUntil
      && (p.terms.value.mode == RemarkMode ==> ExtractReference(flow.remark) == Some(p.terms.value.reference))
    case _ => false
  }

  /** The trade number the payment will carry once the step has made it successful. */
  function TradeAfter(step: Step, p: Payment): Option<string> {
    var named := match step
      case Webhook(_, _, tradeNo, _) => tradeNo
      case QuerySuccess(_, tradeNo, _) => tradeNo
      case MockSucceed(no) => Some("mock_" + no)
      case StatementIncome(_, _, tradeNo, _) => tradeNo
      case ReceiptSuccess(_, _, flow) => Some(flow.tradeNo)
      case _ => None;
    if named.Some? then named else p.tradeNo
  }

  /** No other payment carries the trade number. */
  predicate Untaken(payments: map<string, Payment>, no: string, tradeNo: Option<string>) {
    tradeNo.Some? ==> forall other | other in payments && other != no :: payments[other].tradeNo != tradeNo
  }

  /** What a successful payment received, and when: the line's amount over a bill, its own amount anywhere else. */
  predicate PaidBy(step: Step, p: Payment, q: Payment) {
    && q.received == Some(if p.channel == AlipayBill then p.channelAmount else p.amount)
    && q.tradeNo == TradeAfter(step, p) && q.nextQueryAt == None
    && (step.Webhook? || step.QuerySuccess? || step.StatementIncome? ==> q.paidAt == Some(step.paidAt))
    && (step.ReceiptSuccess? ==> q.paidAt == Some(step.flow.paidAt) && q.flow == Some(step.flow))
  }

  /** A step vouches for a payment exactly if it reports the payment's own amount. */
  lemma ReportVouches(db: Db, step: Step, no: string)
    requires IsReport(step) && step.no == no && no in db.payments && db.payments[no].status != Success
    ensures Vouches(step, no, db.payments[no])
            <==> ReportOf(db, step).Some? && ReportOf(db, step).value.amount == db.payments[no].amount
    ensures ReportOf(db, step).Some? ==>
              var p, r := db.payments[no], ReportOf(db, step).value;
              && r.paymentNo == no && TradeAfter(step, p) == (if r.tradeNo.Some? then r.tradeNo else p.tradeNo)
              && (r.amount == p.amount ==> PaidBy(step, p, SucceededPayment(p, r)))
  {
    hide ExtractReference;
  }

  /** What is written of a payment that is not successful yet. */
  lemma RowTaken(db: Db, step: Step, r: Report)
    requires IsReport(step) && ReportOf(db, step) == Some(r) && r.paymentNo == step.no
    requires step.no in db.payments && db.payments[step.no].status != Success
             && db.payments[step.no].orderNo in db.orders
    ensures PaymentRow(db, step)
            == if r.amount == db.payments[step.no].amount && TradeNoFree(db, step.no, r.tradeNo)
               then Some(SucceededPayment(db.payments[step.no], r)) else None
  {
    hide ReportOf, TradeNoFree, SucceededPayment;
  }

  /** The row a report writes makes its payment successful. */
  ghost predicate TakenAs(db: Db, step: Step, p: Payment) {
    PaymentRow(db, step).Some? ==>
      PaymentRow(db, step).value.status == Success && PaidBy(step, p, PaymentRow(db, step).value)
  }

  lemma ReportTaken(db: Db, step: Step, no: string)
    requires IsReport(step) && step.no == no && no in db.payments && db.payments[no].status != Success
    requires db.payments[no].orderNo in db.orders && TradesApart(db.payments)
    ensures PaymentRow(db, step).Some? <==>
              Vouches(step, no, db.payments[no]) && Untaken(db.payments, no, TradeAfter(step, db.payments[no]))
    ensures TakenAs(db, step, db.payments[no])
  {
    hide ReportOf, Vouches, TradeAfter, TradeNoFree, Untaken, TradesApart, PaymentRow, PaidBy;
    ReportVouches(db, step, no);
    OwnTradeFree(db, no);
    if ReportOf(db, step).Some? {
      var r := ReportOf(db, step).value;
      RowTaken(db, step, r);
      FreeIsUntaken(db, no, r.tradeNo);
    } else {
      NothingReported(db, step);
    }
  }

  lemma NothingReported(db: Db, step: Step)
    requires IsReport(step) && ReportOf(db, step).None?
    ensures PaymentRow(db, step).None?
  {
    hide ReportOf;
  }

  lemma FreeIsUntaken(db: Db, no: string, tradeNo: Option<string>)
    ensures TradeNoFree(db, no, tradeNo) <==> Untaken(db.payments, no, tradeNo)
    ensures Untaken(db.payments, no, None)
  {
  }

  /** A payment has its trade number for itself. */
  lemma OwnTradeFree(db: Db, no: string)
    requires no in db.payments && TradesApart(db.payments)
    ensures Untaken(db.payments, no, db.payments[no].tradeNo)
  {
  }

  /** Nothing but a report makes a payment successful. */
  lemma OthersLeave(db: Db, step: Step, no: string)
    requires !step.DeleteApplication? && no in db.payments && db.payments[no].status != Success
    requires !(IsReport(step) && step.no == no)
    ensures !(PaymentKey(step) == no && PaymentRow(db, step).Some? && PaymentRow(db, step).value.status == Success)
    ensures !Vouches(step, no, db.payments[no])
  {
    hide ReportOf, SucceededRow, ExtractReference;
    if PaymentRow(db, step).Some? && PaymentRow(db, step).value.status == Success { OnlyReportsSucceed(db, step); }
  }

  /**
   A step makes a payment successful exactly when it vouches for the whole of it over its own channel, under a trade
   number that no other payment carries; the payment then says what it received.
   */
  lemma SucceedsExactly(db: Db, step: Step, no: string)
    requires Reachable(db) && no in db.payments && db.payments[no].status != Success
    ensures var p, t := db.payments[no], Apply(db, step);
            && (no in t.payments && t.payments[no].status == Success
                <==> Vouches(step, no, p) && Untaken(db.payments, no, TradeAfter(step, p)))
            && (no in t.payments && t.payments[no].status == Success ==> PaidBy(step, p, t.payments[no]))
  {
    hide Inv, Reachable, Billing, Apply, Frames, PaymentRow, OrderRow, OrderKey, RefundRow, RefundKey, Vouches, Untaken,
         TradeAfter, PaidBy, AfterDeleteApplication, Deletes;
    ReachableInv(db);
    ReachableBills(db);
    if step.DeleteApplication? {
      DeletionTaken(db, step.appId);
      DeletionWrites(db, step.appId);
      if no in Apply(db, step).payments { DeletionPaysNothing(db, step.appId, Apply(db, step), no); }
      DeletionVouchesNot(step, no, db.payments[no]);
    } else {
      StepWrites(db, step);
      if IsReport(step) && step.no == no {
        PaymentHasOrder(db, no);
        BillsApart(db);
        ReportTaken(db, step, no);
      } else {
        OthersLeave(db, step, no);
      }
    }
  }

  lemma DeletionVouchesNot(step: Step, no: string, p: Payment)
    requires step.DeleteApplication?
    ensures !Vouches(step, no, p)
  {
  }

  lemma PaymentHasOrder(db: Db, no: string)
    requires Inv(db) && no in db.payments
    ensures db.payments[no].orderNo in db.orders
  {
  }

  lemma BillsApart(db: Db)
    requires Billing(db)
    ensures TradesApart(db.payments)
  {
  }

  // ---- What a successful payment received --------------------------------------------------

  /** A successful payment received exactly what was asked for. */
  ghost predicate ReceivedInFull(payments: map<string, Payment>) {
    forall no | no in payments && payments[no].status == Success ::
      payments[no].received == Some(if payments[no].channel == AlipayBill then payments[no].channelAmount
                                    else payments[no].amount)
  }

  lemma StepReceives(db: Db, step: Step)
    requires Reachable(db) && ReceivedInFull(db.payments)
    ensures ReceivedInFull(Apply(db, step).payments)
  {
    hide Inv, Reachable, Apply, Vouches, Untaken, TradeAfter, Later;
    ReachableInv(db);
    StepMoves(db, step);
    var t := Apply(db, step);
    forall no | no in t.payments && t.payments[no].status == Success
      ensures t.payments[no].received == Some(if t.payments[no].channel == AlipayBill then t.payments[no].channelAmount
                                              else t.payments[no].amount)
    {
      if no in db.payments {
        KeepsTerms(db, t, no);
        if db.payments[no].status != Success { SucceedsExactly(db, step, no); }
      } else {
        NewcomerWaits(db, step, no);
      }
    }
  }

  lemma KeepsTerms(db: Db, t: Db, no: string)
    requires Later(db, t) && no in db.payments && no in t.payments
    ensures PaymentLater(db.payments[no], t.payments[no])
  {
    hide OrdersLater, RefundsLater;
  }

  /** A payment that a step brings into being is not successful. */
  lemma NewcomerWaits(db: Db, step: Step, no: string)
    requires no !in db.payments && no in Apply(db, step).payments
    ensures Apply(db, step).payments[no].status != Success
  {
    hide Apply, Frames, PaymentRow, OrderRow, OrderKey, RefundRow, RefundKey, AfterDeleteApplication, Archives,
         ClearedEvents, ClearedReceipts, ClearedExceptions, ClearedDeliveries, WithoutReservations, ClearedRefunds,
         ClearedPayments, ArchivedOrders;
    if step.DeleteApplication? {
      DeletionTaken(db, step.appId);
      DeletionWrites(db, step.appId);
    } else {
      StepWrites(db, step);
      NewRowWaits(db, step);
    }
  }

  lemma NewRowWaits(db: Db, step: Step)
    requires PaymentRow(db, step).Some? && PaymentKey(step) !in db.payments
    ensures PaymentRow(db, step).value.status != Success
  {
    hide NewPayment, ScheduleOf;
    if step.CreatePayment? { NewPaymentShape(db, step.request); }
    else if IsReport(step) { ReportNamesPayment(db, step); }
  }

  lemma {:induction false} RunReceives(now: int, steps: seq<Step>)
    ensures ReceivedInFull(Replay(EmptyDb(now), steps).payments)
  {
    hide Apply, Reachable, Replay;
    if steps == [] {
      ReplayNothing(EmptyDb(now));
    } else {
      var front := steps[..|steps| - 1];
      RunReceives(now, front);
      ReplayReaches(now, front);
      ReplayLast(EmptyDb(now), steps);
      StepReceives(Replay(EmptyDb(now), front), steps[|steps| - 1]);
    }
  }

  /** In every reachable state a successful payment received its amount, or over a bill the amount asked for there. */
  lemma PaidInFull(db: Db, no: string)
    requires Reachable(db) && no in db.payments && db.payments[no].status == Success
    ensures db.payments[no].received
            == Some(if db.payments[no].channel == AlipayBill then db.payments[no].channelAmount
                    else db.payments[no].amount)
  {
    hide Reachable, Replay;
    var now, steps := ReachedByReplay(db);
    RunReceives(now, steps);
  }

  // ---- Reports on a payment that is successful already -------------------------------------

  /** Whatever a report says of a successful payment, nothing changes. */
  lemma RepeatChangesNothing(db: Db, step: Step)
    requires IsReport(step) && step.no in db.payments && db.payments[step.no].status == Success
    ensures Apply(db, step) == db
  {
    hide AfterWin, OpenException, FlowFits;
  }
}
