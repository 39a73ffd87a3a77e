/**
 A slow answer of the channel is written over whatever the refund is by then, a success included. Exactly such answers
 take a success back, and exactly some of them leave an order with the wrong status.
 */
module RefundRaces {
  import opened Wrappers
  import opened StateMachine
  import opened RecoveryPolicy
  import opened Rows
  import opened PaymentSteps
  import opened RefundSteps
  import opened Steps
  import opened Shapes
  import opened OneWinner
  import opened Forward
  import opened RefundTotals
  import opened RefundCap

  /** The step writes an answer other than success over the refund. */
  predicate Overwrites(step: Step, no: string) {
    && step.RefundObserved? && step.refundNo == no && step.refundStatus != RefundSuccess
    && CanRefundTransition(step.seen.status, step.refundStatus)
  }

  // ---- Whether a success stands ------------------------------------------------------------

  predicate Stands(db: Db, no: string) {
    no in db.refunds && db.refunds[no].status == RefundSuccess
  }

  lemma OverwrittenRow(db: Db, step: Step, no: string)
    requires Inv(db) && Stands(db, no)
    ensures RefundKey(step) == no ==>
              RefundRow(db, step).Some? ==>
                (RefundRow(db, step).value.status == RefundSuccess <==> !Overwrites(step, no))
    ensures Overwrites(step, no) ==> RefundKey(step) == no && RefundRow(db, step).Some?
  {
    hide Inv, NewRefund, ScheduleOf, RecoveryDelaySeconds;
    InvNumbered(db);
    RefundLinked(db, no);
    if step.CreateRefund? { NewRefundFits(db, step.refund); }
    else if IsRecovery(step) { ScheduledSame(db, step); }
  }

  lemma ArchiveKeepsSuccess(db: Db, appId: string, t: Db, no: string)
    requires Deletes(db, appId, t) && Stands(db, no)
    ensures Stands(t, no)
  {
    hide Archives, ClearedPayments, ClearedEvents, ClearedReceipts, ClearedExceptions, ClearedDeliveries,
         ArchivedOrders, WithoutReservations;
  }

  /** One step takes a success back exactly when it writes another answer over it. */
  lemma StepStands(db: Db, step: Step, no: string)
    requires Inv(db) && Stands(db, no)
    ensures Stands(Apply(db, step), no) <==> !Overwrites(step, no)
  {
    hide Inv, Apply, Frames, RefundRow, RefundKey, OrderRow, PaymentRow, AfterDeleteApplication, Deletes;
    if step.DeleteApplication? {
      DeletionTaken(db, step.appId);
      DeletionWrites(db, step.appId);
      ArchiveKeepsSuccess(db, step.appId, Apply(db, step), no);
    } else {
      StepWrites(db, step);
      OverwrittenRow(db, step, no);
    }
  }

  ghost predicate StandsThroughout(db: Db, steps: seq<Step>, no: string) {
    forall k | 0 <= k <= |steps| :: Stands(Replay(db, steps[..k]), no)
  }

  /** The success of a refund stands through a run exactly when no step of it writes another answer over the refund. */
  lemma {:induction false} SuccessStandsExactly(db: Db, steps: seq<Step>, no: string)
    requires Inv(db) && Stands(db, no)
    ensures StandsThroughout(db, steps, no) <==> forall k | 0 <= k < |steps| :: !Overwrites(steps[k], no)
  {
    hide Inv, Stands, Overwrites, Apply, Replay;
    if steps == [] {
      ReplayNothing(db);
      assert steps[..0] == [];
    } else {
      var n := |steps| - 1;
      SuccessStandsExactly(db, steps[..n], no);
      ReplayKeeps(db, steps[..n]);
      ReplayLast(db, steps);
      assert forall k | 0 <= k <= n :: steps[..n][..k] == steps[..k];
      assert steps[..n + 1] == steps;
      if Stands(Replay(db, steps[..n]), no) { StepStands(Replay(db, steps[..n]), steps[n], no); }
      assert StandsThroughout(db, steps, no) <==> StandsThroughout(db, steps[..n], no) && Stands(Replay(db, steps), no);
    }
  }

  // ---- Whether an order's status is what its refunds add up to -----------------------------

  /** The payment's other successful refunds. */
  ghost function OthersPaidBack(db: Db, no: string): nat
    requires no in db.refunds
  {
    Total(db.refunds - {no}, db.refunds[no].paymentNo, Succeeded)
  }

  /**
   The step takes the success of a winner's refund back, and the winner's other refunds ask for another order status.
   */
  ghost predicate Unsettles(db: Db, step: Step) {
    && step.RefundObserved? && Overwrites(step, step.refundNo) && Stands(db, step.refundNo)
    && exists o | o in db.orders && db.orders[o].winner == Some(db.refunds[step.refundNo].paymentNo) ::
         db.orders[o].status != StatusFor(OthersPaidBack(db, step.refundNo), db.orders[o].amount)
  }

  /** A refund whose success neither comes nor goes adds the same to every total. */
  lemma SameSuccess(refunds: Refunds, orders: Orders, no: string, r: Refund)
    requires StatusesFit(orders, refunds)
    requires no in refunds ==>
               SameMoney(refunds[no], r) && (refunds[no].status == RefundSuccess <==> r.status == RefundSuccess)
    requires no !in refunds ==> r.status != RefundSuccess
    ensures StatusesFit(orders, refunds[no := r])
  {
    hide Total;
    forall p ensures Total(refunds[no := r], p, Succeeded) == Total(refunds, p, Succeeded) {
      TotalUpdated(refunds, no, r, p, Succeeded);
    }
  }

  /** A success taken back leaves what the other refunds add up to. */
  lemma TakenBack(refunds: Refunds, no: string, r: Refund, p: string)
    requires no in refunds && SameMoney(refunds[no], r) && r.status != RefundSuccess
    ensures Total(refunds[no := r], p, Succeeded)
            == if p == r.paymentNo then Total(refunds - {no}, p, Succeeded) else Total(refunds, p, Succeeded)
  {
    hide Total;
    TotalUpdated(refunds, no, r, p, Succeeded);
    TotalWithout(refunds, no, p, Succeeded);
  }

  lemma OverwrittenFits(db: Db, step: Step, r: Refund)
    requires Fitting(db) && step.RefundObserved? && Overwrites(step, step.refundNo) && Stands(db, step.refundNo)
    requires SameMoney(db.refunds[step.refundNo], r) && r.status != RefundSuccess
    ensures StatusesFit(db.orders, db.refunds[step.refundNo := r]) <==> !Unsettles(db, step)
  {
    hide Total, StatusFor, Overwrites;
    forall p ensures Total(db.refunds[step.refundNo := r], p, Succeeded)
      == if p == r.paymentNo then Total(db.refunds - {step.refundNo}, p, Succeeded) else Total(db.refunds, p, Succeeded)
    {
      TakenBack(db.refunds, step.refundNo, r, p);
    }
  }

  lemma ObservedRow(db: Db, step: Step)
    requires Inv(db) && step.RefundObserved?
    ensures var r := RefundRow(db, step);
            && (r.Some? <==> step.refundNo in db.refunds && Overwrites(step, step.refundNo))
            && (r.Some? ==> SameMoney(db.refunds[step.refundNo], r.value) && r.value.status != RefundSuccess)
  {
    hide Inv, RecoveryDelaySeconds;
    RefundLinked(db, step.refundNo);
  }

  lemma ObservedFits(db: Db, step: Step)
    requires Inv(db) && Fitting(db) && step.RefundObserved?
    ensures StatusesFit(db.orders, Put(db.refunds, step.refundNo, RefundRow(db, step))) <==> !Unsettles(db, step)
  {
    hide Inv, Fitting, StatusesFit, RefundRow, Overwrites, SameMoney;
    ObservedRow(db, step);
    var r := RefundRow(db, step);
    if r.Some? {
      if Stands(db, step.refundNo) { OverwrittenFits(db, step, r.value); }
      else { FittingIs(db); SameSuccess(db.refunds, db.orders, step.refundNo, r.value); }
    } else { FittingIs(db); }
  }

  lemma FittingIs(db: Db)
    ensures Fitting(db) <==> StatusesFit(db.orders, db.refunds)
  {
  }

  /** A refund that succeeds moves its order to the status of the new total. */
  lemma SucceededStatuses(orders: Orders, refunds: Refunds, no: string, orderNo: string)
    requires StatusesFit(orders, refunds)
    requires no in refunds && refunds[no].status != RefundSuccess && refunds[no].amount > 0 && orderNo in orders
    requires forall o | o in orders && orders[o].winner == Some(refunds[no].paymentNo) :: o == orderNo
    ensures var r, later := refunds[no], refunds[no := SucceededRefund(refunds[no])];
            var status := RefundedOrderStatus(Total(later, r.paymentNo, Succeeded), orders[orderNo].amount);
            && status.Ok?
            && StatusesFit(if orders[orderNo].winner == Some(r.paymentNo)
                           then orders[orderNo := orders[orderNo].(status := status.value)] else orders, later)
  {
    hide Total, SucceededRefund;
    var later := refunds[no := SucceededRefund(refunds[no])];
    forall p
      ensures Total(later, p, Succeeded)
           == Total(refunds, p, Succeeded) + (if p == refunds[no].paymentNo then refunds[no].amount else 0)
    {
      SucceedingTotal(refunds, no, p);
    }
  }

  lemma SucceedingTotal(refunds: Refunds, no: string, p: string)
    requires no in refunds && refunds[no].status != RefundSuccess
    ensures Total(refunds[no := SucceededRefund(refunds[no])], p, Succeeded)
            == Total(refunds, p, Succeeded) + (if p == refunds[no].paymentNo then refunds[no].amount else 0)
  {
    hide Total;
    TotalUpdated(refunds, no, SucceededRefund(refunds[no]), p, Succeeded);
  }

  lemma PaidBackFits(db: Db, no: string)
    requires Inv(db) && Fitting(db) && PaysBack(db, no)
    ensures StatusesFit(Put(db.orders, RefundedOrderNo(db, no), PaidBackOrder(db, no)),
                        db.refunds[no := SucceededRefund(db.refunds[no])])
  {
    hide Inv, Total, SucceededRefund, StatusesFit;
    WinnersOwnOrder(db, no);
    RefundPositive(db, no);
    SucceededStatuses(db.orders, db.refunds, no, RefundedOrderNo(db, no));
  }

  lemma SucceededFits(db: Db, no: string, t: Db)
    requires Inv(db) && Fitting(db) && Moves(db, RefundSucceeded(no), t)
    ensures Fitting(t)
  {
    hide Inv, StatusesFit, RefundedOrderNo, SucceededRefund, OrderRow, PaymentRow, RefundRow, OrderKey, PaymentKey,
         RefundKey, StatusPaidBack, RefundsWinner;
    RefundSucceededRows(db, no);
    if PaysBack(db, no) { PaidBackFits(db, no); }
  }

  lemma OtherRowsFit(db: Db, step: Step, orders: Orders)
    requires Inv(db) && !step.RefundObserved? && !step.RefundSucceeded? && !step.DeleteApplication?
    requires StatusesFit(orders, db.refunds)
    ensures StatusesFit(orders, Put(db.refunds, RefundKey(step), RefundRow(db, step)))
  {
    hide Inv, StatusesFit, NewRefund, ScheduleOf;
    InvNumbered(db);
    if step.CreateRefund? {
      NewRefundFits(db, step.refund);
      var r := NewRefund(db, step.refund);
      if r.Some? { SameSuccess(db.refunds, orders, step.refund.refundNo, r.value); }
    } else if IsRecovery(step) {
      ScheduledSame(db, step);
      var r := ScheduledRefund(db, step);
      if r.Some? { SameSuccess(db.refunds, orders, step.record.refundNo, r.value); }
    }
  }

  lemma OrdersStay(db: Db, step: Step)
    requires step.RefundObserved?
    ensures OrderRow(db, step) == None && RefundKey(step) == step.refundNo
  {
  }

  lemma MovesFit(db: Db, step: Step, t: Db)
    requires Inv(db) && Fitting(db) && !step.DeleteApplication? && !step.RefundSucceeded? && Moves(db, step, t)
    ensures Fitting(t) <==> !Unsettles(db, step)
  {
    hide Inv, OrderRow, PaymentRow, RefundRow, OrderKey, PaymentKey, RefundKey, KeepsWinner, StatusesFit, Overwrites;
    if step.RefundObserved? {
      OrdersStay(db, step);
      ObservedFits(db, step);
    } else {
      OrderRowKeepsWinner(db, step);
      OrderPutFits(db, OrderKey(db, step), OrderRow(db, step));
      OtherRowsFit(db, step, t.orders);
    }
  }

  lemma ArchivedStatuses(db: Db, appId: string)
    requires StatusesFit(db.orders, db.refunds)
    ensures StatusesFit(ArchivedOrders(db, appId), db.refunds - ClearedRefunds(db, appId))
  {
    forall p ensures Total(db.refunds - ClearedRefunds(db, appId), p, Succeeded) == Total(db.refunds, p, Succeeded) {
      TotalDropped(db.refunds, ClearedRefunds(db, appId), p, Succeeded);
    }
  }

  lemma DeletionFits(db: Db, appId: string, t: Db)
    requires Fitting(db) && Deletes(db, appId, t)
    ensures Fitting(t)
  {
    hide StatusesFit, Archives, ClearedEvents, ClearedReceipts, ClearedExceptions, ClearedDeliveries,
         WithoutReservations, ClearedRefunds, ClearedPayments, ArchivedOrders;
    ArchivedStatuses(db, appId);
  }

  /** A step leaves the order statuses what refunds add up to exactly when it unsettles none. */
  lemma StepFits(db: Db, step: Step)
    requires Inv(db) && Fitting(db)
    ensures Fitting(Apply(db, step)) <==> !Unsettles(db, step)
  {
    hide Inv, Fitting, Apply, AfterDeleteApplication, Deletes, Moves, Frames, Overwrites;
    if step.DeleteApplication? {
      DeletionTaken(db, step.appId);
      DeletionWrites(db, step.appId);
      DeletionFits(db, step.appId, Apply(db, step));
    } else {
      StepWrites(db, step);
      if step.RefundSucceeded? { SucceededFits(db, step.refundNo, Apply(db, step)); }
      else { MovesFit(db, step, Apply(db, step)); }
    }
  }

  ghost predicate FitsThroughout(db: Db, steps: seq<Step>) {
    forall k | 0 <= k <= |steps| :: Fitting(Replay(db, steps[..k]))
  }

  ghost predicate NeverUnsettled(db: Db, steps: seq<Step>) {
    forall k | 0 <= k < |steps| :: !Unsettles(Replay(db, steps[..k]), steps[k])
  }

  /** Order statuses are what refunds add up to all along a run exactly when no step of it unsettles one. */
  lemma {:induction false} StatusesFitExactly(db: Db, steps: seq<Step>)
    requires Inv(db) && Fitting(db)
    ensures FitsThroughout(db, steps) <==> NeverUnsettled(db, steps)
  {
    hide Inv, Fitting, Unsettles, Apply, Replay;
    if steps == [] {
      ReplayNothing(db);
      assert steps[..0] == [];
    } else {
      var n := |steps| - 1;
      StatusesFitExactly(db, steps[..n]);
      ReplayKeeps(db, steps[..n]);
      ReplayLast(db, steps);
      assert forall k | 0 <= k <= n :: steps[..n][..k] == steps[..k];
      assert steps[..n + 1] == steps;
      if Fitting(Replay(db, steps[..n])) { StepFits(Replay(db, steps[..n]), steps[n]); }
      assert FitsThroughout(db, steps) <==> FitsThroughout(db, steps[..n]) && Fitting(Replay(db, steps));
      assert NeverUnsettled(db, steps)
             <==> NeverUnsettled(db, steps[..n]) && !Unsettles(Replay(db, steps[..n]), steps[n]);
    }
  }

  /**
   After any run that unsettles no order, an order is SUCCESS, PARTIALLY_REFUNDED or REFUNDED exactly as its winner paid
   back nothing, some or all of it.
   */
  lemma StatusIsRefundTotal(now: int, steps: seq<Step>, orderNo: string)
    requires NeverUnsettled(EmptyDb(now), steps) && orderNo in Replay(EmptyDb(now), steps).orders
    ensures var db := Replay(EmptyDb(now), steps);
            var o := db.orders[orderNo];
            && (IsPaid(o.status) <==> o.winner.Some?)
            && (o.winner.Some? ==>
                  var total := Total(db.refunds, o.winner.value, Succeeded);
                  && (o.status == OrderSuccess <==> total == 0)
                  && (o.status == OrderPartiallyRefunded <==> 0 < total < o.amount)
                  && (o.status == OrderRefunded <==> o.amount <= total))
  {
    hide Inv, Replay, Total, NeverUnsettled;
    EmptyInv(now);
    EmptySums(now);
    StatusesFitExactly(EmptyDb(now), steps);
    AlwaysInv(now, steps);
    var db := Replay(EmptyDb(now), steps);
    assert steps[..|steps|] == steps;
    assert Fitting(db);
    InvWinners(db, orderNo);
    OrdersPositive(db, orderNo);
  }

  lemma OrdersPositive(db: Db, orderNo: string)
    requires Inv(db)
    ensures orderNo in db.orders ==> db.orders[orderNo].amount > 0
  {
  }

  // ---- Answers judged by the stored status -------------------------------------------------

  /** An answer is judged by the status that is stored when it is written. */
  predicate JudgedFresh(db: Db, step: Step) {
    step.RefundObserved? && step.refundNo in db.refunds ==> step.seen.status == db.refunds[step.refundNo].status
  }

  ghost predicate AllJudgedFresh(db: Db, steps: seq<Step>) {
    forall k | 0 <= k < |steps| :: JudgedFresh(Replay(db, steps[..k]), steps[k])
  }

  /** Nothing can follow a success. */
  lemma FreshSpares(db: Db, step: Step, no: string)
    requires JudgedFresh(db, step) && Stands(db, no)
    ensures !Overwrites(step, no)
  {
  }

  lemma FreshSettles(db: Db, step: Step)
    requires JudgedFresh(db, step)
    ensures !Unsettles(db, step)
  {
    hide JudgedFresh, OthersPaidBack;
    if step.RefundObserved? && Stands(db, step.refundNo) { FreshSpares(db, step, step.refundNo); }
  }

  /** If every answer were judged by the stored status, a success would stand for good. */
  lemma {:induction false} FreshSuccessStands(db: Db, steps: seq<Step>, no: string)
    requires Inv(db) && Stands(db, no) && AllJudgedFresh(db, steps)
    ensures StandsThroughout(db, steps, no)
  {
    hide Inv, Stands, Overwrites, Apply, Replay, JudgedFresh;
    if steps == [] {
      ReplayNothing(db);
      assert steps[..0] == [];
    } else {
      var n := |steps| - 1;
      assert forall k | 0 <= k <= n :: steps[..n][..k] == steps[..k];
      FreshSuccessStands(db, steps[..n], no);
      ReplayKeeps(db, steps[..n]);
      ReplayLast(db, steps);
      assert steps[..n + 1] == steps && steps[..n][..n] == steps[..n];
      FreshSpares(Replay(db, steps[..n]), steps[n], no);
      StepStands(Replay(db, steps[..n]), steps[n], no);
    }
  }

  /** And the statuses of orders would be what refunds add up to, all along. */
  lemma FreshStatusesFit(now: int, steps: seq<Step>)
    requires AllJudgedFresh(EmptyDb(now), steps)
    ensures FitsThroughout(EmptyDb(now), steps)
  {
    hide Inv, Fitting, Unsettles, Apply, Replay, JudgedFresh, FitsThroughout;
    EmptyInv(now);
    EmptySums(now);
    forall k | 0 <= k < |steps| ensures !Unsettles(Replay(EmptyDb(now), steps[..k]), steps[k]) {
      FreshSettles(Replay(EmptyDb(now), steps[..k]), steps[k]);
    }
    StatusesFitExactly(EmptyDb(now), steps);
  }

  // ---- It happens --------------------------------------------------------------------------

  /**
   A refund of unknown outcome is found paid, by another query or a statement, while a slow query still says it is
   not.
   */
  const OVERTAKEN: seq<Step> := [
    CreateRefund(RefundRequest("shop", "first", "x1", "p", 100, None)),
    RefundObserved("first", JUST_RESERVED, RefundUnknown, 0.0),
    RefundSucceeded("first"),
    RefundObserved("first", Seen(RefundUnknown, 0), RefundProcessing, 0.0)]

  /** A refund after an answer at time zero. */
  function Answered(r: Refund, status: RefundStatus): Refund {
    r.(status := status, revived := CameBack(r),
       nextQueryAt := if IsRecoverableRefund(status) then Some(RecoveryDelaySeconds(1, 0.0)) else None)
  }

  lemma AnswerRow(db: Db, r: Refund, issued: set<string>, seen: Seen, status: RefundStatus)
    requires Bought(db, map["first" := r], issued) && r.paymentNo == "p" && status != RefundSuccess
    requires CanRefundTransition(seen.status, status) && seen.attempts == 0
    ensures RefundRow(db, RefundObserved("first", seen, status, 0.0)) == Some(Answered(r, status))
  {
    hide RecoveryDelaySeconds;
  }

  lemma AnswerStage(db: Db, r: Refund, issued: set<string>, seen: Seen, status: RefundStatus)
    requires Bought(db, map["first" := r], issued) && r.paymentNo == "p" && status != RefundSuccess
    requires CanRefundTransition(seen.status, status) && seen.attempts == 0
    ensures var t := Apply(db, RefundObserved("first", seen, status, 0.0));
            Bought(t, map["first" := Answered(r, status)], issued) && t.orders == db.orders
  {
    hide Apply, RefundRow, Answered;
    AnswerRow(db, r, issued, seen, status);
    StepWrites(db, RefundObserved("first", seen, status, 0.0));
  }

  /** Paying the whole payment back refunds the order. */
  lemma PaidBackStage(db: Db, r: Refund, issued: set<string>)
    requires Bought(db, map["first" := r], issued) && r.paymentNo == "p" && r.amount == 100 && r.status != RefundSuccess
    ensures var t := Apply(db, RefundSucceeded("first"));
            Bought(t, map["first" := SucceededRefund(r)], issued) && t.orders["o"].status == OrderRefunded
  {
    hide Apply, Total, SucceededRefund, OrderRow, PaymentRow, RefundRow, OrderKey, PaymentKey, RefundKey;
    PaysBackStage(db, map["first" := r], issued, "first");
    assert map["first" := r]["first" := SucceededRefund(r)] == map["first" := SucceededRefund(r)];
    StepWrites(db, RefundSucceeded("first"));
    RefundSucceededRows(db, "first");
    SucceedingTotal(db.refunds, "first", "p");
  }

  lemma OvertakenRun(d: Db)
    requires Bought(d, map[], {"p"})
    ensures var t := Apply(Apply(Apply(Apply(d, OVERTAKEN[0]), OVERTAKEN[1]), OVERTAKEN[2]), OVERTAKEN[3]);
            && "o" in t.orders && t.orders["o"].status == OrderRefunded && t.orders["o"].winner == Some("p")
            && t.refunds.Keys == {"first"} && t.refunds["first"].status == RefundProcessing
  {
    hide Apply, Bought, RecoveryDelaySeconds;
    var asked := Asked("x1", RefundProcessing, SOON);
    AskStage(d, map[], {"p"}, "first", "x1");
    assert map[]["first" := asked] == map["first" := asked];
    var d1 := Apply(d, OVERTAKEN[0]);
    AnswerStage(d1, asked, {"p"} + {"first"}, JUST_RESERVED, RefundUnknown);
    var unknown := Answered(asked, RefundUnknown);
    var d2 := Apply(d1, OVERTAKEN[1]);
    PaidBackStage(d2, unknown, {"p"} + {"first"});
    var d3 := Apply(d2, OVERTAKEN[2]);
    AnswerStage(d3, SucceededRefund(unknown), {"p"} + {"first"}, Seen(RefundUnknown, 0), RefundProcessing);
    BoughtIs(d3, map["first" := SucceededRefund(unknown)], {"p"} + {"first"});
    BoughtIs(Apply(d3, OVERTAKEN[3]), map["first" := Answered(SucceededRefund(unknown), RefundProcessing)],
             {"p"} + {"first"});
  }

  lemma BoughtIs(db: Db, refunds: Refunds, issued: set<string>)
    requires Bought(db, refunds, issued)
    ensures db.refunds == refunds && "o" in db.orders && db.orders["o"].winner == Some("p")
  {
  }

  /** A reachable state in which an order counts as refunded, and the refund that did it as open. */
  lemma SuccessIsTakenBack()
    ensures var db := Replay(EmptyDb(0), BOUGHT + OVERTAKEN);
            && Reachable(db) && "o" in db.orders && db.orders["o"].status == OrderRefunded
            && db.orders["o"].winner == Some("p") && Total(db.refunds, "p", Succeeded) == 0
  {
    hide Apply, Replay, Reachable, Total, Bought;
    BoughtRun();
    var bought := Replay(EmptyDb(0), BOUGHT);
    OvertakenRun(bought);
    ReplayAppend(EmptyDb(0), BOUGHT, OVERTAKEN);
    ReplayFour(bought, OVERTAKEN);
    ReplayReaches(0, BOUGHT + OVERTAKEN);
    TotalOfEmptyClass(Replay(EmptyDb(0), BOUGHT + OVERTAKEN).refunds, "p", Succeeded);
  }
}
