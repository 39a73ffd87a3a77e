/**
 Refunds may hold more than their payment: a refund that failed gives its room away, and may hold money again all the
 same, by succeeding or by a slow answer written over the failure. Exactly such returns without room break the cap.
 */
module RefundCap {
  import opened Wrappers
  import opened StateMachine
  import opened Rows
  import opened PaymentSteps
  import opened RefundSteps
  import opened Steps
  import opened Shapes
  import opened OneWinner
  import opened Forward
  import opened RefundTotals
  import RecoveryPolicy

  /** What every payment's refunds hold stays within the payment. */
  ghost predicate AllCapped(payments: Payments, refunds: Refunds) {
    forall no | no in payments :: Total(refunds, no, Reserving) <= payments[no].amount
  }

  ghost predicate WithinCap(db: Db) {
    AllCapped(db.payments, db.refunds)
  }

  /** A slow answer leaves a refund open that has failed by now, although other refunds have taken its room. */
  ghost predicate ReopensWithoutRoom(db: Db, step: Step) {
    && step.RefundObserved? && step.refundNo in db.refunds && db.refunds[step.refundNo].status == RefundFailed
    && step.refundStatus != RefundSuccess && step.refundStatus != RefundFailed
    && CanRefundTransition(step.seen.status, step.refundStatus)
    && var r := db.refunds[step.refundNo];
       r.paymentNo in db.payments
         && Total(db.refunds, r.paymentNo, Reserving) + r.amount > db.payments[r.paymentNo].amount
  }

  /** The step gives a failed refund money to hold although other refunds have taken its room. */
  ghost predicate BreaksCap(db: Db, step: Step) {
    (step.RefundSucceeded? && RevivesWithoutRoom(db, step.refundNo)) || ReopensWithoutRoom(db, step)
  }

  // ---- Steps that are no revival -----------------------------------------------------------

  /** A refund rewritten with the same money, which holds it only if it held it before. */
  lemma NoMoreHeld(payments: Payments, refunds: Refunds, no: string, r: Refund)
    requires AllCapped(payments, refunds) && no in refunds && SameMoney(refunds[no], r)
    requires refunds[no].status == RefundFailed ==> r.status == RefundFailed
    ensures AllCapped(payments, refunds[no := r])
  {
    hide Total;
    forall p ensures Total(refunds[no := r], p, Reserving) <= Total(refunds, p, Reserving) {
      TotalUpdated(refunds, no, r, p, Reserving);
    }
  }

  /** A failed refund that holds money again needs room for it. */
  lemma ReturnNeedsRoom(payments: Payments, refunds: Refunds, no: string, r: Refund)
    requires AllCapped(payments, refunds) && no in refunds && SameMoney(refunds[no], r) && r.paymentNo in payments
    requires refunds[no].status == RefundFailed && r.status != RefundFailed
    ensures AllCapped(payments, refunds[no := r])
            <==> Total(refunds, r.paymentNo, Reserving) + r.amount <= payments[r.paymentNo].amount
  {
    hide Total;
    forall p ensures Total(refunds[no := r], p, Reserving)
                  == Total(refunds, p, Reserving) + (if p == r.paymentNo then r.amount else 0)
    {
      TotalUpdated(refunds, no, r, p, Reserving);
    }
  }

  lemma NewRefundCapped(payments: Payments, refunds: Refunds, no: string, r: Refund)
    requires AllCapped(payments, refunds) && no !in refunds && r.paymentNo in payments && r.status == RefundProcessing
    requires Total(refunds, r.paymentNo, Reserving) + r.amount <= payments[r.paymentNo].amount
    ensures AllCapped(payments, refunds[no := r])
  {
    hide Total;
    forall p ensures Total(refunds[no := r], p, Reserving)
      == Total(refunds, p, Reserving) + (if p == r.paymentNo then r.amount else 0) {
      TotalUpdated(refunds, no, r, p, Reserving);
    }
  }

  lemma ObservedCapped(db: Db, step: Step, payments: Payments)
    requires Inv(db) && step.RefundObserved? && AllCapped(payments, db.refunds)
    requires forall no | no in db.payments :: no in payments && payments[no].amount == db.payments[no].amount
    ensures AllCapped(payments, Put(db.refunds, RefundKey(step), RefundRow(db, step)))
            <==> !ReopensWithoutRoom(db, step)
  {
    hide Inv, AllCapped, Total, RecoveryPolicy.RecoveryDelaySeconds;
    RefundLinked(db, step.refundNo);
    var r := RefundRow(db, step);
    if r.Some? {
      if db.refunds[step.refundNo].status == RefundFailed && r.value.status != RefundFailed {
        ReturnNeedsRoom(payments, db.refunds, step.refundNo, r.value);
      } else {
        NoMoreHeld(payments, db.refunds, step.refundNo, r.value);
      }
    }
  }

  lemma RefundLinked(db: Db, no: string)
    requires Inv(db)
    ensures no in db.refunds ==> db.refunds[no].paymentNo in db.payments
  {
  }

  lemma RefundPutCapped(db: Db, step: Step, payments: Payments)
    requires Inv(db) && !step.RefundSucceeded? && !step.RefundObserved? && !step.DeleteApplication?
    requires AllCapped(payments, db.refunds)
    requires forall no | no in db.payments :: no in payments && payments[no].amount == db.payments[no].amount
    ensures AllCapped(payments, Put(db.refunds, RefundKey(step), RefundRow(db, step)))
  {
    hide Inv, AllCapped, Total, NewRefund, ScheduleOf;
    InvNumbered(db);
    if step.CreateRefund? {
      NewRefundFits(db, step.refund);
      var r := NewRefund(db, step.refund);
      if r.Some? { NewRefundCapped(payments, db.refunds, step.refund.refundNo, r.value); }
    } else if IsRecovery(step) {
      ScheduledSame(db, step);
      var r := ScheduledRefund(db, step);
      if r.Some? { NoMoreHeld(payments, db.refunds, step.record.refundNo, r.value); }
    }
  }

  lemma PaymentPutCapped(db: Db, no: string, row: Option<Payment>)
    requires Inv(db) && WithinCap(db)
    requires row.Some? ==> if no in db.payments then PaymentLater(db.payments[no], row.value) else no !in db.issued
    ensures AllCapped(Put(db.payments, no, row), db.refunds)
  {
    hide Inv, Total;
    if row.Some? && no !in db.payments {
      InvNoRefunds(db, no);
      TotalOfNone(db.refunds, no, Reserving);
    }
  }

  lemma OtherStepsCapped(db: Db, step: Step, t: Db)
    requires Inv(db) && WithinCap(db) && !step.DeleteApplication? && !step.RefundSucceeded?
    requires Moves(db, step, t) && Later(db, t)
    ensures WithinCap(t) <==> !ReopensWithoutRoom(db, step)
  {
    hide Inv, OrderRow, PaymentRow, RefundRow, OrderKey, PaymentKey, RefundKey, AllCapped, Later, ReopensWithoutRoom;
    InvNumbered(db);
    PaymentRowLater(db, step);
    PaymentPutCapped(db, PaymentKey(step), PaymentRow(db, step));
    AmountsStay(db, t);
    if step.RefundObserved? { ObservedCapped(db, step, t.payments); }
    else {
      OnlyAnswersReopen(db, step);
      RefundPutCapped(db, step, t.payments);
    }
  }

  lemma OnlyAnswersReopen(db: Db, step: Step)
    ensures ReopensWithoutRoom(db, step) ==> step.RefundObserved?
  {
  }

  lemma DeletionCapped(db: Db, appId: string, t: Db)
    requires WithinCap(db) && Deletes(db, appId, t)
    ensures WithinCap(t)
  {
    hide Total, Archives, ClearedEvents, ClearedReceipts, ClearedExceptions, ClearedDeliveries, WithoutReservations,
         ClearedRefunds, ClearedPayments, ArchivedOrders;
    forall p ensures Total(db.refunds - ClearedRefunds(db, appId), p, Reserving) <= Total(db.refunds, p, Reserving) {
      TotalShrinks(db.refunds, ClearedRefunds(db, appId), p, Reserving);
    }
  }

  // ---- Refunds that succeed ----------------------------------------------------------------

  lemma SucceededCapped(db: Db, no: string)
    requires WithinCap(db) && PaysBack(db, no)
    ensures AllCapped(db.payments, db.refunds[no := SucceededRefund(db.refunds[no])]) <==> !RevivesWithoutRoom(db, no)
  {
    hide Total, StatusPaidBack, RefundsWinner;
    var r := db.refunds[no];
    var later := db.refunds[no := SucceededRefund(r)];
    forall p ensures Total(later, p, Reserving)
                  == Total(db.refunds, p, Reserving)
                     + (if p == r.paymentNo && r.status == RefundFailed then r.amount else 0)
    {
      TotalUpdated(db.refunds, no, SucceededRefund(r), p, Reserving);
    }
  }

  lemma RefundSucceededCapped(db: Db, no: string, t: Db)
    requires WithinCap(db) && Moves(db, RefundSucceeded(no), t)
    ensures WithinCap(t) <==> !RevivesWithoutRoom(db, no)
  {
    hide AllCapped, SucceededRefund, OrderRow, PaymentRow, RefundRow, OrderKey, PaymentKey, RefundKey, StatusPaidBack,
         RefundsWinner, RefundOpen;
    RefundSucceededRows(db, no);
    if PaysBack(db, no) { SucceededCapped(db, no); }
  }

  // ---- Every step, every run ---------------------------------------------------------------

  /** A step leaves the cap standing exactly when it brings no failed refund back without room. */
  lemma StepCapped(db: Db, step: Step)
    requires Inv(db) && WithinCap(db)
    ensures WithinCap(Apply(db, step)) <==> !BreaksCap(db, step)
  {
    hide Inv, WithinCap, Later, RevivesWithoutRoom, ReopensWithoutRoom, AfterDeleteApplication, Deletes, Apply, Moves,
         Frames;
    OnlyAnswersReopen(db, step);
    StepMoves(db, step);
    if step.DeleteApplication? {
      DeletionTaken(db, step.appId);
      DeletionWrites(db, step.appId);
      DeletionCapped(db, step.appId, Apply(db, step));
    } else {
      StepWrites(db, step);
      if step.RefundSucceeded? { RefundSucceededCapped(db, step.refundNo, Apply(db, step)); }
      else { OtherStepsCapped(db, step, Apply(db, step)); }
    }
  }

  /** The cap held all along the run. */
  ghost predicate CappedThroughout(db: Db, steps: seq<Step>) {
    forall k | 0 <= k <= |steps| :: WithinCap(Replay(db, steps[..k]))
  }

  ghost predicate NeverBroken(db: Db, steps: seq<Step>) {
    forall k | 0 <= k < |steps| :: !BreaksCap(Replay(db, steps[..k]), steps[k])
  }

  /**
   A run keeps every payment's refunds within the payment exactly when it brings no failed refund back without room.
   */
  lemma {:induction false} CapHoldsIffNoReturnWithoutRoom(db: Db, steps: seq<Step>)
    requires Inv(db) && WithinCap(db)
    ensures CappedThroughout(db, steps) <==> NeverBroken(db, steps)
  {
    hide Inv, WithinCap, BreaksCap, Apply, Replay;
    if steps == [] {
      ReplayNothing(db);
      assert steps[..0] == [];
    } else {
      var n := |steps| - 1;
      CapHoldsIffNoReturnWithoutRoom(db, steps[..n]);
      ReplayKeeps(db, steps[..n]);
      ReplayLast(db, steps);
      assert forall k | 0 <= k <= n :: steps[..n][..k] == steps[..k];
      assert steps[..n + 1] == steps;
      if WithinCap(Replay(db, steps[..n])) { StepCapped(Replay(db, steps[..n]), steps[n]); }
      assert CappedThroughout(db, steps) <==> CappedThroughout(db, steps[..n]) && WithinCap(Replay(db, steps));
      assert NeverBroken(db, steps) <==> NeverBroken(db, steps[..n]) && !BreaksCap(Replay(db, steps[..n]), steps[n]);
    }
  }

  // ---- A run that breaks it ----------------------------------------------------------------

  const KNOWN := Identity("e", None, "text")

  const BOUGHT := [
    CreateApp("shop", None),
    CreateOrder("o", OrderRequest("shop", KNOWN, Native, 100, 900, None)),
    CreatePayment(PaymentRequest("o", "p", None, Alipay, "account", BillSettings(false, 0, RemarkMode, 0))),
    Webhook("p", 100, Some("trade"), 0)]

  /** When a refund just asked for is looked at again. */
  const SOON := Some(RecoveryPolicy.RECOVERY_INITIAL_DELAY)

  const REFUNDED_TWICE := [
    CreateRefund(RefundRequest("shop", "first", "x1", "p", 100, None)),
    RefundObserved("first", JUST_RESERVED, RefundFailed, 0.0),
    CreateRefund(RefundRequest("shop", "second", "x2", "p", 100, None)),
    RefundSucceeded("second"),
    RefundSucceeded("first")]

  /** An order of 100 paid by one payment, with these refunds. */
  ghost predicate Bought(db: Db, refunds: Refunds, issued: set<string>) {
    && db.now == 0 && db.refunds == refunds && db.issued == issued
    && "p" in db.payments && db.payments["p"].amount == 100 && db.payments["p"].status == Success
    && db.payments["p"].channel == Alipay && db.payments["p"].orderNo == "o"
    && "o" in db.orders && db.orders["o"].appId == "shop" && db.orders["o"].amount == 100 && !db.orders["o"].deleted
    && db.orders["o"].winner == Some("p")
  }

  lemma AppStage(db: Db)
    requires db == EmptyDb(0)
    ensures var t := Apply(db, BOUGHT[0]);
            "shop" in t.apps && t.now == 0 && t.orders == map[] && t.payments == map[] && t.refunds == map[]
              && t.issued == {}
  {
    StepWrites(db, BOUGHT[0]);
  }

  lemma OrderStage(db: Db)
    requires "shop" in db.apps && db.now == 0 && db.orders == map[] && db.payments == map[] && db.refunds == map[]
             && db.issued == {}
    ensures var t := Apply(db, BOUGHT[1]);
            && t.now == 0 && t.payments == map[] && t.refunds == map[] && t.issued == {}
            && t.orders == map["o" := Order("shop", KNOWN, Native, 100, OrderStatus.OrderCreated, None, 900, 0,
                                            Some(900), None, None, None, false)]
  {
    hide Apply;
    StepWrites(db, BOUGHT[1]);
  }

  lemma PaymentStage(db: Db)
    requires db.now == 0 && db.payments == map[] && db.refunds == map[] && db.issued == {}
    requires db.orders
             == map["o" := Order("shop", KNOWN, Native, 100, OrderStatus.OrderCreated, None, 900, 0, Some(900), None,
                                 None, None, false)]
    ensures var t := Apply(db, BOUGHT[2]);
            && t.now == 0 && t.refunds == map[] && t.issued == {"p"} && t.payments.Keys == {"p"}
            && t.payments["p"].status == Processing
            && t.payments["p"].amount == 100 && t.payments["p"].channel == Alipay && t.payments["p"].orderNo == "o"
            && "o" in t.orders && t.orders["o"].status == OrderPending && t.orders["o"].appId == "shop"
            && t.orders["o"].amount == 100 && !t.orders["o"].deleted
            && t.orders["o"].expiresAt == 900 && t.orders["o"].nextAttemptAt == Some(900)
            && t.orders["o"].lockedUntil == None
  {
    hide Apply, PrepareReceipt;
    StepWrites(db, BOUGHT[2]);
  }

  lemma SuccessStage(db: Db)
    requires db.now == 0 && db.refunds == map[] && db.issued == {"p"} && db.payments.Keys == {"p"}
             && db.payments["p"].status == Processing
    requires db.payments["p"].amount == 100 && db.payments["p"].channel == Alipay && db.payments["p"].orderNo == "o"
    requires "o" in db.orders && db.orders["o"].status == OrderPending && db.orders["o"].appId == "shop"
             && db.orders["o"].amount == 100
    requires !db.orders["o"].deleted
    ensures Bought(Apply(db, BOUGHT[3]), map[], {"p"})
  {
    hide Apply;
    StepWrites(db, BOUGHT[3]);
  }

  lemma BoughtRun()
    ensures Bought(Replay(EmptyDb(0), BOUGHT), map[], {"p"})
  {
    hide Apply, Bought;
    var d := EmptyDb(0);
    AppStage(d);
    OrderStage(Apply(d, BOUGHT[0]));
    PaymentStage(Apply(Apply(d, BOUGHT[0]), BOUGHT[1]));
    SuccessStage(Apply(Apply(Apply(d, BOUGHT[0]), BOUGHT[1]), BOUGHT[2]));
    ReplayFour(d, BOUGHT);
  }

  /** A refund of the whole payment, next asked about at this time. */
  function Asked(external: string, status: RefundStatus, nextQueryAt: Option<int>): Refund {
    Refund("shop", external, "p", 100, None, status, 0, nextQueryAt, false)
  }

  lemma AskStage(db: Db, refunds: Refunds, issued: set<string>, no: string, external: string)
    requires Bought(db, refunds, issued) && no !in issued
    requires forall r | r in refunds :: refunds[r].external != external && refunds[r].status == RefundFailed
    ensures var t := Apply(db, CreateRefund(RefundRequest("shop", no, external, "p", 100, None)));
            Bought(t, refunds[no := Asked(external, RefundProcessing, SOON)], issued + {no})
  {
    hide Apply, Total;
    TotalOfEmptyClass(refunds, "p", Reserving);
    StepWrites(db, CreateRefund(RefundRequest("shop", no, external, "p", 100, None)));
  }

  lemma FailRow(db: Db, refunds: Refunds, issued: set<string>)
    requires Bought(db, refunds, issued) && refunds == map["first" := Asked("x1", RefundProcessing, SOON)]
    ensures RefundRow(db, REFUNDED_TWICE[1]) == Some(Asked("x1", RefundFailed, None))
  {
    hide RecoveryPolicy.RecoveryDelaySeconds;
  }

  lemma FailStage(db: Db, refunds: Refunds, issued: set<string>)
    requires Bought(db, refunds, issued) && refunds == map["first" := Asked("x1", RefundProcessing, SOON)]
    ensures Bought(Apply(db, REFUNDED_TWICE[1]), map["first" := Asked("x1", RefundFailed, None)], issued)
  {
    hide Apply, RefundRow;
    FailRow(db, refunds, issued);
    StepWrites(db, REFUNDED_TWICE[1]);
  }

  lemma PaysBackStage(db: Db, refunds: Refunds, issued: set<string>, no: string)
    requires Bought(db, refunds, issued) && no in refunds && refunds[no].paymentNo == "p"
             && refunds[no].status != RefundSuccess && refunds[no].amount > 0
    ensures PaysBack(db, no)
    ensures Bought(Apply(db, RefundSucceeded(no)), refunds[no := SucceededRefund(refunds[no])], issued)
  {
    hide Apply, Total, OrderRow, PaymentRow, RefundRow, OrderKey, PaymentKey, RefundKey;
    StepWrites(db, RefundSucceeded(no));
    RefundSucceededRows(db, no);
    TotalUpdated(refunds, no, SucceededRefund(refunds[no]), "p", Succeeded);
  }

  lemma TotalOfTwo(a: Refund, b: Refund, kind: RefundClass)
    ensures Total(map["first" := a, "second" := b], "p", kind) == Share(a, "p", kind) + Share(b, "p", kind)
  {
    hide Share;
    var both := map["first" := a, "second" := b];
    TotalWithout(both, "first", "p", kind);
    TotalWithout(both - {"first"}, "second", "p", kind);
    assert both - {"first"} - {"second"} == map[];
  }

  lemma RefundsRun(d: Db) returns (t: Db)
    requires Bought(d, map[], {"p"})
    ensures t == Apply(Apply(Apply(Apply(Apply(d, REFUNDED_TWICE[0]), REFUNDED_TWICE[1]), REFUNDED_TWICE[2]),
                             REFUNDED_TWICE[3]), REFUNDED_TWICE[4])
    ensures Bought(t,
                   map["first" := SucceededRefund(Asked("x1", RefundFailed, None)),
                       "second" := SucceededRefund(Asked("x2", RefundProcessing, SOON))],
                   {"p", "first", "second"})
  {
    hide Apply, Bought;
    var asked, failed := Asked("x1", RefundProcessing, SOON), Asked("x1", RefundFailed, None);
    var other := Asked("x2", RefundProcessing, SOON);
    AskStage(d, map[], {"p"}, "first", "x1");
    assert map[]["first" := asked] == map["first" := asked];
    var d1 := Apply(d, REFUNDED_TWICE[0]);
    FailStage(d1, map["first" := asked], {"p"} + {"first"});
    var d2 := Apply(d1, REFUNDED_TWICE[1]);
    AskStage(d2, map["first" := failed], {"p"} + {"first"}, "second", "x2");
    var d3 := Apply(d2, REFUNDED_TWICE[2]);
    var r3 := map["first" := failed]["second" := other];
    PaysBackStage(d3, r3, {"p"} + {"first"} + {"second"}, "second");
    var d4 := Apply(d3, REFUNDED_TWICE[3]);
    var r4 := r3["second" := SucceededRefund(other)];
    PaysBackStage(d4, r4, {"p"} + {"first"} + {"second"}, "first");
    t := Apply(d4, REFUNDED_TWICE[4]);
    assert r4["first" := SucceededRefund(failed)]
           == map["first" := SucceededRefund(failed), "second" := SucceededRefund(other)];
    assert {"p"} + {"first"} + {"second"} == {"p", "first", "second"};
  }

  lemma ReplayFive(db: Db, steps: seq<Step>)
    requires |steps| == 5
    ensures Replay(db, steps) == Apply(Apply(Apply(Apply(Apply(db, steps[0]), steps[1]), steps[2]), steps[3]), steps[4])
  {
    hide Apply, Replay;
    ReplayLast(db, steps);
    assert steps[..4][0] == steps[0] && steps[..4][1] == steps[1] && steps[..4][2] == steps[2]
           && steps[..4][3] == steps[3];
    ReplayFour(db, steps[..4]);
  }

  /** The unconditional cap is false: here a payment of 100 pays back 200. */
  lemma PaidBackTwice()
    ensures var db := Replay(EmptyDb(0), BOUGHT + REFUNDED_TWICE);
            && Reachable(db) && "p" in db.payments && db.payments["p"].amount == 100
            && Total(db.refunds, "p", Succeeded) == 200
  {
    hide Apply, Replay, Reachable, Total;
    BoughtRun();
    var bought := Replay(EmptyDb(0), BOUGHT);
    var t := RefundsRun(bought);
    ReplayAppend(EmptyDb(0), BOUGHT, REFUNDED_TWICE);
    ReplayFive(bought, REFUNDED_TWICE);
    ReplayReaches(0, BOUGHT + REFUNDED_TWICE);
    TotalOfTwo(SucceededRefund(Asked("x1", RefundFailed, None)), SucceededRefund(Asked("x2", RefundProcessing, SOON)),
               Succeeded);
  }
}
