/** Where successes are announced to: every paid order and every refund of its winner, at the address of its order. */
module Announcements {
  import opened Wrappers
  import opened StateMachine
  import opened Rows
  import opened PaymentSteps
  import opened RefundSteps
  import opened Steps
  import opened Shapes
  import opened OneWinner
  import opened Forward
  import opened News
  import opened ToldOnce
  import opened RefundTotals
  import opened RefundLedger
  import opened Archive
  import RecoveryPolicy

  type Apps = map<string, App>

  /** The order's own address if it has one, else that of its application. */
  function Address(apps: Apps, o: Order): Option<string> {
    match o.notifyUrl
    case Some(_) => o.notifyUrl
    case None => if o.appId in apps then apps[o.appId].webhookUrl else None
  }

  /** One kind of order hears nothing of refunds. */
  predicate Hears(o: Order, event: DeliveryEvent) {
    event == PaymentSucceededDelivery || o.protocol != Epay
  }

  /** The event is on its way to the order's address, if the order has one and hears of such events. */
  predicate Announced(apps: Apps, orderNo: string, o: Order, event: DeliveryEvent, deliveries: Deliveries) {
    var address := Address(apps, o);
    address.Some? && Hears(o, event) ==> DeliveryKey(orderNo, event, address.value) in deliveries
  }

  /** Deliveries go where their orders say, and are those of their orders' applications. */
  ghost predicate WellAddressed(db: Db) {
    forall k | k in db.deliveries ::
      && k.orderNo in db.orders && db.deliveries[k] == db.orders[k.orderNo].appId
      && Address(db.apps, db.orders[k.orderNo]) == Some(k.url) && Hears(db.orders[k.orderNo], k.event)
  }

  /** Every paid order that is not deleted is announced. */
  ghost predicate PaidAnnounced(db: Db) {
    forall o | o in db.orders && !db.orders[o].deleted && db.orders[o].winner.Some? ::
      Announced(db.apps, o, db.orders[o], PaymentSucceededDelivery, db.deliveries)
  }

  /** The refund succeeded, and the order was won by its payment. */
  predicate RefundsOrder(refunds: Refunds, orders: Orders, no: string, o: string) {
    && no in refunds && refunds[no].status == RefundSuccess
    && o in orders && orders[o].winner == Some(refunds[no].paymentNo)
  }

  /** Every successful refund of a winner is announced, unless its order is deleted. */
  ghost predicate RefundsAnnounced(db: Db) {
    forall no, o | RefundsOrder(db.refunds, db.orders, no, o) && !db.orders[o].deleted ::
      Announced(db.apps, o, db.orders[o], RefundSucceededDelivery(no), db.deliveries)
  }

  ghost predicate OrdersHaveApps(db: Db) {
    forall o | o in db.orders :: db.orders[o].appId in db.apps
  }

  ghost predicate Announcing(db: Db) {
    OrdersHaveApps(db) && WellAddressed(db) && PaidAnnounced(db) && RefundsAnnounced(db)
  }

  // ---- What a step delivers ----------------------------------------------------------------

  /** The deliveries with one for the event, unless it is there or has nowhere to go. */
  function WithDelivery(deliveries: Deliveries, apps: Apps, orderNo: string, o: Order,
                        event: DeliveryEvent): Deliveries {
    var address := Address(apps, o);
    if address.None? || !Hears(o, event) || DeliveryKey(orderNo, event, address.value) in deliveries then deliveries
    else deliveries[DeliveryKey(orderNo, event, address.value) := o.appId]
  }

  lemma DeliverIs(db: Db, orderNo: string, event: DeliveryEvent)
    requires orderNo in db.orders
    ensures Deliver(db, orderNo, event).deliveries
            == WithDelivery(db.deliveries, db.apps, orderNo, db.orders[orderNo], event)
  {
    hide DeliveryUrl, Address, Hears;
    UrlIs(db, db.orders[orderNo], event);
  }

  lemma UrlIs(db: Db, o: Order, event: DeliveryEvent)
    ensures DeliveryUrl(db, o, event) == if Hears(o, event) then Address(db.apps, o) else None
  {
  }

  lemma WinIsDelivered(db: Db, r: Report)
    requires WonRow(db, r).Some?
    ensures OrderOf(db, r.paymentNo) in db.orders
    ensures AfterSuccess(db, r).deliveries
            == WithDelivery(db.deliveries, db.apps, OrderOf(db, r.paymentNo), db.orders[OrderOf(db, r.paymentNo)],
                            PaymentSucceededDelivery)
  {
    hide JudgeSuccess, Deliver, SucceededPayment;
    JudgedPresent(db, r);
    var orderNo := OrderOf(db, r.paymentNo);
    var paid := db.(payments := db.payments[r.paymentNo := SucceededPayment(db.payments[r.paymentNo], r)]);
    var won := paid.(orders := paid.orders[orderNo := WonOrder(paid.orders[orderNo], r.paymentNo, r.paidAt)]);
    var told := Emit(Emit(won,
                          Event(PaymentSucceededEvent, PaymentRecord(r.paymentNo), Some(orderNo), Some(r.paymentNo))),
                     Event(OrderSucceededEvent, OrderRecord(orderNo), Some(orderNo), Some(r.paymentNo)));
    DeliverIs(told, orderNo, PaymentSucceededDelivery);
  }

  lemma RefundIsDelivered(db: Db, no: string)
    ensures AfterRefundSucceeded(db, no).deliveries
            == if PaysBack(db, no) && RefundsWinner(db, no)
               then WithDelivery(db.deliveries, db.apps, RefundedOrderNo(db, no), db.orders[RefundedOrderNo(db, no)],
                                 RefundSucceededDelivery(no))
               else db.deliveries
  {
    hide AnnounceRefund, TotalPaidBack, StatusPaidBack, SucceededRefund;
    if PaysBack(db, no) {
      AnnouncedAs(PaidOut(db, no), no, db.refunds[no].paymentNo, RefundedOrderNo(db, no), TotalPaidBack(db, no),
                  RefundsWinner(db, no));
    }
  }

  lemma AnnouncedAs(db: Db, no: string, paymentNo: string, orderNo: string, total: nat, wins: bool)
    requires orderNo in db.orders
    ensures AnnounceRefund(db, no, paymentNo, orderNo, total, wins).deliveries
            == if wins then WithDelivery(db.deliveries, db.apps, orderNo, db.orders[orderNo],
                                         RefundSucceededDelivery(no))
               else db.deliveries
  {
    hide ResolveDuplicate, Deliver, Emit, WithDelivery;
    var e := Event(RefundSucceededEvent, RefundRecord(no), Some(orderNo), Some(paymentNo));
    EmitOnly(db, e);
    EmitKeepsApps(db, e);
    ResolveShape(Emit(db, e), total, paymentNo);
    DeliverIs(ResolveDuplicate(Emit(db, e), total, paymentNo), orderNo, RefundSucceededDelivery(no));
  }

  lemma EmitKeepsApps(db: Db, e: Event)
    ensures Emit(db, e).apps == db.apps
  {
  }

  // ---- Orders keep their addresses ---------------------------------------------------------

  /** Where an order is announced, and whether it is deleted, is as before. */
  predicate SameAddress(a: Order, b: Order) {
    b.appId == a.appId && b.notifyUrl == a.notifyUrl && b.protocol == a.protocol && b.deleted == a.deleted
  }

  /** The order row a step writes keeps the address of the order it replaces; a new one is that of an application. */
  ghost predicate RowAddressed(db: Db, no: string, row: Option<Order>) {
    row.Some? ==> if no in db.orders then SameAddress(db.orders[no], row.value)
                  else row.value.appId in db.apps && row.value.winner.None?
  }

  lemma OrderRowAddress(db: Db, step: Step)
    ensures RowAddressed(db, OrderKey(db, step), OrderRow(db, step))
  {
    hide NewPayment, ReportOf, WonRow, PaidBackOrder, StatusPaidBack, RefundOpen, OrderStepRow, OrderStepKey,
         RowAddressed;
    if IsReport(step) {
      ReportNamesPayment(db, step);
      ReportRowAddress(db, step);
    } else if step.RefundSucceeded? {
      PaidBackAddress(db, step.refundNo);
    } else if IsOrderStep(step) {
      OrderStepAddress(db, step);
    } else {
      PendingAddress(db, step);
    }
  }

  lemma ReportRowAddress(db: Db, step: Step)
    requires IsReport(step) && (ReportOf(db, step).Some? ==> ReportOf(db, step).value.paymentNo == step.no)
    ensures RowAddressed(db, OrderKey(db, step), OrderRow(db, step))
  {
    hide ReportOf, JudgeSuccess;
    if ReportOf(db, step).Some? { WinPresent(db, ReportOf(db, step).value); }
  }

  lemma PaidBackAddress(db: Db, no: string)
    ensures RowAddressed(db, OrderKey(db, RefundSucceeded(no)), OrderRow(db, RefundSucceeded(no)))
  {
    hide StatusPaidBack;
    PaidBackRow(db, no);
  }

  lemma OrderStepAddress(db: Db, step: Step)
    requires IsOrderStep(step)
    ensures RowAddressed(db, OrderKey(db, step), OrderRow(db, step))
  {
    hide HasSuccess, HasActive, IdentityTaken, RecoveryPolicy.ExpirationRetryDelaySeconds;
  }

  lemma PendingAddress(db: Db, step: Step)
    requires !IsReport(step) && !step.RefundSucceeded? && !IsOrderStep(step)
    ensures RowAddressed(db, OrderKey(db, step), OrderRow(db, step))
  {
    hide NewPayment;
  }

  lemma WinPresent(db: Db, r: Report)
    ensures WonRow(db, r).Some? ==> OrderOf(db, r.paymentNo) in db.orders
  {
  }

  lemma PaidBackRow(db: Db, no: string)
    ensures PaidBackOrder(db, no).Some? ==> RefundOpen(db, no) && RefundedOrderNo(db, no) in db.orders
  {
    hide StatusPaidBack;
  }

  /** Applications come by their creation and change by their deletion alone. */
  lemma AppsStayPut(db: Db, step: Step)
    requires !step.CreateApp? && !step.DeleteApplication?
    ensures Apply(db, step).apps == db.apps
  {
    hide AfterSuccess, AfterRefundSucceeded, AfterMismatch, ReportOf, ScheduleOf, AfterOrderStep, AfterRecovery,
         AfterFiling, AfterPaymentStep, AfterCreatePayment, AfterCreateRefund, AfterRefundObserved;
    if IsReport(step) { ReportKeepsApps(db, step); }
    else if step.RefundSucceeded? { RefundKeepsApps(db, step.refundNo); }
    else if step.Mismatch? { MismatchKeepsApps(db, step); }
    else { PlainKeepsApps(db, step); }
  }

  lemma ReportKeepsApps(db: Db, step: Step)
    requires IsReport(step)
    ensures AfterReport(db, ReportOf(db, step)).apps == db.apps
  {
    hide AfterSuccess, ReportOf;
    if ReportOf(db, step).Some? { SuccessShape(db, ReportOf(db, step).value); }
  }

  lemma RefundKeepsApps(db: Db, no: string)
    ensures AfterRefundSucceeded(db, no).apps == db.apps
  {
    hide AfterRefundSucceeded;
    RefundSucceededShape(db, no);
  }

  lemma MismatchKeepsApps(db: Db, step: Step)
    requires step.Mismatch?
    ensures AfterMismatch(db, step.id, step.found, step.ambiguous, step.conflict).apps == db.apps
  {
    hide AfterMismatch, MismatchedReceipt;
    MismatchShape(db, step.id, step.found, step.ambiguous, step.conflict);
  }

  lemma RowsKeepApps(db: Db, step: Step)
    requires step.Tick? || step.CreatePayment? || step.CreateRefund? || step.RefundObserved? || IsPaymentStep(step)
    ensures Apply(db, step).apps == db.apps
  {
    hide NewPayment, Reserved, PendingOrder, NewRefund, ObservedRefund, PaymentStepRow;
  }

  lemma OrdersKeepApps(db: Db, step: Step)
    requires IsOrderStep(step)
    ensures AfterOrderStep(db, step).apps == db.apps
  {
    hide ClosesNow, OrderStepRow, OrderStepKey;
  }

  lemma RecoveryKeepsApps(db: Db, step: Step)
    requires IsRecovery(step)
    ensures AfterRecovery(db, step).apps == db.apps
  {
    hide ScheduleOf, TicketsAfter, ScheduledPayments, ScheduledRefunds, HandedOver, RecordOrder, RecordPayment;
  }

  lemma FilingApps(db: Db, step: Step)
    requires IsFiling(step)
    ensures AfterFiling(db, step).apps == AppsFiled(db, step)
  {
    hide ReceiptRow, ReceiptKey, ExceptionsFiled, AppsFiled;
  }

  lemma PlainKeepsApps(db: Db, step: Step)
    requires !IsReport(step) && !step.RefundSucceeded? && !step.Mismatch? && !step.DeleteApplication?
             && !step.CreateApp?
    ensures Apply(db, step).apps == db.apps
  {
    hide Apply, AfterOrderStep, AfterRecovery, AfterFiling;
    if IsOrderStep(step) {
      OrderApplied(db, step);
      OrdersKeepApps(db, step);
    } else if IsRecovery(step) {
      RecoveryApplied(db, step);
      RecoveryKeepsApps(db, step);
    } else if IsFiling(step) {
      FilingApplied(db, step);
      FilingApps(db, step);
    } else {
      RowsKeepApps(db, step);
    }
  }

  lemma AppsGrow(db: Db, step: Step)
    requires !step.DeleteApplication?
    ensures forall a | a in db.apps :: a in Apply(db, step).apps && Apply(db, step).apps[a] == db.apps[a]
  {
    hide Apply;
    if step.CreateApp? { AppAdded(db, step); } else { AppsStayPut(db, step); }
  }

  lemma AppAdded(db: Db, step: Step)
    requires step.CreateApp?
    ensures forall a | a in db.apps :: a in Apply(db, step).apps && Apply(db, step).apps[a] == db.apps[a]
  {
    hide Apply, AfterFiling;
    FilingApplied(db, step);
    FilingApps(db, step);
  }

  // ---- Every step --------------------------------------------------------------------------

  /** What a step that deletes no application delivers. */
  lemma StepDelivers(db: Db, step: Step)
    requires !step.DeleteApplication?
    ensures Announces(OrderSucceededEvent, db, step) ==> OrderKey(db, step) in db.orders
    ensures Apply(db, step).deliveries
            == if Announces(OrderSucceededEvent, db, step)
               then WithDelivery(db.deliveries, db.apps, OrderKey(db, step), db.orders[OrderKey(db, step)],
                                 PaymentSucceededDelivery)
               else if step.RefundSucceeded? && PaysBack(db, step.refundNo) && RefundsWinner(db, step.refundNo)
               then WithDelivery(db.deliveries, db.apps, RefundedOrderNo(db, step.refundNo),
                                 db.orders[RefundedOrderNo(db, step.refundNo)], RefundSucceededDelivery(step.refundNo))
               else db.deliveries
  {
    hide Apply, AfterReport, AfterRefundSucceeded, ReportOf, WithDelivery, WonRow, PaysBack, RefundsWinner, RefundOpen;
    if IsReport(step) {
      ReportDelivers(db, step);
      ReportApplied(db, step);
    } else if step.RefundSucceeded? {
      RefundIsDelivered(db, step.refundNo);
      RefundApplied(db, step);
    } else {
      OthersDeliverNothing(db, step);
    }
  }

  lemma OthersDeliverNothing(db: Db, step: Step)
    requires !step.DeleteApplication? && !IsReport(step) && !step.RefundSucceeded?
    ensures Apply(db, step).deliveries == db.deliveries
  {
    hide AfterReport, AfterRefundSucceeded, AfterMismatch, AfterOrderStep, AfterRecovery, AfterFiling,
         AfterPaymentStep, AfterCreatePayment, AfterCreateRefund, AfterRefundObserved, AfterDeleteApplication;
    if step.Mismatch? { MismatchDeliversNothing(db, step); }
    else if IsOrderStep(step) {
      OrderApplied(db, step);
      OrderDeliversNothing(db, step);
    } else if IsRecovery(step) {
      RecoveryApplied(db, step);
      RecoveryDeliversNothing(db, step);
    } else if IsFiling(step) {
      FilingApplied(db, step);
      FilingDeliversNothing(db, step);
    }
    else { PlainDeliversNothing(db, step); }
  }

  lemma ReportDelivers(db: Db, step: Step)
    requires IsReport(step)
    ensures Announces(OrderSucceededEvent, db, step) ==> OrderKey(db, step) in db.orders
    ensures AfterReport(db, ReportOf(db, step)).deliveries
            == if Announces(OrderSucceededEvent, db, step)
               then WithDelivery(db.deliveries, db.apps, OrderKey(db, step), db.orders[OrderKey(db, step)],
                                 PaymentSucceededDelivery)
               else db.deliveries
  {
    hide AfterSuccess, ReportOf, WithDelivery, WonRow;
    if ReportOf(db, step).Some? {
      var r := ReportOf(db, step).value;
      ReportNamesPayment(db, step);
      if WonRow(db, r).Some? { WinIsDelivered(db, r); } else { DuplicateDeliversNothing(db, r); }
    }
  }

  /** What a delivery added keeps and brings. */
  lemma AddedIs(deliveries: Deliveries, apps: Apps, orderNo: string, o: Order, event: DeliveryEvent)
    ensures var t := WithDelivery(deliveries, apps, orderNo, o, event);
            && (forall k | k in deliveries :: k in t && t[k] == deliveries[k])
            && (forall k | k in t && k !in deliveries ::
                k.orderNo == orderNo && k.event == event && Address(apps, o) == Some(k.url) && Hears(o, event)
                && t[k] == o.appId)
            && Announced(apps, orderNo, o, event, t)
  {
    hide Address, Hears;
  }

  /** How the orders of two states relate when no application is deleted in between. */
  ghost predicate OrdersOn(db: Db, t: Db) {
    && (forall o | o in db.orders :: o in t.orders && SameAddress(db.orders[o], t.orders[o]))
    && (forall o | o in t.orders && o !in db.orders :: t.orders[o].appId in db.apps && t.orders[o].winner.None?)
    && (forall a | a in db.apps :: a in t.apps && t.apps[a] == db.apps[a])
  }

  lemma StepOrders(db: Db, step: Step)
    requires !step.DeleteApplication?
    ensures OrdersOn(db, Apply(db, step))
  {
    hide Apply, OrderRow, OrderKey, PaymentRow, PaymentKey, RefundRow, RefundKey, Frames;
    AppsGrow(db, step);
    StepWrites(db, step);
    OrderRowAddress(db, step);
  }

  lemma AddressesOn(db: Db, t: Db, o: string)
    requires OrdersHaveApps(db) && OrdersOn(db, t) && o in db.orders
    ensures o in t.orders && Address(t.apps, t.orders[o]) == Address(db.apps, db.orders[o])
            && forall event :: Hears(t.orders[o], event) <==> Hears(db.orders[o], event)
  {
  }

  lemma AppsOn(db: Db, t: Db)
    requires OrdersHaveApps(db) && OrdersOn(db, t)
    ensures OrdersHaveApps(t)
  {
  }

  /** Deliveries of a state: those before, and one for the event of the order. */
  ghost predicate GrowsBy(db: Db, t: Db, orderNo: string, event: DeliveryEvent) {
    t.deliveries == db.deliveries
    || (orderNo in db.orders
        && t.deliveries == WithDelivery(db.deliveries, db.apps, orderNo, db.orders[orderNo], event))
  }

  lemma GrownWellAddressed(db: Db, t: Db, orderNo: string, event: DeliveryEvent)
    requires OrdersHaveApps(db) && WellAddressed(db) && OrdersOn(db, t) && GrowsBy(db, t, orderNo, event)
    ensures WellAddressed(t)
  {
    hide WithDelivery, Address, Hears, OrdersOn, OrdersHaveApps;
    if orderNo in db.orders { AddedIs(db.deliveries, db.apps, orderNo, db.orders[orderNo], event); }
    forall k | k in t.deliveries
      ensures k.orderNo in t.orders && t.deliveries[k] == t.orders[k.orderNo].appId
              && Address(t.apps, t.orders[k.orderNo]) == Some(k.url) && Hears(t.orders[k.orderNo], k.event)
    {
      assert k.orderNo in db.orders;
      AddressesOn(db, t, k.orderNo);
      SameApp(db, t, k.orderNo);
    }
  }

  lemma SameApp(db: Db, t: Db, o: string)
    requires OrdersOn(db, t) && o in db.orders
    ensures o in t.orders && t.orders[o].appId == db.orders[o].appId && t.orders[o].deleted == db.orders[o].deleted
  {
  }

  lemma StillAnnounced(db: Db, t: Db, o: string, event: DeliveryEvent)
    requires OrdersHaveApps(db) && OrdersOn(db, t) && o in db.orders
    requires Announced(db.apps, o, db.orders[o], event, db.deliveries)
    requires forall k | k in db.deliveries :: k in t.deliveries
    ensures o in t.orders && Announced(t.apps, o, t.orders[o], event, t.deliveries)
  {
    hide Address, Hears, OrdersOn, OrdersHaveApps;
    AddressesOn(db, t, o);
  }

  /** A new winner is announced by the very step that makes it one. */
  lemma StepPaidAnnounced(db: Db, step: Step)
    requires Inv(db) && Announcing(db) && !step.DeleteApplication?
    ensures PaidAnnounced(Apply(db, step))
  {
    hide Inv, Apply, Announces, Announced, OrdersOn, OrdersHaveApps, WellAddressed, RefundsAnnounced, WithDelivery,
         OrderKey, TotalPaidBack, StatusPaidBack;
    var t := Apply(db, step);
    StepOrders(db, step);
    StepDelivers(db, step);
    StepGrows(db, step);
    forall o | o in t.orders && !t.orders[o].deleted && t.orders[o].winner.Some?
      ensures Announced(t.apps, o, t.orders[o], PaymentSucceededDelivery, t.deliveries)
    {
      OldOrder(db, t, o);
      SameApp(db, t, o);
      if db.orders[o].winner.None? {
        WinnersStay(db, step, o);
        NewWinner(db, step, o);
        AddedIs(db.deliveries, db.apps, o, db.orders[o], PaymentSucceededDelivery);
        AnnouncedOn(db, t, o, PaymentSucceededDelivery);
      } else {
        StillAnnounced(db, t, o, PaymentSucceededDelivery);
      }
    }
  }

  lemma OldOrder(db: Db, t: Db, o: string)
    requires OrdersOn(db, t) && o in t.orders && t.orders[o].winner.Some?
    ensures o in db.orders
  {
  }

  lemma AnnouncedOn(db: Db, t: Db, o: string, event: DeliveryEvent)
    requires OrdersHaveApps(db) && OrdersOn(db, t) && o in db.orders
    requires Announced(db.apps, o, db.orders[o], event, t.deliveries)
    ensures o in t.orders && Announced(t.apps, o, t.orders[o], event, t.deliveries)
  {
    hide Address, Hears, OrdersOn, OrdersHaveApps;
    AddressesOn(db, t, o);
  }

  /** Only the order of a winning report gets a winner. */
  lemma NewWinner(db: Db, step: Step, o: string)
    requires !step.DeleteApplication? && Announces(OrderSucceededEvent, db, step)
    requires o in db.orders && db.orders[o].winner.None?
    requires o in Apply(db, step).orders && Apply(db, step).orders[o].winner.Some?
    ensures OrderKey(db, step) == o
  {
    hide Apply, OrderRow, OrderKey, PaymentRow, PaymentKey, RefundRow, RefundKey, Frames, Announces;
    StepWrites(db, step);
  }

  lemma StepGrows(db: Db, step: Step)
    requires !step.DeleteApplication?
    ensures forall k | k in db.deliveries :: k in Apply(db, step).deliveries
  {
    hide Apply, Announces, WithDelivery, OrderKey, TotalPaidBack, StatusPaidBack;
    StepDelivers(db, step);
    if Announces(OrderSucceededEvent, db, step) {
      AddedIs(db.deliveries, db.apps, OrderKey(db, step), db.orders[OrderKey(db, step)], PaymentSucceededDelivery);
    } else if step.RefundSucceeded? && PaysBack(db, step.refundNo) && RefundsWinner(db, step.refundNo) {
      AddedIs(db.deliveries, db.apps, RefundedOrderNo(db, step.refundNo),
              db.orders[RefundedOrderNo(db, step.refundNo)], RefundSucceededDelivery(step.refundNo));
    }
  }

  lemma StepWellAddressed(db: Db, step: Step)
    requires OrdersHaveApps(db) && WellAddressed(db) && !step.DeleteApplication?
    ensures WellAddressed(Apply(db, step))
  {
    hide Apply, Announces, WithDelivery, OrderKey, TotalPaidBack, StatusPaidBack, WellAddressed, OrdersHaveApps,
         OrdersOn;
    StepOrders(db, step);
    StepDelivers(db, step);
    if !Announces(OrderSucceededEvent, db, step) && step.RefundSucceeded? && PaysBack(db, step.refundNo)
       && RefundsWinner(db, step.refundNo) {
      GrownWellAddressed(db, Apply(db, step), RefundedOrderNo(db, step.refundNo),
                         RefundSucceededDelivery(step.refundNo));
    } else {
      GrownWellAddressed(db, Apply(db, step), OrderKey(db, step), PaymentSucceededDelivery);
    }
  }

  // ---- Refunds -----------------------------------------------------------------------------

  /** A step that gives an order a winner gives it a payment without refunds. */
  lemma WinnerHasNoRefunds(db: Db, step: Step, o: string)
    requires Inv(db) && !step.DeleteApplication?
    requires HasWinner(Apply(db, step), o) && !HasWinner(db, o)
    ensures !step.RefundSucceeded?
    ensures forall no | no in db.refunds :: db.refunds[no].paymentNo != Apply(db, step).orders[o].winner.value
  {
    hide Inv, Apply, OrderRow, OrderKey, PaymentRow, PaymentKey, RefundRow, RefundKey, Frames;
    StepWrites(db, step);
    if step.RefundSucceeded? {
      RefundWinsNothing(db, step);
    } else {
      OrderRowKeepsWinner(db, step);
      InvNoRefunds(db, Apply(db, step).orders[o].winner.value);
    }
  }

  lemma RefundWinsNothing(db: Db, step: Step)
    requires step.RefundSucceeded?
    ensures OrderRow(db, step).Some? && OrderRow(db, step).value.winner.Some? ==> HasWinner(db, OrderKey(db, step))
  {
    hide StatusPaidBack;
  }

  /** An order's winner is that of the table before, or newly given. */
  lemma SameWinner(db: Db, step: Step, o: string)
    requires Inv(db) && HasWinner(db, o)
    ensures HasWinner(Apply(db, step), o) && Apply(db, step).orders[o].winner == db.orders[o].winner
  {
    hide Inv, Apply, PaymentsLater, RefundsLater;
    StepMoves(db, step);
  }

  lemma NewSuccess(db: Db, step: Step, no: string)
    requires Inv(db) && !step.DeleteApplication?
    requires no in Apply(db, step).refunds && Apply(db, step).refunds[no].status == RefundSuccess
    ensures || (no in db.refunds && db.refunds[no].status == RefundSuccess
                && Apply(db, step).refunds[no].paymentNo == db.refunds[no].paymentNo)
            || (step.RefundSucceeded? && step.refundNo == no && PaysBack(db, no)
                && Apply(db, step).refunds[no].paymentNo == db.refunds[no].paymentNo)
  {
    hide Inv, Apply, OrderRow, OrderKey, PaymentRow, PaymentKey, RefundRow, Frames, PaysBack, PaymentsLater,
         OrdersLater;
    StepWrites(db, step);
    SuccessRow(db, step);
    StepMoves(db, step);
    if step.RefundSucceeded? && PaysBack(db, no) { OpenIsStored(db, no); }
  }

  lemma OpenIsStored(db: Db, no: string)
    requires PaysBack(db, no)
    ensures no in db.refunds
  {
  }

  /** A refund that newly counts for an order is the one that succeeds with the step. */
  lemma NewlyRefunds(db: Db, step: Step, no: string, o: string)
    requires Inv(db) && !step.DeleteApplication? && !RefundsOrder(db.refunds, db.orders, no, o)
    requires RefundsOrder(Apply(db, step).refunds, Apply(db, step).orders, no, o)
    ensures step.RefundSucceeded? && step.refundNo == no && PaysBack(db, no) && RefundsWinner(db, no)
            && RefundedOrderNo(db, no) == o
  {
    hide Inv, Apply, TotalPaidBack, StatusPaidBack;
    NewSuccess(db, step, no);
    if HasWinner(db, o) {
      SameWinner(db, step, o);
      if PaysBack(db, no) { WinnersOwnOrder(db, no); }
    } else {
      WinnerHasNoRefunds(db, step, o);
    }
  }

  /** A refund of a winner is announced by the very step that makes it successful. */
  lemma StepRefundsAnnounced(db: Db, step: Step)
    requires Inv(db) && Announcing(db) && !step.DeleteApplication?
    ensures RefundsAnnounced(Apply(db, step))
  {
    hide Inv, Apply, Announces, Announced, OrdersOn, OrdersHaveApps, WellAddressed, PaidAnnounced, WithDelivery,
         OrderKey, TotalPaidBack, StatusPaidBack;
    var t := Apply(db, step);
    StepOrders(db, step);
    StepDelivers(db, step);
    StepGrows(db, step);
    forall no, o | RefundsOrder(t.refunds, t.orders, no, o) && !t.orders[o].deleted
      ensures Announced(t.apps, o, t.orders[o], RefundSucceededDelivery(no), t.deliveries)
    {
      OldOrder(db, t, o);
      SameApp(db, t, o);
      if RefundsOrder(db.refunds, db.orders, no, o) {
        StillAnnounced(db, t, o, RefundSucceededDelivery(no));
      } else {
        NewlyRefunds(db, step, no, o);
        RefundTellsOfNoWin(db, step);
        AddedIs(db.deliveries, db.apps, o, db.orders[o], RefundSucceededDelivery(no));
        AnnouncedOn(db, t, o, RefundSucceededDelivery(no));
      }
    }
  }

  lemma RefundTellsOfNoWin(db: Db, step: Step)
    requires step.RefundSucceeded?
    ensures !Announces(OrderSucceededEvent, db, step)
  {
  }

  // ---- Deletions ---------------------------------------------------------------------------

  /** What an archive leaves of orders, deliveries and refunds. */
  ghost predicate OthersStay(db: Db, t: Db, appId: string) {
    && t.orders.Keys == db.orders.Keys
    && (forall o | o in db.orders ::
        && t.orders[o].appId == db.orders[o].appId
        && if db.orders[o].appId == appId then t.orders[o].deleted
           else t.orders[o] == db.orders[o] && Address(t.apps, t.orders[o]) == Address(db.apps, db.orders[o]))
    && (forall k :: (k in t.deliveries <==> k in db.deliveries && db.deliveries[k] != appId)
                    && (k in t.deliveries ==> t.deliveries[k] == db.deliveries[k]))
    && (forall no | no in t.refunds :: no in db.refunds && t.refunds[no] == db.refunds[no])
  }

  lemma ArchiveLeavesOthers(db: Db, t: Db, appId: string)
    requires TakesOwnRows(db, t, appId)
    ensures OthersStay(db, t, appId)
  {
    hide OwnTracesGo, Address, OwnBusinessGoes, OnlyDisabled, About;
    DeliveriesLeft(db, t, appId);
    OrdersLeft(db, t, appId);
    forall o | o in db.orders && db.orders[o].appId != appId
      ensures t.orders[o] == db.orders[o] && Address(t.apps, t.orders[o]) == Address(db.apps, db.orders[o])
    {
      OtherAddress(db, t, appId, o);
    }
  }

  lemma DeliveriesLeft(db: Db, t: Db, appId: string)
    requires OwnTracesGo(db, t, appId)
    ensures forall k :: (k in t.deliveries <==> k in db.deliveries && db.deliveries[k] != appId)
                        && (k in t.deliveries ==> t.deliveries[k] == db.deliveries[k])
  {
  }

  lemma OrdersLeft(db: Db, t: Db, appId: string)
    requires OwnBusinessGoes(db, t, appId)
    ensures t.orders.Keys == db.orders.Keys
    ensures forall o | o in db.orders ::
              t.orders[o].appId == db.orders[o].appId && (db.orders[o].appId == appId ==> t.orders[o].deleted)
    ensures forall no | no in t.refunds :: no in db.refunds && t.refunds[no] == db.refunds[no]
  {
  }

  /** Archiving takes the deliveries of the application, whose orders are deleted with it. */
  lemma ArchiveAnnounces(db: Db, appId: string)
    requires Announcing(db)
    ensures Announcing(AfterArchive(db, appId))
  {
    hide AfterArchive, TakesOwnRows, OthersStay, Announcing;
    ArchiveTakesOwnRows(db, appId);
    var t := AfterArchive(db, appId);
    ArchiveLeavesOthers(db, t, appId);
    AppsLeft(db, t, appId);
    LeftAnnounces(db, t, appId);
  }

  lemma AppsLeft(db: Db, t: Db, appId: string)
    requires TakesOwnRows(db, t, appId)
    ensures forall a | a in db.apps :: a in t.apps
  {
    hide OwnTracesGo, OwnBusinessGoes;
  }

  lemma LeftAnnounces(db: Db, t: Db, appId: string)
    requires Announcing(db) && OthersStay(db, t, appId) && forall a | a in db.apps :: a in t.apps
    ensures Announcing(t)
  {
    hide Address, Hears;
  }

  lemma OtherAddress(db: Db, t: Db, appId: string, o: string)
    requires TakesOwnRows(db, t, appId) && o in db.orders && db.orders[o].appId != appId
    ensures o in t.orders && t.orders[o] == db.orders[o]
    ensures Address(t.apps, t.orders[o]) == Address(db.apps, db.orders[o])
  {
    hide OwnTracesGo;
  }

  /** Without business there is nothing to announce. */
  lemma RemovalAnnounces(db: Db, appId: string)
    requires Announcing(db) && !HasBusiness(db, appId)
    ensures Announcing(db.(apps := db.apps - {appId}))
  {
    hide Hears;
  }

  lemma DeletionAnnounces(db: Db, appId: string)
    requires Announcing(db)
    ensures Announcing(AfterDeleteApplication(db, appId))
  {
    hide AfterArchive, Announcing, HasBusiness;
    ArchiveAnnounces(db, appId);
    if !HasBusiness(db, appId) { RemovalAnnounces(db, appId); }
  }

  // ---- Every state -------------------------------------------------------------------------

  lemma StepAnnounces(db: Db, step: Step)
    requires Inv(db) && Announcing(db)
    ensures Announcing(Apply(db, step))
  {
    hide Inv, Apply, OrdersHaveApps, WellAddressed, PaidAnnounced, RefundsAnnounced, OrdersOn, AfterDeleteApplication;
    if step.DeleteApplication? {
      DeletionTaken(db, step.appId);
      DeletionAnnounces(db, step.appId);
    } else {
      StepOrders(db, step);
      AppsOn(db, Apply(db, step));
      StepWellAddressed(db, step);
      StepPaidAnnounced(db, step);
      StepRefundsAnnounced(db, step);
    }
  }

  lemma {:induction false} RunAnnounces(now: int, steps: seq<Step>)
    ensures Announcing(Replay(EmptyDb(now), steps))
  {
    hide Inv, Announcing, Apply, Replay;
    if steps == [] {
      NothingToAnnounce(now);
    } else {
      var n := |steps| - 1;
      RunAnnounces(now, steps[..n]);
      AlwaysInv(now, steps[..n]);
      ReplayLast(EmptyDb(now), steps);
      StepAnnounces(Replay(EmptyDb(now), steps[..n]), steps[n]);
    }
  }

  lemma NothingToAnnounce(now: int)
    ensures Announcing(Replay(EmptyDb(now), []))
  {
  }

  /**
   In every state deliveries go to the address of their order and none is missing: every paid order and every successful
   refund of its winner is on its way to the order's own address, or to that of its application where it has none,
   unless the order was deleted or has no address, or is of the kind that hears nothing of refunds.
   */
  lemma AlwaysAnnounced(db: Db)
    requires Reachable(db)
    ensures WellAddressed(db) && PaidAnnounced(db) && RefundsAnnounced(db)
  {
    hide Reachable, Replay;
    var now, steps := ReachedByReplay(db);
    RunAnnounces(now, steps);
  }
}
