/** When orders, payments and refunds come into being, and what they start as. */
module Creations {
  import opened Wrappers
  import opened StateMachine
  import opened ReceiptText
  import opened Rows
  import opened PaymentSteps
  import opened RefundSteps
  import opened Steps
  import opened Shapes
  import opened OneWinner
  import opened Forward
  import Money

  // ---- Orders ------------------------------------------------------------------------------

  /** An order of the application has the number or the key, deleted or not. */
  predicate Known(orders: map<string, Order>, appId: string, identity: Identity) {
    exists no | no in orders ::
      orders[no].appId == appId
      && (orders[no].identity.external == identity.external
          || (identity.key.Some? && orders[no].identity.key == identity.key))
  }

  lemma OrderCreatedExactly(db: Db, orderNo: string, w: OrderRequest)
    requires orderNo !in db.orders
    ensures var t := Apply(db, CreateOrder(orderNo, w));
            && (orderNo in t.orders <==> w.appId in db.apps && w.amount > 0 && !Known(db.orders, w.appId, w.identity))
            && (orderNo in t.orders ==>
                  t.orders == db.orders[orderNo := Order(w.appId, w.identity, w.protocol, w.amount,
                                                         OrderStatus.OrderCreated, None, db.now + w.ttl, 0,
                                                         Some(db.now + w.ttl), None, w.notifyUrl, None, false)])
            && (orderNo !in t.orders ==> t == db)
  {
    hide Apply;
    CreationTaken(db, CreateOrder(orderNo, w));
  }

  // ---- Payments ----------------------------------------------------------------------------

  /** Somebody else's reservation of the value is not over. */
  predicate Held(db: Db, accountId: string, mode: MatchMode, value: string) {
    var key := ReservationKey(accountId, mode, value);
    key in db.reservations && db.reservations[key].expiresAt > db.now
  }

  /** The order may be paid for: it is there, open, and not expired. */
  predicate Payable(db: Db, orderNo: string) {
    && orderNo in db.orders && !db.orders[orderNo].deleted && db.orders[orderNo].expiresAt > db.now
    && db.orders[orderNo].status in {OrderStatus.OrderCreated, OrderPending}
  }

  predicate KeyTaken(db: Db, orderNo: string, key: Option<string>) {
    key.Some? && exists no | no in db.payments :: db.payments[no].orderNo == orderNo && db.payments[no].key == key
  }

  /** The window of a bill payment created now: as long as configured, and no longer than its order. */
  function WindowEnd(db: Db, req: PaymentRequest): int
    requires req.orderNo in db.orders
  {
    if db.now + req.bill.validSeconds < db.orders[req.orderNo].expiresAt then db.now + req.bill.validSeconds
    else db.orders[req.orderNo].expiresAt
  }

  predicate FreeAt(db: Db, accountId: string, amount: nat, offset: nat) {
    !Held(db, accountId, AmountMode, Money.Decimal(amount + offset))
  }

  /** One of the amounts with an offset between these bounds is free. */
  predicate AmountFree(db: Db, accountId: string, amount: nat, from: nat, max: nat) {
    exists i: nat | from <= i <= max :: FreeAt(db, accountId, amount, i)
  }

  /** A bill payment can be told apart: its channel is set up, and an amount or its reference is free. */
  predicate Recognisable(db: Db, req: PaymentRequest)
    requires req.orderNo in db.orders
  {
    && req.bill.enabled && WindowEnd(db, req) > db.now
    && if req.bill.mode == RemarkMode then !Held(db, req.accountId, RemarkMode, RemarkReference(req.paymentNo))
       else AmountFree(db, req.accountId, db.orders[req.orderNo].amount, 0, req.bill.offsetMax)
  }

  /** What a payment starts as. */
  predicate StartsAs(db: Db, req: PaymentRequest, p: Payment)
    requires req.orderNo in db.orders
  {
    && p.orderNo == req.orderNo && p.key == req.key && p.channel == req.channel && p.accountId == req.accountId
    && p.status == Processing && p.amount == db.orders[req.orderNo].amount && p.attempts == 0
    && p.received.None? && p.tradeNo.None? && p.channelOrderNo.None? && p.flow.None? && p.paidAt.None?
    && p.nextQueryAt == (if p.channel == Alipay then Some(db.now + 15) else None)
    && (p.channel != AlipayBill ==> p.terms.None? && p.channelAmount == p.amount)
    && (p.channel == AlipayBill ==>
          && p.terms.Some? && p.terms.value.mode == req.bill.mode
          && p.terms.value.validFrom == db.now && p.terms.value.validUntil == WindowEnd(db, req)
          && (req.bill.mode == RemarkMode ==>
                p.channelAmount == p.amount && p.terms.value.reference == RemarkReference(req.paymentNo))
          && (req.bill.mode == AmountMode ==>
                p.amount <= p.channelAmount <= p.amount + req.bill.offsetMax
                && p.terms.value.reference == Money.Decimal(p.channelAmount)))
  }

  lemma LiveIsHeld(db: Db, accountId: string, mode: MatchMode, value: string)
    ensures ReservationKey(accountId, mode, value) in LiveReservations(db, accountId)
            <==> Held(db, accountId, mode, value)
  {
  }

  lemma {:induction false} SomeFree(db: Db, accountId: string, amount: nat, from: nat, max: nat)
    requires from <= max + 1
    ensures FirstFree(LiveReservations(db, accountId), accountId, amount, from, max).Some?
            <==> AmountFree(db, accountId, amount, from, max)
    ensures var r := FirstFree(LiveReservations(db, accountId), accountId, amount, from, max);
            r.Some? ==> from <= r.value <= max
    decreases max + 1 - from
  {
    hide LiveReservations, Held, Money.Decimal;
    if from <= max {
      LiveIsHeld(db, accountId, AmountMode, Money.Decimal(amount + from));
      SomeFree(db, accountId, amount, from + 1, max);
      assert FreeAt(db, accountId, amount, from)
             <==> AmountKey(accountId, amount + from) !in LiveReservations(db, accountId);
    }
  }

  lemma PreparedExactly(db: Db, req: PaymentRequest)
    requires req.orderNo in db.orders
    ensures var prepared := PrepareReceipt(db, req, db.orders[req.orderNo]);
            && (prepared.Ok? <==> Recognisable(db, req))
            && (prepared == Err(BillNotConfigured) <==> !req.bill.enabled)
            && (prepared == Err(OrderExpired) <==> req.bill.enabled && WindowEnd(db, req) <= db.now)
            && (prepared == Err(AmountPoolExhausted) || prepared == Err(ReferenceTaken) ==>
                  (prepared == Err(ReferenceTaken) <==> req.bill.mode == RemarkMode))
            && (prepared.Err? ==>
                  prepared.error in {BillNotConfigured, OrderExpired, AmountPoolExhausted, ReferenceTaken})
  {
    hide LiveReservations, Held, Money.Decimal, RemarkReference, FirstFree, AmountFree;
    SomeFree(db, req.accountId, db.orders[req.orderNo].amount, 0, req.bill.offsetMax);
    LiveIsHeld(db, req.accountId, RemarkMode, RemarkReference(req.paymentNo));
  }

  lemma PreparedAs(db: Db, req: PaymentRequest)
    requires req.orderNo in db.orders && PrepareReceipt(db, req, db.orders[req.orderNo]).Ok?
    ensures var order := db.orders[req.orderNo];
            var (terms, amount) := PrepareReceipt(db, req, order).value;
            && terms.mode == req.bill.mode && terms.validFrom == db.now && terms.validUntil == WindowEnd(db, req)
            && (req.bill.mode == RemarkMode ==>
                  amount == order.amount && terms.reference == RemarkReference(req.paymentNo))
            && (req.bill.mode == AmountMode ==>
                  order.amount <= amount <= order.amount + req.bill.offsetMax
                  && terms.reference == Money.Decimal(amount))
  {
    hide LiveReservations, Held, Money.Decimal, RemarkReference, FirstFree, AmountFree;
    SomeFree(db, req.accountId, db.orders[req.orderNo].amount, 0, req.bill.offsetMax);
  }

  /** A payable order, and a key not used with it. */
  predicate Fresh(db: Db, req: PaymentRequest) {
    Payable(db, req.orderNo) && !KeyTaken(db, req.orderNo, req.key)
  }

  /** A bill payment whose window would be over at once. */
  predicate OpensTooLate(db: Db, req: PaymentRequest) {
    && Fresh(db, req) && req.paymentNo !in db.issued
    && req.channel == AlipayBill && req.bill.enabled && WindowEnd(db, req) <= db.now
  }

  /** What the creation of a payment is refused for, in this order. */
  lemma PaymentRefused(db: Db, req: PaymentRequest)
    ensures var v := PaymentVerdict(db, req);
            var stored := req.orderNo in db.orders && !db.orders[req.orderNo].deleted;
            && (v == Err(OrderNotFound) <==> !stored)
            && (v == Err(OrderNotPayable)
                <==> stored && db.orders[req.orderNo].expiresAt > db.now && !Payable(db, req.orderNo))
            && (v == Ok(None) <==> Payable(db, req.orderNo) && KeyTaken(db, req.orderNo, req.key))
            && (v == Err(NumberTaken) <==> Fresh(db, req) && req.paymentNo in db.issued)
            && (v == Err(OrderExpired)
                <==> (stored && db.orders[req.orderNo].expiresAt <= db.now) || OpensTooLate(db, req))
  {
    hide PrepareReceipt, RemarkReference;
    if req.orderNo in db.orders { PreparedExactly(db, req); }
  }

  /** A payment comes into being exactly for a payable order, under a new number and key, if it can be told apart. */
  lemma PaymentCreatedExactly(db: Db, req: PaymentRequest)
    requires req.paymentNo !in db.payments
    ensures var t := Apply(db, CreatePayment(req));
            && (req.paymentNo in t.payments
                <==> Fresh(db, req) && req.paymentNo !in db.issued
                     && (req.channel == AlipayBill ==> Recognisable(db, req)))
            && (req.paymentNo in t.payments ==>
                  && t.payments == db.payments[req.paymentNo := t.payments[req.paymentNo]]
                  && StartsAs(db, req, t.payments[req.paymentNo])
                  && req.orderNo in t.orders && t.orders[req.orderNo].status == OrderPending)
            && (req.paymentNo !in t.payments ==> t == db)
  {
    hide Apply, PrepareReceipt, RemarkReference, Recognisable, Reserved;
    CreationTaken(db, CreatePayment(req));
    if req.orderNo in db.orders {
      PreparedExactly(db, req);
      if PrepareReceipt(db, req, db.orders[req.orderNo]).Ok? { PreparedAs(db, req); }
    }
  }

  // ---- Refunds -----------------------------------------------------------------------------

  /** A refund of the application has the number. */
  predicate NumberUsed(db: Db, appId: string, external: string) {
    exists no | no in db.refunds :: db.refunds[no].appId == appId && db.refunds[no].external == external
  }

  /** The payment may be paid back: it succeeded, for an order of the application that is not deleted. */
  predicate Refundable(db: Db, appId: string, no: string) {
    && no in db.payments && db.payments[no].status == Success
    && db.payments[no].orderNo in db.orders
    && db.orders[db.payments[no].orderNo].appId == appId && !db.orders[db.payments[no].orderNo].deleted
  }

  /** All that refunds of the payment hold or have paid out, failed ones aside. */
  ghost predicate HasRoom(db: Db, no: string, amount: nat)
    requires no in db.payments
  {
    Total(db.refunds, no, Reserving) + amount <= db.payments[no].amount
  }

  /**
   A refund comes into being exactly for an amount above zero, under a new number of the application, on a refundable
   payment with room for it.
   */
  lemma RefundCreatedExactly(db: Db, req: RefundRequest)
    requires req.refundNo !in db.refunds
    ensures var t := Apply(db, CreateRefund(req));
            && (req.refundNo in t.refunds
                <==> && req.amount > 0 && !NumberUsed(db, req.appId, req.external) && req.refundNo !in db.issued
                     && Refundable(db, req.appId, req.paymentNo) && HasRoom(db, req.paymentNo, req.amount))
            && (req.refundNo in t.refunds ==>
                  t.refunds == db.refunds[req.refundNo := Refund(
                                 req.appId, req.external, req.paymentNo, req.amount, req.reason, RefundProcessing, 0,
                                 if db.payments[req.paymentNo].channel == Alipay then Some(db.now + 15) else None,
                                 false)])
            && (req.refundNo !in t.refunds ==> t == db)
  {
    hide Apply, Total;
    CreationTaken(db, CreateRefund(req));
  }

  /** What the creation of a refund is refused for. */
  lemma RefundRefused(db: Db, req: RefundRequest)
    ensures var v := RefundVerdict(db, req);
            var used := NumberUsed(db, req.appId, req.external);
            var found := req.paymentNo in db.payments && db.payments[req.paymentNo].orderNo in db.orders
                         && db.orders[db.payments[req.paymentNo].orderNo].appId == req.appId
                         && !db.orders[db.payments[req.paymentNo].orderNo].deleted;
            && (v == Err(RefundAmountInvalid) <==> req.amount == 0)
            && (v == Err(RefundIdempotencyConflict) ==> req.amount > 0 && used)
            && (v == Ok(None) ==> req.amount > 0 && used)
            && (v == Err(RefundPaymentNotFound) <==> req.amount > 0 && !used && !found)
            && (v == Err(PaymentNotRefundable)
                <==> req.amount > 0 && !used && found && db.payments[req.paymentNo].status != Success)
            && (v == Err(RefundAmountExceeded)
                <==> req.amount > 0 && !used && Refundable(db, req.appId, req.paymentNo)
                     && !HasRoom(db, req.paymentNo, req.amount))
  {
    hide Total;
  }

  // ---- What stays of it --------------------------------------------------------------------

  /** A payment is worth its order; a bill payment is recognised no longer than its order may be paid. */
  predicate DrawnRow(orders: map<string, Order>, p: Payment) {
    && p.orderNo in orders && p.amount == orders[p.orderNo].amount
    && (p.channel == AlipayBill ==>
          && p.terms.Some? && p.channelAmount >= p.amount
          && p.terms.value.validFrom < p.terms.value.validUntil <= orders[p.orderNo].expiresAt)
    && (p.channel != AlipayBill ==> p.terms.None? && p.channelAmount == p.amount)
  }

  ghost predicate Drawn(orders: map<string, Order>, payments: map<string, Payment>) {
    forall no | no in payments :: DrawnRow(orders, payments[no])
  }

  lemma StepDraws(db: Db, step: Step)
    requires Inv(db) && Drawn(db.orders, db.payments)
    ensures Drawn(Apply(db, step).orders, Apply(db, step).payments)
  {
    hide Inv, Apply, Later;
    var t := Apply(db, step);
    StepMoves(db, step);
    StepKeeps(db, step);
    forall no | no in t.payments ensures DrawnRow(t.orders, t.payments[no]) {
      StaysLinked(t, no);
      if no in db.payments {
        assert DrawnRow(db.orders, db.payments[no]);
        LaterRows(db, t, no);
      } else {
        DrawnNew(db, step, no);
        OrderLaterOf(db, t, t.payments[no].orderNo);
      }
    }
  }

  lemma StaysLinked(t: Db, no: string)
    requires Inv(t) && no in t.payments
    ensures t.payments[no].orderNo in t.orders
  {
  }

  lemma LaterRows(db: Db, t: Db, no: string)
    requires Later(db, t) && no in db.payments && no in t.payments && DrawnRow(db.orders, db.payments[no])
    ensures DrawnRow(t.orders, t.payments[no])
  {
    hide RefundsLater;
  }

  lemma OrderLaterOf(db: Db, t: Db, orderNo: string)
    requires Later(db, t) && orderNo in db.orders
    ensures orderNo in t.orders && OrderLater(db.orders[orderNo], t.orders[orderNo])
  {
    hide RefundsLater, PaymentsLater;
  }

  /** Only its creation brings a payment into being. */
  lemma DrawnNew(db: Db, step: Step, no: string)
    requires no !in db.payments && no in Apply(db, step).payments
    ensures DrawnRow(db.orders, Apply(db, step).payments[no])
  {
    hide Apply, Frames, PaymentRow, OrderRow, OrderKey, RefundRow, RefundKey, AfterDeleteApplication, Archives,
         ClearedEvents, ClearedReceipts, ClearedExceptions, ClearedDeliveries, WithoutReservations, ClearedRefunds,
         ClearedPayments, ArchivedOrders, Recognisable;
    if step.DeleteApplication? {
      DeletionTaken(db, step.appId);
      DeletionWrites(db, step.appId);
    } else {
      StepWrites(db, step);
      OnlyCreation(db, step);
      PaymentCreatedExactly(db, step.request);
      WindowOpens(db, step.request);
    }
  }

  lemma WindowOpens(db: Db, req: PaymentRequest)
    ensures req.orderNo in db.orders && Recognisable(db, req) ==> db.now < WindowEnd(db, req)
  {
    hide AmountFree, Held, RemarkReference;
  }

  lemma OnlyCreation(db: Db, step: Step)
    ensures PaymentRow(db, step).Some? && PaymentKey(step) !in db.payments ==>
              step.CreatePayment? && PaymentKey(step) == step.request.paymentNo
  {
    hide NewPayment, ScheduleOf, ReportOf, SucceededRow;
    if IsReport(step) { ReportNamesPayment(db, step); }
  }

  lemma {:induction false} RunDraws(now: int, steps: seq<Step>)
    ensures Drawn(Replay(EmptyDb(now), steps).orders, Replay(EmptyDb(now), steps).payments)
  {
    hide Inv, Apply, Replay;
    if steps == [] {
      ReplayNothing(EmptyDb(now));
    } else {
      var front := steps[..|steps| - 1];
      RunDraws(now, front);
      AlwaysInv(now, front);
      ReplayLast(EmptyDb(now), steps);
      StepDraws(Replay(EmptyDb(now), front), steps[|steps| - 1]);
    }
  }

  /**
   In every reachable state a payment is worth its order, and a bill payment asks for no less and is recognised no
   longer than its order may be paid.
   */
  lemma PaymentsFitOrders(db: Db, no: string)
    requires Reachable(db) && no in db.payments
    ensures DrawnRow(db.orders, db.payments[no])
  {
    hide Reachable, Replay;
    var now, steps := ReachedByReplay(db);
    RunDraws(now, steps);
  }
}
