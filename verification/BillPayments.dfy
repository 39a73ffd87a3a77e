/** Bill payments: reservations keep their amounts and references apart, and only a fitting bill line pays them. */
module BillPayments {
  import opened Wrappers
  import opened StateMachine
  import opened ReceiptText
  import opened Rows
  import opened PaymentSteps
  import opened RefundSteps
  import opened Steps
  import opened Shapes
  import opened OneWinner
  import opened Forward
  import Money

  type Reservations = map<ReservationKey, Reservation>
  type Receipts = map<ReceiptId, Receipt>

  // ---- First fit ---------------------------------------------------------------------------

  /** The offset taken is the least whose amount is free; none is left exactly when all of them are reserved. */
  lemma {:induction false} FirstFreeIsLeast(live: Reservations, accountId: string, amount: nat, from: nat, max: nat)
    ensures match FirstFree(live, accountId, amount, from, max)
            case Some(offset) =>
              && from <= offset <= max && AmountKey(accountId, amount + offset) !in live
              && forall a | amount + from <= a < amount + offset :: AmountKey(accountId, a) in live
            case None => forall a | amount + from <= a <= amount + max :: AmountKey(accountId, a) in live
    decreases max + 1 - from
  {
    if from <= max && AmountKey(accountId, amount + from) in live {
      FirstFreeIsLeast(live, accountId, amount, from + 1, max);
    }
  }

  // ---- The invariant -----------------------------------------------------------------------

  function KeyOf(p: Payment): ReservationKey
    requires p.terms.Some?
  {
    ReservationKey(p.accountId, p.terms.value.mode, p.terms.value.reference)
  }

  /** What a bill payment was created with. */
  predicate WellTermed(no: string, p: Payment, now: int) {
    && (p.terms.Some? <==> p.channel == AlipayBill)
    && (p.terms.Some? ==>
          var t := p.terms.value;
          && t.validFrom < t.validUntil && t.validFrom <= now
          && (t.mode == AmountMode ==> t.reference == Money.Decimal(p.channelAmount) && p.channelAmount >= p.amount)
          && (t.mode == RemarkMode ==> t.reference == RemarkReference(no) && p.channelAmount == p.amount))
  }

  ghost predicate Termed(payments: Payments, now: int) {
    forall no | no in payments :: WellTermed(no, payments[no], now)
  }

  /** The payment still holds its reservation, or its time is over. */
  predicate Holds(no: string, p: Payment, reservations: Reservations, now: int) {
    p.terms.Some? ==>
      || p.terms.value.validUntil <= now
      || (KeyOf(p) in reservations && reservations[KeyOf(p)] == Reservation(no, p.terms.value.validUntil))
  }

  ghost predicate Held(payments: Payments, reservations: Reservations, now: int) {
    forall no | no in payments :: Holds(no, payments[no], reservations, now)
  }

  predicate Apart(p: Payment, q: Payment) {
    p.terms.Some? && q.terms.Some? && KeyOf(p) == KeyOf(q) ==>
      p.terms.value.validUntil <= q.terms.value.validFrom || q.terms.value.validUntil <= p.terms.value.validFrom
  }

  /** Two payments of one account with the same way of being recognised are never recognisable at the same time. */
  ghost predicate AllApart(payments: Payments) {
    forall a, b | a in payments && b in payments && a != b :: Apart(payments[a], payments[b])
  }

  /** A bill payment that succeeded did so by a bill line that fits it. */
  predicate PaidByLine(p: Payment) {
    p.status == Success && p.terms.Some? ==>
      && p.flow.Some? && FlowFits(p, p.flow.value)
      && p.received == Some(p.channelAmount) && p.tradeNo == Some(p.flow.value.tradeNo)
      && p.paidAt == Some(p.flow.value.paidAt)
  }

  ghost predicate AllPaidByLine(payments: Payments) {
    forall no | no in payments :: PaidByLine(payments[no])
  }

  /** No two payments carry one trade number. */
  ghost predicate TradesApart(payments: Payments) {
    forall a, b | a in payments && b in payments && payments[a].tradeNo.Some?
      && payments[a].tradeNo == payments[b].tradeNo :: a == b
  }

  predicate Settles(payments: Payments, id: ReceiptId, no: string) {
    && no in payments && payments[no].channel == AlipayBill && payments[no].accountId == id.accountId
    && payments[no].status == Success && payments[no].tradeNo == Some(id.tradeNo)
  }

  /** A matched receipt names the payment it paid. */
  ghost predicate MatchesSettle(payments: Payments, receipts: Receipts) {
    forall id | id in receipts && receipts[id].status == Matched ::
      receipts[id].paymentNo.Some? && Settles(payments, id, receipts[id].paymentNo.value)
  }

  /** A receipt is kept under the trade number of its line. */
  ghost predicate Named(receipts: Receipts) {
    forall id | id in receipts :: receipts[id].flow.tradeNo == id.tradeNo
  }

  ghost predicate Reserving(db: Db) {
    Termed(db.payments, db.now) && Held(db.payments, db.reservations, db.now) && AllApart(db.payments)
  }

  ghost predicate Settled(db: Db) {
    AllPaidByLine(db.payments) && TradesApart(db.payments) && MatchesSettle(db.payments, db.receipts)
      && Named(db.receipts)
  }

  ghost predicate Billing(db: Db) {
    Reserving(db) && Settled(db)
  }

  // ---- A new bill payment ------------------------------------------------------------------

  /** The terms of a new payment: recognisable from now on, under a key that no live reservation holds. */
  lemma NewTerms(db: Db, req: PaymentRequest)
    ensures NewPayment(db, req).Some? ==>
              var p := NewPayment(db, req).value;
              && WellTermed(req.paymentNo, p, db.now) && p.status == Processing && p.tradeNo == None
              && (p.terms.Some? ==>
                  p.accountId == req.accountId && p.terms.value.validFrom == db.now
                    && KeyOf(p) !in LiveReservations(db, req.accountId))
  {
    hide PrepareReceipt, KeyUsed, LiveReservations, RemarkReference;
    NewPaymentShape(db, req);
    if req.channel == AlipayBill && req.orderNo in db.orders { PreparedTerms(db, req, db.orders[req.orderNo]); }
  }

  lemma PreparedTerms(db: Db, req: PaymentRequest, order: Order)
    ensures PrepareReceipt(db, req, order).Ok? ==>
              var t, amount := PrepareReceipt(db, req, order).value.0, PrepareReceipt(db, req, order).value.1;
              && t.validFrom == db.now < t.validUntil
              && (t.mode == AmountMode ==> t.reference == Money.Decimal(amount) && amount >= order.amount)
              && (t.mode == RemarkMode ==> t.reference == RemarkReference(req.paymentNo) && amount == order.amount)
              && ReservationKey(req.accountId, t.mode, t.reference) !in LiveReservations(db, req.accountId)
  {
    hide RemarkReference, LiveReservations, FirstFree;
    FirstFreeIsLeast(LiveReservations(db, req.accountId), req.accountId, order.amount, 0, req.bill.offsetMax);
  }

  lemma TermedPut(payments: Payments, no: string, row: Option<Payment>, now: int, later: int)
    requires Termed(payments, now) && now <= later && (row.Some? ==> WellTermed(no, row.value, later))
    ensures Termed(Put(payments, no, row), later)
  {
    hide RemarkReference;
  }

  lemma ApartPut(payments: Payments, no: string, row: Option<Payment>)
    requires AllApart(payments)
    requires row.Some? ==> forall a | a in payments && a != no ::
               Apart(payments[a], row.value) && Apart(row.value, payments[a])
    ensures AllApart(Put(payments, no, row))
  {
    hide Apart;
  }

  /** Whoever shared the key has run out of time. */
  lemma NewPaymentApart(payments: Payments, reservations: Reservations, now: int, p: Payment)
    requires Held(payments, reservations, now)
    requires p.terms.Some? ==>
      && p.terms.value.validFrom == now
      && (KeyOf(p) in reservations ==> reservations[KeyOf(p)].expiresAt <= now)
    ensures forall a | a in payments :: Apart(payments[a], p) && Apart(p, payments[a])
  {
    forall a | a in payments ensures Apart(payments[a], p) && Apart(p, payments[a]) {
      assert Holds(a, payments[a], reservations, now);
    }
  }

  lemma KeyNotLive(db: Db, accountId: string, k: ReservationKey)
    requires k.accountId == accountId && k !in LiveReservations(db, accountId)
    ensures k in db.reservations ==> db.reservations[k].expiresAt <= db.now
  {
  }

  /** Deleting expired reservations and adding the new one takes nothing from a payment whose time is not over. */
  lemma HeldAfterReserving(db: Db, req: PaymentRequest, p: Payment)
    requires Held(db.payments, db.reservations, db.now) && req.paymentNo !in db.payments
    requires p.terms.Some? ==> p.accountId == req.accountId && KeyOf(p) !in LiveReservations(db, req.accountId)
    ensures Held(db.payments[req.paymentNo := p], Reserved(db, req, p.terms), db.now)
  {
    if p.terms.Some? { KeyNotLive(db, req.accountId, KeyOf(p)); }
    forall no | no in db.payments ensures Holds(no, db.payments[no], Reserved(db, req, p.terms), db.now) {
      assert Holds(no, db.payments[no], db.reservations, db.now);
    }
  }

  lemma CreatePaymentReserves(db: Db, step: Step, t: Db)
    requires step.CreatePayment? && Inv(db) && Reserving(db) && Moves(db, step, t) && Frames(db, step, t)
    ensures Reserving(t)
  {
    hide Inv, NewPayment, Held, AllApart, Termed, WellTermed, Reserved, LiveReservations, Apart;
    var req := step.request;
    NewTerms(db, req);
    NewPaymentShape(db, req);
    InvNumbered(db);
    var row := NewPayment(db, req);
    assert t.payments == Put(db.payments, req.paymentNo, row)
           && t.reservations == (if row.Some? then Reserved(db, req, row.value.terms) else db.reservations);
    TermedPut(db.payments, req.paymentNo, row, db.now, db.now);
    if row.Some? {
      if row.value.terms.Some? { KeyNotLive(db, req.accountId, KeyOf(row.value)); }
      NewPaymentApart(db.payments, db.reservations, db.now, row.value);
      HeldAfterReserving(db, req, row.value);
    }
    ApartPut(db.payments, req.paymentNo, row);
  }

  // ---- Other steps keep the reservations ---------------------------------------------------

  predicate SameTerms(p: Payment, q: Payment) {
    q.terms == p.terms && q.channel == p.channel && q.accountId == p.accountId && q.amount == p.amount
      && q.channelAmount == p.channelAmount
  }

  lemma RowKeepsTerms(db: Db, no: string, row: Payment)
    requires Reserving(db) && no in db.payments && SameTerms(db.payments[no], row)
    ensures Termed(db.payments[no := row], db.now) && Held(db.payments[no := row], db.reservations, db.now)
            && AllApart(db.payments[no := row])
  {
    hide RemarkReference;
    assert WellTermed(no, row, db.now);
    assert Holds(no, row, db.reservations, db.now);
    forall a | a in db.payments && a != no ensures Apart(db.payments[a], row) && Apart(row, db.payments[a]) {
      assert Apart(db.payments[a], db.payments[no]) && Apart(db.payments[no], db.payments[a]);
    }
  }

  lemma TimeReserves(db: Db, later: int)
    requires Reserving(db) && db.now <= later
    ensures Termed(db.payments, later) && Held(db.payments, db.reservations, later)
  {
    hide RemarkReference;
  }

  /** Only the creation of a payment adds a number. */
  lemma WrittenIsThere(db: Db, step: Step)
    requires !step.CreatePayment?
    ensures PaymentRow(db, step).Some? ==> PaymentKey(step) in db.payments
  {
    hide ReportOf, SucceededRow, TradeNoFree, ScheduleOf, CanPaymentTransition;
    if IsReport(step) { ReportNamesPayment(db, step); }
  }

  lemma StepReserves(db: Db, step: Step, t: Db)
    requires Inv(db) && Reserving(db) && !step.DeleteApplication? && Moves(db, step, t) && Frames(db, step, t)
    ensures Reserving(t)
  {
    hide Inv, Reserving, Moves, Frames;
    if step.CreatePayment? { CreatePaymentReserves(db, step, t); } else { OtherStepsReserve(db, step, t); }
  }

  lemma OtherStepsReserve(db: Db, step: Step, t: Db)
    requires Inv(db) && Reserving(db) && !step.DeleteApplication? && !step.CreatePayment?
    requires Moves(db, step, t) && Frames(db, step, t)
    ensures Reserving(t)
  {
    hide Inv, PaymentRow, PaymentKey, OrderRow, RefundRow, ReceiptRow, ReceiptKey, TicketsAfter;
    InvNumbered(db);
    PaymentRowLater(db, step);
    WrittenIsThere(db, step);
    var no, row := PaymentKey(step), PaymentRow(db, step);
    if row.Some? { RowKeepsTerms(db, no, row.value); }
    TimeReserves(db, t.now);
  }

  lemma ArchiveReserves(db: Db, appId: string, t: Db)
    requires Reserving(db) && Deletes(db, appId, t)
    ensures Reserving(t)
  {
    hide RemarkReference, Archives, ClearedEvents, ClearedReceipts, ClearedExceptions, ClearedDeliveries,
         ClearedRefunds, ClearedPayments, ArchivedOrders, Apart;
  }

  // ---- Success -----------------------------------------------------------------------------

  /** An accepted report on a bill payment carries a bill line that fits it. */
  lemma ReportIsLine(db: Db, step: Step)
    requires IsReport(step) && ReportOf(db, step).Some? && Termed(db.payments, db.now)
    ensures var r := ReportOf(db, step).value;
            r.paymentNo in db.payments && db.payments[r.paymentNo].terms.Some? ==>
              && r.flow.Some? && FlowFits(db.payments[r.paymentNo], r.flow.value)
              && r.received == Some(r.flow.value.amount) && r.tradeNo == Some(r.flow.value.tradeNo)
              && r.paidAt == r.flow.value.paidAt
              && step.ReceiptSuccess? && step.flow == r.flow.value
  {
    hide FlowFits, RemarkReference;
  }

  lemma SucceededByLine(db: Db, r: Report)
    requires AllPaidByLine(db.payments)
    requires r.paymentNo in db.payments && db.payments[r.paymentNo].terms.Some? ==>
               && r.flow.Some? && FlowFits(db.payments[r.paymentNo], r.flow.value)
               && r.received == Some(r.flow.value.amount) && r.tradeNo == Some(r.flow.value.tradeNo)
               && r.paidAt == r.flow.value.paidAt
    ensures SucceededRow(db, r).Some? ==> PaidByLine(SucceededRow(db, r).value)
  {
    hide TradeNoFree, ExtractReference;
  }

  lemma PaymentStepByLine(db: Db, step: Step)
    requires IsPaymentStep(step) && AllPaidByLine(db.payments) && Termed(db.payments, db.now)
    ensures PaymentStepRow(db, step).Some? ==> PaidByLine(PaymentStepRow(db, step).value)
  {
    hide TradeNoFree, ExtractReference, RemarkReference;
  }

  lemma ScheduledByLine(db: Db, step: Step)
    requires IsRecovery(step) && AllPaidByLine(db.payments)
    ensures ScheduledPayment(db, step).Some? ==> PaidByLine(ScheduledPayment(db, step).value)
  {
    hide ScheduleOf, ExtractReference;
  }

  lemma NewPaymentByLine(db: Db, req: PaymentRequest)
    ensures NewPayment(db, req).Some? ==> PaidByLine(NewPayment(db, req).value)
  {
    hide NewPayment;
    NewPaymentShape(db, req);
  }

  lemma RowByLine(db: Db, step: Step)
    requires AllPaidByLine(db.payments) && Termed(db.payments, db.now)
    ensures PaymentRow(db, step).Some? ==> PaidByLine(PaymentRow(db, step).value)
  {
    hide NewPayment, ReportOf, SucceededRow, PaymentStepRow, ScheduledPayment, PaidByLine, Termed, AllPaidByLine;
    if step.CreatePayment? { NewPaymentByLine(db, step.request); }
    else if IsReport(step) {
      if ReportOf(db, step).Some? { ReportIsLine(db, step); SucceededByLine(db, ReportOf(db, step).value); }
    }
    else if IsPaymentStep(step) { PaymentStepByLine(db, step); }
    else if IsRecovery(step) { ScheduledByLine(db, step); }
  }

  // ---- Trade numbers -----------------------------------------------------------------------

  /** The trade number a row carries is its payment's own or free. */
  ghost predicate KeepsTrade(payments: Payments, no: string, p: Payment) {
    p.tradeNo.Some? ==>
      || (no in payments && p.tradeNo == payments[no].tradeNo)
      || (forall other | other in payments && other != no :: payments[other].tradeNo != p.tradeNo)
  }

  lemma SucceededTrade(db: Db, r: Report)
    ensures SucceededRow(db, r).Some? ==> KeepsTrade(db.payments, r.paymentNo, SucceededRow(db, r).value)
  {
  }

  lemma PaymentStepTrade(db: Db, step: Step)
    requires IsPaymentStep(step)
    ensures PaymentStepRow(db, step).Some? ==> KeepsTrade(db.payments, step.no, PaymentStepRow(db, step).value)
  {
  }

  lemma RowTrade(db: Db, step: Step)
    ensures PaymentRow(db, step).Some? ==> KeepsTrade(db.payments, PaymentKey(step), PaymentRow(db, step).value)
  {
    hide NewPayment, ReportOf, SucceededRow, PaymentStepRow, ScheduleOf;
    if step.CreatePayment? { NewPaymentShape(db, step.request); }
    else if IsReport(step) {
      ReportNamesPayment(db, step);
      if ReportOf(db, step).Some? { SucceededTrade(db, ReportOf(db, step).value); }
    }
    else if IsPaymentStep(step) { PaymentStepTrade(db, step); }
  }

  lemma TradePut(payments: Payments, no: string, row: Option<Payment>)
    requires TradesApart(payments) && (row.Some? ==> KeepsTrade(payments, no, row.value))
    ensures TradesApart(Put(payments, no, row))
  {
  }

  lemma ByLinePut(payments: Payments, no: string, row: Option<Payment>)
    requires AllPaidByLine(payments) && (row.Some? ==> PaidByLine(row.value))
    ensures AllPaidByLine(Put(payments, no, row))
  {
    hide PaidByLine;
  }

  // ---- Receipts ----------------------------------------------------------------------------

  lemma ReceiptRowSettles(db: Db, step: Step)
    ensures ReceiptRow(db, step).Some? && ReceiptRow(db, step).value.status == Matched ==>
              var r := ReceiptRow(db, step).value;
              r.paymentNo.Some? && Settles(db.payments, ReceiptKey(step), r.paymentNo.value)
  {
    hide ReceiptClaimable;
  }

  lemma ReceiptRowNamed(db: Db, step: Step)
    requires Named(db.receipts)
    ensures ReceiptRow(db, step).Some? ==> ReceiptRow(db, step).value.flow.tradeNo == ReceiptKey(step).tradeNo
  {
    hide ReceiptClaimable;
  }

  lemma NamedPut(receipts: Receipts, id: ReceiptId, row: Option<Receipt>)
    requires Named(receipts) && (row.Some? ==> row.value.flow.tradeNo == id.tradeNo)
    ensures Named(Put(receipts, id, row))
  {
  }

  lemma SettlesLater(payments: Payments, later: Payments, issued: set<string>, id: ReceiptId, no: string)
    requires Settles(payments, id, no) && PaymentsLater(payments, later, issued)
    ensures Settles(later, id, no)
  {
  }

  lemma MatchesLater(payments: Payments, later: Payments, issued: set<string>, receipts: Receipts, id: ReceiptId,
                     row: Option<Receipt>)
    requires MatchesSettle(payments, receipts) && PaymentsLater(payments, later, issued)
    requires row.Some? && row.value.status == Matched ==>
               row.value.paymentNo.Some? && Settles(payments, id, row.value.paymentNo.value)
    ensures MatchesSettle(later, Put(receipts, id, row))
  {
    var after := Put(receipts, id, row);
    forall k | k in after && after[k].status == Matched
      ensures after[k].paymentNo.Some? && Settles(later, k, after[k].paymentNo.value)
    {
      SettlesLater(payments, later, issued, k, after[k].paymentNo.value);
    }
  }

  lemma StepSettles(db: Db, step: Step, t: Db)
    requires Billing(db) && !step.DeleteApplication? && Moves(db, step, t) && Frames(db, step, t) && Later(db, t)
    ensures Settled(t)
  {
    hide PaymentRow, OrderRow, RefundRow, PaymentKey, ReceiptRow, ReceiptKey, TicketsAfter, Termed, Held, AllApart,
         AllPaidByLine, TradesApart, MatchesSettle, Named, PaidByLine, KeepsTrade, OrdersLater, RefundsLater,
         PaymentsLater, Reserved;
    RowByLine(db, step);
    RowTrade(db, step);
    ReceiptRowSettles(db, step);
    ReceiptRowNamed(db, step);
    ByLinePut(db.payments, PaymentKey(step), PaymentRow(db, step));
    TradePut(db.payments, PaymentKey(step), PaymentRow(db, step));
    NamedPut(db.receipts, ReceiptKey(step), ReceiptRow(db, step));
    MatchesLater(db.payments, t.payments, db.issued, db.receipts, ReceiptKey(step), ReceiptRow(db, step));
  }

  lemma ArchiveSettles(db: Db, appId: string, t: Db)
    requires Settled(db) && Deletes(db, appId, t)
    ensures Settled(t)
  {
    hide Archives, ClearedEvents, ClearedReceipts, ClearedExceptions, ClearedDeliveries, ClearedRefunds, ArchivedOrders,
         WithoutReservations, PaidByLine;
  }

  // ---- Every step, every run ---------------------------------------------------------------

  lemma StepBills(db: Db, step: Step)
    requires Inv(db) && Billing(db)
    ensures Billing(Apply(db, step))
  {
    hide Inv, Later, Reserving, Settled;
    StepMoves(db, step);
    if step.DeleteApplication? {
      DeletionWrites(db, step.appId);
      ArchiveReserves(db, step.appId, Apply(db, step));
      ArchiveSettles(db, step.appId, Apply(db, step));
    } else {
      StepWrites(db, step);
      StepReserves(db, step, Apply(db, step));
      StepSettles(db, step, Apply(db, step));
    }
  }

  lemma {:induction false} RunBills(db: Db, steps: seq<Step>)
    requires Inv(db) && Billing(db)
    ensures Billing(Replay(db, steps))
  {
    hide Inv, Billing, Apply;
    if steps != [] {
      RunBills(db, steps[..|steps| - 1]);
      ReplayKeeps(db, steps[..|steps| - 1]);
      StepBills(Replay(db, steps[..|steps| - 1]), steps[|steps| - 1]);
    }
  }

  lemma EmptyBills(now: int)
    ensures Billing(EmptyDb(now))
  {
  }

  lemma AlwaysBills(now: int, steps: seq<Step>)
    ensures Billing(Replay(EmptyDb(now), steps))
  {
    hide Inv, Billing, Replay;
    EmptyBills(now);
    EmptyInv(now);
    RunBills(EmptyDb(now), steps);
  }
}
