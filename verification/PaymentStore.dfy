/** The payment core over its stored tables: one method per transaction. */
module PaymentStore {
  import opened Wrappers
  import opened StateMachine
  import opened RecoveryPolicy
  import opened ReceiptText
  import opened Rows
  import opened PaymentSteps
  import opened RefundSteps
  import opened Steps
  import opened Identities
  import opened SuccessReports
  import Archive
  import Money

  datatype RemovalError = ApplicationNotFound | ApplicationInternal

  class Store {
    var now: int
    var apps: map<string, App>
    var orders: map<string, Order>
    var payments: map<string, Payment>
    var refunds: map<string, Refund>
    var reservations: map<ReservationKey, Reservation>
    var receipts: map<ReceiptId, Receipt>
    var exceptions: map<ExceptionKey, Exception>
    var events: map<nat, Event>
    var nextEventId: nat
    var deliveries: map<DeliveryKey, string>
    // Recovery attempts that workers have claimed and not settled yet.
    var tickets: set<Ticket>
    // Numbers handed out so far.
    var issued: set<string>
    // The steps taken since the tables were created, and the clock at that time.
    ghost const birth: int
    ghost var log: seq<Step>

    function View(): Db
      reads this
    {
      Db(now, apps, orders, payments, refunds, reservations, receipts, exceptions, events, nextEventId, deliveries,
         tickets, issued)
    }

    ghost predicate Valid()
      reads this
    {
      View() == Replay(EmptyDb(birth), log)
    }

    constructor (now: int)
      ensures Valid() && View() == EmptyDb(now) && log == []
    {
      this.now, this.birth, log := now, now, [];
      apps, orders, payments, refunds, reservations := map[], map[], map[], map[], map[];
      receipts, exceptions, events, nextEventId, deliveries := map[], map[], map[], 0, map[];
      tickets, issued := {}, {};
      new;
      hide Apply;
    }

    // ---- Events, exceptions, deliveries ----------------------------------------------------

    method Append(event: Event)
      modifies this`events, this`nextEventId
      ensures View() == Emit(old(View()), event)
    {
      events := events[nextEventId := event];
      nextEventId := nextEventId + 1;
    }

    /** `openPaymentException`. */
    method OpenPaymentException(key: ExceptionKey, orderNo: Option<string>, paymentNo: Option<string>)
      modifies this`exceptions, this`events, this`nextEventId
      ensures View() == OpenException(old(View()), key, orderNo, paymentNo)
      ensures exceptions.Keys == old(exceptions).Keys + {key} && IsLive(exceptions[key].status)
      ensures exceptions[key].status == if key in old(exceptions) && old(exceptions)[key].status == ExceptionProcessing
              then ExceptionProcessing else ExceptionOpen
      ensures (orderNo.Some? ==> exceptions[key].orderNo == orderNo)
              && (paymentNo.Some? ==> exceptions[key].paymentNo == paymentNo)
      ensures forall k | k in old(exceptions) && k != key :: k in exceptions && exceptions[k] == old(exceptions)[k]
      ensures var news := orderNo.Some? && paymentNo.Some?
                          && (key in old(exceptions) ==>
                                old(exceptions)[key].status in {ExceptionResolved, ExceptionIgnored});
              var e := Event(ExceptionOpenedEvent, key.subject, orderNo, paymentNo);
              && events == (if news then old(events)[old(nextEventId) := e] else old(events))
              && nextEventId == old(nextEventId) + if news then 1 else 0
    {
      if key in exceptions {
        var existing := exceptions[key];
        var reopen := !IsLive(existing.status);
        exceptions := exceptions[key := Exception(
          if reopen then ExceptionOpen else existing.status,
          if orderNo.Some? then orderNo else existing.orderNo,
          if paymentNo.Some? then paymentNo else existing.paymentNo)];
        if reopen && paymentNo.Some? && orderNo.Some? {
          Append(Event(ExceptionOpenedEvent, key.subject, orderNo, paymentNo));
        }
      } else {
        exceptions := exceptions[key := Exception(ExceptionOpen, orderNo, paymentNo)];
        if paymentNo.Some? && orderNo.Some? { Append(Event(ExceptionOpenedEvent, key.subject, orderNo, paymentNo)); }
      }
    }

    /** `createPaymentSucceededDelivery` and `createRefundSucceededDelivery`. */
    method CreateDelivery(orderNo: string, event: DeliveryEvent)
      requires orderNo in orders
      modifies this`deliveries
      ensures View() == Deliver(old(View()), orderNo, event)
      ensures forall k | k in old(deliveries) :: k in deliveries && deliveries[k] == old(deliveries)[k]
      ensures forall k | k in deliveries && k !in old(deliveries) :: k.orderNo == orderNo && k.event == event
      ensures event.RefundSucceededDelivery? && orders[orderNo].protocol == Epay ==> deliveries == old(deliveries)
    {
      var order := orders[orderNo];
      var url := if order.notifyUrl.Some? then order.notifyUrl
                 else if order.appId in apps then apps[order.appId].webhookUrl else None;
      if url.Some? && !(event.RefundSucceededDelivery? && order.protocol == Epay) {
        var key := DeliveryKey(orderNo, event, url.value);
        if key !in deliveries { deliveries := deliveries[key := order.appId]; }
      }
    }

    // ---- Orders and payments ---------------------------------------------------------------

    method CreateApplication(appId: string, webhookUrl: Option<string>)
      modifies this`apps
      ensures View() == AfterFiling(old(View()), CreateApp(appId, webhookUrl))
      ensures apps == if appId in old(apps) then old(apps) else old(apps)[appId := App(true, webhookUrl)]
    {
      if appId !in apps { apps := apps[appId := App(true, webhookUrl)]; }
    }

    /** An order of the application that goes by this identity, a live one first if `live`. */
    method FindOrder(appId: string, identity: Identity, live: bool) returns (found: Option<string>)
      ensures found.Some? ==>
                && found.value in orders && SameIdentity(orders[found.value], appId, identity)
                && (live ==> !orders[found.value].deleted)
      ensures found.None? ==>
                forall no | no in orders ::
                  !(SameIdentity(orders[no], appId, identity) && (live ==> !orders[no].deleted))
    {
      found := None;
      var rest := orders.Keys;
      while rest != {}
        invariant rest <= orders.Keys
        invariant forall no | no in orders && no !in rest ::
                    !(SameIdentity(orders[no], appId, identity) && (live ==> !orders[no].deleted))
        decreases rest
      {
        var no :| no in rest;
        if SameIdentity(orders[no], appId, identity) && (live ==> !orders[no].deleted) { return Some(no); }
        rest := rest - {no};
      }
    }

    /** `createOrder`: a repeated request is answered with the order it made; the second part of the answer says so. */
    method InsertOrder(orderNo: string, w: OrderRequest) returns (r: Result<(string, bool), OrderError>)
      modifies this`orders
      ensures View() == AfterOrderStep(old(View()), CreateOrder(orderNo, w))
      ensures AnswersOrder(old(View()), orderNo, w, r)
      ensures r.Err? || r.value.1 ==> orders == old(orders)
      ensures r.Ok? && !r.value.1 ==>
                && orderNo !in old(orders) && orderNo in orders && IsOpen(orders[orderNo].status)
                && orders[orderNo].winner == None
                && orders[orderNo].nextAttemptAt == Some(orders[orderNo].expiresAt)
    {
      if orderNo in orders || w.appId !in apps || w.amount == 0 { return Err(OrderRequestInvalid); }
      var existing := FindOrder(w.appId, w.identity, true);
      if existing.Some? {
        return if orders[existing.value].identity.text == w.identity.text then Ok((existing.value, true))
               else Err(IdempotencyConflict);
      }
      var taken := FindOrder(w.appId, w.identity, false);
      if taken.Some? { return Err(OrderNumberTaken); }
      var expiresAt := now + w.ttl;
      orders := orders[orderNo := Order(w.appId, w.identity, w.protocol, w.amount, OrderCreated, None, expiresAt, 0,
                                        Some(expiresAt), None,
                                        w.notifyUrl, None, false)];
      return Ok((orderNo, false));
    }

    /** The payment an idempotency key of the order belongs to. */
    method FindByKey(orderNo: string, key: Option<string>) returns (found: Option<string>)
      ensures found.Some? <==> KeyUsed(View(), orderNo, key)
      ensures found.Some? ==>
                found.value in payments && payments[found.value].orderNo == orderNo && payments[found.value].key == key
    {
      found := None;
      if key.None? { return; }
      var rest := payments.Keys;
      while rest != {}
        invariant rest <= payments.Keys
        invariant forall no | no in payments && no !in rest ::
                    !(payments[no].orderNo == orderNo && payments[no].key == key)
        decreases rest
      {
        var no :| no in rest;
        if payments[no].orderNo == orderNo && payments[no].key == key { return Some(no); }
        rest := rest - {no};
      }
    }

    /** The first offset whose amount no live reservation of the account holds. */
    method FindOffset(live: map<ReservationKey, Reservation>, accountId: string, amount: nat, max: nat)
      returns (offset: Option<nat>)
      ensures offset == FirstFree(live, accountId, amount, 0, max)
    {
      var i := 0;
      while i <= max
        invariant 0 <= i <= max + 1
        invariant FirstFree(live, accountId, amount, 0, max) == FirstFree(live, accountId, amount, i, max)
        decreases max + 1 - i
      {
        if AmountKey(accountId, amount + i) !in live { return Some(i); }
        i := i + 1;
      }
      return None;
    }

    /**
     `prepareReceiptPayment`: expired reservations of the account go, the new one comes, and the payment learns its
     terms. An error leaves the tables as they were, for the transaction is rolled back.
     */
    method PrepareReceiptPayment(req: PaymentRequest, order: Order) returns (r: Result<(Terms, nat), PaymentError>)
      modifies this`reservations
      ensures r == PrepareReceipt(old(View()), req, order)
      ensures r.Ok? ==> reservations == Reserved(old(View()), req, Some(r.value.0))
      ensures r.Err? ==> reservations == old(reservations)
    {
      var rollback := reservations;
      if !req.bill.enabled { return Err(BillNotConfigured); }
      reservations := map k | k in reservations
        && !(k.accountId == req.accountId && reservations[k].expiresAt <= now) :: reservations[k];
      assert reservations == LiveReservations(old(View()), req.accountId);
      var configuredUntil := now + req.bill.validSeconds;
      var validUntil := if order.expiresAt < configuredUntil then order.expiresAt else configuredUntil;
      if validUntil <= now {
        reservations := rollback;
        return Err(OrderExpired);
      }
      var channelAmount := order.amount;
      var value := RemarkReference(req.paymentNo);
      if req.bill.mode == AmountMode {
        var offset := FindOffset(reservations, req.accountId, order.amount, req.bill.offsetMax);
        if offset.None? {
          reservations := rollback;
          return Err(AmountPoolExhausted);
        }
        channelAmount := order.amount + offset.value;
        value := Money.Decimal(channelAmount);
      } else if ReservationKey(req.accountId, RemarkMode, value) in reservations {
        reservations := rollback;
        return Err(ReferenceTaken);
      }
      reservations := reservations[ReservationKey(req.accountId, req.bill.mode, value) := Reservation(req.paymentNo,
          validUntil)];
      return Ok((Terms(req.bill.mode, value, now, validUntil), channelAmount));
    }

    /** The transaction of `createPayment`: the payment created, an existing one for a repeated key, or an error. */
    method CreatePayment(req: PaymentRequest) returns (r: Result<string, PaymentError>)
      modifies this`payments, this`orders, this`reservations, this`issued
      ensures View() == AfterCreatePayment(old(View()), req)
      ensures r.Ok? <==> PaymentVerdict(old(View()), req).Ok?
      ensures r.Ok? ==> r.value in payments && payments[r.value].orderNo == req.orderNo
      ensures NewPayment(old(View()), req).Some? ==> r == Ok(req.paymentNo)
      ensures r.Ok? && NewPayment(old(View()), req).None? ==> payments[r.value].key == req.key
    {
      hide PrepareReceipt, FirstFree, LiveReservations, RemarkReference;
      if req.orderNo !in orders || orders[req.orderNo].deleted { return Err(OrderNotFound); }
      var order := orders[req.orderNo];
      if order.expiresAt <= now { return Err(OrderExpired); }
      if !IsOpen(order.status) { return Err(OrderNotPayable); }
      var existing := FindByKey(req.orderNo, req.key);
      if existing.Some? { return Ok(existing.value); }
      if req.paymentNo in issued { return Err(NumberTaken); }
      var created := Payment(req.orderNo, req.key, req.channel, req.accountId, Processing, order.amount, order.amount,
                             None, None, None, None, None, 0, if req.channel == Alipay
                               then Some(now + RECOVERY_INITIAL_DELAY) else None, None);
      if req.channel == AlipayBill {
        var prepared := PrepareReceiptPayment(req, order);
        if prepared.Err? { return Err(prepared.error); }
        created := created.(terms := Some(prepared.value.0), channelAmount := prepared.value.1);
      }
      payments := payments[req.paymentNo := created];
      issued := issued + {req.paymentNo};
      orders := orders[req.orderNo := order.(status := OrderPending)];
      return Ok(req.paymentNo);
    }

    /** `updatePaymentObservation`: the row is read again under its lock before it is written. */
    method UpdatePaymentObservation(no: string, status: PaymentStatus, seenAttempts: nat, random: real,
                                    channelOrderNo: Option<string>)
      modifies this`payments
      ensures View() == AfterPaymentStep(old(View()), Observe(no, status, seenAttempts, random, channelOrderNo))
      ensures payments != old(payments) ==>
                && no in old(payments) && old(payments)[no].status != Success && no in payments
                && payments[no].status == status != Success
                && CanPaymentTransition(old(payments)[no].status, status)
                && (payments[no].nextQueryAt.Some? ==> payments[no].channel == Alipay)
    {
      hide RecoveryDelaySeconds;
      if no !in payments || status == Success { return; }
      var current := payments[no];
      if current.status == Success || !CanPaymentTransition(current.status, status) { return; }
      var attempt := if seenAttempts < 1 then 1 else seenAttempts;
      var nextQueryAt := if current.channel == Alipay && IsRecoverablePayment(status)
                         then Some(now + RecoveryDelaySeconds(attempt, random)) else None;
      payments := payments[no := current.(
        status := status, nextQueryAt := nextQueryAt,
        channelOrderNo := if channelOrderNo.Some? then channelOrderNo else current.channelOrderNo)];
    }

    /** The transaction of `closePayment`, after the channel confirmed. */
    method WriteClosed(no: string)
      modifies this`payments
      ensures View() == AfterPaymentStep(old(View()), Close(no))
      ensures payments != old(payments) ==>
                && no in old(payments) && old(payments)[no].status != Success
                && CanPaymentTransition(old(payments)[no].status, Closed)
                && no in payments && payments[no].status == Closed && payments[no].nextQueryAt == None
      ensures no in old(payments) && old(payments)[no].status in {PaymentStatus.Created, Processing, Unknown} ==>
                payments == old(payments)[no := old(payments)[no].(status := Closed, nextQueryAt := None)]
      ensures no !in old(payments) || old(payments)[no].status in {Success, Failed, Closed} ==>
                payments == old(payments)
    {
      if no !in payments { return; }
      var current := payments[no];
      if current.status == Success || current.status == Closed || !CanPaymentTransition(current.status, Closed) {
        return;
      }
      payments := payments[no := current.(status := Closed, nextQueryAt := None)];
    }

    /** The unique constraint on trade numbers. */
    method IsTradeNoFree(no: string, tradeNo: Option<string>) returns (free: bool)
      ensures free == TradeNoFree(View(), no, tradeNo) == Untaken(payments, no, tradeNo)
    {
      if tradeNo.None? { return true; }
      var rest := payments.Keys;
      while rest != {}
        invariant rest <= payments.Keys
        invariant forall other | other in payments && other !in rest && other != no ::
                    payments[other].tradeNo != tradeNo
        decreases rest
      {
        var other :| other in rest;
        if other != no && payments[other].tradeNo == tradeNo { return false; }
        rest := rest - {other};
      }
      return true;
    }

    /** The checks of `markPaymentSucceeded` under the payment's lock. */
    method CheckReport(r: Report) returns (v: SuccessVerdict)
      ensures v == JudgeSuccess(View(), r)
      ensures v == Refused(PaymentNotFound)
              <==> !(r.paymentNo in payments && payments[r.paymentNo].orderNo in orders)
      ensures r.paymentNo in payments && payments[r.paymentNo].orderNo in orders ==>
                var p := payments[r.paymentNo];
                var otherTrade := p.tradeNo.Some? && r.tradeNo.Some? && p.tradeNo != r.tradeNo;
                var otherAmount := p.received.Some? && r.received.Some? && p.received != r.received;
                && (v == Refused(AmountMismatch) <==> p.amount != r.amount)
                && (p.amount == r.amount && p.status == Success ==>
                      && (v == Refused(TradeConflict) <==> otherTrade)
                      && (v == Refused(ReceivedConflict) <==> !otherTrade && otherAmount)
                      && (v == AlreadySucceeded <==> !otherTrade && !otherAmount))
                && (p.amount == r.amount && p.status != Success ==>
                      && v in {Accepted, Refused(TradeNoTaken)}
                      && (v == Accepted <==> Untaken(payments, r.paymentNo, r.tradeNo)))
    {
      hide TradeNoFree, Untaken;
      if r.paymentNo !in payments || payments[r.paymentNo].orderNo !in orders { return Refused(PaymentNotFound); }
      var current := payments[r.paymentNo];
      if current.amount != r.amount { return Refused(AmountMismatch); }
      if current.status == Success {
        if current.tradeNo.Some? && r.tradeNo.Some? && current.tradeNo != r.tradeNo { return Refused(TradeConflict); }
        if current.received.Some? && r.received.Some? && current.received != r.received {
          return Refused(ReceivedConflict);
        }
        return AlreadySucceeded;
      }
      var free := IsTradeNoFree(r.paymentNo, r.tradeNo);
      return if free then Accepted else Refused(TradeNoTaken);
    }

    /** `markPaymentSucceeded`. */
    method MarkPaymentSucceeded(r: Report) returns (v: SuccessVerdict)
      modifies this`payments, this`orders, this`exceptions, this`events, this`nextEventId, this`deliveries
      ensures v == JudgeSuccess(old(View()), r)
      ensures View() == AfterSuccess(old(View()), r)
      ensures r.paymentNo in old(payments) && old(payments)[r.paymentNo].amount != r.amount ==>
                v.Refused? && View() == old(View())
      ensures r.paymentNo in old(payments) && old(payments)[r.paymentNo].status == Success ==>
                v != Accepted && View() == old(View())
      ensures v != Accepted ==> View() == old(View())
      ensures v == Accepted ==>
                && r.paymentNo in payments && payments[r.paymentNo].status == Success
                && payments[r.paymentNo].received == Some(if r.received.Some? then r.received.value else r.amount)
                && payments[r.paymentNo].paidAt == Some(r.paidAt)
                && (r.tradeNo.Some? ==> payments[r.paymentNo].tradeNo == r.tradeNo)
                && forall other | other in payments && other != r.paymentNo ::
                     other in old(payments) && payments[other] == old(payments)[other]
    {
      hide JudgeSuccess, AfterSuccess;
      v := CheckReport(r);
      if v == Accepted {
        TakeReport(r);
      } else {
        RefusedStays(View(), r);
      }
    }

    lemma RefusedStays(db: Db, r: Report)
      requires JudgeSuccess(db, r) != Accepted
      ensures AfterSuccess(db, r) == db
    {
      hide JudgeSuccess;
    }

    /** What `markPaymentSucceeded` writes once its checks are passed. */
    method TakeReport(r: Report)
      requires JudgeSuccess(View(), r) == Accepted
      modifies this`payments, this`orders, this`exceptions, this`events, this`nextEventId, this`deliveries
      ensures View() == AfterSuccess(old(View()), r)
      ensures payments == old(payments)[r.paymentNo := SucceededPayment(old(payments)[r.paymentNo], r)]
      ensures var no := r.paymentNo;
              var orderNo := old(payments)[no].orderNo;
              var first := if old(orders)[orderNo].status in {OrderSuccess, OrderPartiallyRefunded, OrderRefunded}
                           then PaymentLateDuplicateEvent else PaymentSucceededEvent;
              nextEventId > old(nextEventId) && old(nextEventId) in events
              && events[old(nextEventId)] == Event(first, PaymentRecord(no), Some(orderNo), Some(no))
    {
      hide TradeNoFree, OpenException, Deliver;
      var current := payments[r.paymentNo];
      var order := orders[current.orderNo];
      payments := payments[r.paymentNo := current.(
        status := Success,
        tradeNo := if r.tradeNo.Some? then r.tradeNo else current.tradeNo,
        received := if r.received.Some? then r.received else Some(r.amount),
        paidAt := Some(r.paidAt), flow := r.flow, nextQueryAt := None)];
      if IsPaid(order.status) {
        FileDuplicate(r.paymentNo, current.orderNo);
      } else {
        WinOrder(r.paymentNo, current.orderNo, r.paidAt);
      }
    }

    /** A further success of a paid order is told and left to a person. */
    method FileDuplicate(no: string, orderNo: string)
      modifies this`exceptions, this`events, this`nextEventId
      ensures var e := Event(PaymentLateDuplicateEvent, PaymentRecord(no), Some(orderNo), Some(no));
              && View() == OpenException(Emit(old(View()), e), DuplicateKey(no), Some(orderNo), Some(no))
              && nextEventId > old(nextEventId) && old(nextEventId) in events && events[old(nextEventId)] == e
    {
      hide OpenException;
      Append(Event(PaymentLateDuplicateEvent, PaymentRecord(no), Some(orderNo), Some(no)));
      OpenPaymentException(DuplicateKey(no), Some(orderNo), Some(no));
    }

    /** The first success of an order pays it and is told. */
    method WinOrder(no: string, orderNo: string, paidAt: int)
      requires orderNo in orders
      modifies this`orders, this`events, this`nextEventId, this`deliveries
      ensures View() == AfterWin(old(View()), no, orderNo, paidAt)
      ensures orderNo in orders && orders[orderNo].status == OrderSuccess && orders[orderNo].winner == Some(no)
      ensures orders[orderNo].nextAttemptAt == None && orders[orderNo].lockedUntil == None
              && nextEventId == old(nextEventId) + 2
      ensures var paid := Event(PaymentSucceededEvent, PaymentRecord(no), Some(orderNo), Some(no));
              var done := Event(OrderSucceededEvent, OrderRecord(orderNo), Some(orderNo), Some(no));
              events == old(events)[old(nextEventId) := paid][old(nextEventId) + 1 := done]
      ensures orders[orderNo].paidAt == Some(paidAt) && orders[orderNo].amount == old(orders)[orderNo].amount
      ensures orders.Keys == old(orders).Keys && forall o | o in orders && o != orderNo :: orders[o] == old(orders)[o]
    {
      hide Deliver;
      orders := orders[orderNo := orders[orderNo].(
        status := OrderSuccess, winner := Some(no), paidAt := Some(paidAt), nextAttemptAt := None,
          lockedUntil := None)];
      Append(Event(PaymentSucceededEvent, PaymentRecord(no), Some(orderNo), Some(no)));
      Append(Event(OrderSucceededEvent, OrderRecord(orderNo), Some(orderNo), Some(no)));
      CreateDelivery(orderNo, PaymentSucceededDelivery);
    }

    /** The write after a statement match whose payment had no trade number. */
    method WriteTradeNo(no: string, tradeNo: string)
      modifies this`payments
      ensures View() == AfterPaymentStep(old(View()), StatementTradeNo(no, tradeNo))
      ensures payments != old(payments) ==>
                && no in old(payments) && no in payments && payments[no].channel == Alipay
                && payments[no].tradeNo == Some(tradeNo)
                && TradeNoFree(old(View()), no, Some(tradeNo))
    {
      hide TradeNoFree;
      if no in payments && payments[no].channel == Alipay {
        var free := IsTradeNoFree(no, Some(tradeNo));
        if free { payments := payments[no := payments[no].(tradeNo := Some(tradeNo))]; }
      }
    }

    // ---- Receipts --------------------------------------------------------------------------

    method CreateReceipt(accountId: string, flow: Flow) returns (duplicate: bool)
      modifies this`receipts
      ensures View() == AfterFiling(old(View()), InsertReceipt(accountId, flow))
      ensures duplicate == (ReceiptId(accountId, flow.tradeNo) in old(receipts))
      ensures receipts == if duplicate then old(receipts)
              else old(receipts)[ReceiptId(accountId, flow.tradeNo) := Receipt(Unmatched, flow, None, None)]
    {
      var id := ReceiptId(accountId, flow.tradeNo);
      duplicate := id in receipts;
      if !duplicate { receipts := receipts[id := Receipt(Unmatched, flow, None, None)]; }
    }

    method ClaimReceiptRow(id: ReceiptId) returns (claimed: bool)
      modifies this`receipts
      ensures View() == AfterFiling(old(View()), ClaimReceipt(id))
      ensures claimed == ReceiptClaimable(old(View()), id)
      ensures claimed <==>
                && id in old(receipts)
                && match old(receipts)[id].status
                   case Unmatched => true
                   case Matching => old(receipts)[id].lockedUntil.Some? && old(receipts)[id].lockedUntil.value <= now
                   case Matched => false
                   case Mismatched => false
      ensures receipts == if claimed
              then old(receipts)[id := old(receipts)[id].(status := Matching, lockedUntil := Some(now + 60))]
              else old(receipts)
    {
      claimed := id in receipts
        && (receipts[id].status == Unmatched
            || (receipts[id].status == Matching && receipts[id].lockedUntil.Some?
                && receipts[id].lockedUntil.value <= now));
      if claimed {
        receipts := receipts[id := receipts[id].(status := Matching, lockedUntil := Some(now + FLOW_LOCK))];
      }
    }

    method DeferReceiptRow(id: ReceiptId)
      modifies this`receipts
      ensures View() == AfterFiling(old(View()), DeferReceipt(id))
      ensures receipts == if id in old(receipts)
              then old(receipts)[id := old(receipts)[id].(status := Matching, lockedUntil := Some(now + 60))]
              else old(receipts)
    {
      if id in receipts {
        receipts := receipts[id := receipts[id].(status := Matching, lockedUntil := Some(now + FLOW_LOCK))];
      }
    }

    method MarkUnmatched(id: ReceiptId)
      modifies this`receipts
      ensures View() == AfterFiling(old(View()), UnmatchReceipt(id))
      ensures receipts == if id in old(receipts)
              then old(receipts)[id := Receipt(Unmatched, old(receipts)[id].flow, None, None)] else old(receipts)
    {
      if id in receipts {
        receipts := receipts[id := receipts[id].(status := Unmatched, paymentNo := None, lockedUntil := None)];
      }
    }

    /** The first write of `rematchAlipayBillReceipt`. */
    method ReopenReceiptRow(id: ReceiptId)
      modifies this`receipts
      ensures View() == AfterFiling(old(View()), ReopenReceipt(id))
      ensures receipts == if id in old(receipts)
              then old(receipts)[id := Receipt(Unmatched, old(receipts)[id].flow, old(receipts)[id].paymentNo, None)]
              else old(receipts)
    {
      if id in receipts { receipts := receipts[id := receipts[id].(status := Unmatched, lockedUntil := None)]; }
    }

    /** `markMismatch`. */
    method MarkMismatch(id: ReceiptId, no: Option<string>, ambiguous: bool, conflict: bool)
      modifies this`receipts, this`exceptions, this`events, this`nextEventId
      ensures View() == AfterMismatch(old(View()), id, no, ambiguous, conflict)
      ensures id in old(receipts) && (no.Some? ==> no.value in payments) ==>
                && id in receipts && receipts[id].status == Mismatched && receipts[id].paymentNo == no
                && (conflict ==> ExceptionKey(PaymentStateConflict, ReceiptRecord(id)) in exceptions)
                && (ambiguous && !conflict ==> ExceptionKey(ReceiptAmbiguous, ReceiptRecord(id)) in exceptions)
                && (no.Some? ==>
                      && nextEventId > old(nextEventId)
                      && events[nextEventId - 1]
                         == Event(ReceiptMismatchEvent, ReceiptRecord(id), Some(payments[no.value].orderNo), no))
      ensures id !in old(receipts) || (no.Some? && no.value !in payments) ==> View() == old(View())
      ensures forall other | other in receipts && other != id ::
                other in old(receipts) && receipts[other] == old(receipts)[other]
    {
      hide OpenException;
      if id !in receipts || (no.Some? && no.value !in payments) { return; }
      var orderNo := if no.Some? then Some(payments[no.value].orderNo) else None;
      receipts := receipts[id := receipts[id].(status := Mismatched, paymentNo := no, lockedUntil := None)];
      if conflict || ambiguous {
        OpenPaymentException(ExceptionKey(if conflict then PaymentStateConflict
                                          else ReceiptAmbiguous, ReceiptRecord(id)), orderNo, no);
      }
      if no.Some? { Append(Event(ReceiptMismatchEvent, ReceiptRecord(id), orderNo, no)); }
    }

    method ResolveExceptionsOf(id: ReceiptId)
      modifies this`exceptions
      ensures exceptions == ResolveReceiptExceptions(old(exceptions), id)
      ensures forall k | k in exceptions && k.subject == ReceiptRecord(id) :: !IsLive(exceptions[k].status)
      ensures exceptions.Keys == old(exceptions).Keys
      ensures forall k | k in exceptions && k.subject != ReceiptRecord(id) :: exceptions[k] == old(exceptions)[k]
    {
      exceptions := map k | k in exceptions ::
        if k.subject == ReceiptRecord(id) && IsLive(exceptions[k].status)
          then exceptions[k].(status := ExceptionResolved) else exceptions[k];
    }

    lemma SettledIs(id: ReceiptId, no: string)
      ensures SettledBy(View(), id, no)
              <==> && no in payments && payments[no].channel == AlipayBill && payments[no].accountId == id.accountId
                   && payments[no].status == Success && payments[no].tradeNo == Some(id.tradeNo)
      ensures no in payments ==> OrderOf(View(), no) == payments[no].orderNo
    {
    }

    /** The settling transaction of a matched line: the receipt, its event, and the exceptions it leaves behind. */
    method MarkMatched(id: ReceiptId, no: string)
      modifies this`receipts, this`exceptions, this`events, this`nextEventId
      ensures View() == AfterFiling(old(View()), MatchReceipt(id, no))
      ensures if id in old(receipts) && no in payments && payments[no].channel == AlipayBill
                 && payments[no].accountId == id.accountId && payments[no].status == Success
                 && payments[no].tradeNo == Some(id.tradeNo)
              then
                && receipts == old(receipts)[id := Receipt(Matched, old(receipts)[id].flow, Some(no), None)]
                && nextEventId == old(nextEventId) + 1
                && events == old(events)[old(nextEventId) := Event(ReceiptMatchedEvent, ReceiptRecord(id),
                                                                   Some(payments[no].orderNo), Some(no))]
                && (forall k | k in exceptions && k.subject == ReceiptRecord(id) :: !IsLive(exceptions[k].status))
                && exceptions.Keys == old(exceptions).Keys
                && forall k | k in exceptions && k.subject != ReceiptRecord(id) :: exceptions[k] == old(exceptions)[k]
              else View() == old(View())
    {
      SettledIs(id, no);
      hide ResolveReceiptExceptions, SettledBy, OrderOf;
      if id in receipts && SettledBy(View(), id, no) {
        var event := Event(ReceiptMatchedEvent, ReceiptRecord(id), Some(OrderOf(View(), no)), Some(no));
        receipts := receipts[id := receipts[id].(status := Matched, paymentNo := Some(no), lockedUntil := None)];
        Append(event);
        ResolveExceptionsOf(id);
      }
    }

    // ---- Expiration ------------------------------------------------------------------------

    method ClaimExpirationRow(orderNo: string, seenAttempts: nat) returns (claimed: bool)
      modifies this`orders
      ensures View() == AfterOrderStep(old(View()), ClaimExpiration(orderNo, seenAttempts))
      ensures claimed == ExpirationClaimable(old(View()), orderNo, seenAttempts)
      ensures claimed <==>
                && orderNo in old(orders)
                && var o := old(orders)[orderNo];
                   && o.status in {OrderCreated, OrderPending} && o.expirationAttempts == seenAttempts
                   && o.nextAttemptAt.Some? && o.nextAttemptAt.value <= now
                   && (o.lockedUntil.Some? ==> o.lockedUntil.value < now)
      ensures orders == if claimed
              then old(orders)[orderNo := old(orders)[orderNo].(expirationAttempts := seenAttempts + 1,
                                                                lockedUntil := Some(now + 60))]
              else old(orders)
    {
      claimed := false;
      if orderNo in orders {
        var o := orders[orderNo];
        claimed := IsOpen(o.status) && o.expirationAttempts == seenAttempts && o.nextAttemptAt.Some?
          && o.nextAttemptAt.value <= now
          && (o.lockedUntil.None? || o.lockedUntil.value < now);
        if claimed {
          orders := orders[orderNo := o.(expirationAttempts := seenAttempts + 1,
                                         lockedUntil := Some(now + EXPIRATION_LOCK))];
        }
      }
    }

    /** The failure path of `runDueOrderExpirations`. */
    method RetryExpiration(orderNo: string, attempt: nat)
      modifies this`orders
      ensures View() == AfterOrderStep(old(View()), ExpirationFailed(orderNo, attempt))
      ensures orders == if orderNo in old(orders) && old(orders)[orderNo].status in {OrderCreated, OrderPending}
              then old(orders)[orderNo := old(orders)[orderNo].(
                  lockedUntil := None, nextAttemptAt := Some(now + ExpirationRetryDelaySeconds(attempt)))]
              else old(orders)
    {
      hide ExpirationRetryDelaySeconds;
      if orderNo in orders && IsOpen(orders[orderNo].status) {
        orders := orders[orderNo := orders[orderNo].(lockedUntil := None,
                                                     nextAttemptAt := Some(now
                                                         + ExpirationRetryDelaySeconds(attempt)))];
      }
    }

    /** What the payments of an order are up to: whether one succeeded, and whether one is still active. */
    method PaymentsOfOrder(orderNo: string) returns (succeeded: bool, active: bool)
      ensures succeeded == HasSuccess(payments, orderNo) && active == HasActive(payments, orderNo)
    {
      succeeded, active := false, false;
      var rest := payments.Keys;
      while rest != {}
        invariant rest <= payments.Keys
        invariant succeeded ==> HasSuccess(payments, orderNo)
        invariant active ==> HasActive(payments, orderNo)
        invariant !succeeded ==> forall no | no in payments && no !in rest ::
                    !(payments[no].orderNo == orderNo && payments[no].status == Success)
        invariant !active ==> forall no | no in payments && no !in rest ::
                    !(payments[no].orderNo == orderNo && IsActive(payments[no].status))
        decreases rest
      {
        var no :| no in rest;
        rest := rest - {no};
        if payments[no].orderNo == orderNo {
          if payments[no].status == Success { succeeded := true; }
          if IsActive(payments[no].status) { active := true; }
        }
      }
    }

    lemma NothingUnderWay(orderNo: string)
      ensures !HasSuccess(payments, orderNo) && !HasActive(payments, orderNo)
              <==> forall no | no in payments && payments[no].orderNo == orderNo ::
                     payments[no].status in {Failed, Closed}
    {
    }

    /** The closing transaction of `expireOrder`. */
    method CloseOrderRow(orderNo: string) returns (outcome: CloseOutcome)
      requires orderNo in orders
      modifies this`orders, this`events, this`nextEventId
      ensures outcome == JudgeClose(old(View()), orderNo)
      ensures View() == AfterOrderStep(old(View()), CloseOrder(orderNo))
      ensures outcome == OrderNowClosed
              <==> && old(orders)[orderNo].status in {OrderCreated, OrderPending}
                   && forall no | no in payments && payments[no].orderNo == orderNo ::
                        payments[no].status in {Failed, Closed}
      ensures outcome == OrderFoundPaid
              <==> old(orders)[orderNo].status in {OrderSuccess, OrderPartiallyRefunded, OrderRefunded}
      ensures outcome == OrderSkipped <==> old(orders)[orderNo].status == OrderClosed
      ensures orders == if outcome in {SuccessConflict, StillActive} then old(orders)
              else old(orders)[orderNo := old(orders)[orderNo].(
                  status := if outcome == OrderNowClosed then OrderClosed else old(orders)[orderNo].status,
                  lockedUntil := None, nextAttemptAt := None)]
      ensures events == if outcome == OrderNowClosed
              then old(events)[old(nextEventId) := Event(OrderExpiredEvent, OrderRecord(orderNo), Some(orderNo), None)]
              else old(events)
    {
      NothingUnderWay(orderNo);
      hide HasSuccess, HasActive;
      var current := orders[orderNo];
      if !IsOpen(current.status) {
        orders := orders[orderNo := current.(lockedUntil := None, nextAttemptAt := None)];
        return if IsPaid(current.status) then OrderFoundPaid else OrderSkipped;
      }
      var succeeded, active := PaymentsOfOrder(orderNo);
      if succeeded { return SuccessConflict; }
      if active { return StillActive; }
      orders := orders[orderNo := current.(status := OrderClosed, lockedUntil := None, nextAttemptAt := None)];
      Append(Event(OrderExpiredEvent, OrderRecord(orderNo), Some(orderNo), None));
      return OrderNowClosed;
    }

    /** `releaseExpiration`. */
    method ReleaseExpirationOf(no: string)
      modifies this`orders
      ensures View() == AfterOrderStep(old(View()), ReleaseExpiration(no))
      ensures orders == if no in payments && payments[no].status == Success && payments[no].orderNo in old(orders)
              then old(orders)[payments[no].orderNo := old(orders)[payments[no].orderNo].(
                  nextAttemptAt := None, lockedUntil := None)]
              else old(orders)
    {
      if no in payments && payments[no].status == Success && payments[no].orderNo in orders {
        var orderNo := payments[no].orderNo;
        orders := orders[orderNo := orders[orderNo].(lockedUntil := None, nextAttemptAt := None)];
      }
    }

    // ---- Refunds ---------------------------------------------------------------------------

    /** The sum the database takes over the refunds of a payment. */
    method Aggregate(paymentNo: string, kind: RefundClass) returns (sum: nat)
      ensures sum == Total(refunds, paymentNo, kind)
    {
      sum := 0;
      var rest := refunds;
      while rest != map[]
        invariant sum + Total(rest, paymentNo, kind) == Total(refunds, paymentNo, kind)
        decreases |rest|
      {
        var no :| no in rest;
        TotalWithout(rest, no, paymentNo, kind);
        sum := sum + Share(rest[no], paymentNo, kind);
        rest := rest - {no};
      }
    }

    /** The refund an application's own number belongs to. */
    method FindRefund(appId: string, external: string) returns (found: Option<string>)
      ensures found.Some? <==> ExternalUsed(View(), appId, external)
      ensures found.Some? ==>
                found.value in refunds && refunds[found.value].appId == appId
                  && refunds[found.value].external == external
    {
      found := None;
      var rest := refunds.Keys;
      while rest != {}
        invariant rest <= refunds.Keys
        invariant forall no | no in refunds && no !in rest ::
                    !(refunds[no].appId == appId && refunds[no].external == external)
        decreases rest
      {
        var no :| no in rest;
        if refunds[no].appId == appId && refunds[no].external == external { return Some(no); }
        rest := rest - {no};
      }
    }

    /** The refund the request made before, if it is this request again. */
    method FindRepeated(req: RefundRequest) returns (found: Option<string>)
      ensures found.Some? <==> Repeated(View(), req)
      ensures found.Some? ==> found.value in refunds && Repeats(refunds[found.value], req)
    {
      found := None;
      var rest := refunds.Keys;
      while rest != {}
        invariant rest <= refunds.Keys
        invariant forall no | no in refunds && no !in rest :: !Repeats(refunds[no], req)
        decreases rest
      {
        var no :| no in rest;
        if Repeats(refunds[no], req) { return Some(no); }
        rest := rest - {no};
      }
    }

    /** The transaction of `createRefund`: what is held already and the new refund must fit under the payment. */
    method ReserveRefund(req: RefundRequest) returns (r: Result<string, RefundError>)
      modifies this`refunds, this`issued
      ensures View() == AfterCreateRefund(old(View()), req)
      ensures r.Ok? <==> RefundVerdict(old(View()), req).Ok?
      ensures r.Ok? ==> r.value in refunds
      ensures r.Ok? ==> refunds[r.value].appId == req.appId && refunds[r.value].external == req.external
      ensures r.Ok? && NewRefund(old(View()), req).None? ==> Repeats(refunds[r.value], req)
      ensures NewRefund(old(View()), req).Some? ==>
                r == Ok(req.refundNo) && refunds[req.refundNo].status == RefundProcessing
    {
      hide Total;
      if req.amount == 0 { return Err(RefundAmountInvalid); }
      var existing := FindRefund(req.appId, req.external);
      if existing.Some? {
        var repeated := FindRepeated(req);
        return if repeated.Some? then Ok(repeated.value) else Err(RefundIdempotencyConflict);
      }
      if req.paymentNo !in payments || payments[req.paymentNo].orderNo !in orders { return Err(RefundPaymentNotFound); }
      var payment := payments[req.paymentNo];
      var order := orders[payment.orderNo];
      if order.appId != req.appId || order.deleted { return Err(RefundPaymentNotFound); }
      if payment.status != Success { return Err(PaymentNotRefundable); }
      var reserved := Aggregate(req.paymentNo, Reserving);
      if reserved + req.amount > payment.amount { return Err(RefundAmountExceeded); }
      if req.refundNo in issued { return Err(RefundNumberTaken); }
      refunds := refunds[req.refundNo := Refund(req.appId, req.external, req.paymentNo, req.amount, req.reason,
                                                RefundProcessing, 0,
                                                if payment.channel == Alipay then Some(now + RECOVERY_INITIAL_DELAY)
                                                  else None, false)];
      issued := issued + {req.refundNo};
      return Ok(req.refundNo);
    }

    /** `updateRefund`: checked against what was seen, written over what is there. */
    method UpdateRefund(no: string, seen: Seen, status: RefundStatus, random: real)
      modifies this`refunds
      ensures View() == AfterRefundObserved(old(View()), no, seen, status, random)
      ensures status == RefundSuccess || !CanRefundTransition(seen.status, status) ==> refunds == old(refunds)
      ensures refunds != old(refunds) ==> no in old(refunds) && no in refunds && refunds[no].status == status
    {
      hide RecoveryDelaySeconds;
      if no !in refunds || refunds[no].paymentNo !in payments || status == RefundSuccess { return; }
      if !CanRefundTransition(seen.status, status) { return; }
      var attempt := if seen.attempts < 1 then 1 else seen.attempts;
      var recoverable := payments[refunds[no].paymentNo].channel == Alipay && IsRecoverableRefund(status);
      refunds := refunds[no := refunds[no].(
        status := status, revived := CameBack(refunds[no]),
        nextQueryAt := if recoverable then Some(now + RecoveryDelaySeconds(attempt, random)) else None)];
    }

    /** `resolveLateDuplicateExceptionAfterRefund`, for a payment paid back in full. */
    method ResolveLateDuplicate(total: nat, paymentNo: string)
      modifies this`exceptions
      ensures View() == ResolveDuplicate(old(View()), total, paymentNo)
      ensures paymentNo in payments && total >= payments[paymentNo].amount && DuplicateKey(paymentNo) in exceptions ==>
                !IsLive(exceptions[DuplicateKey(paymentNo)].status)
      ensures exceptions.Keys == old(exceptions).Keys
      ensures forall k | k in exceptions ::
                exceptions[k] == if k == DuplicateKey(paymentNo) && paymentNo in payments
                   && total >= payments[paymentNo].amount
                   && old(exceptions)[k].status in {ExceptionOpen, ExceptionProcessing}
                   then old(exceptions)[k].(status := ExceptionResolved) else old(exceptions)[k]
    {
      if paymentNo in payments && total >= payments[paymentNo].amount {
        var key := DuplicateKey(paymentNo);
        if key in exceptions && IsLive(exceptions[key].status) {
          exceptions := exceptions[key := exceptions[key].(status := ExceptionResolved)];
        }
      }
    }

    /** `finalizeRefund`: the refund succeeds, and the winner's refunds decide the order's status. */
    method FinalizeRefund(no: string)
      modifies this`refunds, this`orders, this`exceptions, this`events, this`nextEventId, this`deliveries
      ensures View() == AfterRefundSucceeded(old(View()), no)
      ensures forall o | o in old(orders)
              && (no !in old(refunds) || old(orders)[o].winner != Some(old(refunds)[no].paymentNo)) ::
                o in orders && orders[o] == old(orders)[o]
      ensures no !in old(refunds) || old(refunds)[no].status == RefundSuccess ==> View() == old(View())
      ensures no in old(refunds) && old(refunds)[no].status != RefundSuccess && no in refunds
              && refunds[no].status == RefundSuccess ==>
                var p := old(refunds)[no].paymentNo;
                && refunds[no].nextQueryAt == None && refunds[no].amount == old(refunds)[no].amount && p in payments
                && events == old(events)[old(nextEventId) := Event(RefundSucceededEvent, RefundRecord(no),
                                                                   Some(payments[p].orderNo), Some(p))]
      ensures refunds.Keys == old(refunds).Keys && forall r | r in refunds && r != no :: refunds[r] == old(refunds)[r]
    {
      hide Total, Deliver, ResolveDuplicate;
      if no !in refunds || refunds[no].status == RefundSuccess || refunds[no].paymentNo !in payments
         || payments[refunds[no].paymentNo].orderNo !in orders { return; }
      var current := refunds[no];
      var rollback := refunds;
      refunds := refunds[no := current.(status := RefundSuccess, nextQueryAt := None, revived := CameBack(current))];
      var orderNo := payments[current.paymentNo].orderNo;
      var total := Aggregate(current.paymentNo, Succeeded);
      var isWinningPayment := orders[orderNo].winner == Some(current.paymentNo);
      if isWinningPayment {
        var orderStatus := RefundedOrderStatus(total, orders[orderNo].amount);
        if orderStatus.Err? {
          refunds := rollback;
          return;
        }
        orders := orders[orderNo := orders[orderNo].(status := orderStatus.value)];
      }
      Announce(no, current.paymentNo, orderNo, total, isWinningPayment);
    }

    method Announce(no: string, paymentNo: string, orderNo: string, total: nat, isWinningPayment: bool)
      requires orderNo in orders
      modifies this`exceptions, this`events, this`nextEventId, this`deliveries
      ensures View() == AnnounceRefund(old(View()), no, paymentNo, orderNo, total, isWinningPayment)
      ensures events == old(events)[old(nextEventId) := Event(RefundSucceededEvent, RefundRecord(no), Some(orderNo),
                                                              Some(paymentNo))]
    {
      hide Deliver;
      Append(Event(RefundSucceededEvent, RefundRecord(no), Some(orderNo), Some(paymentNo)));
      ResolveLateDuplicate(total, paymentNo);
      if isWinningPayment { CreateDelivery(orderNo, RefundSucceededDelivery(no)); }
    }

    // ---- Recovery --------------------------------------------------------------------------

    predicate Stored(record: Record)
      reads this
    {
      match record
      case PaymentRecord(no) => no in payments
      case RefundRecord(no) => no in refunds
      case _ => false
    }

    lemma RecoverableIsStored(record: Record)
      ensures Recoverable(View(), record) || OverAlipay(View(), record) ==> Stored(record)
    {
    }

    /** The attempts and the next query time of a record are rewritten. */
    method Reschedule(record: Record, attempts: nat, nextQueryAt: Option<int>)
      modifies this`payments, this`refunds
      ensures payments == ScheduledPayments(old(payments), record, Some((attempts, nextQueryAt)))
      ensures refunds == ScheduledRefunds(old(refunds), record, Some((attempts, nextQueryAt)))
      ensures Stored(record) ==> Attempts(View(), record) == attempts && NextQueryAt(View(), record) == nextQueryAt
      ensures Stored(record) == old(Stored(record))
    {
      match record
      case PaymentRecord(no) =>
        if no in payments {
          payments := payments[no := payments[no].(attempts := attempts, nextQueryAt := nextQueryAt)];
        }
      case RefundRecord(no) =>
        if no in refunds { refunds := refunds[no := refunds[no].(attempts := attempts, nextQueryAt := nextQueryAt)]; }
      case _ =>
    }

    /** The conditional update that claims an attempt. */
    method ClaimRecoveryRow(record: Record, seenAttempts: nat, random: real) returns (claimed: bool)
      modifies this`payments, this`refunds, this`tickets
      ensures View() == AfterRecovery(old(View()), ClaimRecovery(record, seenAttempts, random))
      ensures claimed == RecoveryClaimable(old(View()), record, seenAttempts)
      ensures claimed ==> Attempts(View(), record) == seenAttempts + 1 && Ticket(record, seenAttempts + 1) in tickets
      ensures !claimed ==> View() == old(View())
    {
      hide RecoveryDelaySeconds, RecordOrder, RecordPayment, ScheduledPayments, ScheduledRefunds, Recoverable,
           OverAlipay, Stored;
      claimed := RecoveryClaimable(View(), record, seenAttempts);
      Unscheduled(payments, refunds, record);
      RecoverableIsStored(record);
      if claimed {
        Reschedule(record, seenAttempts + 1, Some(now + RecoveryDelaySeconds(seenAttempts + 1, random)));
        tickets := tickets + {Ticket(record, seenAttempts + 1)};
      }
    }

    lemma Unscheduled(payments: map<string, Payment>, refunds: map<string, Refund>, record: Record)
      ensures ScheduledPayments(payments, record, None) == payments
              && ScheduledRefunds(refunds, record, None) == refunds
    {
    }

    /** The record is handed over to a person: no further query, and an event that says so. */
    method HandOver(record: Record)
      modifies this`payments, this`refunds, this`events, this`nextEventId
      ensures View() == Scheduled(old(View()), record, Some((Attempts(old(View()), record), None)), tickets)
      ensures old(Stored(record)) ==>
                Attempts(View(), record) == Attempts(old(View()), record) && NextQueryAt(View(), record) == None
    {
      hide RecordOrder, RecordPayment, ScheduledPayments, ScheduledRefunds;
      var event := Event(RecoveryExhaustedEvent, record, RecordOrder(View(), record), RecordPayment(View(), record));
      Reschedule(record, Attempts(View(), record), None);
      Append(event);
    }

    /** The catch block of the recovery worker. */
    method RetryRecovery(record: Record, attempt: nat, retryAt: int)
      modifies this`payments, this`refunds, this`tickets, this`events, this`nextEventId
      ensures View() == AfterRecovery(old(View()), RecoveryFailed(record, attempt, retryAt))
      ensures Ticket(record, attempt) !in tickets && Attempts(View(), record) == Attempts(old(View()), record)
      ensures nextEventId > old(nextEventId) ==>
                Ticket(record, attempt) in old(tickets) && attempt >= RECOVERY_MAX_ATTEMPTS
                  && NextQueryAt(View(), record) == None
    {
      hide RecordOrder, RecordPayment, ScheduledPayments, ScheduledRefunds, Recoverable, Stored;
      Unscheduled(payments, refunds, record);
      RecoverableIsStored(record);
      if Ticket(record, attempt) in tickets && Recoverable(View(), record) {
        if attempt >= RECOVERY_MAX_ATTEMPTS {
          HandOver(record);
        } else {
          Reschedule(record, Attempts(View(), record), Some(retryAt));
        }
      }
      tickets := tickets - {Ticket(record, attempt)};
    }

    /** `exhaustPayment` and `exhaustRefund`, after a query that settled nothing. */
    method FinishRecovery(record: Record, attempt: nat)
      modifies this`payments, this`refunds, this`tickets, this`events, this`nextEventId
      ensures View() == AfterRecovery(old(View()), RecoveryDone(record, attempt))
      ensures Ticket(record, attempt) !in tickets && Attempts(View(), record) == Attempts(old(View()), record)
      ensures nextEventId > old(nextEventId) ==>
                Ticket(record, attempt) in old(tickets) && attempt >= RECOVERY_MAX_ATTEMPTS
                  && NextQueryAt(View(), record) == None
    {
      hide RecordOrder, RecordPayment, ScheduledPayments, ScheduledRefunds, Recoverable, Stored;
      Unscheduled(payments, refunds, record);
      RecoverableIsStored(record);
      if Ticket(record, attempt) in tickets && attempt >= RECOVERY_MAX_ATTEMPTS && Recoverable(View(), record)
        && NextQueryAt(View(), record).Some? {
        HandOver(record);
      }
      tickets := tickets - {Ticket(record, attempt)};
    }

    /** A query that found nothing new puts a forgotten record back on the schedule. */
    method PutBack(record: Record)
      modifies this`payments, this`refunds
      ensures View() == AfterRecovery(old(View()), Step.Reschedule(record))
      ensures OverAlipay(old(View()), record) ==> NextQueryAt(View(), record) == Some(now + RECOVERY_INITIAL_DELAY)
    {
      hide RecordOrder, RecordPayment, ScheduledPayments, ScheduledRefunds, OverAlipay, Stored;
      Unscheduled(payments, refunds, record);
      RecoverableIsStored(record);
      if OverAlipay(View(), record) {
        Reschedule(record, Attempts(View(), record), Some(now + RECOVERY_INITIAL_DELAY));
      }
    }

    // ---- Exceptions and applications -------------------------------------------------------

    /** `updatePaymentException`. */
    method UpdatePaymentException(key: ExceptionKey, status: ExceptionStatus)
      modifies this`exceptions
      ensures View() == AfterFiling(old(View()), UpdateException(key, status))
      ensures exceptions.Keys == old(exceptions).Keys
      ensures key in exceptions && old(exceptions)[key].status == ExceptionResolved ==> exceptions == old(exceptions)
      ensures exceptions != old(exceptions) ==> key in exceptions && exceptions[key].status == status != ExceptionOpen
      ensures key in old(exceptions) && status != ExceptionOpen && old(exceptions)[key].status != ExceptionResolved ==>
                exceptions == old(exceptions)[key := old(exceptions)[key].(status := status)]
    {
      if key !in exceptions || status == ExceptionOpen { return; }
      if exceptions[key].status == ExceptionResolved && status != ExceptionResolved { return; }
      exceptions := exceptions[key := exceptions[key].(status := status)];
    }

    method MarkOrdersDeleted(archived: set<string>)
      modifies this`orders
      ensures orders == Archive.MarkedDeleted(old(orders), archived)
    {
      orders := map no | no in orders :: if no in archived then orders[no].(deleted := true) else orders[no];
    }

    /** Deleting payments deletes their reservations. */
    method DeletePayments(gone: set<string>)
      modifies this`payments, this`reservations
      ensures payments == old(payments) - gone && reservations == WithoutReservations(old(reservations), gone)
    {
      payments := payments - gone;
      reservations := map k | k in reservations && reservations[k].paymentNo !in gone :: reservations[k];
    }

    /** What the archive will answer with: totals less what is kept, and the rows about to go. */
    method CountCleared(appId: string) returns (cleared: Archive.Cleared)
      ensures cleared == Archive.RowsGone(View(), AfterArchive(View(), appId))
    {
      Archive.CountsAreRows(View(), appId);
      hide AfterArchive, Archive.RowsGone;
      hide ClearedReceipts, ClearedEvents, ClearedExceptions, ClearedDeliveries,
           Archive.OrdersToArchive, Archive.PaymentsOf, Archive.KeptPayments, Archive.RefundsOf, Archive.KeptRefunds;
      var db := View();
      return Archive.Cleared(
        |Archive.OrdersToArchive(db, appId)|,
        |Archive.PaymentsOf(db, appId)| - |Archive.KeptPayments(db, appId)|,
        |Archive.RefundsOf(db, appId)| - |Archive.KeptRefunds(db, appId)|,
        |ClearedEvents(db, appId)|, |ClearedDeliveries(db, appId)|, |ClearedExceptions(db, appId)|,
          |ClearedReceipts(db, appId)|);
    }

    method DeleteTraces(receiptIds: set<ReceiptId>, eventIds: set<nat>, exceptionKeys: set<ExceptionKey>,
                        refundNos: set<string>, deliveryKeys: set<DeliveryKey>)
      modifies this`receipts, this`events, this`exceptions, this`refunds, this`deliveries
      ensures receipts == old(receipts) - receiptIds && events == old(events) - eventIds
              && exceptions == old(exceptions) - exceptionKeys
      ensures refunds == old(refunds) - refundNos && deliveries == old(deliveries) - deliveryKeys
    {
      receipts := receipts - receiptIds;
      events := events - eventIds;
      exceptions := exceptions - exceptionKeys;
      refunds := refunds - refundNos;
      deliveries := deliveries - deliveryKeys;
    }

    /**
     `archiveApplication`: what is to go is read first, then deleted table by table; orders are marked, the
     application is disabled.
     */
    method ArchiveApplication(appId: string) returns (cleared: Archive.Cleared)
      modifies this`receipts, this`events, this`exceptions, this`refunds, this`deliveries, this`payments,
               this`reservations, this`orders, this`apps
      ensures View() == AfterArchive(old(View()), appId)
      ensures cleared == Archive.RowsGone(old(View()), View())
      ensures Archive.TakesOwnRows(old(View()), View(), appId)
    {
      Archive.ArchiveTakesOwnRows(View(), appId);
      cleared := CountCleared(appId);
      hide ClearedReceipts, ClearedEvents, ClearedExceptions, ClearedDeliveries, ClearedRefunds, ClearedPayments,
           ArchivedOrders, WithoutReservations, Archive.OrdersToArchive, Archive.MarkedDeleted, Archive.RowsGone,
           Archive.TakesOwnRows;
      var db := View();
      Archive.MarkedIsArchived(db, appId);
      DeleteTraces(ClearedReceipts(db, appId), ClearedEvents(db, appId), ClearedExceptions(db, appId),
                   ClearedRefunds(db, appId), ClearedDeliveries(db, appId));
      DeletePayments(ClearedPayments(db, appId));
      MarkOrdersDeleted(Archive.OrdersToArchive(db, appId));
      apps := apps[appId := App(false, None)];
    }

    /** `deleteApplication`: an application with business behind it is archived, any other one goes. */
    method RemoveApplication(appId: string) returns (r: Result<Option<Archive.Cleared>, RemovalError>)
      modifies this`receipts, this`events, this`exceptions, this`refunds, this`deliveries, this`payments,
               this`reservations, this`orders, this`apps
      ensures View() == AfterDeleteApplication(old(View()), appId)
      ensures r == Err(ApplicationNotFound) <==> appId !in old(apps)
      ensures r == Err(ApplicationInternal) <==> appId in old(apps) && appId == INTERNAL_APPLICATION
      ensures r.Ok? && r.value.Some? ==> r.value.value == Archive.RowsGone(old(View()), View())
      ensures r.Ok? && r.value.Some? ==> Archive.TakesOwnRows(old(View()), View(), appId)
      ensures r.Ok? && r.value.Some?
              <==> && appId in old(apps) && appId != INTERNAL_APPLICATION
                   && ((exists no | no in old(orders) :: old(orders)[no].appId == appId)
                       || (exists no | no in old(refunds) :: old(refunds)[no].appId == appId)
                       || exists k | k in old(deliveries) :: old(deliveries)[k] == appId)
      ensures r.Ok? && r.value.None? ==> View() == old(View()).(apps := old(apps) - {appId})
    {
      hide AfterArchive, Archive.RowsGone, Archive.TakesOwnRows;
      if appId !in apps { return Err(ApplicationNotFound); }
      if appId == INTERNAL_APPLICATION { return Err(ApplicationInternal); }
      if HasBusiness(View(), appId) {
        var counts := ArchiveApplication(appId);
        return Ok(Some(counts));
      }
      apps := apps - {appId};
      return Ok(None);
    }

    // ---- Any step --------------------------------------------------------------------------

    method PerformReport(r: Option<Report>)
      modifies this`payments, this`orders, this`exceptions, this`events, this`nextEventId, this`deliveries
      ensures View() == AfterReport(old(View()), r)
    {
      hide AfterSuccess;
      if r.Some? { var _ := MarkPaymentSucceeded(r.value); }
    }

    method PerformPayment(step: Step)
      requires IsPaymentStep(step)
      modifies this`payments
      ensures View() == AfterPaymentStep(old(View()), step)
    {
      hide PaymentStepRow;
      match step
      case Observe(no, status, seen, random, channelOrderNo) => UpdatePaymentObservation(no, status, seen, random,
          channelOrderNo);
      case Close(no) => WriteClosed(no);
      case StatementTradeNo(no, tradeNo) => WriteTradeNo(no, tradeNo);
    }

    method PerformOrder(step: Step)
      requires IsOrderStep(step)
      modifies this`orders, this`events, this`nextEventId
      ensures View() == AfterOrderStep(old(View()), step)
    {
      match step
      case CreateOrder(no, wanted) => hide OrderStepRow, ClosesNow; var _ := InsertOrder(no, wanted);
      case ClaimExpiration(no, seen) => hide OrderStepRow, ClosesNow; var _ := ClaimExpirationRow(no, seen);
      case ExpirationFailed(no, attempt) => hide OrderStepRow, ClosesNow; RetryExpiration(no, attempt);
      case CloseOrder(no) =>
        hide JudgeClose;
        if no in orders { hide OrderStepRow, ClosesNow; var _ := CloseOrderRow(no); }
      case ReleaseExpiration(no) => hide OrderStepRow, OrderStepKey, ClosesNow; ReleaseExpirationOf(no);
    }

    method PerformRecovery(step: Step)
      requires IsRecovery(step)
      modifies this`payments, this`refunds, this`tickets, this`events, this`nextEventId
      ensures View() == AfterRecovery(old(View()), step)
    {
      hide AfterRecovery;
      match step
      case ClaimRecovery(record, seen, random) => var _ := ClaimRecoveryRow(record, seen, random);
      case RecoveryFailed(record, attempt, retryAt) => RetryRecovery(record, attempt, retryAt);
      case RecoveryDone(record, attempt) => FinishRecovery(record, attempt);
      case Reschedule(record) => PutBack(record);
    }

    method PerformFiling(step: Step)
      requires IsFiling(step)
      modifies this`apps, this`receipts, this`exceptions, this`events, this`nextEventId
      ensures View() == AfterFiling(old(View()), step)
    {
      hide AfterFiling;
      match step
      case CreateApp(appId, url) => CreateApplication(appId, url);
      case InsertReceipt(accountId, flow) => var _ := CreateReceipt(accountId, flow);
      case ClaimReceipt(id) => var _ := ClaimReceiptRow(id);
      case DeferReceipt(id) => DeferReceiptRow(id);
      case UnmatchReceipt(id) => MarkUnmatched(id);
      case ReopenReceipt(id) => ReopenReceiptRow(id);
      case MatchReceipt(id, no) => MarkMatched(id, no);
      case UpdateException(key, status) => UpdatePaymentException(key, status);
    }

    method Perform(step: Step)
      modifies this`now, this`apps, this`orders, this`payments, this`refunds, this`reservations, this`receipts,
               this`exceptions,
               this`events, this`nextEventId, this`deliveries, this`tickets, this`issued
      ensures View() == Apply(old(View()), step)
    {
      hide ReportOf, AfterCreatePayment, AfterDeleteApplication, AfterReport, AfterPaymentStep, AfterOrderStep,
           AfterCreateRefund, AfterRefundObserved, AfterRefundSucceeded, AfterRecovery, AfterFiling, AfterMismatch,
           PaymentVerdict, RefundVerdict;
      if step.Tick? { now := now + step.seconds; }
      else if step.CreatePayment? { var _ := CreatePayment(step.request); }
      else if step.DeleteApplication? { var _ := RemoveApplication(step.appId); }
      else if step.CreateRefund? { var _ := ReserveRefund(step.refund); }
      else if step.RefundObserved? { UpdateRefund(step.refundNo, step.seen, step.refundStatus, step.random); }
      else if step.RefundSucceeded? { FinalizeRefund(step.refundNo); }
      else if step.Mismatch? { MarkMismatch(step.id, step.found, step.ambiguous, step.conflict); }
      else if IsReport(step) { PerformReport(ReportOf(View(), step)); }
      else if IsPaymentStep(step) { PerformPayment(step); }
      else if IsOrderStep(step) { PerformOrder(step); }
      else if IsRecovery(step) { PerformRecovery(step); }
      else { PerformFiling(step); }
    }

    /** One transaction of some worker or request, kept in the log. */
    method Execute(step: Step)
      requires Valid()
      modifies this
      ensures Valid() && log == old(log) + [step] && View() == Apply(old(View()), step)
    {
      hide Apply;
      Perform(step);
      log := log + [step];
      assert log[..|log| - 1] == old(log);
    }

    /** A transaction that was carried out by its own method is kept in the log. */
    ghost method Record(before: Db, step: Step)
      requires before == Replay(EmptyDb(birth), log) && View() == Apply(before, step)
      modifies this`log
      ensures Valid() && log == old(log) + [step] && View() == old(View())
    {
      hide Apply;
      log := log + [step];
      assert log[..|log| - 1] == old(log);
    }

    /** What other workers and requests do in between. */
    method Interleave(others: seq<Step>)
      requires Valid()
      modifies this
      ensures Valid() && log == old(log) + others && View() == Replay(old(View()), others)
    {
      hide Apply;
      var i := 0;
      assert others[..0] == [];
      while i < |others|
        invariant 0 <= i <= |others|
        invariant Valid() && log == old(log) + others[..i] && View() == Replay(old(View()), others[..i])
      {
        Execute(others[i]);
        i := i + 1;
        assert others[..i][..i - 1] == others[..i - 1];
      }
      assert others[..i] == others;
    }
  }
}
