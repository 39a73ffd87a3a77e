/**
 The services over the stored tables: each one reads, calls a channel and writes in several transactions, and anything
 may happen in between. Answers of channels and the steps of others are inputs.
 */
module PaymentServices {
  import opened Wrappers
  import opened StateMachine
  import opened RecoveryPolicy
  import opened ReceiptText
  import opened Rows
  import opened PaymentSteps
  import opened RefundSteps
  import opened Steps
  import opened Shapes
  import opened OneWinner
  import opened Forward
  import opened BillPayments
  import opened BillMatching
  import opened PaymentStore
  import opened ServiceSteps
  import ChannelAnswers
  import LineLookup
  import RecoveryRounds
  import ExpiryOutcomes

  // ---- What a run of the store leaves true -------------------------------------------------

  /** Whatever the history of the store, its tables are sound. */
  lemma Sound(birth: int, log: seq<Step>)
    ensures Inv(Replay(EmptyDb(birth), log)) && Billing(Replay(EmptyDb(birth), log))
  {
    hide Inv, Billing, Replay;
    AlwaysInv(birth, log);
    AlwaysBills(birth, log);
  }

  /** The tables of a store only move forward. */
  lemma Onward(birth: int, first: seq<Step>, later: seq<Step>)
    requires first <= later
    ensures Later(Replay(EmptyDb(birth), first), Replay(EmptyDb(birth), later))
  {
    hide Inv, Later, Replay;
    AlwaysInv(birth, first);
    RunMovesForward(Replay(EmptyDb(birth), first), later[|first|..]);
    ReplayAppend(EmptyDb(birth), first, later[|first|..]);
    assert first + later[|first|..] == later;
  }

  lemma SuccessStays(a: Db, b: Db, no: string)
    requires Later(a, b) && no in a.payments && a.payments[no].status == Success
    ensures no in b.payments && b.payments[no].status == Success && b.payments[no].orderNo == a.payments[no].orderNo
  {
    hide OrdersLater, RefundsLater;
  }

  lemma InvPaid(db: Db, no: string)
    requires Inv(db) && no in db.payments && db.payments[no].status == Success
    ensures db.payments[no].orderNo in db.orders && IsPaid(db.orders[db.payments[no].orderNo].status)
  {
  }

  lemma SameOrder(a: Db, b: Db, no: string)
    requires Later(a, b) && no in a.payments && no in b.payments
    ensures b.payments[no].orderNo == a.payments[no].orderNo
  {
    hide OrdersLater, RefundsLater;
  }

  lemma OrderStays(a: Db, b: Db, orderNo: string)
    requires Later(a, b) && orderNo in a.orders
    ensures orderNo in b.orders
  {
    hide PaymentsLater, RefundsLater;
  }

  lemma PaidStays(a: Db, b: Db, orderNo: string)
    requires Later(a, b) && orderNo in a.orders && IsPaid(a.orders[orderNo].status)
    ensures orderNo in b.orders && IsPaid(b.orders[orderNo].status)
  {
  }

  /** The due orders read, paired with their attempts. */
  lemma OrdersRead(db: Db, limit: nat, nos: seq<string>, due: seq<(string, nat)>)
    requires |nos| == |due| <= limit
    requires forall i | 0 <= i < |nos| ::
               IsDueOrder(db, nos[i])
                 && due[i] == (nos[i], if nos[i] in db.orders then db.orders[nos[i]].expirationAttempts else 0)
    requires forall i, j | 0 <= i < j < |nos| :: nos[i] != nos[j] && DueAt(db, nos[i]) <= DueAt(db, nos[j])
    requires forall i, no | 0 <= i < |nos| && IsDueOrder(db, no) && no !in nos :: DueAt(db, nos[i]) <= DueAt(db, no)
    requires |nos| == limit || forall no | IsDueOrder(db, no) :: no in nos
    ensures DueOrders(db, limit, due)
  {
    hide DueAt, ExpirationClaimable;
    forall i | 0 <= i < |nos| ensures (nos[i], db.orders[nos[i]].expirationAttempts) in due {
      assert due[i] == (nos[i], db.orders[nos[i]].expirationAttempts);
    }
  }

  lemma RecordsRead(db: Db, kind: Kind, limit: nat, records: seq<Record>, due: seq<(Record, nat)>)
    requires |records| == |due| <= limit
    requires forall i | 0 <= i < |records| ::
               IsDueRecord(db, kind, records[i]) && due[i].0 == records[i] && due[i].1 == Attempts(db, records[i])
    requires forall i, j | 0 <= i < j < |records| ::
               records[i] != records[j] && QueryAt(db, records[i]) <= QueryAt(db, records[j])
    requires forall i, record | 0 <= i < |records| && IsDueRecord(db, kind, record) && record !in records ::
               QueryAt(db, records[i]) <= QueryAt(db, record)
    requires |records| == limit || forall record | IsDueRecord(db, kind, record) :: record in records
    ensures DueRecords(db, kind, limit, due)
  {
    hide IsDueRecord, QueryAt, Attempts;
    forall i | 0 <= i < |records| ensures (records[i], Attempts(db, records[i])) in due {
      assert due[i] == (records[i], Attempts(db, records[i]));
    }
  }

  lemma StaleRead(db: Db, limit: nat, ids: seq<ReceiptId>, stale: seq<(ReceiptId, Flow)>)
    requires |ids| == |stale| <= limit
    requires forall i | 0 <= i < |ids| ::
               IsStale(db, ids[i]) && stale[i].0 == ids[i] && stale[i].1 == db.receipts[ids[i]].flow
    requires forall i, j | 0 <= i < j < |ids| :: ids[i] != ids[j] && LockedUntil(db, ids[i]) <= LockedUntil(db, ids[j])
    requires forall i, id | 0 <= i < |ids| && IsStale(db, id) && id !in ids ::
               LockedUntil(db, ids[i]) <= LockedUntil(db, id)
    requires |ids| == limit || forall id | IsStale(db, id) :: id in ids
    ensures StaleReceipts(db, limit, stale)
  {
    hide LockedUntil;
    forall i | 0 <= i < |ids| ensures (ids[i], db.receipts[ids[i]].flow) in stale {
      assert stale[i] == (ids[i], db.receipts[ids[i]].flow);
    }
  }

  lemma SuccessTaken(db: Db, no: string, tradeNo: Option<string>, paidAt: int)
    requires TakesSuccess(db, no, tradeNo, paidAt)
    ensures var t := Apply(db, QuerySuccess(no, tradeNo, paidAt)); no in t.payments && t.payments[no].status == Success
  {
    hide Apply, TradeNoFree, OrderRow, RefundRow;
    StepWrites(db, QuerySuccess(no, tradeNo, paidAt));
  }

  lemma ClosingWrites(db: Db, orderNo: string)
    requires orderNo in db.orders
    ensures orderNo in Apply(db, CloseOrder(orderNo)).orders
    ensures Apply(db, CloseOrder(orderNo)).orders == Put(db.orders, orderNo, ExpiredOrder(db, orderNo))
  {
    hide Apply, ExpiredOrder, PaymentRow, RefundRow, PaymentKey, RefundKey;
    StepWrites(db, CloseOrder(orderNo));
  }

  /** What the closing transaction leaves behind. */
  lemma ClosedNow(db: Db, orderNo: string)
    requires orderNo in db.orders
    ensures var t := Apply(db, CloseOrder(orderNo));
            && orderNo in t.orders
            && (JudgeClose(db, orderNo) == OrderNowClosed ==> t.orders[orderNo].status == OrderClosed)
            && (JudgeClose(db, orderNo) == OrderFoundPaid ==> IsPaid(t.orders[orderNo].status))
  {
    hide Apply, HasSuccess, HasActive, IsOpen, IsPaid;
    ClosingWrites(db, orderNo);
  }

  /** While an order is open none of its payments has succeeded, so closing never meets one. */
  lemma OpenHoldsNoMoney(db: Db, orderNo: string)
    requires Inv(db)
    ensures orderNo in db.orders && IsOpen(db.orders[orderNo].status) ==>
              && (forall no | no in db.payments && db.payments[no].orderNo == orderNo ::
                  db.payments[no].status != Success)
              && JudgeClose(db, orderNo) != SuccessConflict
    ensures orderNo in db.orders ==> JudgeClose(db, orderNo) != SuccessConflict
  {
  }

  lemma NoMoneyUnderWay(db: Db, orderNo: string)
    requires Inv(db) && orderNo in db.orders && db.orders[orderNo].status == OrderClosed
    ensures forall no | no in db.payments && db.payments[no].orderNo == orderNo ::
              db.payments[no].status == Failed || db.payments[no].status == PaymentStatus.Closed
  {
  }

  /** A line that was accepted, or had been before, has settled its payment. */
  lemma PaidByLineOf(db: Db, no: string)
    requires Billing(db) && no in db.payments
    ensures PaidByLine(db.payments[no])
  {
  }

  lemma LineSettles(db: Db, accountId: string, no: string, flow: Flow)
    requires Billing(db) && ReceiptReport(db, accountId, no, flow).Some?
    requires !JudgeSuccess(db, ReceiptReport(db, accountId, no, flow).value).Refused?
    ensures Settles(Apply(db, ReceiptSuccess(accountId, no, flow)).payments, ReceiptId(accountId, flow.tradeNo), no)
  {
    hide Apply, Billing, Frames, TradeNoFree, RemarkReference;
    StepWrites(db, ReceiptSuccess(accountId, no, flow));
    PaidByLineOf(db, no);
  }

  /** The settling write of a receipt whose payment it settled. */
  lemma MatchWrites(db: Db, id: ReceiptId, no: string)
    requires Settles(db.payments, id, no) && id in db.receipts
    ensures var t := Apply(db, MatchReceipt(id, no));
            && id in t.receipts && t.receipts[id].status == Matched && t.receipts[id].paymentNo == Some(no)
            && t.payments == db.payments
  {
    hide Apply;
    StepWrites(db, MatchReceipt(id, no));
  }

  /** Terms, amounts and accounts of a payment never change, so a fitting line still fits later. */
  lemma FitsStill(a: Db, b: Db, accountId: string, no: string, flow: Flow)
    requires Later(a, b) && ReceiptReport(a, accountId, no, flow).Some? && no in b.payments
    ensures ReceiptReport(b, accountId, no, flow).Some?
  {
    hide OrdersLater, RefundsLater, ExtractReference;
  }

  lemma SettlesStill(a: Db, b: Db, id: ReceiptId, no: string)
    requires Later(a, b) && Settles(a.payments, id, no)
    ensures Settles(b.payments, id, no)
  {
    hide OrdersLater, RefundsLater;
  }

  lemma MatchedSettles(db: Db, id: ReceiptId)
    requires Billing(db) && id in db.receipts && db.receipts[id].status == Matched
    ensures db.receipts[id].paymentNo.Some? && Settles(db.payments, id, db.receipts[id].paymentNo.value)
  {
  }

  lemma TradeAlone(db: Db, flow: Flow, a: string, b: string)
    requires Billing(db) && a in ByTrade(db.payments, flow) && b in ByTrade(db.payments, flow)
    ensures a == b
  {
  }

  class Service {
    const store: Store

    constructor (store: Store)
      ensures this.store == store
    {
      this.store := store;
    }

    /** Where the store stands after the steps logged since `first`. */
    lemma Ran(first: seq<Step>, steps: seq<Step>)
      requires store.Valid() && store.log == first + steps
      ensures store.View() == Replay(Replay(EmptyDb(store.birth), first), steps)
    {
      hide Apply, Replay;
      ReplayAppend(EmptyDb(store.birth), first, steps);
    }

    /** `createPayment`: the transaction, then the channel's answer for a new payment. */
    method CreatePayment(req: PaymentRequest, others: seq<Step>, answer: CreateAnswer, random: real)
      returns (r: Result<string, PaymentError>)
      requires store.Valid()
      modifies store
      ensures store.Valid()
              && store.log == old(store.log) + PaymentCreationSteps(old(store.View()), req, others, answer, random)
      ensures r.Ok? <==> PaymentVerdict(old(store.View()), req).Ok?
      ensures NewPayment(old(store.View()), req).Some? ==> r == Ok(req.paymentNo)
      ensures others == [] && req.paymentNo !in old(store.issued) && r == Ok(req.paymentNo) ==>
                req.paymentNo in store.payments
                && ChannelAnswers.StoresCreation(store.payments[req.paymentNo], answer)
    {
      hide Apply, Replay, PaymentVerdict, NewPayment, ChannelAnswers.StoresCreation;
      var isNew: bool;
      r, isNew := ReservePayment(req);
      if isNew {
        ghost var created := store.View();
        store.Interleave(others);
        if others == [] {
          ReplayNothing(created);
          ChannelAnswers.CreationLands(created, req.paymentNo, answer, random);
        }
        store.Execute(CreateObservation(req.paymentNo, answer, random));
      }
    }

    /** The creating transaction, logged as a step of the store; whether the payment is a new one. */
    method ReservePayment(req: PaymentRequest) returns (r: Result<string, PaymentError>, isNew: bool)
      requires store.Valid()
      modifies store
      ensures store.Valid() && store.log == old(store.log) + [Step.CreatePayment(req)]
      ensures r.Ok? <==> PaymentVerdict(old(store.View()), req).Ok?
      ensures isNew == NewPayment(old(store.View()), req).Some?
      ensures isNew ==> r == Ok(req.paymentNo)
      ensures isNew ==>
                && req.paymentNo in store.payments && store.payments[req.paymentNo].status == Processing
                && store.payments[req.paymentNo].channelOrderNo == None
      ensures req.paymentNo !in old(store.issued) && r == Ok(req.paymentNo) ==> isNew
    {
      hide Replay, Inv, Billing, PrepareReceipt;
      Sound(store.birth, store.log);
      var before := store.issued;
      r := store.CreatePayment(req);
      store.Record(old(store.View()), Step.CreatePayment(req));
      isNew := req.paymentNo !in before && req.paymentNo in store.issued;
      InvNumbered(old(store.View()));
    }

    /** `queryPayment`: success is answered only for a payment that is stored as successful. */
    method QueryPayment(no: string, call: Call) returns (r: Result<PaymentStatus, ServiceError>)
      requires store.Valid()
      modifies store
      ensures store.Valid() && store.log == old(store.log) + QuerySteps(old(store.View()), no, call)
      ensures r == QueryAnswer(old(store.View()), no, call)
      ensures r == Ok(Success) ==> no in store.payments && store.payments[no].status == Success
      ensures r != Err(StateConflict)
    {
      hide Apply, Replay, TakesSuccess;
      if no !in store.payments { return Err(NotFound); }
      var payment := store.payments[no];
      ghost var first, db := store.log, store.View();
      store.Interleave(call.others);
      assert QuerySteps(db, no, call) == call.others + QueryWrites(no, payment, call);
      if payment.status == Success {
        Onward(store.birth, first, store.log);
        SuccessStays(db, store.View(), no);
      }
      hide Later;
      if call.answer.Unanswered? { return Err(ChannelFailed); }
      if AnswersSuccess(payment, call.answer) {
        var taken := TakesSuccess(store.View(), no, call.answer.tradeNo, call.answer.paidAt);
        if taken { SuccessTaken(store.View(), no, call.answer.tradeNo, call.answer.paidAt); }
        store.Execute(QuerySuccess(no, call.answer.tradeNo, call.answer.paidAt));
        return if taken then Ok(Success) else Err(ServiceError.Refused);
      }
      if AnswersNews(payment, call.answer) {
        store.Execute(Observe(no, call.answer.status, payment.attempts, call.random, None));
        Ran(first, QuerySteps(db, no, call));
        return if no in store.payments then Ok(store.payments[no].status) else Err(NotFound);
      }
      if Forgotten(payment.channel, IsRecoverablePayment(payment.status), payment.nextQueryAt, payment.attempts) {
        store.Execute(Reschedule(PaymentRecord(no)));
      }
      return Ok(payment.status);
    }

    /** `closePayment`: closed is answered only for a payment that is stored as closed. */
    method ClosePayment(no: string, call: Call) returns (r: Result<PaymentStatus, ServiceError>)
      requires store.Valid()
      modifies store
      ensures store.Valid() && store.log == old(store.log) + CloseSteps(old(store.View()), no, call)
      ensures r == CloseAnswer(old(store.View()), no, call)
      ensures r == Ok(Success) ==> no in store.payments && store.payments[no].status == Success
      ensures r != Err(StateConflict)
      ensures r == Ok(PaymentStatus.Closed) ==>
                no in store.payments && store.payments[no].status == PaymentStatus.Closed
    {
      hide Apply, Replay;
      if no !in store.payments { return Err(NotFound); }
      var payment := store.payments[no];
      if payment.status == Success || payment.status == PaymentStatus.Closed { return Ok(payment.status); }
      if !IsActive(payment.status) { return Err(NotClosable); }
      ghost var first, db := store.log, store.View();
      store.Interleave(call.meanwhile);
      if call.closes.None? { return Err(ChannelFailed); }
      if !call.closes.value { return Ok(payment.status); }
      store.Execute(Close(no));
      assert CloseSteps(db, no, call) == call.meanwhile + [Close(no)];
      Ran(first, CloseSteps(db, no, call));
      if no !in store.payments { return Err(NotFound); }
      var current := store.payments[no].status;
      return if current == Success || current == PaymentStatus.Closed then Ok(current) else Err(NotClosable);
    }

    /** The payments of an order as they are read at the start. */
    method PaymentsRead(orderNo: string) returns (list: seq<(string, Payment)>)
      ensures ListsPayments(store.View(), orderNo, list)
    {
      list := [];
      var rest := store.payments.Keys;
      while rest != {}
        invariant rest <= store.payments.Keys
        invariant forall i | 0 <= i < |list| ::
                    list[i].0 in store.payments && list[i].0 !in rest && list[i].1 == store.payments[list[i].0]
                      && list[i].1.orderNo == orderNo
        invariant forall i, j | 0 <= i < j < |list| :: list[i].0 != list[j].0
        invariant forall no | no in store.payments && no !in rest && store.payments[no].orderNo == orderNo ::
                    (no, store.payments[no]) in list
        decreases rest
      {
        var no :| no in rest;
        rest := rest - {no};
        if store.payments[no].orderNo == orderNo { list := list + [(no, store.payments[no])]; }
      }
    }

    lemma PaidBySuccess(no: string)
      requires store.Valid() && no in store.payments && store.payments[no].status == Success
      ensures store.payments[no].orderNo in store.orders && IsPaid(store.orders[store.payments[no].orderNo].status)
    {
      hide Inv, Billing, Replay;
      Sound(store.birth, store.log);
      InvPaid(store.View(), no);
    }

    /** One active payment of an expiring order: asked about, then closed. True means the order turns out to be paid. */
    method SettleForExpiration(no: string, payment: Payment, call: Call) returns (r: Result<bool, ServiceError>)
      requires store.Valid()
      modifies store
      ensures store.Valid() && store.log == old(store.log) + SettleSteps(old(store.View()), no, payment.channel, call)
      ensures r == SettleAnswer(old(store.View()), no, payment.channel, call)
      ensures r == Ok(true) ==> no in store.payments && store.payments[no].status == Success
      ensures r != Err(StateConflict)
    {
      hide Apply, Replay, QuerySteps, QueryAnswer, CloseSteps, CloseAnswer;
      if payment.channel == Alipay {
        ghost var first, db := store.log, store.View();
        var observed := this.QueryPayment(no, call);
        if observed.Err? { return Err(observed.error); }
        if observed.value == Success { return Ok(true); }
        store.Interleave(call.between);
        Ran(first, QuerySteps(db, no, call) + call.between);
      }
      var closed := this.ClosePayment(no, call);
      return Unpaid(closed);
    }

    /** The order is closed, and no payment of it is under way or successful. */
    predicate ClosedWithoutMoney(orderNo: string)
      reads store
    {
      && orderNo in store.orders && store.orders[orderNo].status == OrderClosed
      && forall no | no in store.payments && store.payments[no].orderNo == orderNo ::
           store.payments[no].status == Failed || store.payments[no].status == PaymentStatus.Closed
    }

    /** The closing transaction and what its outcome tells. */
    method CloseExpired(orderNo: string) returns (r: Result<Expiry, ServiceError>)
      requires store.Valid() && orderNo in store.orders
      modifies store
      ensures store.Valid() && store.log == old(store.log) + [CloseOrder(orderNo)]
      ensures r == ClosingAnswer(JudgeClose(old(store.View()), orderNo))
      ensures r == Ok(Expired) ==> ClosedWithoutMoney(orderNo)
      ensures r == Ok(Paid) ==> orderNo in store.orders && IsPaid(store.orders[orderNo].status)
      ensures r != Err(StateConflict)
    {
      hide Apply, Replay, Inv, Billing, JudgeClose;
      var outcome := JudgeClose(store.View(), orderNo);
      Sound(store.birth, store.log);
      OpenHoldsNoMoney(store.View(), orderNo);
      ClosedNow(store.View(), orderNo);
      store.Execute(CloseOrder(orderNo));
      Sound(store.birth, store.log);
      if outcome == OrderNowClosed { NoMoneyUnderWay(store.View(), orderNo); }
      return ClosingAnswer(outcome);
    }

    /** The order of a payment found successful is released from the schedule; it is paid. */
    method ReleasePaid(no: string)
      requires store.Valid() && no in store.payments && store.payments[no].status == Success
      modifies store
      ensures store.Valid() && store.log == old(store.log) + [ReleaseExpiration(no)]
      ensures old(store.payments)[no].orderNo in store.orders
              && IsPaid(store.orders[old(store.payments)[no].orderNo].status)
    {
      hide Apply, Replay;
      ghost var at := store.log;
      store.Execute(ReleaseExpiration(no));
      Onward(store.birth, at, store.log);
      SuccessStays(Replay(EmptyDb(store.birth), at), store.View(), no);
      PaidBySuccess(no);
      hide Later;
    }

    /**
     `expireOrder`: an order is closed with no money under way, or found paid. The order and its payments are read one
     after the other, and only a success in between leads to the conflict error.
     */
    method ExpireOrder(orderNo: string, plan: Plan) returns (r: Result<Expiry, ServiceError>)
      requires store.Valid()
      modifies store
      ensures store.Valid() && old(store.log) <= store.log
      ensures Expires(old(store.View()), orderNo, plan, store.log[|old(store.log)|..], r)
      ensures r == Ok(Expired) ==> ClosedWithoutMoney(orderNo)
      ensures r == Ok(Paid) || r == Err(StateConflict) ==> PaidUp(orderNo)
      ensures plan.listing == [] ==> r != Err(StateConflict)
      ensures orderNo !in old(store.orders) || old(store.orders)[orderNo].status !in {OrderCreated, OrderPending} ==>
                r == Ok(Skipped) && store.log == old(store.log)
      ensures ExpiryOutcomes.Quiet(plan) && orderNo in old(store.orders)
              && old(store.orders)[orderNo].status in {OrderCreated, OrderPending} ==>
                exists list :: && ListsPayments(old(store.View()), orderNo, list)
                               && ExpiryOutcomes.ExpiredAs(old(store.View()), store.View(), orderNo, list, plan, 0, r)
    {
      hide Apply, Replay, ExpireSteps, ExpireAnswer, ClosedWithoutMoney, ExpiryOutcomes.ExpiredAs, ListsPayments;
      if orderNo !in store.orders || !IsOpen(store.orders[orderNo].status) { return Ok(Skipped); }
      ghost var first, db := store.log, store.View();
      ReplayNothing(db);
      store.Interleave(plan.listing);
      ghost var listed := store.log;
      Onward(store.birth, first, store.log);
      OrderStays(db, store.View(), orderNo);
      hide Later;
      var list := PaymentsRead(orderNo);
      ghost var read := store.View();
      r := ExpireListed(orderNo, list, plan);
      ghost var steps := store.log[|first|..];
      assert steps == plan.listing + ExpireSteps(read, orderNo, list, plan, 0);
      assert store.log == first + steps;
      Ran(first, steps);
      if ExpiryOutcomes.Quiet(plan) {
        ReplayReaches(store.birth, first);
        ghost var _ := ExpiryOutcomes.QuietExpiry(db, orderNo, plan, steps, r);
      }
    }

    predicate PaidUp(orderNo: string)
      reads store
    {
      orderNo in store.orders && IsPaid(store.orders[orderNo].status)
    }

    /**
     A payment settled, and its order released when that turns out to be paid; `first` is when the payment was read.
     */
    method SettleNext(no: string, payment: Payment, call: Call, orderNo: string, ghost first: seq<Step>)
      returns (r: Result<bool, ServiceError>)
      requires store.Valid() && first <= store.log
      requires no in Replay(EmptyDb(store.birth), first).payments
               && Replay(EmptyDb(store.birth), first).payments[no].orderNo == orderNo
      modifies store
      ensures store.Valid() && r == SettleAnswer(old(store.View()), no, payment.channel, call)
              && r != Err(StateConflict)
      ensures store.log == old(store.log) + SettleSteps(old(store.View()), no, payment.channel, call)
                           + if r == Ok(true) then call.releasing + [ReleaseExpiration(no)] else []
      ensures r == Ok(true) ==> orderNo in store.orders && IsPaid(store.orders[orderNo].status)
    {
      hide Apply, Replay, SettleSteps, SettleAnswer;
      r := SettleForExpiration(no, payment, call);
      if r == Ok(true) {
        ghost var paid := store.log;
        store.Interleave(call.releasing);
        Onward(store.birth, paid, store.log);
        SuccessStays(Replay(EmptyDb(store.birth), paid), store.View(), no);
        Onward(store.birth, first, store.log);
        SameOrder(Replay(EmptyDb(store.birth), first), store.View(), no);
        hide Later;
        ReleasePaid(no);
      }
    }

    /** The payments read are settled one after the other, then the order is closed. */
    method ExpireListed(orderNo: string, list: seq<(string, Payment)>, plan: Plan)
      returns (r: Result<Expiry, ServiceError>)
      requires store.Valid() && orderNo in store.orders && ListsPayments(store.View(), orderNo, list)
      modifies store
      ensures store.Valid() && store.log == old(store.log) + ExpireSteps(old(store.View()), orderNo, list, plan, 0)
      ensures r == ExpireAnswer(old(store.View()), orderNo, list, plan, 0)
      ensures r == Ok(Expired) ==> ClosedWithoutMoney(orderNo)
      ensures r == Ok(Paid) || r == Err(StateConflict) ==> PaidUp(orderNo)
      ensures r == Err(StateConflict) ==> old(PaidUp(orderNo))
    {
      hide Apply, Replay, JudgeClose, ExpireSteps, ExpireAnswer, ClosedWithoutMoney, ListsPayments, IsOpen;
      ghost var first, db := store.log, store.View();
      var early: Option<Result<Expiry, ServiceError>>;
      ghost var done: seq<Step>;
      early, done := SettleListed(orderNo, list, plan);
      if early.Some? { return early.value; }
      ghost var settled := store.View();
      store.Interleave(plan.closing);
      Onward(store.birth, first, store.log);
      OrderStays(db, store.View(), orderNo);
      hide Later;
      ExpireCloses(settled, orderNo, list, plan);
      r := CloseExpired(orderNo);
    }

    /**
     Stops early at a payment that failed to settle or turns out to be paid; `done` is what was done before the order
     is closed.
     */
    method SettleListed(orderNo: string, list: seq<(string, Payment)>, plan: Plan)
      returns (early: Option<Result<Expiry, ServiceError>>, ghost done: seq<Step>)
      requires store.Valid() && orderNo in store.orders && ListsPayments(store.View(), orderNo, list)
      modifies store
      ensures store.Valid()
      ensures early.Some? ==>
                && store.log == old(store.log) + ExpireSteps(old(store.View()), orderNo, list, plan, 0)
                && early.value == ExpireAnswer(old(store.View()), orderNo, list, plan, 0)
                && early.value != Ok(Expired)
                && (early.value == Ok(Paid) || early.value == Err(StateConflict) ==> PaidUp(orderNo))
                && (early.value == Err(StateConflict) ==> old(PaidUp(orderNo)))
      ensures early.None? ==>
                && store.log == old(store.log) + done
                && ExpireSteps(old(store.View()), orderNo, list, plan, 0)
                   == done + ExpireSteps(store.View(), orderNo, list, plan, |list|)
                && ExpireAnswer(old(store.View()), orderNo, list, plan, 0)
                   == ExpireAnswer(store.View(), orderNo, list, plan, |list|)
    {
      hide Apply, Replay, SettleSteps, SettleAnswer, JudgeClose, ExpireSteps, ExpireAnswer, ListsPayments, Later;
      ghost var first, db := store.log, store.View();
      SuccessReadIsPaid(orderNo, list);
      early, done := None, [];
      var i := 0;
      while i < |list|
        invariant 0 <= i <= |list| && early.None?
        invariant store.Valid() && store.log == first + done
        invariant ExpireSteps(db, orderNo, list, plan, 0) == done + ExpireSteps(store.View(), orderNo, list, plan, i)
        invariant ExpireAnswer(db, orderNo, list, plan, 0) == ExpireAnswer(store.View(), orderNo, list, plan, i)
      {
        var no, payment := list[i].0, list[i].1;
        if payment.status == Success {
          PaidSince(first, orderNo);
          ExpireConflicts(store.View(), orderNo, list, plan, i);
          return Some(Err(StateConflict)), done;
        }
        ExpireUnfolds(store.View(), orderNo, list, plan, i);
        if IsActive(payment.status) {
          ghost var at, steps := store.log, SettleSteps(store.View(), no, payment.channel, CallAt(plan.calls, i));
          var paid := SettleNext(no, payment, CallAt(plan.calls, i), orderNo, first);
          if paid.Err? { return Some(Err(paid.error)), done; }
          if paid.value { return Some(Ok(Paid)), done; }
          Ran(at, steps);
          done := done + steps;
        }
        i := i + 1;
      }
    }

    /** An order that was paid when the log was `first` still is. */
    lemma PaidSince(first: seq<Step>, orderNo: string)
      requires store.Valid() && first <= store.log
      requires var db := Replay(EmptyDb(store.birth), first); orderNo in db.orders && IsPaid(db.orders[orderNo].status)
      ensures PaidUp(orderNo)
    {
      hide Apply, Replay, Later, IsPaid;
      Onward(store.birth, first, store.log);
      PaidStays(Replay(EmptyDb(store.birth), first), store.View(), orderNo);
    }

    /** A successful payment among those read means that the order is paid. */
    lemma SuccessReadIsPaid(orderNo: string, list: seq<(string, Payment)>)
      requires store.Valid() && ListsPayments(store.View(), orderNo, list)
      ensures forall j | 0 <= j < |list| ::
                list[j].0 in store.payments && list[j].1 == store.payments[list[j].0]
                  && store.payments[list[j].0].orderNo == orderNo
      ensures forall j | 0 <= j < |list| ::
                list[j].1.status == Success ==> orderNo in store.orders && IsPaid(store.orders[orderNo].status)
    {
      hide Apply, Replay, Store.Valid;
      forall j | 0 <= j < |list| && list[j].1.status == Success
        ensures orderNo in store.orders && IsPaid(store.orders[orderNo].status)
      {
        PaidBySuccess(list[j].0);
      }
    }

    /** The earliest due order besides those taken. */
    method EarliestDueOrder(taken: seq<string>) returns (found: Option<string>)
      ensures found.None? ==> forall no | IsDueOrder(store.View(), no) :: no in taken
      ensures found.Some? ==> IsDueOrder(store.View(), found.value) && found.value !in taken
      ensures found.Some? ==>
                forall no | IsDueOrder(store.View(), no) && no !in taken ::
                  DueAt(store.View(), found.value) <= DueAt(store.View(), no)
    {
      hide ExpirationClaimable;
      found := None;
      var rest := store.orders.Keys;
      while rest != {}
        invariant rest <= store.orders.Keys
        invariant found.None? ==> forall no | IsDueOrder(store.View(), no) && no !in rest :: no in taken
        invariant found.Some? ==> IsDueOrder(store.View(), found.value) && found.value !in taken
        invariant found.Some? ==>
                    forall no | IsDueOrder(store.View(), no) && no !in taken && no !in rest ::
                      DueAt(store.View(), found.value) <= DueAt(store.View(), no)
        decreases rest
      {
        var no :| no in rest;
        rest := rest - {no};
        if IsDueOrder(store.View(), no) && no !in taken
           && (found.None? || DueAt(store.View(), no) < DueAt(store.View(), found.value)) {
          found := Some(no);
        }
      }
    }

    /** The orders the worker finds due. */
    method ReadDueOrders(limit: nat) returns (due: seq<(string, nat)>)
      ensures DueOrders(store.View(), limit, due)
    {
      hide IsDueOrder, DueAt, DueOrders;
      var nos: seq<string> := [];
      while |nos| < limit
        invariant |nos| <= limit
        invariant forall i | 0 <= i < |nos| :: IsDueOrder(store.View(), nos[i])
        invariant forall i, j | 0 <= i < j < |nos| ::
                    nos[i] != nos[j] && DueAt(store.View(), nos[i]) <= DueAt(store.View(), nos[j])
        invariant forall i, no | 0 <= i < |nos| && IsDueOrder(store.View(), no) && no !in nos ::
                    DueAt(store.View(), nos[i]) <= DueAt(store.View(), no)
        decreases limit - |nos|
      {
        var next := EarliestDueOrder(nos);
        if next.None? { break; }
        nos := nos + [next.value];
      }
      var db := store.View();
      due := seq(|nos|, i requires 0 <= i < |nos| =>
                 (nos[i], if nos[i] in db.orders then db.orders[nos[i]].expirationAttempts else 0));
      OrdersRead(db, limit, nos, due);
    }

    /** `runDueOrderExpirations`: every claim ends in one count, and a failed one is put back on the schedule. */
    method RunDueOrderExpirations(limit: nat, plans: seq<Plan>) returns (s: ExpirationSummary)
      requires store.Valid()
      modifies store
      ensures store.Valid() && old(store.log) <= store.log
      ensures exists due :: && DueOrders(old(store.View()), limit, due)
                            && ExpirationRun(old(store.View()), due, plans, store.log[|old(store.log)|..], s)
      ensures s.claimed == s.closed + s.paid + s.skipped + s.failed <= limit
    {
      hide Apply, Replay, ExpirationRun, ExpirationClaimable;
      var due := ReadDueOrders(limit);
      s := RunExpirations(due, plans);
    }

    /** The rounds over the orders found due, each counted once. */
    method RunExpirations(due: seq<(string, nat)>, plans: seq<Plan>) returns (s: ExpirationSummary)
      requires store.Valid()
      modifies store
      ensures store.Valid() && old(store.log) <= store.log
      ensures ExpirationRun(old(store.View()), due, plans, store.log[|old(store.log)|..], s)
      ensures s.claimed == s.closed + s.paid + s.skipped + s.failed <= |due|
    {
      hide Apply, Replay, ExpirationRound, ExpirationRun, Counted, PlanAt;
      ghost var first, db := store.log, store.View();
      ghost var done: seq<Step> := [];
      s := ExpirationSummary(0, 0, 0, 0, 0);
      NoRound(db, due, plans);
      var i := 0;
      while i < |due|
        invariant 0 <= i <= |due|
        invariant store.Valid() && store.log == first + done
        invariant ExpirationRun(db, due[..i], plans, done, s)
        invariant s.claimed == s.closed + s.paid + s.skipped + s.failed <= i
      {
        Ran(first, done);
        ghost var at := store.log;
        var round := ExpireDue(due[i].0, due[i].1, PlanAt(plans, i));
        ghost var after := store.log[|at|..];
        RunGrows(db, due, plans, i, done, s, after, round);
        CountedOnce(s, round);
        done, s, i := done + after, Counted(s, round), i + 1;
      }
      assert due[..i] == due;
      assert store.log[|first|..] == done;
    }

    /** One due order: claimed and, unless somebody was faster, expired. */
    method ExpireDue(orderNo: string, seen: nat, plan: Plan) returns (round: Round)
      requires store.Valid()
      modifies store
      ensures store.Valid() && old(store.log) <= store.log
      ensures ExpirationRound(old(store.View()), orderNo, seen, plan, store.log[|old(store.log)|..], round)
      ensures ExpiryOutcomes.Quiet(plan) && ExpirationClaimable(old(store.View()), orderNo, seen) ==>
                exists list :: && ListsPayments(old(store.View()), orderNo, list)
                               && ExpiryOutcomes.RoundEnds(old(store.View()), store.View(), orderNo, seen, list, plan,
                                                           round)
    {
      hide Apply, Replay, ExpirationClaimable, ExpiryOutcomes.RoundEnds, ListsPayments, ExpirationRound;
      ghost var first, db := store.log, store.View();
      round := ClaimAndExpire(orderNo, seen, plan);
      ghost var steps := store.log[|first|..];
      assert store.log == first + steps;
      Ran(first, steps);
      if ExpiryOutcomes.Quiet(plan) && ExpirationClaimable(db, orderNo, seen) {
        ReplayReaches(store.birth, first);
        ghost var _ := ExpiryOutcomes.QuietRound(db, orderNo, seen, plan, steps, round);
      }
    }

    method ClaimAndExpire(orderNo: string, seen: nat, plan: Plan) returns (round: Round)
      requires store.Valid()
      modifies store
      ensures store.Valid() && old(store.log) <= store.log
      ensures ExpirationRound(old(store.View()), orderNo, seen, plan, store.log[|old(store.log)|..], round)
    {
      hide Apply, Replay, ExpirationClaimable, ClaimedRound;
      ghost var first := store.log;
      store.Interleave(plan.claiming);
      var claimed := ExpirationClaimable(store.View(), orderNo, seen);
      ghost var claim := plan.claiming + [ClaimExpiration(orderNo, seen)];
      store.Execute(ClaimExpiration(orderNo, seen));
      assert store.log == first + claim;
      if !claimed {
        assert store.log[|first|..] == claim;
        return None;
      }
      Ran(first, claim);
      ghost var mine := store.log;
      var outcome := ExpireClaimed(orderNo, seen, plan);
      assert store.log[|first|..] == claim + store.log[|mine|..];
      return Some(outcome);
    }

    /** A claimed order is expired, and put back on the schedule when that failed. */
    method ExpireClaimed(orderNo: string, seen: nat, plan: Plan) returns (outcome: Result<Expiry, ServiceError>)
      requires store.Valid()
      modifies store
      ensures store.Valid() && old(store.log) <= store.log
      ensures ClaimedRound(old(store.View()), orderNo, seen, plan, store.log[|old(store.log)|..], outcome)
    {
      hide Apply, Replay, Expires;
      ghost var first := store.log;
      store.Interleave(plan.reading);
      ghost var mine := store.log;
      outcome := ExpireOrder(orderNo, plan);
      ghost var done := store.log[|mine|..];
      if outcome.Err? {
        store.Interleave(plan.failing);
        store.Execute(ExpirationFailed(orderNo, seen + 1));
      }
      assert store.log[|first|..]
          == plan.reading + done + if outcome.Err? then plan.failing + [ExpirationFailed(orderNo, seen + 1)] else [];
    }

    // ---- Recovery --------------------------------------------------------------------------

    /** The due payment with the earliest next query, besides those taken. */
    method EarliestDuePayment(taken: seq<Record>) returns (found: Option<Record>)
      ensures EarliestDue(store.View(), Payments, taken, found)
    {
      assert forall record :: IsDueRecord(store.View(), Payments, record) ==> record.paymentNo in store.payments;
      hide RecoveryClaimable;
      found := None;
      var rest := store.payments.Keys;
      while rest != {}
        invariant rest <= store.payments.Keys
        invariant found.None? ==>
                    forall no | no in store.payments && no !in rest
                      && IsDueRecord(store.View(), Payments, PaymentRecord(no)) :: PaymentRecord(no) in taken
        invariant found.Some? ==> IsDueRecord(store.View(), Payments, found.value) && found.value !in taken
        invariant found.Some? ==>
                    forall no | no in store.payments && no !in rest
                      && IsDueRecord(store.View(), Payments, PaymentRecord(no)) && PaymentRecord(no) !in taken ::
                      QueryAt(store.View(), found.value) <= QueryAt(store.View(), PaymentRecord(no))
        decreases rest
      {
        var no :| no in rest;
        rest := rest - {no};
        if IsDueRecord(store.View(), Payments, PaymentRecord(no)) && PaymentRecord(no) !in taken
           && (found.None? || QueryAt(store.View(), PaymentRecord(no)) < QueryAt(store.View(), found.value)) {
          found := Some(PaymentRecord(no));
        }
      }
    }

    /** The due refund with the earliest next query, besides those taken. */
    method EarliestDueRefund(taken: seq<Record>) returns (found: Option<Record>)
      ensures EarliestDue(store.View(), Refunds, taken, found)
    {
      assert forall record :: IsDueRecord(store.View(), Refunds, record) ==> record.refundNo in store.refunds;
      hide RecoveryClaimable;
      found := None;
      var rest := store.refunds.Keys;
      while rest != {}
        invariant rest <= store.refunds.Keys
        invariant found.None? ==>
                    forall no | no in store.refunds && no !in rest
                      && IsDueRecord(store.View(), Refunds, RefundRecord(no)) :: RefundRecord(no) in taken
        invariant found.Some? ==> IsDueRecord(store.View(), Refunds, found.value) && found.value !in taken
        invariant found.Some? ==>
                    forall no | no in store.refunds && no !in rest
                      && IsDueRecord(store.View(), Refunds, RefundRecord(no)) && RefundRecord(no) !in taken ::
                      QueryAt(store.View(), found.value) <= QueryAt(store.View(), RefundRecord(no))
        decreases rest
      {
        var no :| no in rest;
        rest := rest - {no};
        if IsDueRecord(store.View(), Refunds, RefundRecord(no)) && RefundRecord(no) !in taken
           && (found.None? || QueryAt(store.View(), RefundRecord(no)) < QueryAt(store.View(), found.value)) {
          found := Some(RefundRecord(no));
        }
      }
    }

    method EarliestDueRecord(kind: Kind, taken: seq<Record>) returns (found: Option<Record>)
      ensures EarliestDue(store.View(), kind, taken, found)
    {
      hide EarliestDue;
      if kind == Payments { found := EarliestDuePayment(taken); } else { found := EarliestDueRefund(taken); }
    }

    /** The records the recovery worker finds due. */
    method ReadDueRecords(kind: Kind, limit: nat) returns (due: seq<(Record, nat)>)
      ensures DueRecords(store.View(), kind, limit, due)
    {
      hide IsDueRecord, QueryAt, Attempts, DueRecords;
      var records: seq<Record> := [];
      while |records| < limit
        invariant |records| <= limit
        invariant forall i | 0 <= i < |records| :: IsDueRecord(store.View(), kind, records[i])
        invariant forall i, j | 0 <= i < j < |records| ::
                    records[i] != records[j] && QueryAt(store.View(), records[i]) <= QueryAt(store.View(), records[j])
        invariant forall i, record | 0 <= i < |records| && IsDueRecord(store.View(), kind, record)
                  && record !in records ::
                    QueryAt(store.View(), records[i]) <= QueryAt(store.View(), record)
        decreases limit - |records|
      {
        var next := EarliestDueRecord(kind, records);
        if next.None? { break; }
        records := records + [next.value];
      }
      var db := store.View();
      due := seq(|records|, i requires 0 <= i < |records| => (records[i], Attempts(db, records[i])));
      RecordsRead(db, kind, limit, records, due);
    }

    /** `queryRefund`, with what others do between its read and its write. */
    method QueryRefund(no: string, others: seq<Step>, answer: RefundAnswer, random: real)
      returns (r: Result<RefundStatus, ServiceError>)
      requires store.Valid()
      modifies store
      ensures store.Valid()
              && store.log == old(store.log) + RefundQuerySteps(old(store.View()), no, others, answer, random)
      ensures r == RefundQueryAnswer(old(store.View()), no, others, answer, random)
    {
      hide Apply, Replay;
      if no !in store.refunds { return Err(NotFound); }
      ghost var first, db := store.log, store.View();
      var refund, overAlipay := store.refunds[no], OverAlipay(store.View(), RefundRecord(no));
      store.Interleave(others);
      if !answer.RefundAnswered? { return Err(ChannelFailed); }
      if answer.status == RefundSuccess {
        store.Execute(RefundSucceeded(no));
      } else if RefundNews(refund, answer.status) {
        store.Execute(RefundObserved(no, Seen(refund.status, refund.attempts), answer.status, random));
      } else if overAlipay
        && Forgotten(Alipay, IsRecoverableRefund(refund.status), refund.nextQueryAt, refund.attempts) {
        store.Execute(Reschedule(RefundRecord(no)));
      } else {
        return Ok(refund.status);
      }
      Ran(first, RefundQuerySteps(db, no, others, answer, random));
      return if no in store.refunds then Ok(store.refunds[no].status) else Err(NotFound);
    }

    /** Asks the channel about a claimed record: whether it is settled, or that asking failed. */
    method Ask(record: Record, call: Call, answer: RefundAnswer) returns (settled: Result<bool, ServiceError>)
      requires store.Valid()
      modifies store
      ensures store.Valid() && store.log == old(store.log) + AskSteps(old(store.View()), record, call, answer)
      ensures settled == AskAnswer(old(store.View()), record, call, answer)
    {
      hide Apply, Replay, QuerySteps, QueryAnswer, RefundQuerySteps, RefundQueryAnswer;
      match record
      case PaymentRecord(no) =>
        var r := this.QueryPayment(no, call);
        return if r.Err? then Err(r.error) else Ok(!IsRecoverablePayment(r.value));
      case RefundRecord(no) =>
        var r := this.QueryRefund(no, call.others, answer, call.random);
        return if r.Err? then Err(r.error) else Ok(!IsRecoverableRefund(r.value));
      case _ => return Err(NotFound);
    }

    /** `runDuePaymentRecoveries`. */
    method RunDuePaymentRecoveries(limit: nat, attempts: seq<Attempt>) returns (s: RecoverySummary)
      requires store.Valid()
      modifies store
      ensures store.Valid() && old(store.log) <= store.log
      ensures exists due :: && DueRecords(old(store.View()), Payments, limit, due)
                            && RecoveryRun(old(store.View()), due, attempts, |due|)
                               == (store.log[|old(store.log)|..], s)
      ensures s.claimed <= limit && s.resolved + s.failed <= s.claimed && s.exhausted <= s.claimed - s.resolved
    {
      hide Apply, Replay;
      var due := ReadDueRecords(Payments, limit);
      s := RunRecoveries(due, attempts);
    }

    /** `runDueRefundRecoveries`. */
    method RunDueRefundRecoveries(limit: nat, attempts: seq<Attempt>) returns (s: RecoverySummary)
      requires store.Valid()
      modifies store
      ensures store.Valid() && old(store.log) <= store.log
      ensures exists due :: && DueRecords(old(store.View()), Refunds, limit, due)
                            && RecoveryRun(old(store.View()), due, attempts, |due|)
                               == (store.log[|old(store.log)|..], s)
      ensures s.claimed <= limit && s.resolved + s.failed <= s.claimed && s.exhausted <= s.claimed - s.resolved
    {
      hide Apply, Replay;
      var due := ReadDueRecords(Refunds, limit);
      s := RunRecoveries(due, attempts);
    }

    /** The rounds over the records found due, each counted once. */
    method RunRecoveries(due: seq<(Record, nat)>, attempts: seq<Attempt>) returns (s: RecoverySummary)
      requires store.Valid()
      modifies store
      ensures store.Valid() && old(store.log) <= store.log
      ensures RecoveryRun(old(store.View()), due, attempts, |due|) == (store.log[|old(store.log)|..], s)
      ensures s.claimed <= |due| && s.resolved + s.failed <= s.claimed && s.exhausted <= s.claimed - s.resolved
    {
      hide Apply, Replay, RecoveryRound, RecoveryCounted;
      ghost var first, db := store.log, store.View();
      ghost var done: seq<Step> := [];
      s := RecoverySummary(0, 0, 0, 0);
      var i := 0;
      while i < |due|
        invariant 0 <= i <= |due|
        invariant store.Valid() && store.log == first + done
        invariant RecoveryRun(db, due, attempts, i) == (done, s)
        invariant s.claimed <= i && s.resolved + s.failed <= s.claimed && s.exhausted <= s.claimed - s.resolved
      {
        Ran(first, done);
        ghost var round := RecoveryRound(store.View(), due[i].0, due[i].1, AttemptAt(attempts, i));
        s := Recover(s, due[i].0, due[i].1, AttemptAt(attempts, i));
        done := done + round;
        i := i + 1;
      }
      assert store.log[|first|..] == done;
    }

    /** One record found due: claimed and, unless somebody was faster, asked about; counted onto `s`. */
    method Recover(s: RecoverySummary, record: Record, seen: nat, a: Attempt) returns (t: RecoverySummary)
      requires store.Valid()
      modifies store
      ensures store.Valid() && store.log == old(store.log) + RecoveryRound(old(store.View()), record, seen, a)
      ensures t == RecoveryCounted(old(store.View()), s, record, seen, a)
      ensures RecoveryRounds.Quiet(a) && RecoveryRounds.Due(old(store.View()), record, seen)
              && (RecoveryRounds.Unheard(record, a) || RecoveryRounds.NothingNew(old(store.View()), record, a)) ==>
                && RecoveryRounds.PutOff(old(store.View()), record, seen, a.call.random, store.View())
                && t == RecoveryRounds.PutOffCount(s, seen, RecoveryRounds.Unheard(record, a))
      ensures s.resolved + s.failed <= s.claimed && s.exhausted <= s.claimed - s.resolved ==>
                t.claimed <= s.claimed + 1 && t.resolved + t.failed <= t.claimed
                  && t.exhausted <= t.claimed - t.resolved
    {
      hide Apply, Replay, RecoveryClaimable, AttemptSteps, AttemptCounted, RecoveryRounds.PutOff,
           RecoveryRounds.Unheard, RecoveryRounds.NothingNew, RecoveryRounds.PutOffCount;
      ghost var first, db := store.log, store.View();
      store.Interleave(a.claiming);
      var retryAt := RetryAt(store.now, seen, a);
      var claimed := RecoveryClaimable(store.View(), record, seen);
      store.Execute(ClaimRecovery(record, seen, a.call.random));
      t := s;
      if claimed {
        Ran(first, ClaimSteps(record, seen, a));
        t := EndAttempt(s, record, seen + 1, retryAt, a);
      }
      Ran(first, RecoveryRound(db, record, seen, a));
      if RecoveryRounds.Quiet(a) && RecoveryRounds.Due(db, record, seen)
         && (RecoveryRounds.Unheard(record, a) || RecoveryRounds.NothingNew(db, record, a)) {
        RecoveryRounds.RoundPutsOff(db, record, seen, a, s);
      }
    }

    /** An attempt already claimed: the record is asked about and the attempt ended. */
    method EndAttempt(s: RecoverySummary, record: Record, attempt: nat, retryAt: int, a: Attempt)
      returns (t: RecoverySummary)
      requires store.Valid()
      modifies store
      ensures store.Valid()
              && store.log == old(store.log) + AttemptSteps(old(store.View()), record, attempt, retryAt, a)
      ensures t == AttemptCounted(old(store.View()), s, record, attempt, a)
      ensures s.resolved + s.failed <= s.claimed && s.exhausted <= s.claimed - s.resolved ==>
                t.claimed <= s.claimed + 1 && t.resolved + t.failed <= t.claimed
                  && t.exhausted <= t.claimed - t.resolved
    {
      hide Apply, Replay, AskSteps, AskAnswer;
      store.Interleave(a.reading);
      ghost var mine, db := store.log, store.View();
      var settled := Ask(record, a.call, a.answer);
      store.Interleave(a.ending);
      Ran(mine, AskSteps(db, record, a.call, a.answer) + a.ending);
      var handed := EndHandsOver(store.View(), record, attempt, settled);
      store.Execute(EndStep(record, attempt, retryAt, settled));
      t := s.(claimed := s.claimed + 1,
              resolved := s.resolved + (if settled == Ok(true) then 1 else 0),
              failed := s.failed + (if settled.Err? then 1 else 0),
              exhausted := s.exhausted + (if handed then 1 else 0));
    }

    // ---- Refunds ---------------------------------------------------------------------------

    /**
     `createRefund`: room is reserved first, then the channel is asked while others go on, and its answer is written
     over whatever the refund is by then.
     */
    method CreateRefund(req: RefundRequest, others: seq<Step>, answer: RefundAnswer, random: real)
      returns (r: Result<string, RefundError>)
      requires store.Valid()
      modifies store
      ensures store.Valid()
              && store.log == old(store.log) + RefundCreationSteps(old(store.View()), req, others, answer, random)
      ensures RefundVerdict(old(store.View()), req).Err? ==> r.Err?
      ensures NewRefund(old(store.View()), req).None? ==> (r.Ok? <==> RefundVerdict(old(store.View()), req).Ok?)
      ensures NewRefund(old(store.View()), req).Some? ==>
                r == if !TakesAnswer(answer) then Err(RefundAnswerInvalid)
                     else if req.refundNo in store.refunds then Ok(req.refundNo) else Err(RefundVanished)
      ensures NewRefund(old(store.View()), req).Some? && answer == RefundAnswer.RefundAnswered(RefundCreated)
              && others == [] ==>
                req.refundNo in store.refunds && store.refunds[req.refundNo].status == RefundProcessing
      ensures req.refundNo !in old(store.issued) && r == Ok(req.refundNo) ==>
                ChannelAnswers.StoresAnswer(store.View(), req.refundNo, answer)
    {
      hide Apply, Replay, RefundVerdict, NewRefund, Inv, Billing, DispatchStep, ChannelAnswers.StoresAnswer;
      var isNew: bool;
      r, isNew := Reserve(req);
      if isNew {
        ghost var reserved := store.View();
        store.Interleave(others);
        if others == [] { ReplayNothing(reserved); }
        if !TakesAnswer(answer) { return Err(RefundAnswerInvalid); }
        ghost var before := store.View();
        Sound(store.birth, store.log);
        store.Execute(DispatchStep(req.refundNo, answer, random));
        if req.refundNo !in store.refunds { return Err(RefundVanished); }
        AnsweredRow(before, req.refundNo, answer, random);
      }
    }

    lemma AnsweredRow(db: Db, no: string, answer: RefundAnswer, random: real)
      requires Inv(db) && TakesAnswer(answer) && no in Apply(db, DispatchStep(no, answer, random)).refunds
      ensures ChannelAnswers.StoresAnswer(Apply(db, DispatchStep(no, answer, random)), no, answer)
    {
      hide Inv, Apply, ChannelAnswers.StoresAnswer;
      if no !in db.refunds { ChannelAnswers.NoAnswerCreates(db, no, answer, random); }
      ChannelAnswers.AnswerLands(db, no, answer, random);
    }

    /** The reserving transaction, logged as a step of the store; whether the refund is a new one. */
    method Reserve(req: RefundRequest) returns (r: Result<string, RefundError>, isNew: bool)
      requires store.Valid()
      modifies store
      ensures store.Valid() && store.log == old(store.log) + [Step.CreateRefund(req)]
      ensures r.Ok? <==> RefundVerdict(old(store.View()), req).Ok?
      ensures isNew == NewRefund(old(store.View()), req).Some?
      ensures isNew ==>
                && r == Ok(req.refundNo) && req.refundNo in store.refunds
                && store.refunds[req.refundNo].status == RefundProcessing
      ensures req.refundNo !in old(store.issued) && r == Ok(req.refundNo) ==> isNew
    {
      hide Replay, Inv, Billing;
      Sound(store.birth, store.log);
      var before := store.issued;
      r := store.ReserveRefund(req);
      store.Record(old(store.View()), Step.CreateRefund(req));
      isNew := req.refundNo !in before && req.refundNo in store.issued;
      InvNumbered(old(store.View()));
    }

    // ---- Bill lines ------------------------------------------------------------------------

    /** Three of the candidates, or all if there are no more. */
    method LookUp(candidates: set<string>) returns (seen: set<string>)
      ensures Looked(seen, candidates)
    {
      seen := {};
      var rest := candidates;
      while rest != {} && |seen| < LOOKUP
        invariant rest <= candidates && seen == candidates - rest && |seen| <= LOOKUP
        decreases rest
      {
        var no :| no in rest;
        rest, seen := rest - {no}, seen + {no};
      }
    }

    /** `locatePayment`: by order number and trade number first, then by the remark's reference, then by the amount. */
    method LocatePayment(accountId: string, flow: Flow) returns (c: Choice)
      requires store.Valid()
      ensures Locates(store.payments, accountId, flow, c)
    {
      hide Apply, Replay, Direct, ByTrade, LocatesByContent;
      var direct := Direct(store.payments, accountId, flow);
      var trade := ByTrade(store.payments, flow);
      if |direct| > 1 { return Refusal(None, true, false); }
      if trade != {} {
        c := LocateByTrade(accountId, flow, direct, trade);
        return;
      }
      if direct != {} {
        var named :| named in direct;
        return OnePayment(named);
      }
      c := LocateByContent(accountId, flow);
    }

    /** A payment has the line's trade number: it is the only one, and any payment named must be the same. */
    method LocateByTrade(accountId: string, flow: Flow, direct: set<string>, trade: set<string>) returns (c: Choice)
      requires store.Valid() && |direct| <= 1 && trade != {}
      requires direct == Direct(store.payments, accountId, flow) && trade == ByTrade(store.payments, flow)
      ensures Locates(store.payments, accountId, flow, c)
    {
      hide Apply, Replay, Billing, Direct, LocatesByContent;
      Sound(store.birth, store.log);
      var byTrade :| byTrade in trade;
      forall other | other in trade ensures other == byTrade { TradeAlone(store.View(), flow, other, byTrade); }
      if !OnAccount(store.payments[byTrade], accountId) { return Refusal(Some(byTrade), false, true); }
      if direct != {} && byTrade !in direct {
        var named :| named in direct;
        return Refusal(Some(named), false, true);
      }
      if direct != {} { Lone(direct, byTrade); }
      return OnePayment(byTrade);
    }

    lemma Lone(s: set<string>, x: string)
      requires |s| <= 1 && x in s
      ensures s == {x}
    {
      assert |s - {x}| == 0;
    }

    method LocateByContent(accountId: string, flow: Flow) returns (c: Choice)
      ensures LocatesByContent(store.payments, accountId, flow, c)
    {
      hide ExtractReference, Matches;
      var reference := ExtractReference(flow.remark);
      if reference.None? && HasReference(flow.remark) { return Refusal(None, false, false); }
      if reference.Some? {
        var referenced := Referenced(store.payments, accountId, reference.value);
        var seen := LookUp(referenced);
        var byRemark := Fitting(store.payments, seen, flow);
        if |byRemark| > 1 { return Refusal(None, true, false); }
        if byRemark != {} {
          var no :| no in byRemark;
          return OnePayment(no);
        }
        if referenced == {} { return Refusal(None, false, false); }
        var first :| first in referenced;
        return Refusal(Some(first), false, false);
      }
      var byAmount := ByAmount(store.payments, accountId, flow);
      if |byAmount| > 1 { return Refusal(None, true, false); }
      if byAmount != {} {
        var no :| no in byAmount;
        return OnePayment(no);
      }
      return NoPayment;
    }

    /** The outcome a stored receipt stands for. */
    method StoredOutcome(id: ReceiptId) returns (o: LineOutcome)
      requires store.Valid()
      ensures o == StoredOutcomeOf(store.View(), id)
      ensures StoredAsMatched(id, o)
    {
      hide Apply, Replay;
      if id in store.receipts && store.receipts[id].status == Matched {
        Sound(store.birth, store.log);
        MatchedSettles(store.View(), id);
        return MatchedTo(store.receipts[id].paymentNo.value);
      }
      return NotMatched;
    }

    /**
     `ingestAlipayBillFlow`: a line is matched only to the payment it settled. If nobody interferes, a line whose
     receipt is free ends as its lookup says, and one that names a payment settles that one or none.
     */
    method IngestFlow(accountId: string, flow: Flow, b: Breaks) returns (o: LineOutcome)
      requires store.Valid()
      modifies store
      ensures store.Valid() && old(store.log) <= store.log
      ensures Ingests(old(store.View()), ReceiptId(accountId, flow.tradeNo), flow, b, store.log[|old(store.log)|..], o)
      ensures StoredAsMatched(ReceiptId(accountId, flow.tradeNo), o)
      ensures b == LineLookup.QUIET && LineLookup.Takes(old(store.View()), ReceiptId(accountId, flow.tradeNo)) ==>
                exists c :: && Locates(old(store.payments), accountId, flow, c)
                            && LineLookup.EndsAs(old(store.View()), store.View(), ReceiptId(accountId, flow.tradeNo),
                                                 flow, c, o)
      ensures b == LineLookup.QUIET && LineLookup.Takes(old(store.View()), ReceiptId(accountId, flow.tradeNo)) ==>
                forall no | LineLookup.NamesAlone(old(store.payments), accountId, flow, no) ::
                  && LineLookup.OnlyPayment(old(store.View()), store.View(), no)
                  && LineLookup.EndsAs(old(store.View()), store.View(), ReceiptId(accountId, flow.tradeNo), flow,
                                       OnePayment(no), o)
      ensures b == LineLookup.QUIET && !LineLookup.Takes(old(store.View()), ReceiptId(accountId, flow.tradeNo)) ==>
                && store.View() == old(store.View())
                && LineLookup.AnsweredFrom(old(store.receipts)[ReceiptId(accountId, flow.tradeNo)], o)
    {
      hide Apply, Replay, Ingests, Locates, StoredAsMatched, LineLookup.EndsAs, LineLookup.NamesAlone,
           LineLookup.OnlyPayment, LineLookup.AnsweredFrom;
      ghost var first, db, id := store.log, store.View(), ReceiptId(accountId, flow.tradeNo);
      o := TakeIn(accountId, flow, b);
      ghost var steps := store.log[|first|..];
      assert store.log == first + steps;
      Ran(first, steps);
      if b == LineLookup.QUIET && LineLookup.Takes(db, id) {
        ReplayReaches(store.birth, first);
        ghost var c := LineLookup.QuietLineEnds(db, id, flow, steps, o);
        forall no | LineLookup.NamesAlone(db.payments, accountId, flow, no)
          ensures LineLookup.OnlyPayment(db, store.View(), no)
                  && LineLookup.EndsAs(db, store.View(), id, flow, OnePayment(no), o)
        {
          LineLookup.NamedLineEnds(db, id, flow, no, steps, o);
        }
      }
      if b == LineLookup.QUIET && !LineLookup.Takes(db, id) { LineLookup.SeenLineEnds(db, id, flow, steps, o); }
    }

    method TakeIn(accountId: string, flow: Flow, b: Breaks) returns (o: LineOutcome)
      requires store.Valid()
      modifies store
      ensures store.Valid() && old(store.log) <= store.log
      ensures Ingests(old(store.View()), ReceiptId(accountId, flow.tradeNo), flow, b, store.log[|old(store.log)|..], o)
      ensures StoredAsMatched(ReceiptId(accountId, flow.tradeNo), o)
    {
      hide Apply, Replay, ReceiptClaimable, Locates, LineSteps, LineOutcomeOf, StoredAsMatched;
      ghost var first, db := store.log, store.View();
      var id := ReceiptId(accountId, flow.tradeNo);
      StoreLine(id, flow, b);
      var claimed := ReceiptClaimable(store.View(), id);
      if !claimed {
        assert store.log[|first|..] == LineStored(id, flow, b);
        o := StoredOutcome(id);
        return;
      }
      store.Execute(ClaimReceipt(id));
      store.Interleave(b.before);
      assert store.log == first + LineClaimed(id, flow, b);
      Ran(first, LineClaimed(id, flow, b));
      ghost var found := store.View();
      var c := LocatePayment(accountId, flow);
      o := FollowChoice(id, flow, c, b);
      assert store.log[|first|..] == LineClaimed(id, flow, b) + LineSteps(found, id, flow, c, b);
    }

    /** `rematchAlipayBillReceipt`: a receipt not matched yet is opened again and its line taken in once more. */
    method RematchReceipt(id: ReceiptId, b: Breaks, meanwhile: seq<Step>) returns (o: LineOutcome)
      requires store.Valid()
      modifies store
      ensures store.Valid() && old(store.log) <= store.log
      ensures id !in old(store.receipts) ==> o == Thrown && store.log == old(store.log)
      ensures id in old(store.receipts) && old(store.receipts)[id].status == Matched ==> store.log == old(store.log)
      ensures id in old(store.receipts) && old(store.receipts)[id].status != Matched ==>
                Rematches(old(store.View()), id, meanwhile, b, store.log[|old(store.log)|..], o)
      ensures StoredAsMatched(id, o)
      ensures meanwhile == [] && b == LineLookup.QUIET && id in old(store.receipts)
              && old(store.receipts)[id].status != Matched ==>
                var flow := old(store.receipts)[id].flow;
                exists c :: && Locates(old(store.payments), id.accountId, flow, c)
                            && LineLookup.EndsAs(old(store.View()), store.View(), id, flow, c, o)
    {
      hide Apply, Replay, Ingests, StoredAsMatched, StoredOutcomeOf, Locates, LineLookup.Takes, LineLookup.EndsAs,
           LineLookup.AnsweredFrom, LineLookup.NamesAlone, LineLookup.OnlyPayment;
      if id !in store.receipts {
        NothingMatched(id);
        return Thrown;
      }
      var receipt := store.receipts[id];
      if receipt.status == Matched {
        o := StoredOutcome(id);
        return;
      }
      ghost var first, db := store.log, store.View();
      ReceiptsNamed();
      store.Interleave(meanwhile);
      if meanwhile == [] {
        ReplayNothing(db);
        LineLookup.Reopened(db, id);
      }
      store.Execute(ReopenReceipt(id));
      ghost var open := store.View();
      ghost var reopened := meanwhile + [ReopenReceipt(id)];
      assert store.log == first + reopened;
      Ran(first, reopened);
      ghost var at := store.log;
      o := IngestFlow(id.accountId, receipt.flow, b);
      assert store.log[|first|..] == reopened + store.log[|at|..];
      if meanwhile == [] && b == LineLookup.QUIET {
        ghost var c :| Locates(open.payments, id.accountId, receipt.flow, c)
                       && LineLookup.EndsAs(open, store.View(), id, receipt.flow, c, o);
        LineLookup.EndsFromFound(db, open, store.View(), id, receipt.flow, c, o);
      }
    }

    /** A receipt is kept under the trade number of its line. */
    lemma ReceiptsNamed()
      requires store.Valid()
      ensures forall id | id in store.receipts :: store.receipts[id].flow.tradeNo == id.tradeNo
    {
      hide Apply, Replay, Inv;
      Sound(store.birth, store.log);
    }

    lemma NothingMatched(id: ReceiptId)
      ensures StoredAsMatched(id, Thrown)
    {
    }

    /** `recoverStaleAlipayBillFlows`: receipts whose lock ran out are taken in again. */
    method RecoverStaleFlows(limit: nat, breaks: seq<Breaks>) returns (s: StaleSummary)
      requires store.Valid()
      modifies store
      ensures store.Valid() && old(store.log) <= store.log
      ensures exists stale :: && StaleReceipts(old(store.View()), limit, stale)
                              && StaleRun(old(store.View()), stale, breaks, |stale|, store.log[|old(store.log)|..], s)
      ensures s.found <= limit && s.matched + s.failed <= s.found
    {
      hide Apply, Replay, StaleRun;
      ReceiptsNamed();
      var stale := ReadStale(limit);
      s := TakeInAgain(stale, breaks);
    }

    /** The stale receipt whose lock ran out first, besides those taken. */
    method EarliestStale(taken: seq<ReceiptId>) returns (found: Option<ReceiptId>)
      ensures found.None? ==> forall id | IsStale(store.View(), id) :: id in taken
      ensures found.Some? ==> IsStale(store.View(), found.value) && found.value !in taken
      ensures found.Some? ==>
                forall id | IsStale(store.View(), id) && id !in taken ::
                  LockedUntil(store.View(), found.value) <= LockedUntil(store.View(), id)
    {
      found := None;
      var rest := store.receipts.Keys;
      while rest != {}
        invariant rest <= store.receipts.Keys
        invariant found.None? ==> forall id | IsStale(store.View(), id) && id !in rest :: id in taken
        invariant found.Some? ==> IsStale(store.View(), found.value) && found.value !in taken
        invariant found.Some? ==>
                    forall id | IsStale(store.View(), id) && id !in taken && id !in rest ::
                      LockedUntil(store.View(), found.value) <= LockedUntil(store.View(), id)
        decreases rest
      {
        var id :| id in rest;
        rest := rest - {id};
        if IsStale(store.View(), id) && id !in taken
           && (found.None? || LockedUntil(store.View(), id) < LockedUntil(store.View(), found.value)) {
          found := Some(id);
        }
      }
    }

    method ReadStale(limit: nat) returns (stale: seq<(ReceiptId, Flow)>)
      ensures StaleReceipts(store.View(), limit, stale)
    {
      hide LockedUntil, StaleReceipts;
      var ids: seq<ReceiptId> := [];
      while |ids| < limit
        invariant |ids| <= limit
        invariant forall i | 0 <= i < |ids| :: IsStale(store.View(), ids[i])
        invariant forall i, j | 0 <= i < j < |ids| ::
                    ids[i] != ids[j] && LockedUntil(store.View(), ids[i]) <= LockedUntil(store.View(), ids[j])
        invariant forall i, id | 0 <= i < |ids| && IsStale(store.View(), id) && id !in ids ::
                    LockedUntil(store.View(), ids[i]) <= LockedUntil(store.View(), id)
        decreases limit - |ids|
      {
        var next := EarliestStale(ids);
        if next.None? { break; }
        ids := ids + [next.value];
      }
      var db := store.View();
      stale := seq(|ids|, i requires 0 <= i < |ids| && ids[i] in db.receipts => (ids[i], db.receipts[ids[i]].flow));
      StaleRead(db, limit, ids, stale);
    }

    method TakeInAgain(stale: seq<(ReceiptId, Flow)>, breaks: seq<Breaks>) returns (s: StaleSummary)
      requires store.Valid() && forall i | 0 <= i < |stale| :: stale[i].1.tradeNo == stale[i].0.tradeNo
      modifies store
      ensures store.Valid() && old(store.log) <= store.log
      ensures StaleRun(old(store.View()), stale, breaks, |stale|, store.log[|old(store.log)|..], s)
      ensures s.found == |stale| && s.matched + s.failed <= |stale|
    {
      hide Apply, Replay, StaleRun, StaleCounted, Ingests;
      ghost var first, db := store.log, store.View();
      ghost var done: seq<Step> := [];
      s := StaleSummary(|stale|, 0, 0);
      NothingStale(db, stale, breaks);
      var i := 0;
      while i < |stale|
        invariant 0 <= i <= |stale|
        invariant store.Valid() && store.log == first + done
        invariant StaleRun(db, stale, breaks, i, done, s)
        invariant s.found == |stale| && s.matched + s.failed <= i
      {
        Ran(first, done);
        ghost var at := store.log;
        var o := IngestFlow(stale[i].0.accountId, stale[i].1, BreaksAt(breaks, i));
        ghost var after := store.log[|at|..];
        StaleGrows(db, stale, breaks, i, done, s, after, o);
        StaleCountedOnce(s, o);
        done, s, i := done + after, StaleCounted(s, o), i + 1;
      }
      assert store.log[|first|..] == done;
    }

    /** A receipt matched to a payment is stored so, and its line settled that payment. */
    predicate StoredAsMatched(id: ReceiptId, o: LineOutcome)
      reads store
    {
      o.MatchedTo? ==>
        id in store.receipts && store.receipts[id].status == Matched && Settles(store.payments, id, o.paymentNo)
    }

    /** The line's receipt is there, before it is claimed. */
    method StoreLine(id: ReceiptId, flow: Flow, b: Breaks)
      requires store.Valid() && id.tradeNo == flow.tradeNo
      modifies store
      ensures store.Valid() && store.log == old(store.log) + LineStored(id, flow, b)
      ensures store.View() == Replay(old(store.View()), LineStored(id, flow, b))
    {
      hide Apply, Replay;
      ghost var first := store.log;
      store.Interleave(b.first);
      store.Execute(InsertReceipt(id.accountId, flow));
      store.Interleave(b.claiming);
      assert store.log == first + LineStored(id, flow, b);
      Ran(first, LineStored(id, flow, b));
    }

    /** What a claimed line does with the answer of its lookup. */
    method FollowChoice(id: ReceiptId, flow: Flow, c: Choice, b: Breaks) returns (o: LineOutcome)
      requires store.Valid() && id.tradeNo == flow.tradeNo
      modifies store
      ensures store.Valid() && store.log == old(store.log) + LineSteps(old(store.View()), id, flow, c, b)
      ensures o == LineOutcomeOf(old(store.View()), id, flow, c, b)
      ensures StoredAsMatched(id, o)
    {
      hide Apply, Replay, LinePaySteps, LinePayOutcome;
      match c
      case NoPayment =>
        store.Execute(UnmatchReceipt(id));
        return NotMatched;
      case Refusal(found, ambiguous, conflict) =>
        store.Execute(Mismatch(id, found, ambiguous, conflict));
        return NotMatched;
      case OnePayment(no) =>
        hide StoredAsMatched;
        o := PayByLine(id, no, flow, b);
    }

    /** The checks on the payment found, its success, and the settling of the receipt. */
    method PayByLine(id: ReceiptId, no: string, flow: Flow, b: Breaks) returns (o: LineOutcome)
      requires store.Valid() && id.tradeNo == flow.tradeNo
      modifies store
      ensures store.Valid() && store.log == old(store.log) + LinePaySteps(old(store.View()), id, no, flow, b)
      ensures o == LinePayOutcome(old(store.View()), id, no, flow, b)
      ensures StoredAsMatched(id, o)
    {
      hide Apply, Replay, JudgeSuccess, FlowFits, LineSettleSteps, LineSettleOutcome;
      ghost var first, db := store.log, store.View();
      if ReceiptReport(store.View(), id.accountId, no, flow).None? {
        store.Execute(Mismatch(id, Some(no), false, false));
        return NotMatched;
      }
      if store.payments[no].tradeNo.Some? && store.payments[no].tradeNo != Some(flow.tradeNo) {
        store.Execute(Mismatch(id, Some(no), false, true));
        return NotMatched;
      }
      store.Interleave(b.between);
      if no !in store.payments {
        store.Execute(Mismatch(id, None, false, true));
        return NotMatched;
      }
      Onward(store.birth, first, store.log);
      FitsStill(db, store.View(), id.accountId, no, flow);
      hide Later, StoredAsMatched;
      o := Settle(id, no, flow, b.settling);
    }

    /** `markPaymentSucceeded` for the line, then the settling transaction; a refused success marks the receipt. */
    method Settle(id: ReceiptId, no: string, flow: Flow, settling: seq<Step>) returns (o: LineOutcome)
      requires store.Valid() && id.tradeNo == flow.tradeNo && ReceiptReport(store.View(), id.accountId, no, flow).Some?
      modifies store
      ensures store.Valid() && store.log == old(store.log) + LineSettleSteps(old(store.View()), id, no, flow, settling)
      ensures o == LineSettleOutcome(old(store.View()), id, no, flow, settling)
      ensures StoredAsMatched(id, o)
    {
      hide Apply, Replay, JudgeSuccess, ReceiptReport, Settles;
      ghost var db := store.View();
      var report := ReceiptReport(store.View(), id.accountId, no, flow).value;
      var verdict := JudgeSuccess(store.View(), report);
      ghost var success := ReceiptSuccess(id.accountId, no, flow);
      store.Execute(ReceiptSuccess(id.accountId, no, flow));
      if verdict.Refused? {
        store.Execute(if verdict.error == TradeNoTaken then DeferReceipt(id) else Mismatch(id, None, false, true));
        return if verdict.error == TradeNoTaken then Thrown else NotMatched;
      }
      Sound(store.birth, old(store.log));
      LineSettles(db, id.accountId, no, flow);
      hide Inv, Billing;
      o := MatchSettled(id, no, settling);
    }

    /** The settling transaction of a line whose success is stored. */
    method MatchSettled(id: ReceiptId, no: string, settling: seq<Step>) returns (o: LineOutcome)
      requires store.Valid() && Settles(store.payments, id, no)
      modifies store
      ensures store.Valid()
      ensures store.log == old(store.log) + settling + if id in Replay(old(store.View()), settling).receipts
              then [MatchReceipt(id, no)] else []
      ensures o == if id in Replay(old(store.View()), settling).receipts then MatchedTo(no) else Thrown
      ensures StoredAsMatched(id, o)
    {
      hide Apply, Replay;
      ghost var paid, db := store.log, store.View();
      store.Interleave(settling);
      Onward(store.birth, paid, store.log);
      SettlesStill(db, store.View(), id, no);
      hide Later, Settles;
      if id !in store.receipts { return Thrown; }
      MatchWrites(store.View(), id, no);
      store.Execute(MatchReceipt(id, no));
      return MatchedTo(no);
    }
  }
}
