/**
 Requests that name their order or refund: repeated, they are answered with what they made, and never make it twice.
 */
module Identities {
  import opened Wrappers
  import opened StateMachine
  import opened Rows
  import opened PaymentSteps
  import opened RefundSteps
  import opened Steps
  import opened Shapes
  import opened OneWinner
  import opened Forward

  // ---- What a request is answered with -----------------------------------------------------

  /** The answers `createOrder` may give; the second part says whether the order was there before. */
  predicate AnswersOrder(db: Db, orderNo: string, w: OrderRequest, r: Result<(string, bool), OrderError>) {
    if !OrderRequestValid(db, orderNo, w) then r == Err(OrderRequestInvalid)
    else if exists no | no in db.orders :: LiveMatch(db, no, w) then
      match r
      case Ok(a) => a.1 && LiveMatch(db, a.0, w) && db.orders[a.0].identity.text == w.identity.text
      case Err(e) => e == IdempotencyConflict && exists no | no in db.orders ::
                       LiveMatch(db, no, w) && db.orders[no].identity.text != w.identity.text
    else r == if IdentityTaken(db, w.appId, w.identity) then Err(OrderNumberTaken) else Ok((orderNo, false))
  }

  predicate LiveMatch(db: Db, no: string, w: OrderRequest) {
    no in db.orders && SameIdentity(db.orders[no], w.appId, w.identity) && !db.orders[no].deleted
  }

  // ---- No identity twice -------------------------------------------------------------------

  ghost predicate OrdersApart(orders: Orders) {
    forall a, b | a in orders && b in orders && a != b :: !SameIdentity(orders[a], orders[b].appId, orders[b].identity)
  }

  ghost predicate RefundsApart(refunds: Refunds) {
    forall a, b | a in refunds && b in refunds && refunds[a].appId == refunds[b].appId
      && refunds[a].external == refunds[b].external :: a == b
  }

  ghost predicate Distinct(db: Db) {
    OrdersApart(db.orders) && RefundsApart(db.refunds)
  }

  lemma OrderPutApart(orders: Orders, no: string, row: Option<Order>)
    requires OrdersApart(orders)
    requires row.Some? ==>
      if no in orders then row.value.appId == orders[no].appId && row.value.identity == orders[no].identity
      else forall a | a in orders :: !SameIdentity(orders[a], row.value.appId, row.value.identity)
    ensures OrdersApart(Put(orders, no, row))
  {
  }

  lemma RefundPutApart(refunds: Refunds, no: string, row: Option<Refund>)
    requires RefundsApart(refunds)
    requires row.Some? ==>
      if no in refunds then row.value.appId == refunds[no].appId && row.value.external == refunds[no].external
      else forall a | a in refunds ::
             !(refunds[a].appId == row.value.appId && refunds[a].external == row.value.external)
    ensures RefundsApart(Put(refunds, no, row))
  {
  }

  lemma NewOrderUnknown(db: Db, step: Step)
    requires OrderRow(db, step).Some? && OrderKey(db, step) !in db.orders
    ensures var o := OrderRow(db, step).value;
            forall a | a in db.orders :: !SameIdentity(db.orders[a], o.appId, o.identity)
  {
    hide OrderRow, OrderKey, SameIdentity, OrderRequestValid;
    OtherRowsKnown(db, step);
    if step.CreateOrder? { CreatedRow(db, step); }
  }

  lemma CreatedRow(db: Db, step: Step)
    requires step.CreateOrder?
    ensures OrderRow(db, step) == NewOrder(db, step.orderNo, step.wanted)
  {
    hide NewOrder;
  }

  /** Only its creation writes an order that is not there. */
  lemma OtherRowsKnown(db: Db, step: Step)
    ensures OrderRow(db, step).Some? && !step.CreateOrder? ==> OrderKey(db, step) in db.orders
  {
    hide TradeNoFree, HasSuccess, HasActive, WonOrder, StatusPaidBack, PrepareReceipt, KeyUsed;
    if IsReport(step) { ReportNamesPayment(db, step); }
  }

  lemma NewRefundUnknown(db: Db, step: Step)
    requires RefundRow(db, step).Some? && RefundKey(step) !in db.refunds
    ensures var r := RefundRow(db, step).value;
            forall a | a in db.refunds :: !(db.refunds[a].appId == r.appId && db.refunds[a].external == r.external)
  {
    hide RefundRow, RefundKey, NewRefund;
    OtherRefundsKnown(db, step);
    if step.CreateRefund? { CreatedRefund(db, step); }
  }

  lemma CreatedRefund(db: Db, step: Step)
    requires step.CreateRefund?
    ensures RefundRow(db, step).Some? ==>
              && RefundRow(db, step).value.appId == step.refund.appId
              && RefundRow(db, step).value.external == step.refund.external
              && !ExternalUsed(db, step.refund.appId, step.refund.external)
  {
    hide Total, ExternalUsed;
  }

  /** Only its creation writes a refund that is not there. */
  lemma OtherRefundsKnown(db: Db, step: Step)
    ensures RefundRow(db, step).Some? && !step.CreateRefund? ==> RefundKey(step) in db.refunds
  {
    hide Total, NewRefund, ScheduleOf, RefundsWinner, StatusPaidBack;
  }

  lemma MovesDistinct(db: Db, step: Step, t: Db)
    requires Inv(db) && Distinct(db) && !step.DeleteApplication? && Moves(db, step, t)
    ensures Distinct(t)
  {
    hide Inv, OrderRow, OrderKey, RefundRow, RefundKey, PaymentRow, PaymentKey, OrdersApart, RefundsApart, SameIdentity;
    InvNumbered(db);
    OrderRowLater(db, step);
    RefundRowLater(db, step);
    if OrderRow(db, step).Some? && OrderKey(db, step) !in db.orders { NewOrderUnknown(db, step); }
    if RefundRow(db, step).Some? && RefundKey(step) !in db.refunds { NewRefundUnknown(db, step); }
    OrderPutApart(db.orders, OrderKey(db, step), OrderRow(db, step));
    RefundPutApart(db.refunds, RefundKey(step), RefundRow(db, step));
  }

  lemma DeletionDistinct(db: Db, appId: string, t: Db)
    requires Distinct(db) && Deletes(db, appId, t)
    ensures Distinct(t)
  {
    hide Archives, ClearedPayments, ClearedEvents, ClearedExceptions, ClearedReceipts, ClearedDeliveries,
         WithoutReservations;
  }

  lemma StepDistinct(db: Db, step: Step)
    requires Inv(db) && Distinct(db)
    ensures Distinct(Apply(db, step))
  {
    if step.DeleteApplication? {
      DeletionWrites(db, step.appId);
      DeletionDistinct(db, step.appId, Apply(db, step));
    } else {
      StepWrites(db, step);
      MovesDistinct(db, step, Apply(db, step));
    }
  }

  lemma {:induction false} RunDistinct(db: Db, steps: seq<Step>)
    requires Inv(db) && Distinct(db)
    ensures Distinct(Replay(db, steps))
  {
    hide Inv, Distinct, Apply;
    if steps != [] {
      RunDistinct(db, steps[..|steps| - 1]);
      ReplayKeeps(db, steps[..|steps| - 1]);
      StepDistinct(Replay(db, steps[..|steps| - 1]), steps[|steps| - 1]);
    }
  }

  lemma EmptyDistinct(now: int)
    ensures Distinct(EmptyDb(now))
  {
  }

  lemma ReachableDistinct(db: Db)
    requires Reachable(db)
    ensures Distinct(db)
  {
    hide Inv, Distinct, Replay, Reachable;
    var now, steps := ReachedByReplay(db);
    EmptyInv(now);
    EmptyDistinct(now);
    RunDistinct(EmptyDb(now), steps);
  }

  // ---- Repeated requests -------------------------------------------------------------------

  /** In every reachable state no two orders of an application share a number or a key, and no two refunds a number. */
  lemma NoIdentityTwice(db: Db)
    requires Reachable(db)
    ensures forall a, b | a in db.orders && b in db.orders && a != b && db.orders[a].appId == db.orders[b].appId ::
              && db.orders[a].identity.external != db.orders[b].identity.external
              && (db.orders[a].identity.key.Some? ==> db.orders[a].identity.key != db.orders[b].identity.key)
    ensures forall a, b | a in db.refunds && b in db.refunds && a != b && db.refunds[a].appId == db.refunds[b].appId ::
              db.refunds[a].external != db.refunds[b].external
  {
    hide Reachable, OrdersApart, RefundsApart;
    ReachableDistinct(db);
    ApartIs(db);
  }

  lemma ApartIs(db: Db)
    requires OrdersApart(db.orders) && RefundsApart(db.refunds)
    ensures forall a, b | a in db.orders && b in db.orders && a != b && db.orders[a].appId == db.orders[b].appId ::
              && db.orders[a].identity.external != db.orders[b].identity.external
              && (db.orders[a].identity.key.Some? ==> db.orders[a].identity.key != db.orders[b].identity.key)
    ensures forall a, b | a in db.refunds && b in db.refunds && a != b && db.refunds[a].appId == db.refunds[b].appId ::
              db.refunds[a].external != db.refunds[b].external
  {
    forall a, b | a in db.orders && b in db.orders && a != b && db.orders[a].appId == db.orders[b].appId
      ensures db.orders[a].identity.external != db.orders[b].identity.external
              && (db.orders[a].identity.key.Some? ==> db.orders[a].identity.key != db.orders[b].identity.key)
    {
      assert !SameIdentity(db.orders[a], db.orders[b].appId, db.orders[b].identity);
      assert !SameIdentity(db.orders[b], db.orders[a].appId, db.orders[a].identity);
    }
  }

  /**
   Whatever happened since, the request that made an order is answered with that order for as long as it is not
   deleted.
   */
  lemma RepeatGetsItsOrder(db: Db, unused: string, w: OrderRequest, no: string, r: Result<(string, bool), OrderError>)
    requires Reachable(db) && no in db.orders && !db.orders[no].deleted
    requires db.orders[no].appId == w.appId && db.orders[no].identity == w.identity
    requires OrderRequestValid(db, unused, w) && AnswersOrder(db, unused, w, r)
    ensures r == Ok((no, true))
  {
    hide Reachable, RefundsApart;
    ReachableDistinct(db);
    assert LiveMatch(db, no, w);
    forall a | LiveMatch(db, a, w) ensures a == no {
      assert SameIdentity(db.orders[a], db.orders[no].appId, db.orders[no].identity);
    }
  }

  /** A repeated refund request is answered with the refund it made exactly when it gives a reason. */
  lemma RepeatedRefundExactly(db: Db, no: string, req: RefundRequest)
    requires Reachable(db) && no in db.refunds
    requires var r := db.refunds[no];
             r.appId == req.appId && r.external == req.external && r.paymentNo == req.paymentNo
               && r.amount == req.amount && r.reason == req.reason
    ensures RefundVerdict(db, req) == if req.reason.Some? then Ok(None) else Err(RefundIdempotencyConflict)
  {
    hide Reachable, Inv, OrdersApart, Total;
    ReachableInv(db);
    ReachableDistinct(db);
    RefundPositive(db, no);
    assert ExternalUsed(db, req.appId, req.external);
    if Repeated(db, req) {
      var a :| a in db.refunds && Repeats(db.refunds[a], req);
      assert a == no;
    } else {
      assert !Repeats(db.refunds[no], req);
    }
  }
}
