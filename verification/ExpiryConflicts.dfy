/**
 When expiring an order ends in the state conflict: it was paid between the read of the order and that of its
 payments.
 */
module ExpiryConflicts {
  import opened Wrappers
  import opened StateMachine
  import opened Rows
  import opened PaymentSteps
  import opened Steps
  import opened OneWinner
  import opened ServiceSteps
  import RefundCap
  import opened Shapes

  /** The tables once the payments listed before place `i` are settled, none of them stopping the expiration. */
  ghost function SettledTo(db: Db, list: seq<(string, Payment)>, plan: Plan, i: nat): Db
    requires i <= |list|
  {
    if i == 0 then db
    else
      var before, no, payment := SettledTo(db, list, plan, i - 1), list[i - 1].0, list[i - 1].1;
      if IsActive(payment.status)
        then Replay(before, SettleSteps(before, no, payment.channel, CallAt(plan.calls, i - 1)))
      else before
  }

  /** The payment at place `i` does not stop the expiration: it is not active, or its settling ends with it closed. */
  ghost predicate SettlesClosed(db: Db, list: seq<(string, Payment)>, plan: Plan, i: nat)
    requires i < |list|
  {
    IsActive(list[i].1.status) ==>
      SettleAnswer(SettledTo(db, list, plan, i), list[i].0, list[i].1.channel, CallAt(plan.calls, i)) == Ok(false)
  }

  /** A listed payment is successful, and all before it settle as closed. */
  ghost predicate MeetsSuccess(db: Db, list: seq<(string, Payment)>, plan: Plan, from: nat) {
    exists j | from <= j < |list| ::
      list[j].1.status == Success && forall i | from <= i < j :: SettlesClosed(db, list, plan, i)
  }

  lemma SettlingNeverConflicts(db: Db, no: string, channel: Channel, call: Call)
    ensures SettleAnswer(db, no, channel, call) != Err(StateConflict)
  {
    hide Replay, QuerySteps, CloseSteps;
  }

  lemma {:induction false} SettledReachable(db: Db, list: seq<(string, Payment)>, plan: Plan, i: nat)
    requires Reachable(db) && i <= |list|
    ensures Reachable(SettledTo(db, list, plan, i))
  {
    hide Reachable, Replay, SettleSteps;
    if i > 0 {
      SettledReachable(db, list, plan, i - 1);
      var before := SettledTo(db, list, plan, i - 1);
      ReachableOnward(before, SettleSteps(before, list[i - 1].0, list[i - 1].1.channel, CallAt(plan.calls, i - 1)));
    }
  }

  /** Closing never meets a success. */
  lemma ClosingNeverConflicts(db: Db, orderNo: string, list: seq<(string, Payment)>, plan: Plan)
    requires Reachable(db)
    ensures ExpireAnswer(SettledTo(db, list, plan, |list|), orderNo, list, plan, |list|) != Err(StateConflict)
  {
    hide Reachable, Replay, JudgeClose, SettledTo;
    var settled := SettledTo(db, list, plan, |list|);
    SettledReachable(db, list, plan, |list|);
    ReachableOnward(settled, plan.closing);
    ClosingIsSafe(Replay(settled, plan.closing), orderNo);
  }

  lemma {:induction false} ConflictFrom(db: Db, orderNo: string, list: seq<(string, Payment)>, plan: Plan, i: nat)
    requires Reachable(db) && i <= |list|
    ensures ExpireAnswer(SettledTo(db, list, plan, i), orderNo, list, plan, i) == Err(StateConflict)
            <==> MeetsSuccess(db, list, plan, i)
    decreases |list| - i
  {
    hide Reachable, Replay, SettleSteps, SettleAnswer, ExpireAnswer, ExpireSteps;
    if i == |list| {
      ClosingNeverConflicts(db, orderNo, list, plan);
    } else {
      var at, no, payment := SettledTo(db, list, plan, i), list[i].0, list[i].1;
      ConflictFrom(db, orderNo, list, plan, i + 1);
      if payment.status == Success {
        ExpireConflicts(at, orderNo, list, plan, i);
        assert MeetsSuccess(db, list, plan, i);
      } else {
        ExpireUnfolds(at, orderNo, list, plan, i);
        SettlingNeverConflicts(at, no, payment.channel, CallAt(plan.calls, i));
        SuccessLater(db, list, plan, i);
      }
    }
  }

  /** A success is met from a place on if that one settles as closed and a success is met from the next one on. */
  lemma SuccessLater(db: Db, list: seq<(string, Payment)>, plan: Plan, i: nat)
    requires i < |list| && list[i].1.status != Success
    ensures MeetsSuccess(db, list, plan, i) <==> SettlesClosed(db, list, plan, i) && MeetsSuccess(db, list, plan, i + 1)
  {
    hide SettlesClosed;
    if MeetsSuccess(db, list, plan, i) {
      var j :| i <= j < |list| && list[j].1.status == Success && forall k | i <= k < j ::
        SettlesClosed(db, list, plan, k);
      assert i < j;
    }
    if SettlesClosed(db, list, plan, i) && MeetsSuccess(db, list, plan, i + 1) {
      var j :| i + 1 <= j < |list| && list[j].1.status == Success
               && forall k | i + 1 <= k < j :: SettlesClosed(db, list, plan, k);
      assert forall k | i <= k < j :: SettlesClosed(db, list, plan, k);
    }
  }

  /**
   The payments being listed, the expiration ends in the conflict exactly if one of them is successful and every active
   one listed before it settles as closed.
   */
  lemma ConflictExactly(db: Db, orderNo: string, list: seq<(string, Payment)>, plan: Plan)
    requires Reachable(db)
    ensures ExpireAnswer(db, orderNo, list, plan, 0) == Err(StateConflict) <==> MeetsSuccess(db, list, plan, 0)
  {
    hide Reachable, ExpireAnswer, MeetsSuccess;
    ConflictFrom(db, orderNo, list, plan, 0);
  }

  /** Among the payments of an order there is a success exactly while it is paid. */
  lemma SuccessListed(db: Db, orderNo: string, list: seq<(string, Payment)>)
    requires Inv(db) && orderNo in db.orders && ListsPayments(db, orderNo, list)
    ensures (exists j | 0 <= j < |list| :: list[j].1.status == Success) <==> IsPaid(db.orders[orderNo].status)
  {
    if IsPaid(db.orders[orderNo].status) {
      var winner := db.orders[orderNo].winner.value;
      assert (winner, db.payments[winner]) in list;
    }
  }

  /** Unless active payments are listed before it, the conflict is answered exactly if the order is paid by then. */
  lemma PaidBetweenExactly(db: Db, orderNo: string, list: seq<(string, Payment)>, plan: Plan)
    requires Reachable(db) && orderNo in db.orders && ListsPayments(db, orderNo, list)
    requires forall i, j | 0 <= i < j < |list| && list[j].1.status == Success :: !IsActive(list[i].1.status)
    ensures ExpireAnswer(db, orderNo, list, plan, 0) == Err(StateConflict) <==> IsPaid(db.orders[orderNo].status)
  {
    hide Reachable, ExpireAnswer, Inv, ListsPayments, SettledTo;
    ConflictExactly(db, orderNo, list, plan);
    ReachableInv(db);
    SuccessListed(db, orderNo, list);
  }

  /** So the conflict means that the order, open when it was read, was paid when its payments were. */
  lemma ConflictMeansPaidBetween(db: Db, orderNo: string, plan: Plan, steps: seq<Step>)
    requires Reachable(db) && Expires(db, orderNo, plan, steps, Err(StateConflict))
    ensures orderNo in db.orders && IsOpen(db.orders[orderNo].status)
    ensures var read := Replay(db, plan.listing); orderNo in read.orders && IsPaid(read.orders[orderNo].status)
  {
    hide Reachable, ExpireAnswer, ExpireSteps, Inv, Replay;
    var read := Replay(db, plan.listing);
    ReachableOnward(db, plan.listing);
    ReachableInv(read);
    var list :| ListsPayments(read, orderNo, list) && steps == plan.listing + ExpireSteps(read, orderNo, list, plan, 0)
                && Err(StateConflict) == ExpireAnswer(read, orderNo, list, plan, 0);
    ConflictExactly(read, orderNo, list, plan);
    SuccessNamesOrder(read, orderNo, list);
  }

  lemma SuccessNamesOrder(db: Db, orderNo: string, list: seq<(string, Payment)>)
    requires Inv(db) && ListsPayments(db, orderNo, list)
    ensures (exists j | 0 <= j < |list| :: list[j].1.status == Success) ==>
              orderNo in db.orders && IsPaid(db.orders[orderNo].status)
  {
  }

  // ---- It happens --------------------------------------------------------------------------

  /** An order of 100 with one payment asked for, and the order expires. */
  const OVERDUE: seq<Step> := RefundCap.BOUGHT[..3] + [Tick(900)]

  /** The payment is reported between the two reads. */
  const PAID_BETWEEN := Plan([], [], [Webhook("p", 100, Some("trade"), 900)], [], [], [])

  /** The order is due, and its one payment is asked for or paid. */
  ghost predicate OnePayment(db: Db, status: PaymentStatus) {
    && db.payments.Keys == {"p"} && db.payments["p"].status == status
    && db.payments["p"].amount == 100 && db.payments["p"].channel == Alipay && db.payments["p"].orderNo == "o"
    && "o" in db.orders
  }

  lemma OverdueStage(db: Db)
    requires db.now == 0 && OnePayment(db, Processing)
    requires db.orders["o"].status == OrderPending && !db.orders["o"].deleted && db.orders["o"].expiresAt == 900
             && db.orders["o"].nextAttemptAt == Some(900) && db.orders["o"].lockedUntil == None
    ensures var t := Apply(db, Tick(900)); OnePayment(t, Processing) && IsDueOrder(t, "o")
  {
    hide Apply;
    StepWrites(db, Tick(900));
  }

  lemma PaidStage(db: Db)
    requires OnePayment(db, Processing)
    ensures OnePayment(Apply(db, PAID_BETWEEN.listing[0]), Success)
  {
    hide Apply;
    StepWrites(db, PAID_BETWEEN.listing[0]);
  }

  lemma OverdueRun()
    ensures var db := Replay(EmptyDb(0), OVERDUE); OnePayment(db, Processing) && IsDueOrder(db, "o")
  {
    hide Apply, Replay, IsDueOrder;
    var d := EmptyDb(0);
    RefundCap.AppStage(d);
    var d1 := Apply(d, OVERDUE[0]);
    RefundCap.OrderStage(d1);
    var d2 := Apply(d1, OVERDUE[1]);
    RefundCap.PaymentStage(d2);
    OverdueStage(Apply(d2, OVERDUE[2]));
    ReplayFour(d, OVERDUE);
  }

  lemma ConflictOf(db: Db, read: Db, payment: Payment)
    requires read == Replay(db, PAID_BETWEEN.listing)
    requires "o" in db.orders && IsOpen(db.orders["o"].status)
    requires OnePayment(read, Success) && payment == read.payments["p"]
    ensures Expires(db, "o", PAID_BETWEEN, PAID_BETWEEN.listing, Err(StateConflict))
  {
    hide Replay, ExpireAnswer, ExpireSteps;
    var list := [("p", payment)];
    ExpireConflicts(read, "o", list, PAID_BETWEEN, 0);
    assert ListsPayments(read, "o", list);
    assert PAID_BETWEEN.listing == PAID_BETWEEN.listing + ExpireSteps(read, "o", list, PAID_BETWEEN, 0);
  }

  /** A due order whose payment succeeds between the two reads: its expiration answers the conflict. */
  lemma ConflictHappens()
    ensures var db := Replay(EmptyDb(0), OVERDUE);
            && Reachable(db) && IsDueOrder(db, "o")
            && Expires(db, "o", PAID_BETWEEN, PAID_BETWEEN.listing, Err(StateConflict))
  {
    hide Apply, Replay, Reachable, Expires;
    var db := Replay(EmptyDb(0), OVERDUE);
    OverdueRun();
    ReplayReaches(0, OVERDUE);
    PaidStage(db);
    ReplayNothing(db);
    ReplayLast(db, PAID_BETWEEN.listing);
    assert PAID_BETWEEN.listing[..0] == [];
    ConflictOf(db, Replay(db, PAID_BETWEEN.listing), Replay(db, PAID_BETWEEN.listing).payments["p"]);
  }
}
