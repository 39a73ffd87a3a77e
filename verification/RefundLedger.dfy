/**
 What was paid back over a whole run, whatever the stored refunds say by now. The stored rows forget a payout when a
 slow failure is written over a success, and its room may then be given away again.
 */
module RefundLedger {
  import opened Wrappers
  import opened StateMachine
  import opened Rows
  import opened PaymentSteps
  import opened RefundSteps
  import opened Steps
  import opened Shapes
  import opened OneWinner
  import opened Forward
  import opened RefundTotals
  import opened RefundCap
  import RefundRaces
  import RecoveryPolicy

  // ---- The ledger --------------------------------------------------------------------------

  /** A success that takes effect is entered once and for all. */
  ghost function Entered(db: Db, step: Step, ledger: Refunds): Refunds {
    if step.RefundSucceeded? && PaysBack(db, step.refundNo)
    then ledger[step.refundNo := SucceededRefund(db.refunds[step.refundNo])] else ledger
  }

  /** The refunds that were ever paid back, each as it was then. */
  ghost function Ledger(db: Db, steps: seq<Step>): Refunds {
    if steps == [] then map[]
    else
      var front := steps[..|steps| - 1];
      Entered(Replay(db, front), steps[|steps| - 1], Ledger(db, front))
  }

  /** All that was ever paid back of a payment. */
  ghost function EverPaid(ledger: Refunds, paymentNo: string): nat {
    Total(ledger, paymentNo, Succeeded)
  }

  /** An entry is a success of a payment that stays, and the row of its number keeps its money. */
  ghost predicate Kept(db: Db, ledger: Refunds) {
    forall no | no in ledger ::
      && ledger[no].status == RefundSuccess && no in db.issued
      && ledger[no].paymentNo in db.payments && db.payments[ledger[no].paymentNo].status == Success
      && (no in db.refunds ==> SameMoney(ledger[no], db.refunds[no]))
  }

  lemma PaymentsStay(db: Db, t: Db, no: string)
    requires Later(db, t) && no in db.payments && db.payments[no].status == Success
    ensures no in t.payments && t.payments[no].status == Success && t.payments[no].amount == db.payments[no].amount
  {
    hide OrdersLater, RefundsLater;
  }

  lemma RowsKeepMoney(db: Db, t: Db, no: string)
    requires Later(db, t) && no in db.issued && no in t.refunds
    ensures no in db.refunds && SameMoney(db.refunds[no], t.refunds[no])
  {
    hide OrdersLater, PaymentsLater;
  }

  lemma RefundBacked(db: Db, no: string)
    requires Inv(db) && no in db.refunds
    ensures db.refunds[no].paymentNo in db.payments && db.payments[db.refunds[no].paymentNo].status == Success
            && no in db.issued
  {
  }

  lemma KeptOn(db: Db, t: Db, ledger: Refunds)
    requires Kept(db, ledger) && Later(db, t)
    ensures Kept(t, ledger)
  {
    hide OrdersLater, RefundsLater, PaymentsLater;
    forall no | no in ledger
      ensures no in t.issued && ledger[no].paymentNo in t.payments
              && t.payments[ledger[no].paymentNo].status == Success
              && (no in t.refunds ==> SameMoney(ledger[no], t.refunds[no]))
    {
      PaymentsStay(db, t, ledger[no].paymentNo);
      if no in t.refunds { RowsKeepMoney(db, t, no); }
    }
  }

  lemma EntryKept(db: Db, no: string, ledger: Refunds)
    requires Inv(db) && Kept(db, ledger) && PaysBack(db, no)
    ensures Kept(db, ledger[no := SucceededRefund(db.refunds[no])])
  {
    hide Inv, StatusPaidBack, RefundsWinner;
    RefundBacked(db, no);
  }

  lemma StepEnters(db: Db, step: Step, ledger: Refunds)
    requires Inv(db) && Kept(db, ledger)
    ensures Kept(Apply(db, step), Entered(db, step, ledger))
  {
    hide Inv, Kept, Later, Apply, PaysBack, SucceededRefund;
    StepMoves(db, step);
    if step.RefundSucceeded? && PaysBack(db, step.refundNo) { EntryKept(db, step.refundNo, ledger); }
    KeptOn(db, Apply(db, step), Entered(db, step, ledger));
  }

  lemma LedgerLast(db: Db, steps: seq<Step>)
    requires steps != []
    ensures var front := steps[..|steps| - 1];
            Ledger(db, steps) == Entered(Replay(db, front), steps[|steps| - 1], Ledger(db, front))
  {
    hide Apply, Entered, Replay;
  }

  lemma {:induction false} LedgerKept(now: int, steps: seq<Step>)
    ensures Inv(Replay(EmptyDb(now), steps)) && Kept(Replay(EmptyDb(now), steps), Ledger(EmptyDb(now), steps))
  {
    hide Inv, Apply, Entered, Replay, Ledger, Kept;
    AlwaysInv(now, steps);
    if steps == [] {
      NothingEntered(now);
    } else {
      var n := |steps| - 1;
      LedgerKept(now, steps[..n]);
      ReplayLast(EmptyDb(now), steps);
      LedgerLast(EmptyDb(now), steps);
      StepEnters(Replay(EmptyDb(now), steps[..n]), steps[n], Ledger(EmptyDb(now), steps[..n]));
    }
  }

  lemma NothingEntered(now: int)
    ensures Kept(Replay(EmptyDb(now), []), Ledger(EmptyDb(now), []))
  {
  }

  // ---- Paid back beyond the payment --------------------------------------------------------

  /** No payment has paid back more than it received. */
  ghost predicate NoneOverpaid(db: Db, ledger: Refunds) {
    forall p | p in db.payments :: EverPaid(ledger, p) <= db.payments[p].amount
  }

  /** A refund not paid so far succeeds, and what was ever paid back of its payment leaves no room for it. */
  ghost predicate PaysBeyond(db: Db, step: Step, ledger: Refunds) {
    && step.RefundSucceeded? && PaysBack(db, step.refundNo) && step.refundNo !in ledger
    && var r := db.refunds[step.refundNo];
       EverPaid(ledger, r.paymentNo) + r.amount > db.payments[r.paymentNo].amount
  }

  /** A payment of which the ledger knows nothing has paid back nothing. */
  lemma PaymentsMove(db: Db, t: Db, ledger: Refunds)
    requires Kept(db, ledger) && Later(db, t)
    ensures NoneOverpaid(t, ledger) <==> NoneOverpaid(db, ledger)
  {
    hide OrdersLater, RefundsLater, PaymentsLater, Total;
    forall p ensures p in db.payments && p in t.payments ==> t.payments[p].amount == db.payments[p].amount {
      SameAmount(db, t, p);
    }
    forall p | !(exists no | no in ledger :: ledger[no].paymentNo == p) ensures EverPaid(ledger, p) == 0 {
      TotalOfNone(ledger, p, Succeeded);
    }
    forall no | no in ledger ensures ledger[no].paymentNo in t.payments {
      PaymentsStay(db, t, ledger[no].paymentNo);
    }
  }

  lemma SameAmount(db: Db, t: Db, p: string)
    requires Later(db, t)
    ensures p in db.payments && p in t.payments ==> t.payments[p].amount == db.payments[p].amount
  {
    hide OrdersLater, RefundsLater;
  }

  lemma EntryPays(db: Db, no: string, ledger: Refunds)
    requires Inv(db) && Kept(db, ledger) && NoneOverpaid(db, ledger) && PaysBack(db, no)
    ensures NoneOverpaid(db, ledger[no := SucceededRefund(db.refunds[no])])
            <==> !PaysBeyond(db, RefundSucceeded(no), ledger)
  {
    hide Inv, Total, StatusPaidBack, RefundsWinner;
    var r := SucceededRefund(db.refunds[no]);
    forall p ensures EverPaid(ledger[no := r], p)
                  == EverPaid(ledger, p) + (if p == r.paymentNo && no !in ledger then r.amount else 0)
    {
      TotalUpdated(ledger, no, r, p, Succeeded);
    }
  }

  /** One step leaves what was ever paid back within the payments exactly when it pays no new refund beyond. */
  lemma StepPays(db: Db, step: Step, ledger: Refunds)
    requires Inv(db) && Kept(db, ledger) && NoneOverpaid(db, ledger)
    ensures NoneOverpaid(Apply(db, step), Entered(db, step, ledger)) <==> !PaysBeyond(db, step, ledger)
  {
    hide Inv, Kept, NoneOverpaid, Later, Apply, PaysBack, SucceededRefund, EverPaid;
    StepMoves(db, step);
    if step.RefundSucceeded? && PaysBack(db, step.refundNo) {
      EntryKept(db, step.refundNo, ledger);
      EntryPays(db, step.refundNo, ledger);
    }
    PaymentsMove(db, Apply(db, step), Entered(db, step, ledger));
  }

  ghost predicate NeverOverpaid(db: Db, steps: seq<Step>) {
    forall k | 0 <= k <= |steps| :: NoneOverpaid(Replay(db, steps[..k]), Ledger(db, steps[..k]))
  }

  ghost predicate NeverPaysBeyond(db: Db, steps: seq<Step>) {
    forall k | 0 <= k < |steps| :: !PaysBeyond(Replay(db, steps[..k]), steps[k], Ledger(db, steps[..k]))
  }

  lemma NothingPaid(now: int)
    ensures NoneOverpaid(Replay(EmptyDb(now), []), Ledger(EmptyDb(now), []))
  {
  }

  /** Over a run, what was ever paid back stays within every payment exactly when no new refund is paid beyond it. */
  lemma {:induction false} OverpaidExactly(now: int, steps: seq<Step>)
    ensures NeverOverpaid(EmptyDb(now), steps) <==> NeverPaysBeyond(EmptyDb(now), steps)
  {
    hide Inv, NoneOverpaid, PaysBeyond, Entered, Apply, Replay, Kept, Ledger;
    var d := EmptyDb(now);
    if steps == [] {
      NothingPaid(now);
      assert steps[..0] == [];
    } else {
      var n := |steps| - 1;
      OverpaidExactly(now, steps[..n]);
      LedgerKept(now, steps[..n]);
      ReplayLast(d, steps);
      LedgerLast(d, steps);
      assert forall k | 0 <= k <= n :: steps[..n][..k] == steps[..k];
      assert steps[..n + 1] == steps;
      var db, ledger := Replay(d, steps[..n]), Ledger(d, steps[..n]);
      if NoneOverpaid(db, ledger) { StepPays(db, steps[n], ledger); }
      assert NeverOverpaid(d, steps)
             <==> NeverOverpaid(d, steps[..n]) && NoneOverpaid(Replay(d, steps), Ledger(d, steps));
      assert NeverPaysBeyond(d, steps) <==> NeverPaysBeyond(d, steps[..n]) && !PaysBeyond(db, steps[n], ledger);
    }
  }

  // ---- What is still to be paid or was ever paid -------------------------------------------

  /** The refunds as they would be stored if a success were final. */
  function Owed(db: Db, ledger: Refunds): Refunds {
    db.refunds + ledger
  }

  /** What refunds hold and what was ever paid back stays, together, within every payment. */
  ghost predicate Covered(db: Db, ledger: Refunds) {
    AllCapped(db.payments, Owed(db, ledger))
  }

  /** The payment has less left than `amount`, counting refunds that were paid, whatever is stored of them by now. */
  ghost predicate NoRoom(db: Db, ledger: Refunds, paymentNo: string, amount: nat) {
    && paymentNo in db.payments
    && Total(Owed(db, ledger), paymentNo, Reserving) + amount > db.payments[paymentNo].amount
  }

  /** The step brings back a failed refund that was never paid. */
  ghost predicate Returns(db: Db, step: Step, ledger: Refunds) {
    && (step.RefundSucceeded? || step.RefundObserved?) && step.refundNo in db.refunds && step.refundNo !in ledger
    && db.refunds[step.refundNo].status == RefundFailed
    && (step.RefundSucceeded? ==> PaysBack(db, step.refundNo))
    && (step.RefundObserved? ==>
          step.refundStatus != RefundSuccess && step.refundStatus != RefundFailed
          && CanRefundTransition(step.seen.status, step.refundStatus))
  }

  /** The step gives room away that the payment has not got: to a new refund, or to a failed one that comes back. */
  ghost predicate Overcommits(db: Db, step: Step, ledger: Refunds) {
    || (step.CreateRefund? && NewRefund(db, step.refund).Some?
        && NoRoom(db, ledger, step.refund.paymentNo, step.refund.amount))
    || (Returns(db, step, ledger)
        && NoRoom(db, ledger, db.refunds[step.refundNo].paymentNo, db.refunds[step.refundNo].amount))
  }

  /** The row that a step writes among what is owed; an entry of the ledger hides what is stored. */
  ghost function OwedRow(db: Db, step: Step, ledger: Refunds): Option<Refund> {
    if step.RefundSucceeded? || RefundKey(step) !in ledger then RefundRow(db, step) else None
  }

  lemma RowUnder(refunds: Refunds, ledger: Refunds, no: string, r: Refund)
    ensures refunds[no := r] + ledger == if no in ledger then refunds + ledger else (refunds + ledger)[no := r]
  {
  }

  lemma OwedMoves(db: Db, step: Step, ledger: Refunds, t: Db)
    requires Moves(db, step, t)
    ensures Owed(t, Entered(db, step, ledger)) == Put(Owed(db, ledger), RefundKey(step), OwedRow(db, step, ledger))
  {
    hide PaysBack, SucceededRefund, RefundRow, RefundKey, OrderRow, PaymentRow, OrderKey, PaymentKey;
    var no, r := RefundKey(step), RefundRow(db, step);
    if step.RefundSucceeded? {
      RefundSucceededRows(db, step.refundNo);
      if r.Some? { assert db.refunds[no := r.value] + ledger[no := r.value] == (db.refunds + ledger)[no := r.value]; }
    } else if r.Some? {
      RowUnder(db.refunds, ledger, no, r.value);
    }
  }

  lemma OwedBacked(db: Db, ledger: Refunds, no: string)
    requires Inv(db) && Kept(db, ledger) && no in Owed(db, ledger)
    ensures Owed(db, ledger)[no].paymentNo in db.payments && no in db.issued
    ensures no in db.refunds ==> SameMoney(Owed(db, ledger)[no], db.refunds[no])
  {
    hide Inv;
    if no in db.refunds { RefundBacked(db, no); }
  }

  /** A refund joins what is owed of its payment. */
  lemma JoinsOwed(payments: Payments, owed: Refunds, no: string, r: Refund)
    requires AllCapped(payments, owed) && r.paymentNo in payments && r.status != RefundFailed
    requires no in owed ==> owed[no].status == RefundFailed && SameMoney(owed[no], r)
    ensures AllCapped(payments, owed[no := r])
            <==> Total(owed, r.paymentNo, Reserving) + r.amount <= payments[r.paymentNo].amount
  {
    hide Total;
    forall p ensures Total(owed[no := r], p, Reserving)
                  == Total(owed, p, Reserving) + (if p == r.paymentNo then r.amount else 0)
    {
      TotalUpdated(owed, no, r, p, Reserving);
    }
  }

  lemma NewOwed(db: Db, step: Step, ledger: Refunds)
    requires Inv(db) && Kept(db, ledger) && Covered(db, ledger) && step.CreateRefund?
    ensures AllCapped(db.payments, Put(Owed(db, ledger), RefundKey(step), OwedRow(db, step, ledger)))
            <==> !Overcommits(db, step, ledger)
  {
    hide Inv, Kept, NewRefund, Total, AllCapped;
    NewRefundFits(db, step.refund);
    var no, r := step.refund.refundNo, NewRefund(db, step.refund);
    if r.Some? {
      if no in Owed(db, ledger) { OwedBacked(db, ledger, no); }
      JoinsOwed(db.payments, Owed(db, ledger), no, r.value);
    }
  }

  lemma AnswerOwed(db: Db, step: Step, ledger: Refunds)
    requires Inv(db) && Kept(db, ledger) && Covered(db, ledger) && step.RefundObserved?
    ensures AllCapped(db.payments, Put(Owed(db, ledger), RefundKey(step), OwedRow(db, step, ledger)))
            <==> !Overcommits(db, step, ledger)
  {
    hide Inv, Kept, Total, AllCapped, RecoveryPolicy.RecoveryDelaySeconds;
    RefundLinked(db, step.refundNo);
    var r := OwedRow(db, step, ledger);
    if r.Some? {
      if Returns(db, step, ledger) { JoinsOwed(db.payments, Owed(db, ledger), step.refundNo, r.value); }
      else { NoMoreHeld(db.payments, Owed(db, ledger), step.refundNo, r.value); }
    }
  }

  lemma SuccessOwed(db: Db, step: Step, ledger: Refunds)
    requires Inv(db) && Kept(db, ledger) && Covered(db, ledger) && step.RefundSucceeded?
    ensures AllCapped(db.payments, Put(Owed(db, ledger), RefundKey(step), OwedRow(db, step, ledger)))
            <==> !Overcommits(db, step, ledger)
  {
    hide Inv, Kept, Total, AllCapped, PaysBack;
    var no := step.refundNo;
    RefundLinked(db, no);
    RefundSucceededRows(db, no);
    if PaysBack(db, no) {
      SucceededMarks(db, no);
      OwedBacked(db, ledger, no);
      KeptEntry(db, ledger, no);
      if Returns(db, step, ledger) { JoinsOwed(db.payments, Owed(db, ledger), no, SucceededRefund(db.refunds[no])); }
      else { NoMoreHeld(db.payments, Owed(db, ledger), no, SucceededRefund(db.refunds[no])); }
    }
  }

  lemma KeptEntry(db: Db, ledger: Refunds, no: string)
    requires Kept(db, ledger)
    ensures no in ledger ==> ledger[no].status == RefundSuccess
  {
  }

  lemma OtherOwed(db: Db, step: Step, ledger: Refunds)
    requires Inv(db) && Kept(db, ledger) && Covered(db, ledger)
    requires !step.CreateRefund? && !step.RefundObserved? && !step.RefundSucceeded? && !step.DeleteApplication?
    ensures AllCapped(db.payments, Put(Owed(db, ledger), RefundKey(step), OwedRow(db, step, ledger)))
    ensures !Overcommits(db, step, ledger)
  {
    hide Inv, Kept, Total, AllCapped, ScheduleOf, NoRoom;
    if IsRecovery(step) {
      ScheduledSame(db, step);
      var r := OwedRow(db, step, ledger);
      if r.Some? { NoMoreHeld(db.payments, Owed(db, ledger), step.record.refundNo, r.value); }
    }
  }

  lemma RowOwed(db: Db, step: Step, ledger: Refunds)
    requires Inv(db) && Kept(db, ledger) && Covered(db, ledger) && !step.DeleteApplication?
    ensures AllCapped(db.payments, Put(Owed(db, ledger), RefundKey(step), OwedRow(db, step, ledger)))
            <==> !Overcommits(db, step, ledger)
  {
    hide Inv, Kept, Covered, Owed, OwedRow, AllCapped, Overcommits, RefundKey;
    if step.CreateRefund? { NewOwed(db, step, ledger); }
    else if step.RefundObserved? { AnswerOwed(db, step, ledger); }
    else if step.RefundSucceeded? { SuccessOwed(db, step, ledger); }
    else { OtherOwed(db, step, ledger); }
  }

  /** Payments keep their amounts, a new one owes nothing yet, and one that owes stays. */
  lemma PaymentsOwe(db: Db, t: Db, owed: Refunds)
    requires Later(db, t)
    requires forall no | no in owed :: owed[no].paymentNo in db.payments && owed[no].paymentNo in t.payments
    ensures AllCapped(t.payments, owed) <==> AllCapped(db.payments, owed)
  {
    hide OrdersLater, RefundsLater, PaymentsLater, Total;
    forall p ensures p in db.payments && p in t.payments ==> t.payments[p].amount == db.payments[p].amount {
      SameAmount(db, t, p);
    }
    forall p | !(exists no | no in owed :: owed[no].paymentNo == p) ensures Total(owed, p, Reserving) == 0 {
      TotalOfNone(owed, p, Reserving);
    }
  }

  lemma OwedStays(db: Db, ledger: Refunds)
    requires Inv(db) && Kept(db, ledger)
    ensures forall no | no in Owed(db, ledger) :: Owed(db, ledger)[no].paymentNo in db.payments
  {
    hide Inv, Kept, Owed;
    forall no | no in Owed(db, ledger) ensures Owed(db, ledger)[no].paymentNo in db.payments {
      OwedBacked(db, ledger, no);
    }
  }

  lemma DeletionOwed(db: Db, step: Step, ledger: Refunds, t: Db)
    requires Inv(db) && Kept(db, ledger) && Covered(db, ledger) && step.DeleteApplication?
    requires Deletes(db, step.appId, t) && Later(db, t)
    ensures Covered(t, Entered(db, step, ledger)) && !Overcommits(db, step, ledger)
  {
    hide Inv, Kept, Total, Archives, ClearedEvents, ClearedReceipts, ClearedExceptions, ClearedDeliveries,
         WithoutReservations, ClearedRefunds, ClearedPayments, ArchivedOrders, Later;
    var gone := ClearedRefunds(db, step.appId) - ledger.Keys;
    assert db.refunds - ClearedRefunds(db, step.appId) + ledger == Owed(db, ledger) - gone;
    forall p ensures Total(Owed(db, ledger) - gone, p, Reserving) <= Total(Owed(db, ledger), p, Reserving) {
      TotalShrinks(Owed(db, ledger), gone, p, Reserving);
    }
    forall p ensures p in db.payments && p in t.payments ==> t.payments[p].amount == db.payments[p].amount {
      SameAmount(db, t, p);
    }
    assert forall p | p in t.payments :: p in db.payments;
  }

  /** A step leaves what is owed covered exactly when it gives no room away that is not there. */
  lemma StepOwes(db: Db, step: Step, ledger: Refunds)
    requires Inv(db) && Kept(db, ledger) && Covered(db, ledger)
    ensures Covered(Apply(db, step), Entered(db, step, ledger)) <==> !Overcommits(db, step, ledger)
  {
    hide Inv, Kept, AllCapped, Owed, Later, Apply, Moves, Frames, Deletes, AfterDeleteApplication, Overcommits, OwedRow,
         Entered, RefundKey;
    StepMoves(db, step);
    var t := Apply(db, step);
    if step.DeleteApplication? {
      DeletionTaken(db, step.appId);
      DeletionWrites(db, step.appId);
      DeletionOwed(db, step, ledger, t);
    } else {
      StepWrites(db, step);
      StepKeeps(db, step);
      StepEnters(db, step, ledger);
      OwedMoves(db, step, ledger, t);
      RowOwed(db, step, ledger);
      OwedStays(t, Entered(db, step, ledger));
      OwedNamesOld(db, step, ledger);
      PaymentsOwe(db, t, Owed(t, Entered(db, step, ledger)));
    }
  }

  lemma OwedNamesOld(db: Db, step: Step, ledger: Refunds)
    requires Inv(db) && Kept(db, ledger) && !step.DeleteApplication?
    ensures var owed := Put(Owed(db, ledger), RefundKey(step), OwedRow(db, step, ledger));
            forall no | no in owed :: owed[no].paymentNo in db.payments
  {
    hide Inv, Kept, NewRefund, ObservedRefund, ScheduleOf, PaysBack, Total;
    var owed := Put(Owed(db, ledger), RefundKey(step), OwedRow(db, step, ledger));
    OwedStays(db, ledger);
    OwedRowBacked(db, step, ledger);
  }

  lemma OwedRowBacked(db: Db, step: Step, ledger: Refunds)
    requires Inv(db) && !step.DeleteApplication?
    ensures OwedRow(db, step, ledger).Some? ==> OwedRow(db, step, ledger).value.paymentNo in db.payments
  {
    hide Inv, NewRefund, ScheduleOf, RecoveryPolicy.RecoveryDelaySeconds, StatusPaidBack, RefundsWinner;
    if step.CreateRefund? { NewRefundFits(db, step.refund); }
    else if IsRecovery(step) {
      ScheduledSame(db, step);
      RefundLinked(db, RefundKey(step));
    }
  }

  ghost predicate CoveredThroughout(db: Db, steps: seq<Step>) {
    forall k | 0 <= k <= |steps| :: Covered(Replay(db, steps[..k]), Ledger(db, steps[..k]))
  }

  ghost predicate NeverOvercommits(db: Db, steps: seq<Step>) {
    forall k | 0 <= k < |steps| :: !Overcommits(Replay(db, steps[..k]), steps[k], Ledger(db, steps[..k]))
  }

  lemma NothingOwed(now: int)
    ensures Covered(Replay(EmptyDb(now), []), Ledger(EmptyDb(now), []))
  {
  }

  /** A run keeps what is owed covered exactly when it gives no room away that is not there. */
  lemma {:induction false} CoveredExactly(now: int, steps: seq<Step>)
    ensures CoveredThroughout(EmptyDb(now), steps) <==> NeverOvercommits(EmptyDb(now), steps)
  {
    hide Inv, Covered, Overcommits, Entered, Apply, Replay, Kept, Ledger;
    var d := EmptyDb(now);
    if steps == [] {
      NothingOwed(now);
      assert steps[..0] == [];
    } else {
      var n := |steps| - 1;
      CoveredExactly(now, steps[..n]);
      LedgerKept(now, steps[..n]);
      ReplayLast(d, steps);
      LedgerLast(d, steps);
      assert forall k | 0 <= k <= n :: steps[..n][..k] == steps[..k];
      assert steps[..n + 1] == steps;
      var db, ledger := Replay(d, steps[..n]), Ledger(d, steps[..n]);
      if Covered(db, ledger) { StepOwes(db, steps[n], ledger); }
      assert CoveredThroughout(d, steps)
             <==> CoveredThroughout(d, steps[..n]) && Covered(Replay(d, steps), Ledger(d, steps));
      assert NeverOvercommits(d, steps) <==> NeverOvercommits(d, steps[..n]) && !Overcommits(db, steps[n], ledger);
    }
  }

  /** What was ever paid back is part of what is owed. */
  lemma PaidIsOwed(db: Db, ledger: Refunds, p: string)
    requires Kept(db, ledger)
    ensures EverPaid(ledger, p) <= Total(Owed(db, ledger), p, Reserving)
  {
    hide Total;
    var owed := Owed(db, ledger);
    TotalShrinks(owed, owed.Keys - ledger.Keys, p, Reserving);
    assert owed - (owed.Keys - ledger.Keys) == ledger;
    TotalSame(ledger, ledger, p, Reserving, Succeeded);
  }

  lemma CoveredPays(db: Db, ledger: Refunds)
    requires Kept(db, ledger) && Covered(db, ledger)
    ensures NoneOverpaid(db, ledger)
  {
    hide Kept, Owed, EverPaid, Total;
    forall p | p in db.payments ensures EverPaid(ledger, p) <= db.payments[p].amount {
      PaidIsOwed(db, ledger, p);
    }
  }

  /** A run that gives no room away that is not there never pays back more than was paid. */
  lemma NeverOvercommittedNeverOverpaid(now: int, steps: seq<Step>)
    requires NeverOvercommits(EmptyDb(now), steps)
    ensures NeverOverpaid(EmptyDb(now), steps)
  {
    hide Inv, Covered, NoneOverpaid, Apply, Replay, Kept, Ledger, NeverOvercommits;
    CoveredExactly(now, steps);
    forall k | 0 <= k <= |steps|
      ensures NoneOverpaid(Replay(EmptyDb(now), steps[..k]), Ledger(EmptyDb(now), steps[..k]))
    {
      LedgerKept(now, steps[..k]);
      CoveredPays(Replay(EmptyDb(now), steps[..k]), Ledger(EmptyDb(now), steps[..k]));
    }
  }

  // ---- When the stored refunds tell the whole story ----------------------------------------

  /** Every entry of the ledger is still stored as a refund that holds its money. */
  predicate HeldIn(refunds: Refunds, ledger: Refunds) {
    forall no | no in ledger :: no in refunds && refunds[no].status != RefundFailed
  }

  predicate AllHeld(db: Db, ledger: Refunds) {
    HeldIn(db.refunds, ledger)
  }

  /** The step writes a failure over the refund. */
  predicate Fails(step: Step, no: string) {
    && step.RefundObserved? && step.refundNo == no && step.refundStatus == RefundFailed
    && CanRefundTransition(step.seen.status, RefundFailed)
  }

  /** A failure is written over a refund that was paid back, or an archive deletes its row. */
  ghost predicate Forgets(db: Db, step: Step, ledger: Refunds) {
    || (step.RefundObserved? && step.refundNo in ledger && Fails(step, step.refundNo))
    || (step.DeleteApplication? && Archives(db, step.appId)
        && exists no | no in ledger :: no in ClearedRefunds(db, step.appId))
  }

  lemma HeldOwed(db: Db, ledger: Refunds, p: string)
    requires Kept(db, ledger) && AllHeld(db, ledger)
    ensures Total(Owed(db, ledger), p, Reserving) == Total(db.refunds, p, Reserving)
  {
    hide Total;
    TotalSame(Owed(db, ledger), db.refunds, p, Reserving, Reserving);
  }

  /** As long as no payout is forgotten, only a failed refund that comes back without room overcommits. */
  lemma HeldCommits(db: Db, step: Step, ledger: Refunds)
    requires Kept(db, ledger) && AllHeld(db, ledger) && Overcommits(db, step, ledger)
    ensures BreaksCap(db, step)
  {
    hide Total, NewRefund, PaysBack, Kept, Owed, AllHeld;
    if step.CreateRefund? {
      NewRefundFits(db, step.refund);
      HeldOwed(db, ledger, step.refund.paymentNo);
    } else {
      HeldOwed(db, ledger, db.refunds[step.refundNo].paymentNo);
    }
  }

  lemma AnswerFails(db: Db, step: Step)
    requires Inv(db) && step.RefundObserved? && step.refundNo in db.refunds
    ensures var r := ObservedRefund(db, step.refundNo, step.seen, step.refundStatus, step.random);
            && (r.Some? ==> r.value.status == step.refundStatus)
            && (Fails(step, step.refundNo) ==> r.Some?)
            && (r.Some? && step.refundStatus == RefundFailed ==> Fails(step, step.refundNo))
  {
    hide Inv, RecoveryPolicy.RecoveryDelaySeconds;
    RefundLinked(db, step.refundNo);
  }

  lemma RowFails(db: Db, step: Step)
    requires Inv(db) && !step.DeleteApplication? && RefundKey(step) in db.refunds
    requires db.refunds[RefundKey(step)].status != RefundFailed
    ensures var r := RefundRow(db, step);
            && (r.Some? && r.value.status == RefundFailed ==> Fails(step, RefundKey(step)))
            && (Fails(step, RefundKey(step)) ==> r.Some? && r.value.status == RefundFailed)
  {
    hide Inv, NewRefund, ScheduleOf, ObservedRefund, PaysBack;
    if step.CreateRefund? { NewRefundFits(db, step.refund); }
    else if step.RefundObserved? { AnswerFails(db, step); }
    else if IsRecovery(step) { ScheduledSame(db, step); }
  }

  lemma HeldRow(db: Db, step: Step, no: string)
    requires Inv(db) && no in db.refunds && db.refunds[no].status != RefundFailed && !step.DeleteApplication?
    ensures var refunds := Put(db.refunds, RefundKey(step), RefundRow(db, step));
            no in refunds && (refunds[no].status == RefundFailed <==> Fails(step, no))
  {
    hide Inv, RefundRow;
    if RefundKey(step) == no { RowFails(db, step); }
  }

  /** A payout that is entered is stored with it. */
  lemma EntryHeld(db: Db, step: Step)
    requires step.RefundSucceeded? && PaysBack(db, step.refundNo)
    ensures var refunds := Put(db.refunds, RefundKey(step), RefundRow(db, step));
            step.refundNo in refunds && refunds[step.refundNo].status == RefundSuccess
  {
    hide PaysBack;
    RefundSucceededRows(db, step.refundNo);
  }

  lemma EnteredHeld(db: Db, step: Step, ledger: Refunds)
    requires Inv(db) && AllHeld(db, ledger) && !step.DeleteApplication?
    ensures HeldIn(Put(db.refunds, RefundKey(step), RefundRow(db, step)), Entered(db, step, ledger))
            <==> !Forgets(db, step, ledger)
  {
    hide Inv, RefundRow, RefundKey, PaysBack, SucceededRefund;
    if step.RefundSucceeded? && PaysBack(db, step.refundNo) { EntryHeld(db, step); }
    forall no | no in ledger
      ensures var refunds := Put(db.refunds, RefundKey(step), RefundRow(db, step));
              no in refunds && (refunds[no].status == RefundFailed <==> Fails(step, no))
    {
      HeldRow(db, step, no);
    }
  }

  lemma ArchivedHeld(db: Db, step: Step, ledger: Refunds, t: Db)
    requires AllHeld(db, ledger) && step.DeleteApplication? && Deletes(db, step.appId, t)
    ensures AllHeld(t, ledger) <==> !Forgets(db, step, ledger)
  {
    hide Archives, ClearedEvents, ClearedReceipts, ClearedExceptions, ClearedDeliveries, WithoutReservations,
         ClearedPayments, ArchivedOrders, ClearedRefunds;
  }

  /** One step leaves every payout stored exactly when it forgets none. */
  lemma StepHeld(db: Db, step: Step, ledger: Refunds)
    requires Inv(db) && AllHeld(db, ledger)
    ensures AllHeld(Apply(db, step), Entered(db, step, ledger)) <==> !Forgets(db, step, ledger)
  {
    hide Inv, HeldIn, Apply, Frames, Deletes, AfterDeleteApplication, Forgets, RefundKey, RefundRow, PaysBack,
         PaymentRow, PaymentKey, OrderRow, OrderKey;
    if step.DeleteApplication? {
      DeletionTaken(db, step.appId);
      DeletionWrites(db, step.appId);
      ArchivedHeld(db, step, ledger, Apply(db, step));
    } else {
      StepWrites(db, step);
      EnteredHeld(db, step, ledger);
    }
  }

  ghost predicate NeverForgets(db: Db, steps: seq<Step>) {
    forall k | 0 <= k < |steps| :: !Forgets(Replay(db, steps[..k]), steps[k], Ledger(db, steps[..k]))
  }

  /** A run without such a return and without such a failure never pays back more than was paid. */
  lemma {:induction false} UnforgottenStaysWithin(now: int, steps: seq<Step>)
    requires NeverBroken(EmptyDb(now), steps) && NeverForgets(EmptyDb(now), steps)
    ensures var db, ledger := Replay(EmptyDb(now), steps), Ledger(EmptyDb(now), steps);
            AllHeld(db, ledger) && Covered(db, ledger) && NoneOverpaid(db, ledger)
  {
    hide Inv, Covered, NoneOverpaid, AllHeld, Forgets, BreaksCap, Overcommits, Entered, Apply, Replay, Kept, Ledger;
    var d := EmptyDb(now);
    if steps == [] {
      NothingOwed(now);
      NothingPaid(now);
      NothingForgotten(now);
    } else {
      var n := |steps| - 1;
      assert forall k | 0 <= k <= n :: steps[..n][..k] == steps[..k];
      UnforgottenStaysWithin(now, steps[..n]);
      LedgerKept(now, steps[..n]);
      LedgerKept(now, steps);
      ReplayLast(d, steps);
      LedgerLast(d, steps);
      var db, ledger := Replay(d, steps[..n]), Ledger(d, steps[..n]);
      StepHeld(db, steps[n], ledger);
      if Overcommits(db, steps[n], ledger) { HeldCommits(db, steps[n], ledger); }
      StepOwes(db, steps[n], ledger);
      CoveredPays(Replay(d, steps), Ledger(d, steps));
    }
  }

  lemma NothingForgotten(now: int)
    ensures AllHeld(Replay(EmptyDb(now), []), Ledger(EmptyDb(now), []))
            && AllStand(Replay(EmptyDb(now), []), Ledger(EmptyDb(now), []))
  {
  }

  /** A refund that was paid back is stored as successful. */
  ghost predicate AllStand(db: Db, ledger: Refunds) {
    forall no | no in ledger :: RefundRaces.Stands(db, no)
  }

  lemma StandingHeld(db: Db, ledger: Refunds)
    requires AllStand(db, ledger)
    ensures AllHeld(db, ledger)
  {
  }

  lemma StepStandsAll(db: Db, step: Step, ledger: Refunds)
    requires Inv(db) && AllStand(db, ledger) && RefundRaces.JudgedFresh(db, step)
    ensures AllStand(Apply(db, step), Entered(db, step, ledger))
  {
    hide Inv, Apply, PaysBack, RefundRow, RefundKey, OrderRow, OrderKey, PaymentRow, PaymentKey, Frames, Total,
         RefundRaces.JudgedFresh, RefundRaces.Overwrites;
    forall no | no in ledger ensures RefundRaces.Stands(Apply(db, step), no) {
      RefundRaces.FreshSpares(db, step, no);
      RefundRaces.StepStands(db, step, no);
    }
    if step.RefundSucceeded? && PaysBack(db, step.refundNo) {
      StepWrites(db, step);
      EntryHeld(db, step);
    }
  }

  /**
   If every answer were judged by the stored status, only a failed refund that succeeds without room could make a
   payment pay back more than it received.
   */
  lemma {:induction false} FreshStaysWithin(now: int, steps: seq<Step>)
    requires RefundRaces.AllJudgedFresh(EmptyDb(now), steps)
    requires forall k | 0 <= k < |steps| && steps[k].RefundSucceeded? ::
               !RevivesWithoutRoom(Replay(EmptyDb(now), steps[..k]), steps[k].refundNo)
    ensures var db, ledger := Replay(EmptyDb(now), steps), Ledger(EmptyDb(now), steps);
            AllStand(db, ledger) && Covered(db, ledger) && NoneOverpaid(db, ledger)
  {
    hide Inv, Covered, NoneOverpaid, AllStand, AllHeld, BreaksCap, Overcommits, Entered, Apply, Replay, Kept, Ledger,
         RefundRaces.JudgedFresh, RevivesWithoutRoom;
    var d := EmptyDb(now);
    if steps == [] {
      NothingOwed(now);
      NothingPaid(now);
      NothingForgotten(now);
    } else {
      var n := |steps| - 1;
      assert forall k | 0 <= k <= n :: steps[..n][..k] == steps[..k];
      FreshStaysWithin(now, steps[..n]);
      LedgerKept(now, steps[..n]);
      LedgerKept(now, steps);
      ReplayLast(d, steps);
      LedgerLast(d, steps);
      var db, ledger := Replay(d, steps[..n]), Ledger(d, steps[..n]);
      StepStandsAll(db, steps[n], ledger);
      StandingHeld(db, ledger);
      FreshReturns(db, steps[n]);
      if Overcommits(db, steps[n], ledger) { HeldCommits(db, steps[n], ledger); }
      StepOwes(db, steps[n], ledger);
      CoveredPays(Replay(d, steps), Ledger(d, steps));
    }
  }

  /** From the failed state only a success returns. */
  lemma FreshReturns(db: Db, step: Step)
    requires RefundRaces.JudgedFresh(db, step)
    requires step.RefundSucceeded? ==> !RevivesWithoutRoom(db, step.refundNo)
    ensures !BreaksCap(db, step)
  {
    hide RevivesWithoutRoom, Total;
  }

  // ---- What is owed is what may have to be paid --------------------------------------------

  lemma OneMore(db: Db, steps: seq<Step>, step: Step)
    ensures Replay(db, steps + [step]) == Apply(Replay(db, steps), step)
    ensures Ledger(db, steps + [step]) == Entered(Replay(db, steps), step, Ledger(db, steps))
  {
    hide Apply, Entered, Replay, Ledger;
    ReplayLast(db, steps + [step]);
    LedgerLast(db, steps + [step]);
    assert (steps + [step])[..|steps|] == steps;
  }

  /** The channel reports as successful one refund that holds money after another. */
  ghost predicate PayoutsUnderWay(db: Db, more: seq<Step>) {
    forall k | 0 <= k < |more| ::
      && more[k].RefundSucceeded? && more[k].refundNo in Replay(db, more[..k]).refunds
      && Replay(db, more[..k]).refunds[more[k].refundNo].status != RefundFailed
  }

  /** Such payouts were room given away before. */
  lemma {:induction false} PayoutsCovered(now: int, steps: seq<Step>, more: seq<Step>)
    requires Covered(Replay(EmptyDb(now), steps), Ledger(EmptyDb(now), steps))
    requires PayoutsUnderWay(Replay(EmptyDb(now), steps), more)
    ensures Covered(Replay(EmptyDb(now), steps + more), Ledger(EmptyDb(now), steps + more))
  {
    hide Inv, Covered, Kept, Entered, Apply, Replay, NoRoom, PaysBack;
    var d, n := EmptyDb(now), |more| - 1;
    if more == [] {
      assert steps + more == steps;
    } else {
      assert forall k | 0 <= k <= n :: more[..n][..k] == more[..k];
      PayoutsCovered(now, steps, more[..n]);
      assert steps + more == steps + more[..n] + [more[n]];
      OneMore(d, steps + more[..n], more[n]);
      LedgerKept(now, steps + more[..n]);
      ReplayAppend(d, steps, more[..n]);
      StepOwes(Replay(d, steps + more[..n]), more[n], Ledger(d, steps + more[..n]));
    }
  }

  /** A refund stored as successful was paid back. */
  ghost predicate SuccessesEntered(db: Db, ledger: Refunds) {
    forall no | no in db.refunds && db.refunds[no].status == RefundSuccess :: no in ledger
  }

  lemma SuccessRow(db: Db, step: Step)
    ensures var r := RefundRow(db, step);
            r.Some? && r.value.status == RefundSuccess ==>
              || (RefundKey(step) in db.refunds && db.refunds[RefundKey(step)].status == RefundSuccess)
              || (step.RefundSucceeded? && PaysBack(db, step.refundNo))
  {
    hide NewRefund, ScheduleOf, RecoveryPolicy.RecoveryDelaySeconds, PaysBack;
    if step.CreateRefund? { NewRefundFits(db, step.refund); }
    else if IsRecovery(step) { ScheduledSame(db, step); }
  }

  lemma StepSuccesses(db: Db, step: Step, ledger: Refunds)
    requires SuccessesEntered(db, ledger)
    ensures SuccessesEntered(Apply(db, step), Entered(db, step, ledger))
  {
    hide Apply, Frames, AfterDeleteApplication, RefundRow, PaysBack, PaymentRow, PaymentKey, OrderRow, OrderKey,
         Archives, ClearedEvents, ClearedReceipts, ClearedExceptions, ClearedDeliveries, WithoutReservations,
         ClearedPayments, ArchivedOrders, ClearedRefunds;
    if step.DeleteApplication? {
      DeletionTaken(db, step.appId);
      DeletionWrites(db, step.appId);
    } else {
      StepWrites(db, step);
      SuccessRow(db, step);
    }
  }

  lemma {:induction false} SuccessesAlwaysEntered(now: int, steps: seq<Step>)
    ensures SuccessesEntered(Replay(EmptyDb(now), steps), Ledger(EmptyDb(now), steps))
  {
    hide SuccessesEntered, Apply, Entered, Replay, Ledger;
    if steps == [] {
      NoSuccessYet(now);
    } else {
      var n := |steps| - 1;
      SuccessesAlwaysEntered(now, steps[..n]);
      ReplayLast(EmptyDb(now), steps);
      LedgerLast(EmptyDb(now), steps);
      StepSuccesses(Replay(EmptyDb(now), steps[..n]), steps[n], Ledger(EmptyDb(now), steps[..n]));
    }
  }

  lemma NoSuccessYet(now: int)
    ensures SuccessesEntered(Replay(EmptyDb(now), []), Ledger(EmptyDb(now), []))
  {
  }

  /** The refunds of the payment that hold money and were never paid back. */
  function Unpaid(db: Db, ledger: Refunds, p: string): set<string> {
    set no | no in db.refunds && no !in ledger && InClass(db.refunds[no], p, Reserving)
  }

  /** Nothing but an earlier success keeps a success from taking effect. */
  lemma UnpaidPays(db: Db, no: string)
    requires Inv(db) && no in db.refunds && db.refunds[no].status != RefundSuccess
    ensures PaysBack(db, no)
  {
    hide Total, Inv;
    RefundPositive(db, no);
    TotalUpdated(db.refunds, no, SucceededRefund(db.refunds[no]), db.refunds[no].paymentNo, Succeeded);
    RefundHasOrder(db, no);
  }

  lemma RefundHasOrder(db: Db, no: string)
    requires Inv(db) && no in db.refunds
    ensures db.refunds[no].paymentNo in db.payments && db.payments[db.refunds[no].paymentNo].orderNo in db.orders
  {
  }

  lemma PayoutStep(db: Db, ledger: Refunds, no: string, p: string)
    requires Inv(db) && Kept(db, ledger) && SuccessesEntered(db, ledger) && no in Unpaid(db, ledger, p)
    ensures var step := RefundSucceeded(no);
            var t, entered := Apply(db, step), Entered(db, step, ledger);
            && Total(Owed(t, entered), p, Reserving) == Total(Owed(db, ledger), p, Reserving)
            && Unpaid(t, entered, p) == Unpaid(db, ledger, p) - {no}
  {
    hide Inv, Kept, Total, Apply, PaysBack, OrderRow, PaymentRow, RefundRow, OrderKey, PaymentKey, Frames;
    UnpaidPays(db, no);
    var step, r := RefundSucceeded(no), SucceededRefund(db.refunds[no]);
    StepWrites(db, step);
    RefundSucceededRows(db, no);
    OwedMoves(db, step, ledger, Apply(db, step));
    TotalUpdated(Owed(db, ledger), no, r, p, Reserving);
  }

  lemma AllPaid(db: Db, ledger: Refunds, p: string)
    requires Kept(db, ledger) && Unpaid(db, ledger, p) == {}
    ensures EverPaid(ledger, p) == Total(Owed(db, ledger), p, Reserving)
  {
    hide Total;
    var owed := Owed(db, ledger);
    forall no | no in owed && no !in ledger ensures !InClass(owed[no], p, Reserving) {
      assert no !in Unpaid(db, ledger, p);
    }
    TotalDropped(owed, owed.Keys - ledger.Keys, p, Reserving);
    assert owed - (owed.Keys - ledger.Keys) == ledger;
    TotalSame(ledger, ledger, p, Reserving, Succeeded);
  }

  /** All that is owed of a payment may be paid back by the refunds under way. */
  lemma {:induction false} AllMayBePaid(now: int, steps: seq<Step>, p: string) returns (more: seq<Step>)
    ensures PayoutsUnderWay(Replay(EmptyDb(now), steps), more)
    ensures EverPaid(Ledger(EmptyDb(now), steps + more), p)
            == Total(Owed(Replay(EmptyDb(now), steps), Ledger(EmptyDb(now), steps)), p, Reserving)
    decreases |Unpaid(Replay(EmptyDb(now), steps), Ledger(EmptyDb(now), steps), p)|
  {
    hide Inv, Kept, Entered, Apply, Replay, Total, EverPaid, Owed, Ledger, SuccessesEntered;
    var d := EmptyDb(now);
    var db, ledger := Replay(d, steps), Ledger(d, steps);
    LedgerKept(now, steps);
    if no :| no in Unpaid(db, ledger, p) {
      SuccessesAlwaysEntered(now, steps);
      var step := RefundSucceeded(no);
      PayoutStep(db, ledger, no, p);
      OneMore(d, steps, step);
      var rest := AllMayBePaid(now, steps + [step], p);
      more := [step] + rest;
      assert steps + more == steps + [step] + rest;
      PayoutFirst(db, step, rest);
    } else {
      AllPaid(db, ledger, p);
      more := [];
      assert steps + more == steps;
    }
  }

  lemma PayoutFirst(db: Db, step: Step, rest: seq<Step>)
    requires step.RefundSucceeded? && step.refundNo in db.refunds && db.refunds[step.refundNo].status != RefundFailed
    requires PayoutsUnderWay(Apply(db, step), rest)
    ensures PayoutsUnderWay(db, [step] + rest)
  {
    hide Apply, Replay;
    ReplayNothing(db);
    ReplayLast(db, [step]);
    assert [step][..0] == [];
    forall k | 0 < k <= |rest| ensures Replay(db, ([step] + rest)[..k]) == Replay(Apply(db, step), rest[..k - 1]) {
      assert ([step] + rest)[..k] == [step] + rest[..k - 1];
      ReplayAppend(db, [step], rest[..k - 1]);
    }
    assert ([step] + rest)[..0] == [];
  }

  /** Nothing that the channel may still do with the refunds it holds overpays. */
  ghost predicate SafeToPay(now: int, steps: seq<Step>) {
    forall more | PayoutsUnderWay(Replay(EmptyDb(now), steps), more) ::
      NoneOverpaid(Replay(EmptyDb(now), steps + more), Ledger(EmptyDb(now), steps + more))
  }

  /** What is owed is covered exactly as long as the refunds under way may all succeed without overpaying. */
  lemma CoveredIsSafe(now: int, steps: seq<Step>)
    ensures Covered(Replay(EmptyDb(now), steps), Ledger(EmptyDb(now), steps)) <==> SafeToPay(now, steps)
  {
    hide Inv, Kept, Covered, Entered, Apply, Replay, Total, NoneOverpaid, Owed, Ledger, PayoutsUnderWay;
    var d := EmptyDb(now);
    var db := Replay(d, steps);
    if Covered(db, Ledger(d, steps)) {
      forall more | PayoutsUnderWay(db, more)
        ensures NoneOverpaid(Replay(d, steps + more), Ledger(d, steps + more))
      {
        PayoutsCovered(now, steps, more);
        LedgerKept(now, steps + more);
        CoveredPays(Replay(d, steps + more), Ledger(d, steps + more));
      }
    }
    if SafeToPay(now, steps) { SafeIsCovered(now, steps); }
  }

  lemma SafeIsCovered(now: int, steps: seq<Step>)
    requires SafeToPay(now, steps)
    ensures Covered(Replay(EmptyDb(now), steps), Ledger(EmptyDb(now), steps))
  {
    hide Inv, Kept, Entered, Apply, Replay, Total, EverPaid, Owed, Ledger, PayoutsUnderWay;
    var d := EmptyDb(now);
    var db, owed := Replay(d, steps), Owed(Replay(d, steps), Ledger(d, steps));
    forall p | p in db.payments ensures Total(owed, p, Reserving) <= db.payments[p].amount {
      var more := AllMayBePaid(now, steps, p);
      var t := Replay(d, steps + more);
      assert NoneOverpaid(t, Ledger(d, steps + more));
      LedgerKept(now, steps);
      ReplayAppend(d, steps, more);
      RunMovesForward(db, more);
      if no :| no in owed && owed[no].paymentNo == p {
        OwedStanding(db, Ledger(d, steps), no);
        PaymentsStay(db, t, p);
      } else {
        TotalOfNone(owed, p, Reserving);
      }
    }
  }

  lemma OwedStanding(db: Db, ledger: Refunds, no: string)
    requires Inv(db) && Kept(db, ledger) && no in Owed(db, ledger)
    ensures var p := Owed(db, ledger)[no].paymentNo; p in db.payments && db.payments[p].status == Success
  {
    hide Inv;
    if no in db.refunds { RefundBacked(db, no); }
  }

  // ---- It happens --------------------------------------------------------------------------

  /**
   A payout is overwritten by a failure of the call that asked for it, and its room goes to a second refund, which is
   paid too. No failed refund comes back.
   */
  const FORGOTTEN: seq<Step> := [
    CreateRefund(RefundRequest("shop", "first", "x1", "p", 100, None)),
    RefundSucceeded("first"),
    RefundObserved("first", JUST_RESERVED, RefundFailed, 0.0),
    CreateRefund(RefundRequest("shop", "second", "x2", "p", 100, None)),
    RefundSucceeded("second")]

  /** No step so far brought a failed refund back without room, and this is the ledger. */
  ghost predicate Unbroken(steps: seq<Step>, ledger: Refunds) {
    NeverBroken(EmptyDb(0), steps) && Ledger(EmptyDb(0), steps) == ledger
  }

  lemma UnbrokenOn(steps: seq<Step>, ledger: Refunds, step: Step)
    requires Unbroken(steps, ledger) && !BreaksCap(Replay(EmptyDb(0), steps), step)
    ensures Unbroken(steps + [step], Entered(Replay(EmptyDb(0), steps), step, ledger))
    ensures Replay(EmptyDb(0), steps + [step]) == Apply(Replay(EmptyDb(0), steps), step)
  {
    hide Apply, Replay, BreaksCap, Entered, Ledger;
    OneMore(EmptyDb(0), steps, step);
    assert forall k | 0 <= k <= |steps| :: (steps + [step])[..k] == steps[..k];
    assert steps[..|steps|] == steps;
  }

  /** Steps that are no answers to refunds leave cap and ledger alone. */
  lemma {:induction false} NoAnswersYet(steps: seq<Step>)
    requires forall k | 0 <= k < |steps| :: !steps[k].RefundSucceeded? && !steps[k].RefundObserved?
    ensures Unbroken(steps, map[])
  {
    hide Apply, Replay;
    if steps != [] {
      var n := |steps| - 1;
      NoAnswersYet(steps[..n]);
      UnbrokenOn(steps[..n], map[], steps[n]);
      assert steps[..n] + [steps[n]] == steps;
    }
  }

  lemma EntryOf(db: Db, no: string, ledger: Refunds)
    requires PaysBack(db, no)
    ensures Entered(db, RefundSucceeded(no), ledger) == ledger[no := SucceededRefund(db.refunds[no])]
  {
    hide PaysBack;
  }

  /** A refund that has not failed succeeds. */
  lemma PaidStage(steps: seq<Step>, ledger: Refunds, refunds: Refunds, issued: set<string>, no: string)
    requires Unbroken(steps, ledger) && Bought(Replay(EmptyDb(0), steps), refunds, issued)
    requires no in refunds && refunds[no].paymentNo == "p" && refunds[no].status == RefundProcessing
             && refunds[no].amount > 0
    ensures Unbroken(steps + [RefundSucceeded(no)], ledger[no := SucceededRefund(refunds[no])])
    ensures Bought(Replay(EmptyDb(0), steps + [RefundSucceeded(no)]), refunds[no := SucceededRefund(refunds[no])],
                   issued)
  {
    hide Apply, Replay, PaysBack, SucceededRefund, Entered, Unbroken, Total;
    var db := Replay(EmptyDb(0), steps);
    PaysBackStage(db, refunds, issued, no);
    EntryOf(db, no, ledger);
    UnbrokenOn(steps, ledger, RefundSucceeded(no));
  }

  /** A new refund of the whole payment is reserved while all others have failed. */
  lemma AskedStage(steps: seq<Step>, ledger: Refunds, refunds: Refunds, issued: set<string>, no: string,
                   external: string)
    requires Unbroken(steps, ledger) && Bought(Replay(EmptyDb(0), steps), refunds, issued) && no !in issued
    requires forall r | r in refunds :: refunds[r].external != external && refunds[r].status == RefundFailed
    ensures var step := CreateRefund(RefundRequest("shop", no, external, "p", 100, None));
            && Unbroken(steps + [step], ledger)
            && Bought(Replay(EmptyDb(0), steps + [step]), refunds[no := Asked(external, RefundProcessing, SOON)],
                      issued + {no})
  {
    hide Apply, Replay, Unbroken, Bought;
    AskStage(Replay(EmptyDb(0), steps), refunds, issued, no, external);
    UnbrokenOn(steps, ledger, CreateRefund(RefundRequest("shop", no, external, "p", 100, None)));
  }

  lemma FailedStage(steps: seq<Step>, ledger: Refunds, issued: set<string>, r: Refund)
    requires Unbroken(steps, ledger) && Bought(Replay(EmptyDb(0), steps), map["first" := r], issued)
    requires r.paymentNo == "p"
    ensures Unbroken(steps + [FORGOTTEN[2]], ledger)
    ensures Bought(Replay(EmptyDb(0), steps + [FORGOTTEN[2]]), map["first" := RefundRaces.Answered(r, RefundFailed)],
                   issued)
  {
    hide Apply, Replay, Unbroken, Bought, RefundRaces.Answered;
    RefundRaces.AnswerStage(Replay(EmptyDb(0), steps), r, issued, JUST_RESERVED, RefundFailed);
    UnbrokenOn(steps, ledger, FORGOTTEN[2]);
  }

  lemma ForgottenRun() returns (first: Refund, second: Refund)
    ensures Unbroken(BOUGHT + FORGOTTEN, map["first" := first, "second" := second])
    ensures Bought(Replay(EmptyDb(0), BOUGHT + FORGOTTEN),
                   map["first" := RefundRaces.Answered(first, RefundFailed), "second" := second],
                   {"p", "first", "second"})
    ensures first == SucceededRefund(Asked("x1", RefundProcessing, SOON))
    ensures second == SucceededRefund(Asked("x2", RefundProcessing, SOON))
  {
    hide Apply, Replay, Bought, Unbroken, Entered, RefundRaces.Answered;
    var asked, other := Asked("x1", RefundProcessing, SOON), Asked("x2", RefundProcessing, SOON);
    first, second := SucceededRefund(asked), SucceededRefund(other);
    var failed := RefundRaces.Answered(first, RefundFailed);
    NoAnswersYet(BOUGHT);
    BoughtRun();
    AskedStage(BOUGHT, map[], map[], {"p"}, "first", "x1");
    var s1 := BOUGHT + [FORGOTTEN[0]];
    assert map[]["first" := asked] == map["first" := asked];
    PaidStage(s1, map[], map["first" := asked], {"p"} + {"first"}, "first");
    var s2 := s1 + [FORGOTTEN[1]];
    assert map[]["first" := first] == map["first" := first] == map["first" := asked]["first" := first];
    FailedStage(s2, map["first" := first], {"p"} + {"first"}, first);
    var s3 := s2 + [FORGOTTEN[2]];
    AnsweredIs(first);
    AskedStage(s3, map["first" := first], map["first" := failed], {"p"} + {"first"}, "second", "x2");
    var s4 := s3 + [FORGOTTEN[3]];
    PaidStage(s4, map["first" := first], map["first" := failed]["second" := other], {"p"} + {"first"} + {"second"},
              "second");
    assert s4 + [FORGOTTEN[4]] == BOUGHT + FORGOTTEN;
    assert map["first" := first]["second" := second] == map["first" := first, "second" := second];
    assert map["first" := failed]["second" := other]["second" := second]
           == map["first" := failed, "second" := second];
    assert {"p"} + {"first"} + {"second"} == {"p", "first", "second"};
  }

  lemma AnsweredIs(r: Refund)
    ensures var a := RefundRaces.Answered(r, RefundFailed);
            a.status == RefundFailed && a.external == r.external && a.revived == CameBack(r)
  {
  }

  /**
   A payment of 100 has paid back 200, although no step brought a failed refund back without room, no stored refund is
   marked as one that came back, and the stored successes add up to 100.
   */
  lemma PaidAgainUnnoticed()
    ensures var steps := BOUGHT + FORGOTTEN;
            var db := Replay(EmptyDb(0), steps);
            && Reachable(db) && "p" in db.payments && db.payments["p"].amount == 100
            && EverPaid(Ledger(EmptyDb(0), steps), "p") == 200
            && NeverBroken(EmptyDb(0), steps) && (forall no | no in db.refunds :: !db.refunds[no].revived)
            && Total(db.refunds, "p", Succeeded) == 100
  {
    hide Apply, Replay, Reachable, Total, NeverBroken, Ledger;
    var first, second := ForgottenRun();
    ReplayReaches(0, BOUGHT + FORGOTTEN);
    AnsweredIs(first);
    TotalOfTwo(first, second, Succeeded);
    TotalOfTwo(RefundRaces.Answered(first, RefundFailed), second, Succeeded);
  }
}
