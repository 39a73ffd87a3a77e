/** Over any run, with any number of workers, the attempts of a record are claimed one after the other, each once. */
module RecoveryClaims {
  import opened Wrappers
  import opened StateMachine
  import opened RecoveryPolicy
  import opened Rows
  import opened PaymentSteps
  import opened RefundSteps
  import opened Steps
  import opened Shapes
  import opened OneWinner
  import opened Forward
  import opened Scheduling

  /** The step is a claim of the record that succeeds. */
  predicate Claims(db: Db, step: Step, record: Record) {
    step.ClaimRecovery? && step.record == record && ScheduleOf(db, step).Some?
  }

  /** The attempt numbers claimed for the record, in the order of their claims. */
  ghost function ClaimedAttempts(db: Db, steps: seq<Step>, record: Record): seq<nat> {
    if steps == [] then []
    else
      var last := steps[|steps| - 1];
      ClaimedAttempts(db, steps[..|steps| - 1], record)
      + if Claims(Replay(db, steps[..|steps| - 1]), last, record) then [last.seenAttempts + 1] else []
  }

  predicate Present(db: Db, record: Record) {
    match record
    case PaymentRecord(no) => no in db.payments
    case RefundRecord(no) => no in db.refunds
    case _ => false
  }

  predicate Known(db: Db, record: Record) {
    match record
    case PaymentRecord(no) => no in db.issued
    case RefundRecord(no) => no in db.issued
    case _ => true
  }

  // ---- Attempts in a row -------------------------------------------------------------------

  /** Only a new row and a claim change what a record counts. */
  lemma ScheduleCounts(db: Db, step: Step)
    requires IsRecovery(step)
    ensures ScheduleOf(db, step).Some? ==>
              ScheduleOf(db, step).value.0 == Attempts(db, step.record) + (if step.ClaimRecovery? then 1 else 0)
  {
    hide RecoveryDelaySeconds, Recoverable, OverAlipay, NextQueryAt, Attempts;
  }

  lemma PaymentStepCounts(db: Db, step: Step)
    requires IsPaymentStep(step)
    ensures PaymentStepRow(db, step).Some? ==>
              step.no in db.payments && PaymentStepRow(db, step).value.attempts == db.payments[step.no].attempts
  {
    hide TradeNoFree, RecoveryDelaySeconds;
  }

  /** A row the step writes counts one attempt more than before if the step claimed it, and none if it is new. */
  ghost predicate RowCounts(db: Db, step: Step, no: string, row: Option<Payment>) {
    row.Some? ==>
      if step.CreatePayment? then no !in db.issued && row.value.attempts == 0
      else no in db.payments
           && row.value.attempts == db.payments[no].attempts + (if Claims(db, step, PaymentRecord(no)) then 1 else 0)
  }

  lemma NewPaymentCounts(db: Db, step: Step)
    requires step.CreatePayment?
    ensures RowCounts(db, step, step.request.paymentNo, NewPayment(db, step.request))
  {
    hide NewPayment;
    NewPaymentShape(db, step.request);
  }

  lemma ReportCounts(db: Db, step: Step, r: Report)
    requires IsReport(step) && ReportOf(db, step) == Some(r)
    ensures RowCounts(db, step, step.no, SucceededRow(db, r))
  {
    hide ReportOf, JudgeSuccess;
    ReportNamesPayment(db, step);
  }

  lemma PaymentStepRowCounts(db: Db, step: Step)
    requires IsPaymentStep(step)
    ensures RowCounts(db, step, step.no, PaymentStepRow(db, step))
  {
    hide PaymentStepRow;
    PaymentStepCounts(db, step);
  }

  lemma ScheduledCounts(db: Db, step: Step)
    requires IsRecovery(step) && step.record.PaymentRecord?
    ensures RowCounts(db, step, step.record.paymentNo, ScheduledPayment(db, step))
  {
    hide ScheduleOf;
    ScheduleCounts(db, step);
  }

  lemma PaymentCounts(db: Db, step: Step)
    ensures RowCounts(db, step, PaymentKey(step), PaymentRow(db, step))
  {
    hide NewPayment, ReportOf, SucceededRow, PaymentStepRow, ScheduleOf, Claims;
    if step.CreatePayment? { NewPaymentCounts(db, step); }
    else if IsReport(step) { if ReportOf(db, step).Some? { ReportCounts(db, step, ReportOf(db, step).value); } }
    else if IsPaymentStep(step) { PaymentStepRowCounts(db, step); }
    else if IsRecovery(step) && step.record.PaymentRecord? { ScheduledCounts(db, step); }
  }

  lemma RefundCounts(db: Db, step: Step)
    ensures RefundRow(db, step).Some? ==>
              var no, r := RefundKey(step), RefundRow(db, step).value;
              if step.CreateRefund? then no !in db.issued && r.attempts == 0
              else no in db.refunds
                   && r.attempts == db.refunds[no].attempts + (if Claims(db, step, RefundRecord(no)) then 1 else 0)
  {
    if step.CreateRefund? { NewRefundNumber(db, step.refund); hide Total, ExternalUsed; }
    else if IsRecovery(step) { ScheduleCounts(db, step); hide ScheduleOf; }
    else { hide RecoveryDelaySeconds, StatusPaidBack; }
  }

  // ---- One step ----------------------------------------------------------------------------

  /** What one step does to the count of a record. */
  ghost predicate Tracks(db: Db, step: Step, t: Db, record: Record) {
    && (Present(db, record) && Present(t, record) ==>
          Attempts(t, record) == Attempts(db, record) + if Claims(db, step, record) then 1 else 0)
    && (!Present(db, record) && Present(t, record) ==> Attempts(t, record) == 0 && !Known(db, record))
    && (Claims(db, step, record) ==>
          Present(db, record) && Present(t, record)
            && step.seenAttempts == Attempts(db, record) < RECOVERY_MAX_ATTEMPTS)
    && (Known(db, record) ==> Known(t, record))
  }

  lemma ClaimNamesRow(db: Db, step: Step, record: Record)
    requires Claims(db, step, record)
    ensures Present(db, record) && step.seenAttempts == Attempts(db, record) < RECOVERY_MAX_ATTEMPTS
  {
    hide RecoveryDelaySeconds, NextQueryAt;
  }

  lemma MovesTrack(db: Db, step: Step, t: Db, record: Record)
    requires Numbered(db) && !step.DeleteApplication? && Moves(db, step, t) && Frames(db, step, t)
    ensures Tracks(db, step, t, record)
  {
    hide PaymentRow, RefundRow, OrderRow, PaymentKey, RefundKey, OrderKey, ReceiptRow, ReceiptKey, Reserved, ScheduleOf;
    PaymentCounts(db, step);
    RefundCounts(db, step);
    ClaimKey(step);
    if Claims(db, step, record) { ClaimNamesRow(db, step, record); ClaimWritesRow(db, step); }
  }

  lemma ClaimWritesRow(db: Db, step: Step)
    requires step.ClaimRecovery? && ScheduleOf(db, step).Some?
    ensures step.record.PaymentRecord? ==> PaymentRow(db, step).Some?
    ensures step.record.RefundRecord? ==> RefundRow(db, step).Some?
  {
    hide RecoveryDelaySeconds, NextQueryAt;
  }

  lemma ClaimKey(step: Step)
    ensures step.ClaimRecovery? && step.record.PaymentRecord? ==> PaymentKey(step) == step.record.paymentNo
    ensures step.ClaimRecovery? && step.record.RefundRecord? ==> RefundKey(step) == step.record.refundNo
    ensures step.CreatePayment? ==> PaymentKey(step) == step.request.paymentNo
    ensures step.CreateRefund? ==> RefundKey(step) == step.refund.refundNo
  {
  }

  lemma DeletionTracks(db: Db, step: Step, t: Db, record: Record)
    requires step.DeleteApplication? && Deletes(db, step.appId, t)
    ensures Tracks(db, step, t, record)
  {
    hide Archives, ClearedEvents, ClearedReceipts, ClearedExceptions, ClearedDeliveries, ClearedPayments,
         ClearedRefunds, WithoutReservations, ArchivedOrders;
  }

  lemma StepTracks(db: Db, step: Step, record: Record)
    requires Inv(db)
    ensures Tracks(db, step, Apply(db, step), record)
  {
    InvNumbered(db);
    if step.DeleteApplication? {
      DeletionWrites(db, step.appId);
      DeletionTracks(db, step, Apply(db, step), record);
    } else {
      StepWrites(db, step);
      MovesTrack(db, step, Apply(db, step), record);
    }
  }

  // ---- Every run ---------------------------------------------------------------------------

  /** The numbers claimed between two states follow those the record had, and the record counts them. */
  ghost predicate Counted(db: Db, s: Db, record: Record, claimed: seq<nat>) {
    && (forall i | 0 <= i < |claimed| :: claimed[i] == Attempts(db, record) + 1 + i)
    && Attempts(db, record) + |claimed| <= RECOVERY_MAX_ATTEMPTS
    && (Present(s, record) ==> Attempts(s, record) == Attempts(db, record) + |claimed|)
    && (!Known(s, record) ==> claimed == [] && Attempts(db, record) == 0)
  }

  /** A claim carries the next number; any other step leaves the count alone. */
  lemma ClaimFollows(db: Db, before: Db, step: Step, record: Record, claimed: seq<nat>)
    requires Inv(before) && Counted(db, before, record, claimed)
    ensures Counted(db, Apply(before, step), record, claimed + if Claims(before, step, record)
                    then [step.seenAttempts + 1] else [])
  {
    hide Inv, Apply, Claims, Attempts;
    StepTracks(before, step, record);
    InvNumbered(before);
  }

  lemma NothingCounted(db: Db, record: Record)
    requires Inv(db) && OnSchedule(db)
    ensures Counted(db, db, record, [])
  {
    hide Inv, OnSchedule;
    AttemptsBounded(db, record);
    InvNumbered(db);
  }

  lemma {:induction false} ClaimsCounted(db: Db, steps: seq<Step>, record: Record)
    requires Inv(db) && OnSchedule(db)
    ensures Counted(db, Replay(db, steps), record, ClaimedAttempts(db, steps, record))
  {
    hide Inv, OnSchedule, Apply, Claims, Counted;
    if steps == [] {
      NothingCounted(db, record);
    } else {
      var first := steps[..|steps| - 1];
      ClaimsCounted(db, first, record);
      ReplayKeeps(db, first);
      ClaimFollows(db, Replay(db, first), steps[|steps| - 1], record, ClaimedAttempts(db, first, record));
    }
  }

  /**
   The claims of a record carry consecutive attempt numbers, starting after those it had, and never pass the
   maximum: every attempt is claimed at most once, and twenty attempts is all a record ever gets.
   */
  lemma ClaimsAreConsecutive(db: Db, steps: seq<Step>, record: Record)
    requires Reachable(db)
    ensures var claimed := ClaimedAttempts(db, steps, record);
            && (forall i | 0 <= i < |claimed| :: claimed[i] == Attempts(db, record) + 1 + i)
            && Attempts(db, record) + |claimed| <= RECOVERY_MAX_ATTEMPTS
  {
    hide Reachable, Inv, OnSchedule, Replay, ClaimedAttempts;
    ReachableOnSchedule(db);
    ClaimsCounted(db, steps, record);
  }

  lemma AttemptsBounded(db: Db, record: Record)
    requires OnSchedule(db)
    ensures Attempts(db, record) <= RECOVERY_MAX_ATTEMPTS
  {
    hide Fits, Once, OrdersUp;
  }
}
