/**
 What one attempt of the recovery workers leaves of its record: when it is asked about again, or that a person is
 told.
 */
module RecoveryRounds {
  import opened Wrappers
  import opened StateMachine
  import opened RecoveryPolicy
  import opened Rows
  import opened PaymentSteps
  import opened RefundSteps
  import opened Steps
  import opened OneWinner
  import opened ServiceSteps
  import opened ChannelAnswers

  /** The record counts so many attempts and is asked about next at that time. */
  predicate Rests(db: Db, record: Record, attempts: nat, at: Option<int>) {
    match record
    case PaymentRecord(no) =>
      no in db.payments && db.payments[no].attempts == attempts && db.payments[no].nextQueryAt == at
    case RefundRecord(no) => no in db.refunds && db.refunds[no].attempts == attempts && db.refunds[no].nextQueryAt == at
    case _ => false
  }

  /** The record counts so many attempts, and the time of its next query has come. */
  predicate Waits(db: Db, record: Record, attempts: nat) {
    match record
    case PaymentRecord(no) =>
      no in db.payments && db.payments[no].attempts == attempts && db.payments[no].nextQueryAt.Some?
        && db.payments[no].nextQueryAt.value <= db.now
    case RefundRecord(no) =>
      no in db.refunds && db.refunds[no].attempts == attempts && db.refunds[no].nextQueryAt.Some?
        && db.refunds[no].nextQueryAt.value <= db.now
    case _ => false
  }

  /** Nobody knows yet how the payment or the refund over ALIPAY ended. */
  predicate Undecided(db: Db, record: Record) {
    match record
    case PaymentRecord(no) =>
      no in db.payments && db.payments[no].channel == Alipay && db.payments[no].status in {Processing, Unknown}
    case RefundRecord(no) =>
      no in db.refunds && db.refunds[no].status in {RefundProcessing, RefundUnknown}
        && db.refunds[no].paymentNo in db.payments && db.payments[db.refunds[no].paymentNo].channel == Alipay
    case _ => false
  }

  /** Nothing but the record's attempts and the time of its next query changed, claims and events aside. */
  ghost predicate OnlyRescheduled(db: Db, t: Db, record: Record) {
    && t == db.(payments := t.payments, refunds := t.refunds, tickets := t.tickets, events := t.events,
                nextEventId := t.nextEventId)
    && t.payments.Keys == db.payments.Keys && t.refunds.Keys == db.refunds.Keys
    && (forall no | no in db.payments && record != PaymentRecord(no) :: t.payments[no] == db.payments[no])
    && (forall no | no in db.refunds && record != RefundRecord(no) :: t.refunds[no] == db.refunds[no])
    && match record
       case PaymentRecord(no) =>
         no in db.payments && t.payments[no] == db.payments[no].(attempts := t.payments[no].attempts,
                                                                 nextQueryAt := t.payments[no].nextQueryAt)
       case RefundRecord(no) =>
         no in db.refunds && t.refunds[no] == db.refunds[no].(attempts := t.refunds[no].attempts,
                                                              nextQueryAt := t.refunds[no].nextQueryAt)
       case _ => false
  }

  /**
   A claim takes exactly an undecided record whose time has come, which still counts what the worker saw, and which has
   attempts left; it counts the attempt and puts off the next query.
   */
  lemma ClaimWrites(db: Db, record: Record, seen: nat, random: real)
    ensures var t := Apply(db, ClaimRecovery(record, seen, random));
            if Undecided(db, record) && Waits(db, record, seen) && seen < 20 then
              && Rests(t, record, seen + 1, Some(db.now + RecoveryDelaySeconds(seen + 1, random)))
              && OnlyRescheduled(db, t, record)
              && t.tickets == db.tickets + {Ticket(record, seen + 1)} && t.events == db.events
              && t.nextEventId == db.nextEventId
            else t == db
  {
    hide RecoveryDelaySeconds, Apply;
    RecoveryApplied(db, ClaimRecovery(record, seen, random));
  }

  /** A person is told which record was given up, and of its payment and order. */
  function Exhausted(db: Db, record: Record): Event
    requires Undecided(db, record)
  {
    match record
    case PaymentRecord(no) => Event(RecoveryExhaustedEvent, record, Some(db.payments[no].orderNo), Some(no))
    case RefundRecord(no) =>
      var p := db.refunds[no].paymentNo;
      Event(RecoveryExhaustedEvent, record, Some(db.payments[p].orderNo), Some(p))
    case _ => assert false; Event(RecoveryExhaustedEvent, record, None, None)
  }

  /** What the holder of an attempt on an undecided record writes at its end. */
  lemma EndWrites(db: Db, record: Record, attempt: nat, retryAt: int, settled: Result<bool, ServiceError>)
    requires Undecided(db, record) && Rests(db, record, attempt, NextQueryAt(db, record))
    requires Ticket(record, attempt) in db.tickets && NextQueryAt(db, record).Some?
    ensures var t := Apply(db, EndStep(record, attempt, retryAt, settled));
            && Rests(t, record, attempt, if attempt >= 20 then None
                                         else if settled.Err? then Some(retryAt) else NextQueryAt(db, record))
            && OnlyRescheduled(db, t, record)
            && t.events == (if attempt >= 20
                            then db.events[db.nextEventId := Exhausted(db, record)]
                            else db.events)
            && t.nextEventId == db.nextEventId + (if attempt >= 20 then 1 else 0)
  {
    hide Apply;
    RecoveryApplied(db, EndStep(record, attempt, retryAt, settled));
  }

  // ---- A whole round -----------------------------------------------------------------------

  /** Nothing happens around the attempt. */
  predicate Quiet(a: Attempt) {
    a.claiming == a.reading == a.ending == a.call.others == []
  }

  /** The channel could not be asked about the record. */
  predicate Unheard(record: Record, a: Attempt) {
    if record.PaymentRecord? then a.call.answer.Unanswered? else !a.answer.RefundAnswered?
  }

  /** The channel answers what is stored. */
  predicate NothingNew(db: Db, record: Record, a: Attempt) {
    match record
    case PaymentRecord(no) =>
      no in db.payments && a.call.answer.Answered? && a.call.answer.status == db.payments[no].status
    case RefundRecord(no) => no in db.refunds && a.answer == RefundAnswer.RefundAnswered(db.refunds[no].status)
    case _ => false
  }

  lemma AskingIsQuiet(db: Db, record: Record, a: Attempt)
    requires Quiet(a) && Undecided(db, record) && NextQueryAt(db, record).Some?
    requires Unheard(record, a) || NothingNew(db, record, a)
    ensures AskSteps(db, record, a.call, a.answer) == []
    ensures AskAnswer(db, record, a.call, a.answer).Err? <==> Unheard(record, a)
    ensures AskAnswer(db, record, a.call, a.answer) != Ok(true)
  {
    hide Replay;
  }

  lemma QuietRoundSteps(db: Db, record: Record, seen: nat, a: Attempt)
    requires Quiet(a) && RecoveryClaimable(db, record, seen)
    requires var t := Apply(db, ClaimRecovery(record, seen, a.call.random));
             AskSteps(t, record, a.call, a.answer) == []
    ensures var claim := ClaimRecovery(record, seen, a.call.random);
            var settled := AskAnswer(Apply(db, claim), record, a.call, a.answer);
            RecoveryRound(db, record, seen, a)
            == [claim, EndStep(record, seen + 1, db.now + RecoveryDelaySeconds(seen + 1, a.call.random), settled)]
  {
    hide Apply, Replay, RecoveryClaimable, AskSteps, AskAnswer, RecoveryDelaySeconds;
    var claim := ClaimRecovery(record, seen, a.call.random);
    ReplayNothing(db);
    ReplayOne(db, claim);
    ReplayNothing(Apply(db, claim));
    assert [] + [claim] == [claim];
  }

  /** The time has come for an undecided record with attempts left. */
  predicate Due(db: Db, record: Record, seen: nat) {
    Undecided(db, record) && Waits(db, record, seen) && seen < 20
  }

  /**
   An attempt that nobody disturbs and that learns nothing: the record counts it and waits for the delay of that
   attempt, counted from the claim, before it is asked about again. After the twentieth attempt it is not, and a person
   is told.
   */
  ghost predicate PutOff(db: Db, record: Record, seen: nat, random: real, t: Db)
    requires Undecided(db, record)
  {
    && Rests(t, record, seen + 1, if seen + 1 >= 20 then None
                                  else Some(db.now + RecoveryDelaySeconds(seen + 1, random)))
    && OnlyRescheduled(db, t, record)
    && t.events == (if seen + 1 >= 20 then db.events[db.nextEventId := Exhausted(db, record)] else db.events)
  }

  /** How such an attempt is counted. */
  function PutOffCount(s: RecoverySummary, seen: nat, unheard: bool): RecoverySummary {
    RecoverySummary(s.claimed + 1, s.resolved, if unheard then s.failed + 1 else s.failed,
                    if seen + 1 >= 20 then s.exhausted + 1 else s.exhausted)
  }

  lemma RoundPutsOff(db: Db, record: Record, seen: nat, a: Attempt, s: RecoverySummary)
    requires Quiet(a) && Due(db, record, seen) && (Unheard(record, a) || NothingNew(db, record, a))
    ensures PutOff(db, record, seen, a.call.random, Replay(db, RecoveryRound(db, record, seen, a)))
    ensures RecoveryCounted(db, s, record, seen, a) == PutOffCount(s, seen, Unheard(record, a))
  {
    hide Apply, Replay, RecoveryRound, AskSteps, AskAnswer, RecoveryDelaySeconds, OnlyRescheduled, RecoveryCounted;
    var claim := ClaimRecovery(record, seen, a.call.random);
    var retryAt := db.now + RecoveryDelaySeconds(seen + 1, a.call.random);
    ClaimWrites(db, record, seen, a.call.random);
    var t := Apply(db, claim);
    ClaimKeepsNews(db, t, record, seen + 1, retryAt, a);
    AskingIsQuiet(t, record, a);
    QuietRoundSteps(db, record, seen, a);
    var settled := AskAnswer(t, record, a.call, a.answer);
    EndWrites(t, record, seen + 1, retryAt, settled);
    ReplayTwo(db, claim, EndStep(record, seen + 1, retryAt, settled));
    RescheduledTwice(db, t, Replay(db, RecoveryRound(db, record, seen, a)), record);
    QuietCount(db, record, seen, a, s);
  }

  lemma ClaimKeepsNews(db: Db, t: Db, record: Record, seen: nat, at: int, a: Attempt)
    requires Undecided(db, record) && OnlyRescheduled(db, t, record) && Rests(t, record, seen, Some(at))
    ensures Undecided(t, record) && NextQueryAt(t, record) == Some(at) && Exhausted(t, record) == Exhausted(db, record)
    ensures NothingNew(db, record, a) ==> NothingNew(t, record, a)
  {
  }

  lemma RescheduledTwice(a: Db, b: Db, c: Db, record: Record)
    requires OnlyRescheduled(a, b, record) && OnlyRescheduled(b, c, record)
    ensures OnlyRescheduled(a, c, record)
  {
  }

  lemma QuietCount(db: Db, record: Record, seen: nat, a: Attempt, s: RecoverySummary)
    requires Quiet(a) && RecoveryClaimable(db, record, seen)
    requires var t := Apply(db, ClaimRecovery(record, seen, a.call.random));
             && Undecided(t, record) && NextQueryAt(t, record).Some? && AskSteps(t, record, a.call, a.answer) == []
             && (AskAnswer(t, record, a.call, a.answer).Err? <==> Unheard(record, a))
             && AskAnswer(t, record, a.call, a.answer) != Ok(true)
    ensures RecoveryCounted(db, s, record, seen, a) == PutOffCount(s, seen, Unheard(record, a))
  {
    hide Apply, Replay, RecoveryClaimable, AskSteps, AskAnswer, AttemptCounted, Undecided, PutOffCount;
    var t := Apply(db, ClaimRecovery(record, seen, a.call.random));
    ReplayNothing(db);
    ReplayOne(db, ClaimRecovery(record, seen, a.call.random));
    assert ClaimSteps(record, seen, a) == [ClaimRecovery(record, seen, a.call.random)];
    QuietEnd(t, record, seen + 1, a, s);
  }

  lemma QuietEnd(t: Db, record: Record, attempt: nat, a: Attempt, s: RecoverySummary)
    requires Quiet(a) && attempt >= 1
    requires Undecided(t, record) && NextQueryAt(t, record).Some? && AskSteps(t, record, a.call, a.answer) == []
             && (AskAnswer(t, record, a.call, a.answer).Err? <==> Unheard(record, a))
             && AskAnswer(t, record, a.call, a.answer) != Ok(true)
    ensures AttemptCounted(t, s, record, attempt, a) == PutOffCount(s, attempt - 1, Unheard(record, a))
  {
    hide Apply, Replay, AskSteps, AskAnswer;
    ReplayNothing(t);
    assert [] + a.ending == [];
  }

  /** The channel answers how the payment or the refund ended; a success of a payment has to be taken first. */
  predicate AnswersEnd(record: Record, a: Attempt) {
    match record
    case PaymentRecord(_) => a.call.answer.Answered? && a.call.answer.status in {Failed, PaymentStatus.Closed}
    case RefundRecord(_) => a.answer.RefundAnswered? && a.answer.status in {RefundFailed, RefundSuccess}
    case _ => false
  }

  lemma EndIsHeard(db: Db, record: Record, a: Attempt)
    requires Reachable(db) && Quiet(a) && Undecided(db, record) && AnswersEnd(record, a)
    ensures AskAnswer(db, record, a.call, a.answer) == Ok(true)
    ensures !Recoverable(Replay(db, AskSteps(db, record, a.call, a.answer)), record)
  {
    hide Replay, Reachable, QuerySteps, RefundQuerySteps, QueryAnswer, RefundQueryAnswer, Inv;
    ReachableInv(db);
    match record
    case PaymentRecord(no) =>
      QuestionLands(db, no, a.call);
      QuestionAnswered(db, no, a.call);
    case RefundRecord(no) =>
      RefundQuestionLands(db, no, a.answer, a.call.random);
      RefundQuestionAnswered(db, no, a.answer, a.call.random);
    case _ =>
  }

  /** An attempt that learns the end is counted as resolved. */
  lemma EndIsCounted(db: Db, record: Record, seen: nat, a: Attempt, s: RecoverySummary)
    requires Reachable(db) && Quiet(a) && Due(db, record, seen) && AnswersEnd(record, a)
    ensures RecoveryCounted(db, s, record, seen, a)
         == RecoverySummary(s.claimed + 1, s.resolved + 1, s.failed, s.exhausted)
  {
    hide Apply, Replay, Reachable, AskSteps, AskAnswer, OnlyRescheduled, AttemptCounted;
    var claim := ClaimRecovery(record, seen, a.call.random);
    var t := Apply(db, claim);
    ClaimWrites(db, record, seen, a.call.random);
    ClaimKeepsNews(db, t, record, seen + 1, db.now + RecoveryDelaySeconds(seen + 1, a.call.random), a);
    ReplayNothing(db);
    ReplayOne(db, claim);
    assert ClaimSteps(record, seen, a) == [claim];
    ReachableOnward(db, [claim]);
    EndIsHeard(t, record, a);
    HeardEnd(t, record, seen + 1, a, s);
  }

  lemma HeardEnd(t: Db, record: Record, attempt: nat, a: Attempt, s: RecoverySummary)
    requires Quiet(a) && AskAnswer(t, record, a.call, a.answer) == Ok(true)
    requires !Recoverable(Replay(t, AskSteps(t, record, a.call, a.answer)), record)
    ensures AttemptCounted(t, s, record, attempt, a)
         == RecoverySummary(s.claimed + 1, s.resolved + 1, s.failed, s.exhausted)
  {
    hide Apply, Replay, AskSteps, AskAnswer, Recoverable;
    ReplayNothing(t);
    assert AskSteps(t, record, a.call, a.answer) + [] == AskSteps(t, record, a.call, a.answer);
  }

  /** What the worker finds are the undecided records whose time has come, and unless it finds too many, all of them. */
  lemma DueRecordsAre(db: Db, kind: Kind, limit: nat, due: seq<(Record, nat)>)
    requires DueRecords(db, kind, limit, due)
    ensures forall i | 0 <= i < |due| ::
              Due(db, due[i].0, due[i].1) && (due[i].0.PaymentRecord? <==> kind == Payments)
    ensures |due| < limit ==>
              forall record, seen: nat | Due(db, record, seen) && (record.PaymentRecord? <==> kind == Payments) ::
                (record, seen) in due
  {
    forall record, seen: nat | Due(db, record, seen) && (record.PaymentRecord? <==> kind == Payments) && |due| < limit
      ensures (record, seen) in due
    {
      assert IsDueRecord(db, kind, record) && Attempts(db, record) == seen;
    }
  }
}
