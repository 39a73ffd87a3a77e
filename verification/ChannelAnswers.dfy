/** What the answers of a channel make of the rows they are about. */
module ChannelAnswers {
  import opened Wrappers
  import opened StateMachine
  import opened Rows
  import opened PaymentSteps
  import opened RefundSteps
  import opened Steps
  import opened Shapes
  import opened OneWinner
  import opened Forward
  import opened ServiceSteps
  import opened SuccessReports
  import opened BillPayments
  import opened BillMatching
  import opened RefundTotals
  import opened RefundLedger
  import RecoveryPolicy

  predicate OverAlipayChannel(db: Db, no: string) {
    no in db.refunds && db.refunds[no].paymentNo in db.payments
      && db.payments[db.refunds[no].paymentNo].channel == Alipay
  }

  // ---- New refunds -------------------------------------------------------------------------

  /**
   What the answer leaves of a refund: of unknown outcome it holds its room and is asked about again over ALIPAY;
   rejected it has failed and is not.
   */
  predicate StoresAnswer(db: Db, no: string, answer: RefundAnswer) {
    && no in db.refunds
    && var r := db.refunds[no];
       match answer
       case RefundUncertain => r.status == RefundUnknown && (OverAlipayChannel(db, no) <==> r.nextQueryAt.Some?)
       case RefundRejected => r.status == RefundFailed && r.nextQueryAt.None?
       case RefundAnswered(status) =>
         match status
         case RefundSuccess => r.status == RefundSuccess
         case RefundProcessing => r.status == RefundProcessing && (OverAlipayChannel(db, no) <==> r.nextQueryAt.Some?)
         case RefundUnknown => r.status == RefundUnknown && (OverAlipayChannel(db, no) <==> r.nextQueryAt.Some?)
         case RefundFailed => r.status == RefundFailed && r.nextQueryAt.None?
         case RefundCreated => false
  }

  /** Answers to a refund leave its payment and all other refunds alone. */
  lemma RefundStepFrames(db: Db, step: Step, no: string)
    requires (step.RefundObserved? || step.RefundSucceeded?) && step.refundNo == no
    ensures var t := Apply(db, step);
            t.payments == db.payments && t.now == db.now && t.refunds == Put(db.refunds, no, RefundRow(db, step))
  {
    hide Apply, RefundRow, OrderRow, OrderKey;
    StepWrites(db, step);
  }

  lemma ObservationLands(db: Db, no: string, status: RefundStatus, random: real)
    requires Inv(db) && no in db.refunds && status in {RefundProcessing, RefundUnknown, RefundFailed}
    ensures var t := Apply(db, RefundObserved(no, JUST_RESERVED, status, random));
            && no in t.refunds && t.refunds[no].status == status
            && (t.refunds[no].nextQueryAt.Some? <==> status != RefundFailed && OverAlipayChannel(t, no))
  {
    hide Inv, Apply, RecoveryPolicy.RecoveryDelaySeconds;
    RefundBacked(db, no);
    RefundStepFrames(db, RefundObserved(no, JUST_RESERVED, status, random), no);
  }

  lemma SuccessLands(db: Db, no: string)
    requires Inv(db) && no in db.refunds
    ensures var t := Apply(db, RefundSucceeded(no)); no in t.refunds && t.refunds[no].status == RefundSuccess
  {
    hide Inv, Apply, RefundRow, PaysBack;
    RefundStepFrames(db, RefundSucceeded(no), no);
    RefundSucceededRows(db, no);
    if db.refunds[no].status != RefundSuccess { UnpaidPays(db, no); }
  }

  /** Whatever happened to a refund while the channel was asked, the answer is what is stored of it. */
  lemma AnswerLands(db: Db, no: string, answer: RefundAnswer, random: real)
    requires Inv(db) && no in db.refunds && TakesAnswer(answer)
    ensures StoresAnswer(Apply(db, DispatchStep(no, answer, random)), no, answer)
  {
    hide Inv, Apply, OverAlipayChannel;
    match answer
    case RefundUncertain => ObservationLands(db, no, RefundUnknown, random);
    case RefundRejected => ObservationLands(db, no, RefundFailed, random);
    case RefundAnswered(status) =>
      if status == RefundSuccess { SuccessLands(db, no); } else { ObservationLands(db, no, status, random); }
  }

  lemma NoAnswerCreates(db: Db, no: string, answer: RefundAnswer, random: real)
    requires no !in db.refunds && TakesAnswer(answer)
    ensures no !in Apply(db, DispatchStep(no, answer, random)).refunds
  {
    hide Apply;
    RefundStepFrames(db, DispatchStep(no, answer, random), no);
  }

  // ---- New payments ------------------------------------------------------------------------

  /**
   What the answer to its creation leaves of a payment that nobody else touched: of unknown outcome it goes on waiting
   and is asked about again over ALIPAY; rejected it has failed.
   */
  predicate StoresCreation(p: Payment, answer: CreateAnswer) {
    match answer
    case CreateUncertain => p.status == Unknown && (p.channel == Alipay <==> p.nextQueryAt.Some?)
    case CreateRejected => p.status == Failed && p.nextQueryAt.None?
    case Created(status, channelOrderNo) =>
      if status in {Processing, Unknown} then
        && p.status == status && (p.channel == Alipay <==> p.nextQueryAt.Some?) && p.channelOrderNo == channelOrderNo
      else if status in {Failed, PaymentStatus.Closed} then
        p.status == status && p.nextQueryAt.None? && p.channelOrderNo == channelOrderNo
      else p.status == Processing
  }

  /** The moves of a payment's status, successes aside. */
  predicate MayBecome(from: PaymentStatus, to: PaymentStatus) {
    || from == to
    || (from == PaymentStatus.Created && to != Success)
    || (from == Processing && to in {Failed, Unknown, PaymentStatus.Closed})
    || (from == Unknown && to in {Processing, Failed, PaymentStatus.Closed})
  }

  /** When an undecided record is asked about again: after the delay of the attempts counted, one at least. */
  function AskedAgainAt(db: Db, attempts: nat, random: real): int {
    db.now + RecoveryPolicy.RecoveryDelaySeconds(if attempts == 0 then 1 else attempts, random)
  }

  /** An answer short of success is written exactly if the row, as it is by then, may become so. */
  lemma ObservationWritten(db: Db, no: string, status: PaymentStatus, seen: nat, random: real, order: Option<string>)
    requires no in db.payments && db.payments[no].status != Success
    ensures var p, t := db.payments[no], Apply(db, Observe(no, status, seen, random, order));
            && no in t.payments && t.payments == db.payments[no := t.payments[no]] && t.refunds == db.refunds
            && var q := t.payments[no];
               if status != Success && MayBecome(p.status, status) then
                 && q.status == status && q.channelOrderNo == (if order.Some? then order else p.channelOrderNo)
                 && q.nextQueryAt == (if p.channel == Alipay && status in {Processing, Unknown}
                    then Some(AskedAgainAt(db, seen, random)) else None)
                 && q == p.(status := q.status, nextQueryAt := q.nextQueryAt, channelOrderNo := q.channelOrderNo)
               else q == p
  {
    hide Apply, OrderRow, OrderKey, RecoveryPolicy.RecoveryDelaySeconds;
    StepWrites(db, Observe(no, status, seen, random, order));
  }

  /** A payment in PROCESSING takes what its creation is answered with. */
  lemma CreationLands(db: Db, no: string, answer: CreateAnswer, random: real)
    requires no in db.payments && db.payments[no].status == Processing && db.payments[no].channelOrderNo == None
    ensures no in Apply(db, CreateObservation(no, answer, random)).payments
    ensures StoresCreation(Apply(db, CreateObservation(no, answer, random)).payments[no], answer)
  {
    hide Apply;
    match answer
    case CreateUncertain => ObservationWritten(db, no, Unknown, 0, random, None);
    case CreateRejected => ObservationWritten(db, no, Failed, 0, random, None);
    case Created(status, order) => ObservationWritten(db, no, status, 0, random, order);
  }

  /** An uncertain answer never ends a payment, whatever became of it meanwhile. */
  lemma UncertainKeepsWaiting(db: Db, no: string, random: real)
    requires no in db.payments
    ensures var p, t := db.payments[no], Apply(db, CreateObservation(no, CreateUncertain, random));
            no in t.payments && if IsActive(p.status) then t.payments[no].status == Unknown else t.payments[no] == p
  {
    hide Apply, PaymentRow;
    if db.payments[no].status == Success { SuccessStays(db, no, random); }
    else { ObservationWritten(db, no, Unknown, 0, random, None); }
  }

  lemma SuccessStays(db: Db, no: string, random: real)
    requires no in db.payments && db.payments[no].status == Success
    ensures Apply(db, CreateObservation(no, CreateUncertain, random)).payments == db.payments
  {
    hide Apply;
    StepWrites(db, CreateObservation(no, CreateUncertain, random));
  }

  // ---- Questions about payments ------------------------------------------------------------

  /**
   What a question that nobody disturbs makes of a payment: an error changes nothing, a success over ALIPAY is taken if
   its trade number is free, other news is written if the payment may become so, and a forgotten payment gets a next
   question in fifteen seconds.
   */
  predicate Asked(db: Db, no: string, answer: Answer, q: Payment)
    requires no in db.payments
  {
    var p := db.payments[no];
    match answer
    case Unanswered => q == p
    case Answered(status, tradeNo, paidAt) =>
      if status == Success && p.channel == Alipay then
        if p.status != Success && Untaken(db.payments, no, if tradeNo.Some? then tradeNo else p.tradeNo)
        then q.status == Success && q.received == Some(p.amount) && q.paidAt == Some(paidAt)
        else q == p
      else if status != p.status && p.status != Success && MayBecome(p.status, status) then
        q.status == status && (q.nextQueryAt.Some? <==> p.channel == Alipay && status in {Processing, Unknown})
      else if p.channel == Alipay && p.status in {Processing, Unknown} && p.nextQueryAt.None? && p.attempts < 20 then
        q == p.(nextQueryAt := Some(db.now + 15))
      else q == p
  }

  lemma RescheduleLands(db: Db, no: string)
    requires no in db.payments
    ensures var t := Apply(db, Reschedule(PaymentRecord(no)));
            t.payments == if db.payments[no].channel == Alipay
                          then db.payments[no := db.payments[no].(nextQueryAt := Some(db.now + 15))] else db.payments
  {
    hide Apply;
    StepWrites(db, Reschedule(PaymentRecord(no)));
  }

  lemma SuccessAnswered(db: Db, no: string, tradeNo: Option<string>, paidAt: int)
    requires Reachable(db) && no in db.payments && db.payments[no].channel == Alipay
    ensures var t := Apply(db, QuerySuccess(no, tradeNo, paidAt));
            no in t.payments && Asked(db, no, Answered(Success, tradeNo, paidAt), t.payments[no])
  {
    hide Apply, Reachable, Untaken, PaymentRow, OrderRow, RefundRow, OrderKey;
    var step := QuerySuccess(no, tradeNo, paidAt);
    if db.payments[no].status == Success {
      RepeatChangesNothing(db, step);
    } else {
      StepWrites(db, step);
      SucceedsExactly(db, step, no);
      if Apply(db, step).payments[no].status != Success { RefusedKeeps(db, step); }
    }
  }

  /** A report that does not make its payment successful writes nothing of it. */
  lemma RefusedKeeps(db: Db, step: Step)
    requires IsReport(step) && step.no in db.payments && !step.DeleteApplication?
    requires step.no in Apply(db, step).payments && Apply(db, step).payments[step.no].status != Success
    ensures Apply(db, step).payments == db.payments
  {
    hide Apply, ReportOf, JudgeSuccess, OrderRow, RefundRow, OrderKey;
    StepWrites(db, step);
    if ReportOf(db, step).Some? { ReportNamesPayment(db, step); }
  }

  lemma QuestionShape(db: Db, no: string, call: Call)
    requires no in db.payments && call.others == []
    ensures QuerySteps(db, no, call) == QueryWrites(no, db.payments[no], call)
    ensures |QueryWrites(no, db.payments[no], call)| <= 1
  {
  }

  lemma QuietPaymentQuestion(db: Db, no: string, call: Call)
    requires no in db.payments && QueryWrites(no, db.payments[no], call) == []
    ensures Asked(db, no, call.answer, db.payments[no])
  {
  }

  lemma PaymentStepLands(db: Db, no: string, call: Call)
    requires Reachable(db) && no in db.payments && QueryWrites(no, db.payments[no], call) != []
    ensures var t := Apply(db, QueryWrites(no, db.payments[no], call)[0]);
            no in t.payments && Asked(db, no, call.answer, t.payments[no])
  {
    hide Reachable, Apply, Untaken;
    var p, answer := db.payments[no], call.answer;
    if AnswersSuccess(p, answer) { SuccessAnswered(db, no, answer.tradeNo, answer.paidAt); }
    else if AnswersNews(p, answer) { ObservationWritten(db, no, answer.status, p.attempts, call.random, None); }
    else { RescheduleLands(db, no); }
  }

  /** `queryPayment` undisturbed. */
  lemma QuestionLands(db: Db, no: string, call: Call)
    requires Reachable(db) && no in db.payments && call.others == []
    ensures no in Replay(db, QuerySteps(db, no, call)).payments
    ensures Asked(db, no, call.answer, Replay(db, QuerySteps(db, no, call)).payments[no])
  {
    hide Apply, Reachable, Asked, QueryWrites, QuerySteps, Replay;
    var steps := QueryWrites(no, db.payments[no], call);
    QuestionShape(db, no, call);
    ReplayNothing(db);
    if steps != [] {
      ReplayLast(db, steps);
      assert steps[..0] == [];
      PaymentStepLands(db, no, call);
    } else {
      QuietPaymentQuestion(db, no, call);
    }
  }

  // ---- Questions about refunds -------------------------------------------------------------

  /** The moves of a refund's status, successes aside. */
  predicate RefundMayBecome(from: RefundStatus, to: RefundStatus) {
    || from == to
    || (from == RefundCreated && to != RefundSuccess)
    || (from == RefundProcessing && to in {RefundFailed, RefundUnknown})
    || (from == RefundUnknown && to in {RefundProcessing, RefundFailed})
  }

  /** The refund, in this status, is one the channel is asked about again. */
  predicate StaysAsked(db: Db, no: string, status: RefundStatus) {
    OverAlipayChannel(db, no) && status in {RefundProcessing, RefundUnknown}
  }

  /**
   What a question that nobody disturbs makes of a refund: only an answer is written, a success always, other news if
   the refund may become so, and a forgotten refund gets a next question in fifteen seconds.
   */
  predicate AskedRefund(db: Db, no: string, answer: RefundAnswer, q: Refund)
    requires no in db.refunds
  {
    var r := db.refunds[no];
    if !answer.RefundAnswered? then q == r
    else if answer.status == RefundSuccess then
      if r.status == RefundSuccess then q == r else q.status == RefundSuccess && q.nextQueryAt.None?
    else if answer.status != r.status && r.status != RefundSuccess && RefundMayBecome(r.status, answer.status) then
      q.status == answer.status && (q.nextQueryAt.Some? <==> StaysAsked(db, no, answer.status))
    else if StaysAsked(db, no, r.status) && r.nextQueryAt.None? && r.attempts < 20
         then q == r.(nextQueryAt := Some(db.now + 15))
    else q == r
  }

  lemma RefundRescheduleLands(db: Db, no: string)
    requires no in db.refunds
    ensures var t := Apply(db, Reschedule(RefundRecord(no)));
            t.refunds == if OverAlipayChannel(db, no)
              then db.refunds[no := db.refunds[no].(nextQueryAt := Some(db.now + 15))]
                         else db.refunds
  {
    hide Apply;
    StepWrites(db, Reschedule(RefundRecord(no)));
  }

  /** An answer short of success is written exactly if the refund may become so from the status seen before. */
  lemma RefundObservationWritten(db: Db, no: string, seen: Seen, status: RefundStatus, random: real)
    requires Inv(db) && no in db.refunds
    ensures var r, t := db.refunds[no], Apply(db, RefundObserved(no, seen, status, random));
            && no in t.refunds && t.refunds == db.refunds[no := t.refunds[no]] && t.payments == db.payments
            && var q := t.refunds[no];
               if status != RefundSuccess && RefundMayBecome(seen.status, status) then
                 && q.status == status
                 && q.nextQueryAt == (if StaysAsked(db, no, status)
                    then Some(AskedAgainAt(db, seen.attempts, random)) else None)
                 && q.amount == r.amount && q.paymentNo == r.paymentNo && q.attempts == r.attempts
               else q == r
  {
    hide Inv, Apply, RecoveryPolicy.RecoveryDelaySeconds;
    RefundBacked(db, no);
    RefundStepFrames(db, RefundObserved(no, seen, status, random), no);
  }

  lemma SucceededLands(db: Db, no: string)
    requires Inv(db) && no in db.refunds
    ensures var r, q := db.refunds[no], Apply(db, RefundSucceeded(no)).refunds;
            no in q && if r.status == RefundSuccess then q[no] == r
                       else q[no].status == RefundSuccess && q[no].nextQueryAt.None?
  {
    hide Inv, Apply, RefundRow, PaysBack;
    RefundStepFrames(db, RefundSucceeded(no), no);
    RefundSucceededRows(db, no);
    if db.refunds[no].status != RefundSuccess { UnpaidPays(db, no); }
    else { PaidOnce(db, no); }
  }

  lemma PaidOnce(db: Db, no: string)
    requires no in db.refunds && db.refunds[no].status == RefundSuccess
    ensures !PaysBack(db, no)
  {
  }

  lemma RefundQuestionShape(db: Db, no: string, answer: RefundAnswer, random: real)
    requires no in db.refunds
    ensures |RefundReply(no, db.refunds[no], OverAlipay(db, RefundRecord(no)), answer, random)| <= 1
  {
  }

  lemma QuietQuestion(db: Db, no: string, answer: RefundAnswer, random: real)
    requires Inv(db) && no in db.refunds
    requires RefundReply(no, db.refunds[no], OverAlipay(db, RefundRecord(no)), answer, random) == []
    ensures AskedRefund(db, no, answer, db.refunds[no])
  {
    hide Inv;
    RefundBacked(db, no);
  }

  lemma RefundStepLands(db: Db, no: string, answer: RefundAnswer, random: real)
    requires Inv(db) && no in db.refunds
    requires RefundReply(no, db.refunds[no], OverAlipay(db, RefundRecord(no)), answer, random) != []
    ensures var t := Apply(db, RefundReply(no, db.refunds[no], OverAlipay(db, RefundRecord(no)), answer, random)[0]);
            no in t.refunds && AskedRefund(db, no, answer, t.refunds[no])
  {
    hide Inv, Apply;
    var r := db.refunds[no];
    RefundBacked(db, no);
    if answer.status == RefundSuccess { SucceededLands(db, no); }
    else if RefundNews(r, answer.status) {
      RefundObservationWritten(db, no, Seen(r.status, r.attempts), answer.status, random);
    } else {
      RefundRescheduleLands(db, no);
    }
  }

  /** `queryRefund` undisturbed. */
  lemma RefundQuestionLands(db: Db, no: string, answer: RefundAnswer, random: real)
    requires Inv(db) && no in db.refunds
    ensures no in Replay(db, RefundQuerySteps(db, no, [], answer, random)).refunds
    ensures AskedRefund(db, no, answer, Replay(db, RefundQuerySteps(db, no, [], answer, random)).refunds[no])
  {
    hide Inv, Apply, Replay, RefundReply, AskedRefund;
    var steps := RefundReply(no, db.refunds[no], OverAlipay(db, RefundRecord(no)), answer, random);
    assert RefundQuerySteps(db, no, [], answer, random) == steps;
    ReplayNothing(db);
    RefundQuestionShape(db, no, answer, random);
    if steps != [] {
      ReplayLast(db, steps);
      assert steps[..0] == [];
      RefundStepLands(db, no, answer, random);
    } else {
      QuietQuestion(db, no, answer, random);
    }
  }

  // ---- Closing -----------------------------------------------------------------------------

  /** Closing takes the payments that are under way, whatever the caller saw of them. */
  lemma CloseWritten(db: Db, no: string)
    requires no in db.payments
    ensures var p, t := db.payments[no], Apply(db, Close(no));
            t.payments == if p.status in {PaymentStatus.Created, Processing, Unknown}
                          then db.payments[no := p.(status := PaymentStatus.Closed, nextQueryAt := None)] else db.payments
  {
    hide Apply, OrderRow, RefundRow, OrderKey, RefundKey, Frames;
    StepWrites(db, Close(no));
  }

  /**
   `closePayment` undisturbed: an active payment is closed once its channel confirmed, and nothing else is written.
   */
  lemma ClosingLands(db: Db, no: string, call: Call)
    requires no in db.payments && call.meanwhile == []
    ensures var p, t := db.payments[no], Replay(db, CloseSteps(db, no, call));
            t.payments == if p.status in {PaymentStatus.Created, Processing, Unknown} && call.closes == Some(true)
                          then db.payments[no := p.(status := PaymentStatus.Closed, nextQueryAt := None)] else db.payments
  {
    hide Apply, Replay;
    ReplayNothing(db);
    if CloseSteps(db, no, call) != [] {
      assert CloseSteps(db, no, call) == [Close(no)];
      ReplayOne(db, Close(no));
      CloseWritten(db, no);
    }
  }

  // ---- What is told ------------------------------------------------------------------------

  /** A success is told, or refused: it may not name another trade than the payment or than it names already. */
  lemma QuestionAnswered(db: Db, no: string, call: Call)
    requires Reachable(db) && no in db.payments && call.others == []
    ensures var p, r, t := db.payments[no], QueryAnswer(db, no, call), Replay(db, QuerySteps(db, no, call));
            && no in t.payments
            && match call.answer
               case Unanswered => r == Err(ChannelFailed)
               case Answered(status, tradeNo, _) =>
                 if status == Success && p.channel == Alipay then
                   r == if t.payments[no].status == Success
                           && (p.status == Success && p.tradeNo.Some? && tradeNo.Some? ==> p.tradeNo == tradeNo)
                        then Ok(Success) else Err(ServiceError.Refused)
                 else r == Ok(t.payments[no].status)
  {
    hide Apply, Reachable, Inv, Untaken, QuerySteps, Replay, TakesSuccess;
    QuestionLands(db, no, call);
    ReplayNothing(db);
    ReachableInv(db);
    PaymentHasOrder(db, no);
    if call.answer.Answered? && call.answer.status == Success && db.payments[no].channel == Alipay {
      SuccessTold(db, no, call.answer.tradeNo, call.answer.paidAt);
      OwnTradeUntaken(db, no);
      NoTradeUntaken(db, no);
    }
  }

  lemma OwnTradeUntaken(db: Db, no: string)
    requires Reachable(db) && no in db.payments
    ensures Untaken(db.payments, no, db.payments[no].tradeNo)
  {
    hide Reachable, Billing;
    ReachableBills(db);
    BillsApart(db);
  }

  lemma NoTradeUntaken(db: Db, no: string)
    ensures Untaken(db.payments, no, None)
  {
  }

  /** A success is refused for a trade number in conflict with the payment's own, or one that another payment has. */
  lemma SuccessTold(db: Db, no: string, tradeNo: Option<string>, paidAt: int)
    requires no in db.payments && db.payments[no].orderNo in db.orders && db.payments[no].channel == Alipay
    ensures var p := db.payments[no];
            TakesSuccess(db, no, tradeNo, paidAt)
            <==> if p.status == Success then p.tradeNo.None? || tradeNo.None? || p.tradeNo == tradeNo
                 else Untaken(db.payments, no, tradeNo)
  {
  }

  lemma ClosingAnswered(db: Db, no: string, call: Call)
    requires no in db.payments && call.meanwhile == []
    ensures var status, r := db.payments[no].status, CloseAnswer(db, no, call);
            if status in {Success, PaymentStatus.Closed} then r == Ok(status)
            else if status == Failed then r == Err(NotClosable)
            else r == match call.closes case None => Err(ChannelFailed)
                      case Some(confirmed) => Ok(if confirmed then PaymentStatus.Closed else status)
  {
    hide Apply, Replay, CloseSteps;
    ClosingLands(db, no, call);
  }

  lemma RefundQuestionAnswered(db: Db, no: string, answer: RefundAnswer, random: real)
    requires Inv(db) && no in db.refunds
    ensures var r, t := RefundQueryAnswer(db, no, [], answer, random),
                        Replay(db, RefundQuerySteps(db, no, [], answer, random));
            no in t.refunds && r == if answer.RefundAnswered? then Ok(t.refunds[no].status) else Err(ChannelFailed)
  {
    hide Inv, Apply, Replay, AskedRefund, RefundReply;
    RefundQuestionLands(db, no, answer, random);
    ReplayNothing(db);
    assert RefundQuerySteps(db, no, [], answer, random)
           == RefundReply(no, db.refunds[no], OverAlipay(db, RefundRecord(no)), answer, random);
  }
}
