/**
 What each service does to the tables: the transactions it takes, in order and with everything that happens in
 between, and what it answers. A service reads, calls a channel and writes in several transactions; the answers of
 channels and the steps of others are inputs.
 */
module ServiceSteps {
  import opened Wrappers
  import opened StateMachine
  import opened RecoveryPolicy
  import opened Rows
  import opened PaymentSteps
  import opened RefundSteps
  import opened Steps
  import opened BillMatching
  import Scheduling

  /** What a channel answers to a query: nothing usable, or a status. */
  datatype Answer = Unanswered | Answered(status: PaymentStatus, tradeNo: Option<string>, paidAt: int)

  datatype RefundAnswer = RefundUncertain | RefundRejected | RefundAnswered(status: RefundStatus)

  datatype ServiceError = NotFound | NotClosable | ChannelFailed | Refused | CloseUnconfirmed | StillOpen
    | StateConflict

  /**
   What a channel answers about one payment, and what others do: while it is asked, before the payment is closed, while
   the channel closes it, and before the order of a paid one is released.
   */
  datatype Call = Call(
    answer: Answer, random: real, others: seq<Step>, between: seq<Step>,
    closes: Option<bool>, meanwhile: seq<Step>, releasing: seq<Step>)

  const NO_CALL := Call(Unanswered, 0.0, [], [], None, [], [])

  function CallAt(calls: seq<Call>, i: nat): Call {
    if i < |calls| then calls[i] else NO_CALL
  }

  // ---- Creating payments -------------------------------------------------------------------

  /** What a channel answers when a payment is created there; success is not among the answers. */
  datatype CreateAnswer = CreateUncertain | CreateRejected
    | Created(status: PaymentStatus, channelOrderNo: Option<string>)

  function CreateObservation(no: string, answer: CreateAnswer, random: real): Step {
    match answer
    case CreateUncertain => Observe(no, Unknown, 0, random, None)
    case CreateRejected => Observe(no, Failed, 0, random, None)
    case Created(status, channelOrderNo) => Observe(no, status, 0, random, channelOrderNo)
  }

  /**
   `createPayment`: only a new payment is sent to the channel, and the answer is checked against the row as it then
   stands.
   */
  function PaymentCreationSteps(db: Db, req: PaymentRequest, others: seq<Step>, answer: CreateAnswer,
                                random: real): seq<Step> {
    [CreatePayment(req)] + if NewPayment(db, req).Some? then others + [CreateObservation(req.paymentNo, answer, random)]
      else []
  }

  // ---- Payments ----------------------------------------------------------------------------

  predicate AnswersSuccess(payment: Payment, answer: Answer) {
    answer.Answered? && answer.status == Success && payment.channel == Alipay
  }

  /** The answer is news that the payment's status allows. */
  predicate AnswersNews(payment: Payment, answer: Answer) {
    && answer.Answered? && !AnswersSuccess(payment, answer)
    && payment.status != answer.status && payment.status != Success
    && CanPaymentTransition(payment.status, answer.status)
  }

  predicate Forgotten(channel: Channel, recoverable: bool, nextQueryAt: Option<int>, attempts: nat) {
    channel == Alipay && recoverable && nextQueryAt.None? && attempts < RECOVERY_MAX_ATTEMPTS
  }

  /** What a query writes about the payment it read before it asked. */
  function QueryWrites(no: string, payment: Payment, call: Call): seq<Step> {
    if call.answer.Unanswered? then []
    else if AnswersSuccess(payment, call.answer) then [QuerySuccess(no, call.answer.tradeNo, call.answer.paidAt)]
    else if AnswersNews(payment, call.answer)
         then [Observe(no, call.answer.status, payment.attempts, call.random, None)]
    else if Forgotten(payment.channel, IsRecoverablePayment(payment.status), payment.nextQueryAt, payment.attempts) then
      [Reschedule(PaymentRecord(no))]
    else []
  }

  /** `queryPayment`. */
  function QuerySteps(db: Db, no: string, call: Call): seq<Step> {
    if no !in db.payments then [] else call.others + QueryWrites(no, db.payments[no], call)
  }

  /** The core takes a success answered for the payment, or took it before. */
  predicate TakesSuccess(db: Db, no: string, tradeNo: Option<string>, paidAt: int) {
    var report := QueryReport(db, no, tradeNo, paidAt);
    report.Some? && !JudgeSuccess(db, report.value).Refused?
  }

  ghost function QueryAnswer(db: Db, no: string, call: Call): Result<PaymentStatus, ServiceError> {
    if no !in db.payments then Err(NotFound)
    else if call.answer.Unanswered? then Err(ChannelFailed)
    else
      var payment, t := db.payments[no], Replay(db, QuerySteps(db, no, call));
      if AnswersSuccess(payment, call.answer) then
        if TakesSuccess(Replay(db, call.others), no, call.answer.tradeNo, call.answer.paidAt) then Ok(Success)
        else Err(ServiceError.Refused)
      else if AnswersNews(payment, call.answer) then
        if no in t.payments then Ok(t.payments[no].status) else Err(NotFound)
      else Ok(payment.status)
  }

  /** Whether a payment is still to be closed at its channel. */
  predicate AsksToClose(db: Db, no: string) {
    no in db.payments && IsActive(db.payments[no].status)
  }

  /** `closePayment`. */
  function CloseSteps(db: Db, no: string, call: Call): seq<Step> {
    if !AsksToClose(db, no) then [] else call.meanwhile + if call.closes == Some(true) then [Close(no)] else []
  }

  ghost function CloseAnswer(db: Db, no: string, call: Call): Result<PaymentStatus, ServiceError> {
    if no !in db.payments then Err(NotFound)
    else
      var status := db.payments[no].status;
      if status == Success || status == Closed then Ok(status)
      else if !IsActive(status) then Err(NotClosable)
      else
        match call.closes
        case None => Err(ChannelFailed)
        case Some(false) => Ok(status)
        case Some(true) =>
          var t := Replay(db, CloseSteps(db, no, call));
          if no !in t.payments then Err(NotFound)
          else if t.payments[no].status == Success || t.payments[no].status == Closed then Ok(t.payments[no].status)
          else Err(NotClosable)
  }

  // ---- Expiration --------------------------------------------------------------------------

  datatype Expiry = Expired | Paid | Skipped

  /** What is done about one active payment: a payment over Alipay is asked about first, then it is closed. */
  ghost function SettleSteps(db: Db, no: string, channel: Channel, call: Call): seq<Step> {
    if channel != Alipay then CloseSteps(db, no, call)
    else
      var asked := QuerySteps(db, no, call);
      if QueryAnswer(db, no, call).Err? || QueryAnswer(db, no, call).value == Success then asked
      else asked + call.between + CloseSteps(Replay(db, asked + call.between), no, call)
  }

  /** Whether the order turned out to be paid. */
  ghost function SettleAnswer(db: Db, no: string, channel: Channel, call: Call): Result<bool, ServiceError> {
    if channel != Alipay then Unpaid(CloseAnswer(db, no, call))
    else
      match QueryAnswer(db, no, call)
      case Err(e) => Err(e)
      case Ok(status) => if status == Success then Ok(true)
                         else Unpaid(CloseAnswer(Replay(db, QuerySteps(db, no, call) + call.between), no, call))
  }

  function Unpaid(closed: Result<PaymentStatus, ServiceError>): Result<bool, ServiceError> {
    match closed
    case Err(e) => Err(e)
    case Ok(status) => if status == Success then Ok(true) else if status == Closed then Ok(false)
                       else Err(CloseUnconfirmed)
  }

  /** What the closing transaction tells. */
  function ClosingAnswer(outcome: CloseOutcome): Result<Expiry, ServiceError> {
    match outcome
    case OrderNowClosed => Ok(Expired)
    case OrderFoundPaid => Ok(Paid)
    case OrderSkipped => Ok(Skipped)
    case SuccessConflict => Err(StateConflict)
    case StillActive => Err(StillOpen)
  }

  /**
   What others do around one expiration: before the claim, before the order is read, between reading the order and
   reading its payments, before it is closed and before a failure is written, with the calls for its payments.
   */
  datatype Plan = Plan(
    claiming: seq<Step>, reading: seq<Step>, listing: seq<Step>, calls: seq<Call>, closing: seq<Step>,
      failing: seq<Step>)

  /** `expireOrder` from the payment read at place `i` on. */
  ghost function ExpireSteps(db: Db, orderNo: string, list: seq<(string, Payment)>, plan: Plan, i: nat): seq<Step>
    decreases |list| - i
  {
    if i >= |list| then plan.closing + [CloseOrder(orderNo)]
    else
      var no, payment := list[i].0, list[i].1;
      if payment.status == Success then []
      else if !IsActive(payment.status) then ExpireSteps(db, orderNo, list, plan, i + 1)
      else
        var steps, paid := SettleSteps(db, no, payment.channel, CallAt(plan.calls, i)),
                           SettleAnswer(db, no, payment.channel, CallAt(plan.calls, i));
        if paid.Err? then steps
        else if paid.value then steps + CallAt(plan.calls, i).releasing + [ReleaseExpiration(no)]
        else steps + ExpireSteps(Replay(db, steps), orderNo, list, plan, i + 1)
  }

  ghost function ExpireAnswer(db: Db, orderNo: string, list: seq<(string, Payment)>, plan: Plan,
                              i: nat): Result<Expiry, ServiceError>
    decreases |list| - i
  {
    if i >= |list| then
      var t := Replay(db, plan.closing);
      if orderNo in t.orders then ClosingAnswer(JudgeClose(t, orderNo)) else Err(NotFound)
    else
      var no, payment := list[i].0, list[i].1;
      if payment.status == Success then Err(StateConflict)
      else if !IsActive(payment.status) then ExpireAnswer(db, orderNo, list, plan, i + 1)
      else
        var steps, paid := SettleSteps(db, no, payment.channel, CallAt(plan.calls, i)),
                           SettleAnswer(db, no, payment.channel, CallAt(plan.calls, i));
        if paid.Err? then Err(paid.error)
        else if paid.value then Ok(Paid)
        else ExpireAnswer(Replay(db, steps), orderNo, list, plan, i + 1)
  }

  /** One more payment looked at: passed over, or settled and then the rest. */
  lemma ExpireUnfolds(db: Db, orderNo: string, list: seq<(string, Payment)>, plan: Plan, i: nat)
    requires i < |list| && list[i].1.status != Success
    ensures !IsActive(list[i].1.status) ==>
              && ExpireSteps(db, orderNo, list, plan, i) == ExpireSteps(db, orderNo, list, plan, i + 1)
              && ExpireAnswer(db, orderNo, list, plan, i) == ExpireAnswer(db, orderNo, list, plan, i + 1)
    ensures IsActive(list[i].1.status) ==>
              var channel, call := list[i].1.channel, CallAt(plan.calls, i);
              var steps, paid := SettleSteps(db, list[i].0, channel, call), SettleAnswer(db, list[i].0, channel, call);
              && ExpireSteps(db, orderNo, list, plan, i)
                 == steps + AfterSettling(Replay(db, steps), paid, list, plan, orderNo, list[i].0, i)
              && ExpireAnswer(db, orderNo, list, plan, i)
                 == AnswerAfterSettling(Replay(db, steps), paid, list, plan, orderNo, i)
  {
    hide Replay, SettleSteps, SettleAnswer;
  }

  /** A payment read as successful stops the expiration. */
  lemma ExpireConflicts(db: Db, orderNo: string, list: seq<(string, Payment)>, plan: Plan, i: nat)
    requires i < |list| && list[i].1.status == Success
    ensures ExpireSteps(db, orderNo, list, plan, i) == []
    ensures ExpireAnswer(db, orderNo, list, plan, i) == Err(StateConflict)
  {
  }

  /** Behind the last payment the order is closed. */
  lemma ExpireCloses(db: Db, orderNo: string, list: seq<(string, Payment)>, plan: Plan)
    requires orderNo in Replay(db, plan.closing).orders
    ensures ExpireSteps(db, orderNo, list, plan, |list|) == plan.closing + [CloseOrder(orderNo)]
    ensures ExpireAnswer(db, orderNo, list, plan, |list|)
            == ClosingAnswer(JudgeClose(Replay(db, plan.closing), orderNo))
  {
  }

  /** What follows once a payment is settled. */
  ghost function AfterSettling(db: Db, paid: Result<bool, ServiceError>, list: seq<(string, Payment)>, plan: Plan,
                               orderNo: string, no: string, i: nat): seq<Step> {
    if paid.Err? then [] else if paid.value then CallAt(plan.calls, i).releasing + [ReleaseExpiration(no)]
      else ExpireSteps(db, orderNo, list, plan, i + 1)
  }

  ghost function AnswerAfterSettling(db: Db, paid: Result<bool, ServiceError>, list: seq<(string, Payment)>, plan: Plan,
                                     orderNo: string, i: nat)
    : Result<Expiry, ServiceError>
  {
    if paid.Err? then Err(paid.error) else if paid.value then Ok(Paid) else ExpireAnswer(db, orderNo, list, plan, i + 1)
  }

  /** The payments of an order as they stand, in some order. */
  predicate ListsPayments(db: Db, orderNo: string, list: seq<(string, Payment)>) {
    && (forall i | 0 <= i < |list| ::
        list[i].0 in db.payments && list[i].1 == db.payments[list[i].0] && list[i].1.orderNo == orderNo)
    && (forall i, j | 0 <= i < j < |list| :: list[i].0 != list[j].0)
    && (forall no | no in db.payments && db.payments[no].orderNo == orderNo :: (no, db.payments[no]) in list)
  }

  /** The transactions and the answer of `expireOrder`. */
  ghost predicate Expires(db: Db, orderNo: string, plan: Plan, steps: seq<Step>, r: Result<Expiry, ServiceError>) {
    if orderNo !in db.orders || !IsOpen(db.orders[orderNo].status) then steps == [] && r == Ok(Skipped)
    else
      var read := Replay(db, plan.listing);
      exists list :: && ListsPayments(read, orderNo, list)
                     && steps == plan.listing + ExpireSteps(read, orderNo, list, plan, 0)
                     && r == ExpireAnswer(read, orderNo, list, plan, 0)
  }

  /** The first `limit` of the due orders by the time they are due, or all, with the attempts read. */
  ghost predicate DueOrders(db: Db, limit: nat, due: seq<(string, nat)>) {
    && |due| <= limit
    && (forall i | 0 <= i < |due| :: IsDueOrder(db, due[i].0) && due[i].1 == db.orders[due[i].0].expirationAttempts)
    && (forall i, j | 0 <= i < j < |due| :: due[i].0 != due[j].0 && DueAt(db, due[i].0) <= DueAt(db, due[j].0))
    && (forall no | IsDueOrder(db, no) && (no, db.orders[no].expirationAttempts) !in due ::
          |due| == limit && forall i | 0 <= i < |due| :: DueAt(db, due[i].0) <= DueAt(db, no))
  }

  function DueAt(db: Db, no: string): int {
    if no in db.orders && db.orders[no].nextAttemptAt.Some? then db.orders[no].nextAttemptAt.value else 0
  }

  predicate IsDueOrder(db: Db, no: string) {
    && no in db.orders && !db.orders[no].deleted && db.orders[no].expiresAt <= db.now
    && ExpirationClaimable(db, no, db.orders[no].expirationAttempts)
  }

  /** The worker finds every open order that is not deleted, by waiting alone. */
  lemma OpenOrderBecomesDue(db: Db, orderNo: string) returns (wait: nat)
    requires Reachable(db) && orderNo in db.orders && IsOpen(db.orders[orderNo].status) && !db.orders[orderNo].deleted
    ensures IsDueOrder(Apply(db, Tick(wait)), orderNo)
  {
    hide Reachable;
    Scheduling.NothingFallsOff(db);
    wait := Scheduling.OpenOrderComesUp(db, orderNo);
  }

  datatype ExpirationSummary = ExpirationSummary(claimed: nat, closed: nat, paid: nat, skipped: nat, failed: nat)

  /** What became of one due order: somebody else claimed it, or what its expiration answered. */
  type Round = Option<Result<Expiry, ServiceError>>

  /** A claimed order is expired; a failed attempt is put back on the schedule. */
  ghost predicate ClaimedRound(db: Db, orderNo: string, seen: nat, plan: Plan, steps: seq<Step>,
                               outcome: Result<Expiry, ServiceError>) {
    exists done :: && Expires(Replay(db, plan.reading), orderNo, plan, done, outcome)
                   && steps == plan.reading + done + if outcome.Err?
                      then plan.failing + [ExpirationFailed(orderNo, seen + 1)] else []
  }

  ghost predicate ExpirationRound(db: Db, orderNo: string, seen: nat, plan: Plan, steps: seq<Step>, round: Round) {
    var claimed := plan.claiming + [ClaimExpiration(orderNo, seen)];
    if !ExpirationClaimable(Replay(db, plan.claiming), orderNo, seen) then steps == claimed && round == None
    else round.Some? && exists rest ::
           steps == claimed + rest && ClaimedRound(Replay(db, claimed), orderNo, seen, plan, rest, round.value)
  }

  /** How a round is counted. */
  function Counted(s: ExpirationSummary, round: Round): ExpirationSummary {
    match round
    case None => s
    case Some(Ok(Expired)) => s.(claimed := s.claimed + 1, closed := s.closed + 1)
    case Some(Ok(Paid)) => s.(claimed := s.claimed + 1, paid := s.paid + 1)
    case Some(Ok(Skipped)) => s.(claimed := s.claimed + 1, skipped := s.skipped + 1)
    case Some(Err(_)) => s.(claimed := s.claimed + 1, failed := s.failed + 1)
  }

  /** A claim adds one to its count and one to the count of its outcome. */
  lemma CountedOnce(s: ExpirationSummary, round: Round)
    ensures var t := Counted(s, round);
            && t.claimed == s.claimed + (if round.Some? then 1 else 0)
            && t.closed == s.closed + (if round == Some(Ok(Expired)) then 1 else 0)
            && t.paid == s.paid + (if round == Some(Ok(Paid)) then 1 else 0)
            && t.skipped == s.skipped + (if round == Some(Ok(Skipped)) then 1 else 0)
            && t.failed == s.failed + (if round.Some? && round.value.Err? then 1 else 0)
            && t.closed + t.paid + t.skipped + t.failed
               == s.closed + s.paid + s.skipped + s.failed + (if round.Some? then 1 else 0)
  {
  }

  /** What the worker finds due: open orders past their expiry, their time come and their lock, if any, lapsed. */
  lemma DueOrdersAre(db: Db, limit: nat, due: seq<(string, nat)>)
    requires DueOrders(db, limit, due)
    ensures forall i | 0 <= i < |due| ::
              && due[i].0 in db.orders
              && var o := db.orders[due[i].0];
                 && o.status in {OrderCreated, OrderPending} && !o.deleted && o.expiresAt <= db.now
                 && o.nextAttemptAt.Some? && o.nextAttemptAt.value <= db.now
                 && (o.lockedUntil.Some? ==> o.lockedUntil.value < db.now) && due[i].1 == o.expirationAttempts
    ensures |due| < limit ==>
              forall no | no in db.orders && db.orders[no].status in {OrderCreated, OrderPending}
                          && !db.orders[no].deleted && db.orders[no].expiresAt <= db.now
                          && db.orders[no].nextAttemptAt.Some? && db.orders[no].nextAttemptAt.value <= db.now
                          && (db.orders[no].lockedUntil.Some? ==> db.orders[no].lockedUntil.value < db.now) ::
                (no, db.orders[no].expirationAttempts) in due
  {
    forall no | no in db.orders && IsDueOrder(db, no) && |due| < limit
      ensures (no, db.orders[no].expirationAttempts) in due
    {
    }
  }

  function PlanAt(plans: seq<Plan>, i: nat): Plan {
    if i < |plans| then plans[i] else Plan([], [], [], [], [], [])
  }

  /** The rounds over the orders found due, one after the other. */
  ghost predicate ExpirationRun(db: Db, due: seq<(string, nat)>, plans: seq<Plan>, steps: seq<Step>,
                                s: ExpirationSummary)
    decreases |due|
  {
    if due == [] then steps == [] && s == ExpirationSummary(0, 0, 0, 0, 0)
    else
      var last := |due| - 1;
      exists before, after, earlier, round ::
        && ExpirationRun(db, due[..last], plans, before, earlier)
        && ExpirationRound(Replay(db, before), due[last].0, due[last].1, PlanAt(plans, last), after, round)
        && steps == before + after && s == Counted(earlier, round)
  }

  lemma NoRound(db: Db, due: seq<(string, nat)>, plans: seq<Plan>)
    ensures ExpirationRun(db, due[..0], plans, [], ExpirationSummary(0, 0, 0, 0, 0))
  {
  }

  /** One more round makes a longer run. */
  lemma RunGrows(db: Db, due: seq<(string, nat)>, plans: seq<Plan>, i: nat, done: seq<Step>, s: ExpirationSummary,
                 after: seq<Step>, round: Round)
    requires i < |due| && ExpirationRun(db, due[..i], plans, done, s)
    requires ExpirationRound(Replay(db, done), due[i].0, due[i].1, PlanAt(plans, i), after, round)
    ensures ExpirationRun(db, due[..i + 1], plans, done + after, Counted(s, round))
  {
    hide Replay, ExpirationRound, Counted;
    assert due[..i + 1][..i] == due[..i];
  }

  // ---- Refunds -----------------------------------------------------------------------------

  predicate RefundNews(refund: Refund, status: RefundStatus) {
    status != RefundSuccess && refund.status != status && refund.status != RefundSuccess
      && CanRefundTransition(refund.status, status)
  }

  /** What `queryRefund` writes, judged by the refund as it was read before the channel was asked. */
  function RefundReply(no: string, refund: Refund, overAlipay: bool, answer: RefundAnswer, random: real): seq<Step> {
    if !answer.RefundAnswered? then []
    else if answer.status == RefundSuccess then [RefundSucceeded(no)]
    else if RefundNews(refund, answer.status)
    then [RefundObserved(no, Seen(refund.status, refund.attempts), answer.status, random)]
    else if overAlipay && Forgotten(Alipay, IsRecoverableRefund(refund.status), refund.nextQueryAt, refund.attempts)
    then [Reschedule(RefundRecord(no))]
    else []
  }

  /** `queryRefund`, with what others do between its read and its write. */
  function RefundQuerySteps(db: Db, no: string, others: seq<Step>, answer: RefundAnswer, random: real): seq<Step> {
    if no !in db.refunds then []
    else others + RefundReply(no, db.refunds[no], OverAlipay(db, RefundRecord(no)), answer, random)
  }

  ghost function RefundQueryAnswer(db: Db, no: string, others: seq<Step>, answer: RefundAnswer,
                                   random: real): Result<RefundStatus, ServiceError> {
    if no !in db.refunds then Err(NotFound)
    else if !answer.RefundAnswered? then Err(ChannelFailed)
    else
      var refund, t := db.refunds[no], Replay(db, RefundQuerySteps(db, no, others, answer, random));
      if RefundReply(no, refund, OverAlipay(db, RefundRecord(no)), answer, random) == [] then Ok(refund.status)
      else if no in t.refunds then Ok(t.refunds[no].status) else Err(NotFound)
  }

  /**
   Whether a new refund can take the answer. If not, the error is raised behind the `catch` of `createRefund`, whose
   last call is not awaited, so nothing is written.
   */
  predicate TakesAnswer(answer: RefundAnswer) {
    answer.RefundAnswered? ==> CanRefundTransition(JUST_RESERVED.status, answer.status)
  }

  /** What the channel's answer to a new refund makes of it. */
  function DispatchStep(no: string, answer: RefundAnswer, random: real): Step
    requires TakesAnswer(answer)
  {
    match answer
    case RefundUncertain => RefundObserved(no, JUST_RESERVED, RefundUnknown, random)
    case RefundRejected => RefundObserved(no, JUST_RESERVED, RefundFailed, random)
    case RefundAnswered(status) =>
      if status == RefundSuccess then RefundSucceeded(no)
      else RefundObserved(no, JUST_RESERVED, status, random)
  }

  /** `createRefund`: room is reserved first; only a new refund is sent to the channel, and others go on meanwhile. */
  ghost function RefundCreationSteps(db: Db, req: RefundRequest, others: seq<Step>, answer: RefundAnswer,
                                     random: real): seq<Step> {
    [CreateRefund(req)]
    + if NewRefund(db, req).None? then []
      else others + if TakesAnswer(answer) then [DispatchStep(req.refundNo, answer, random)] else []
  }

  // ---- Recovery ----------------------------------------------------------------------------

  datatype Kind = Payments | Refunds

  /** A payment, or a refund, that the recovery worker may claim. */
  predicate IsDueRecord(db: Db, kind: Kind, record: Record) {
    && (if kind == Payments then record.PaymentRecord? else record.RefundRecord?)
    && RecoveryClaimable(db, record, Attempts(db, record))
  }

  /** The worker finds every undecided payment or refund with attempts left, by waiting alone. */
  lemma UndecidedRecordBecomesDue(db: Db, kind: Kind, record: Record) returns (wait: nat)
    requires Reachable(db) && (if kind == Payments then record.PaymentRecord? else record.RefundRecord?)
    requires OverAlipay(db, record) && Recoverable(db, record) && Attempts(db, record) < RECOVERY_MAX_ATTEMPTS
    ensures IsDueRecord(Apply(db, Tick(wait)), kind, record)
  {
    hide Reachable;
    Scheduling.NothingFallsOff(db);
    wait := Scheduling.UndecidedRecordComesUp(db, record);
  }

  /** The first `limit` of the due records by the time of their next query, or all, with the attempts read. */
  ghost predicate DueRecords(db: Db, kind: Kind, limit: nat, due: seq<(Record, nat)>) {
    && |due| <= limit
    && (forall i | 0 <= i < |due| :: IsDueRecord(db, kind, due[i].0) && due[i].1 == Attempts(db, due[i].0))
    && (forall i, j | 0 <= i < j < |due| :: due[i].0 != due[j].0 && QueryAt(db, due[i].0) <= QueryAt(db, due[j].0))
    && (forall record | IsDueRecord(db, kind, record) && (record, Attempts(db, record)) !in due ::
          |due| == limit && forall i | 0 <= i < |due| :: QueryAt(db, due[i].0) <= QueryAt(db, record))
  }

  /** The due record with the earliest next query besides those taken, if there is one. */
  ghost predicate EarliestDue(db: Db, kind: Kind, taken: seq<Record>, found: Option<Record>) {
    match found
    case None => forall record | IsDueRecord(db, kind, record) :: record in taken
    case Some(first) =>
      && IsDueRecord(db, kind, first) && first !in taken
      && forall record | IsDueRecord(db, kind, record) && record !in taken :: QueryAt(db, first) <= QueryAt(db, record)
  }

  function QueryAt(db: Db, record: Record): int {
    if NextQueryAt(db, record).Some? then NextQueryAt(db, record).value else 0
  }

  datatype RecoverySummary = RecoverySummary(claimed: nat, resolved: nat, failed: nat, exhausted: nat)

  /** Asking the channel about a claimed record. */
  function AskSteps(db: Db, record: Record, call: Call, answer: RefundAnswer): seq<Step> {
    match record
    case PaymentRecord(no) => QuerySteps(db, no, call)
    case RefundRecord(no) => RefundQuerySteps(db, no, call.others, answer, call.random)
    case _ => []
  }

  /** Whether the answer settles the record. */
  ghost function AskAnswer(db: Db, record: Record, call: Call, answer: RefundAnswer): Result<bool, ServiceError> {
    match record
    case PaymentRecord(no) =>
      (match QueryAnswer(db, no, call)
       case Err(e) => Err(e)
       case Ok(status) => Ok(!IsRecoverablePayment(status)))
    case RefundRecord(no) =>
      (match RefundQueryAnswer(db, no, call.others, answer, call.random)
       case Err(e) => Err(e)
       case Ok(status) => Ok(!IsRecoverableRefund(status)))
    case _ => Err(NotFound)
  }

  /** How a claimed attempt ends: after a failed query the next one is scheduled at `retryAt`. */
  function EndStep(record: Record, attempt: nat, retryAt: int, settled: Result<bool, ServiceError>): Step {
    if settled.Err? then RecoveryFailed(record, attempt, retryAt) else RecoveryDone(record, attempt)
  }

  /** Whether the end of an attempt hands the record over to a person. */
  predicate EndHandsOver(db: Db, record: Record, attempt: nat, settled: Result<bool, ServiceError>) {
    && attempt >= RECOVERY_MAX_ATTEMPTS && Recoverable(db, record)
    && (settled.Err? || (!settled.value && NextQueryAt(db, record).Some?))
  }

  /**
   One attempt: what others do before the claim, before the record is read and before the attempt is ended, and what the
   channel answers.
   */
  datatype Attempt = Attempt(claiming: seq<Step>, reading: seq<Step>, call: Call, answer: RefundAnswer,
                             ending: seq<Step>)

  function AttemptAt(attempts: seq<Attempt>, i: nat): Attempt {
    if i < |attempts| then attempts[i] else Attempt([], [], NO_CALL, RefundUncertain, [])
  }

  /** An attempt already claimed, in the tables as the claim left them: read, asked about, ended. */
  ghost function AttemptSteps(db: Db, record: Record, attempt: nat, retryAt: int, a: Attempt): seq<Step> {
    var mine := Replay(db, a.reading);
    a.reading + AskSteps(mine, record, a.call, a.answer) + a.ending
    + [EndStep(record, attempt, retryAt, AskAnswer(mine, record, a.call, a.answer))]
  }

  ghost function AttemptCounted(db: Db, s: RecoverySummary, record: Record, attempt: nat, a: Attempt): RecoverySummary {
    var mine := Replay(db, a.reading);
    var settled := AskAnswer(mine, record, a.call, a.answer);
    var ended := Replay(mine, AskSteps(mine, record, a.call, a.answer) + a.ending);
    s.(claimed := s.claimed + 1,
       resolved := s.resolved + (if settled == Ok(true) then 1 else 0),
       failed := s.failed + (if settled.Err? then 1 else 0),
       exhausted := s.exhausted + (if EndHandsOver(ended, record, attempt, settled) then 1 else 0))
  }

  function ClaimSteps(record: Record, seen: nat, a: Attempt): seq<Step> {
    a.claiming + [ClaimRecovery(record, seen, a.call.random)]
  }

  function RetryAt(now: int, seen: nat, a: Attempt): int {
    now + RecoveryDelaySeconds(seen + 1, a.call.random)
  }

  /** One record found due: claimed, asked about, and its attempt ended. */
  ghost function RecoveryRound(db: Db, record: Record, seen: nat, a: Attempt): seq<Step> {
    var due := Replay(db, a.claiming);
    ClaimSteps(record, seen, a)
    + if RecoveryClaimable(due, record, seen)
      then AttemptSteps(Replay(db, ClaimSteps(record, seen, a)), record, seen + 1, RetryAt(due.now, seen, a), a) else []
  }

  /** How the round is counted. */
  ghost function RecoveryCounted(db: Db, s: RecoverySummary, record: Record, seen: nat, a: Attempt): RecoverySummary {
    if RecoveryClaimable(Replay(db, a.claiming), record, seen)
    then AttemptCounted(Replay(db, ClaimSteps(record, seen, a)), s, record, seen + 1, a) else s
  }

  /** The rounds over the first `n` records found due. */
  ghost function RecoveryRun(db: Db, due: seq<(Record, nat)>, attempts: seq<Attempt>, n: nat): (seq<Step>,
      RecoverySummary)
    requires n <= |due|
  {
    if n == 0 then ([], RecoverySummary(0, 0, 0, 0))
    else
      var (before, s) := RecoveryRun(db, due, attempts, n - 1);
      var now, record, seen := Replay(db, before), due[n - 1].0, due[n - 1].1;
      (before + RecoveryRound(now, record, seen, AttemptAt(attempts, n - 1)),
       RecoveryCounted(now, s, record, seen, AttemptAt(attempts, n - 1)))
  }

  // ---- Bill lines --------------------------------------------------------------------------

  /** What became of a line: the payment it is matched to, not matched, or an error that leaves its receipt locked. */
  datatype LineOutcome = MatchedTo(paymentNo: string) | NotMatched | Thrown

  /**
   What others do before a line is taken in, before it is claimed, before the lookup, between lookup and success, and
   before the receipt is settled.
   */
  datatype Breaks = Breaks(first: seq<Step>, claiming: seq<Step>, before: seq<Step>, between: seq<Step>,
                           settling: seq<Step>)

  /** `markPaymentSucceeded` for a line, then the settling transaction; a refused success marks the receipt. */
  ghost function LineSettleSteps(db: Db, id: ReceiptId, no: string, flow: Flow, settling: seq<Step>): seq<Step> {
    var report := ReceiptReport(db, id.accountId, no, flow);
    var success := ReceiptSuccess(id.accountId, no, flow);
    if report.None? then []
    else
      match JudgeSuccess(db, report.value)
      case Refused(e) => [success, if e == TradeNoTaken then DeferReceipt(id) else Mismatch(id, None, false, true)]
      case _ =>
        [success] + settling + if id in Replay(Apply(db, success), settling).receipts then [MatchReceipt(id, no)]
          else []
  }

  /** The checks on the payment found, its success, and the settling of the receipt. */
  ghost function LinePaySteps(db: Db, id: ReceiptId, no: string, flow: Flow, b: Breaks): seq<Step> {
    if ReceiptReport(db, id.accountId, no, flow).None? then [Mismatch(id, Some(no), false, false)]
    else if db.payments[no].tradeNo.Some? && db.payments[no].tradeNo != Some(flow.tradeNo)
         then [Mismatch(id, Some(no), false, true)]
    else if no !in Replay(db, b.between).payments then b.between + [Mismatch(id, None, false, true)]
    else b.between + LineSettleSteps(Replay(db, b.between), id, no, flow, b.settling)
  }

  /** What a claimed line does, once its lookup answered `c`. */
  ghost function LineSteps(db: Db, id: ReceiptId, flow: Flow, c: Choice, b: Breaks): seq<Step> {
    match c
    case NoPayment => [UnmatchReceipt(id)]
    case Refusal(found, ambiguous, conflict) => [Mismatch(id, found, ambiguous, conflict)]
    case OnePayment(no) => LinePaySteps(db, id, no, flow, b)
  }

  /** What a line answers, branch by branch as its steps. */
  ghost function LineSettleOutcome(db: Db, id: ReceiptId, no: string, flow: Flow, settling: seq<Step>): LineOutcome {
    var report := ReceiptReport(db, id.accountId, no, flow);
    if report.None? then NotMatched
    else
      match JudgeSuccess(db, report.value)
      case Refused(e) => if e == TradeNoTaken then Thrown else NotMatched
      case _ => if id in Replay(Apply(db, ReceiptSuccess(id.accountId, no, flow)), settling).receipts then MatchedTo(no)
                else Thrown
  }

  ghost function LinePayOutcome(db: Db, id: ReceiptId, no: string, flow: Flow, b: Breaks): LineOutcome {
    if ReceiptReport(db, id.accountId, no, flow).None? then NotMatched
    else if db.payments[no].tradeNo.Some? && db.payments[no].tradeNo != Some(flow.tradeNo) then NotMatched
    else if no !in Replay(db, b.between).payments then NotMatched
    else LineSettleOutcome(Replay(db, b.between), id, no, flow, b.settling)
  }

  ghost function LineOutcomeOf(db: Db, id: ReceiptId, flow: Flow, c: Choice, b: Breaks): LineOutcome {
    if c.OnePayment? then LinePayOutcome(db, id, c.paymentNo, flow, b) else NotMatched
  }

  /** The outcome a stored receipt stands for. */
  function StoredOutcomeOf(db: Db, id: ReceiptId): LineOutcome {
    if id in db.receipts && db.receipts[id].status == Matched && db.receipts[id].paymentNo.Some?
      then MatchedTo(db.receipts[id].paymentNo.value)
    else NotMatched
  }

  /** The steps of a line up to its lookup. */
  function LineClaimed(id: ReceiptId, flow: Flow, b: Breaks): seq<Step> {
    LineStored(id, flow, b) + [ClaimReceipt(id)] + b.before
  }

  function LineStored(id: ReceiptId, flow: Flow, b: Breaks): seq<Step> {
    b.first + [InsertReceipt(id.accountId, flow)] + b.claiming
  }

  /** The transactions of `ingestAlipayBillFlow`. */
  ghost predicate Ingests(db: Db, id: ReceiptId, flow: Flow, b: Breaks, steps: seq<Step>, o: LineOutcome) {
    var stored := Replay(db, LineStored(id, flow, b));
    if !ReceiptClaimable(stored, id) then steps == LineStored(id, flow, b) && o == StoredOutcomeOf(stored, id)
    else
      var found := Replay(db, LineClaimed(id, flow, b));
      exists c :: && Locates(found.payments, id.accountId, flow, c)
                  && steps == LineClaimed(id, flow, b) + LineSteps(found, id, flow, c, b)
                  && o == LineOutcomeOf(found, id, flow, c, b)
  }

  /** The transactions of `rematchAlipayBillReceipt` for a receipt read as not matched. */
  ghost predicate Rematches(db: Db, id: ReceiptId, meanwhile: seq<Step>, b: Breaks, steps: seq<Step>, o: LineOutcome)
    requires id in db.receipts
  {
    var reopened := meanwhile + [ReopenReceipt(id)];
    exists taken :: steps == reopened + taken && Ingests(Replay(db, reopened), id, db.receipts[id].flow, b, taken, o)
  }

  /** A bill receipt whose lock ran out while it was being matched. */
  predicate IsStale(db: Db, id: ReceiptId) {
    && id in db.receipts && db.receipts[id].status == Matching
    && db.receipts[id].lockedUntil.Some? && db.receipts[id].lockedUntil.value <= db.now
  }

  /** The first `limit` stale receipts by the time their lock ran out, or all, with their lines. */
  ghost predicate StaleReceipts(db: Db, limit: nat, stale: seq<(ReceiptId, Flow)>) {
    && |stale| <= limit
    && (forall i | 0 <= i < |stale| :: IsStale(db, stale[i].0) && stale[i].1 == db.receipts[stale[i].0].flow)
    && (forall i, j | 0 <= i < j < |stale| ::
        stale[i].0 != stale[j].0 && LockedUntil(db, stale[i].0) <= LockedUntil(db, stale[j].0))
    && (forall id | IsStale(db, id) && (id, db.receipts[id].flow) !in stale ::
          |stale| == limit && forall i | 0 <= i < |stale| :: LockedUntil(db, stale[i].0) <= LockedUntil(db, id))
  }

  /** What is stale are the receipts being matched whose lock ran out, and unless there are too many, all are found. */
  lemma StaleReceiptsAre(db: Db, limit: nat, stale: seq<(ReceiptId, Flow)>)
    requires StaleReceipts(db, limit, stale)
    ensures forall i | 0 <= i < |stale| ::
              && stale[i].0 in db.receipts
              && var r := db.receipts[stale[i].0];
                 r.status == Matching && r.lockedUntil.Some? && r.lockedUntil.value <= db.now && stale[i].1 == r.flow
    ensures |stale| < limit ==>
              forall id | id in db.receipts && db.receipts[id].status == Matching && db.receipts[id].lockedUntil.Some?
                          && db.receipts[id].lockedUntil.value <= db.now ::
                (id, db.receipts[id].flow) in stale
  {
    forall id | IsStale(db, id) && |stale| < limit ensures (id, db.receipts[id].flow) in stale {
    }
  }

  function LockedUntil(db: Db, id: ReceiptId): int {
    if id in db.receipts && db.receipts[id].lockedUntil.Some? then db.receipts[id].lockedUntil.value else 0
  }

  datatype StaleSummary = StaleSummary(found: nat, matched: nat, failed: nat)

  function StaleCounted(s: StaleSummary, o: LineOutcome): StaleSummary {
    s.(matched := s.matched + (if o.MatchedTo? then 1 else 0), failed := s.failed + (if o.Thrown? then 1 else 0))
  }

  /** A line taken in again counts as matched, as failed, or as neither, as it ended. */
  lemma StaleCountedOnce(s: StaleSummary, o: LineOutcome)
    ensures StaleCounted(s, o).found == s.found
    ensures StaleCounted(s, o).matched == s.matched + (if o.MatchedTo? then 1 else 0)
    ensures StaleCounted(s, o).failed == s.failed + (if o == Thrown then 1 else 0)
  {
  }

  function BreaksAt(breaks: seq<Breaks>, i: nat): Breaks {
    if i < |breaks| then breaks[i] else Breaks([], [], [], [], [])
  }

  /** The stale receipts' lines taken in again, one after the other. */
  ghost predicate StaleRun(db: Db, stale: seq<(ReceiptId, Flow)>, breaks: seq<Breaks>, n: nat, steps: seq<Step>,
                           s: StaleSummary)
    requires n <= |stale|
  {
    if n == 0 then steps == [] && s == StaleSummary(|stale|, 0, 0)
    else
      exists before, after, earlier, o ::
        && StaleRun(db, stale, breaks, n - 1, before, earlier)
        && Ingests(Replay(db, before), stale[n - 1].0, stale[n - 1].1, BreaksAt(breaks, n - 1), after, o)
        && steps == before + after && s == StaleCounted(earlier, o)
  }

  lemma NothingStale(db: Db, stale: seq<(ReceiptId, Flow)>, breaks: seq<Breaks>)
    ensures StaleRun(db, stale, breaks, 0, [], StaleSummary(|stale|, 0, 0))
  {
  }

  lemma StaleGrows(db: Db, stale: seq<(ReceiptId, Flow)>, breaks: seq<Breaks>, n: nat, done: seq<Step>, s: StaleSummary,
                   after: seq<Step>, o: LineOutcome)
    requires n < |stale| && StaleRun(db, stale, breaks, n, done, s)
    requires Ingests(Replay(db, done), stale[n].0, stale[n].1, BreaksAt(breaks, n), after, o)
    ensures StaleRun(db, stale, breaks, n + 1, done + after, StaleCounted(s, o))
  {
    hide Replay, Ingests, StaleCounted;
  }
}
