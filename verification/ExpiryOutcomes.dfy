/** What expiring an order ends in when nobody interferes. */
module ExpiryOutcomes {
  import opened Wrappers
  import opened StateMachine
  import opened Rows
  import opened PaymentSteps
  import opened RefundSteps
  import opened Steps
  import opened Shapes
  import opened OneWinner
  import opened ServiceSteps
  import opened SuccessReports
  import opened ChannelAnswers

  /** Nothing happens around the call. */
  predicate QuietCall(call: Call) {
    call.others == call.between == call.meanwhile == call.releasing == []
  }

  predicate Underway(status: PaymentStatus) {
    status in {PaymentStatus.Created, Processing, Unknown}
  }

  /** What asking about the payment makes of its status, successes aside. */
  function StatusHeard(p: Payment, call: Call): PaymentStatus {
    if call.answer.Answered? && call.answer.status != Success && MayBecome(p.status, call.answer.status)
      then call.answer.status else p.status
  }

  /**
   The payment ends closed: over ALIPAY its channel was asked first and did not tell of a success, and unless it is
   closed already by what was heard, its channel confirms the closing.
   */
  predicate EndsClosed(p: Payment, call: Call) {
    var heard := if p.channel == Alipay then StatusHeard(p, call) else p.status;
    && (p.channel == Alipay ==> call.answer.Answered? && call.answer.status != Success)
    && (heard == PaymentStatus.Closed || (Underway(heard) && call.closes == Some(true)))
  }

  /** The channel told of a success. */
  predicate ToldSuccess(p: Payment, call: Call) {
    p.channel == Alipay && call.answer.Answered? && call.answer.status == Success
  }

  /** No payment but this one changed, it stays on its order, and no time passes. */
  ghost predicate OnlyTouches(db: Db, t: Db, no: string) {
    && no in db.payments && t.payments.Keys == db.payments.Keys && t.payments[no].orderNo == db.payments[no].orderNo
    && t.now == db.now
    && (forall other | other in db.payments && other != no :: t.payments[other] == db.payments[other])
  }

  // ---- Asking ------------------------------------------------------------------------------

  lemma NoTimePasses(db: Db, step: Step)
    requires !step.Tick? && !step.DeleteApplication?
    ensures Apply(db, step).now == db.now
  {
    hide Apply, PaymentRow, OrderRow, RefundRow, PaymentKey, OrderKey, RefundKey, ReceiptRow, ReceiptKey, TicketsAfter,
         Reserved;
    StepWrites(db, step);
  }

  /** The order moves with a success alone. */
  lemma QuestionStepTouches(db: Db, step: Step, no: string)
    requires step.QuerySuccess? || step.Observe? || step == Reschedule(PaymentRecord(no))
    requires step.QuerySuccess? || step.Observe? ==> step.no == no
    requires no in db.payments && db.payments[no].status != Success
    ensures OnlyTouches(db, Apply(db, step), no)
    ensures Apply(db, step).payments[no].status != Success ==> Apply(db, step).orders == db.orders
  {
    hide Apply, JudgeSuccess, RefundRow, RefundKey, Frames, RecoveryPolicy.RecoveryDelaySeconds;
    StepWrites(db, step);
    NoTimePasses(db, step);
    if step.QuerySuccess? && ReportOf(db, step).Some? { ReportNamesPayment(db, step); }
  }

  lemma QuestionTouches(db: Db, no: string, call: Call)
    requires no in db.payments && db.payments[no].status != Success && call.others == []
    ensures var t := Replay(db, QuerySteps(db, no, call));
            OnlyTouches(db, t, no) && (t.payments[no].status != Success ==> t.orders == db.orders)
  {
    hide Apply, Replay, OnlyTouches;
    QuestionShape(db, no, call);
    var steps := QueryWrites(no, db.payments[no], call);
    ReplayNothing(db);
    if steps == [] {
      assert OnlyTouches(db, db, no) by { TouchesNothing(db, no); }
    } else {
      ReplayOne(db, steps[0]);
      assert steps == [steps[0]];
      QuestionStepTouches(db, steps[0], no);
    }
  }

  lemma TouchesNothing(db: Db, no: string)
    requires no in db.payments
    ensures OnlyTouches(db, db, no)
  {
  }

  // ---- Closing -----------------------------------------------------------------------------

  lemma ClosingTouches(db: Db, no: string, call: Call)
    requires no in db.payments && call.meanwhile == []
    ensures var t := Replay(db, CloseSteps(db, no, call)); OnlyTouches(db, t, no) && t.orders == db.orders
  {
    hide Apply, Replay;
    ReplayNothing(db);
    ClosingLands(db, no, call);
    if CloseSteps(db, no, call) != [] {
      assert CloseSteps(db, no, call) == [Close(no)];
      ReplayOne(db, Close(no));
      CloseMovesNoOrder(db, no);
    }
  }

  lemma CloseMovesNoOrder(db: Db, no: string)
    ensures Apply(db, Close(no)).orders == db.orders && Apply(db, Close(no)).now == db.now
  {
    hide Apply, PaymentRow, RefundRow;
    StepWrites(db, Close(no));
  }

  // ---- Settling one payment ----------------------------------------------------------------

  /** How settling an active payment ends. */
  ghost predicate SettledAs(db: Db, t: Db, no: string, call: Call, r: Result<bool, ServiceError>) {
    && OnlyTouches(db, t, no)
    && var p := db.payments[no];
       && (r == Ok(false) <==> EndsClosed(p, call))
       && (r == Ok(false) ==> t.payments[no].status == PaymentStatus.Closed && t.orders == db.orders)
       && (r == Ok(true) ==> ToldSuccess(p, call) && t.payments[no].status == Success)
       && (r.Err? ==> t.orders == db.orders && r != Err(StateConflict))
  }

  lemma PlainSettles(db: Db, no: string, call: Call)
    requires no in db.payments && QuietCall(call) && Underway(db.payments[no].status)
    requires db.payments[no].channel != Alipay
    ensures SettledAs(db, Replay(db, SettleSteps(db, no, db.payments[no].channel, call)), no, call,
                      SettleAnswer(db, no, db.payments[no].channel, call))
  {
    hide Apply, Replay, CloseSteps, CloseAnswer;
    ClosingTouches(db, no, call);
    ClosingLands(db, no, call);
    ClosingAnswered(db, no, call);
  }

  /** What asking leaves and answers. */
  lemma AskedFirst(db: Db, no: string, call: Call)
    requires Reachable(db) && no in db.payments && QuietCall(call) && Underway(db.payments[no].status)
    requires db.payments[no].channel == Alipay
    ensures var t, r := Replay(db, QuerySteps(db, no, call)), QueryAnswer(db, no, call);
            && OnlyTouches(db, t, no) && r != Err(StateConflict)
            && (r == Ok(Success) <==> t.payments[no].status == Success)
            && (r == Ok(Success) ==> ToldSuccess(db.payments[no], call))
            && (r != Ok(Success) ==> t.orders == db.orders)
            && (r.Ok? && r.value != Success <==> call.answer.Answered? && call.answer.status != Success)
            && (r.Ok? && r.value != Success ==> t.payments[no].status == StatusHeard(db.payments[no], call))
  {
    hide Apply, Replay, Reachable, QuerySteps, QueryAnswer, Untaken;
    QuestionTouches(db, no, call);
    QuestionLands(db, no, call);
    QuestionAnswered(db, no, call);
  }

  lemma AlipaySettles(db: Db, no: string, call: Call)
    requires Reachable(db) && no in db.payments && QuietCall(call) && Underway(db.payments[no].status)
    requires db.payments[no].channel == Alipay
    ensures SettledAs(db, Replay(db, SettleSteps(db, no, Alipay, call)), no, call, SettleAnswer(db, no, Alipay, call))
  {
    hide Apply, Replay, Reachable, QuerySteps, QueryAnswer, CloseSteps, CloseAnswer, StatusHeard;
    AskedFirst(db, no, call);
    var asked, r := QuerySteps(db, no, call), QueryAnswer(db, no, call);
    if r.Ok? && r.value != Success {
      assert asked + [] == asked;
      var heard := Replay(db, asked);
      ReplayAppend(db, asked, CloseSteps(heard, no, call));
      ClosingTouches(heard, no, call);
      ClosingLands(heard, no, call);
      ClosingAnswered(heard, no, call);
    }
  }

  lemma Settles(db: Db, no: string, call: Call)
    requires Reachable(db) && no in db.payments && QuietCall(call) && Underway(db.payments[no].status)
    ensures SettledAs(db, Replay(db, SettleSteps(db, no, db.payments[no].channel, call)), no, call,
                      SettleAnswer(db, no, db.payments[no].channel, call))
  {
    hide Apply, Replay, Reachable, SettleSteps, SettleAnswer, SettledAs;
    if db.payments[no].channel == Alipay { AlipaySettles(db, no, call); } else { PlainSettles(db, no, call); }
  }

  // ---- The whole expiration ----------------------------------------------------------------

  /** Nothing happens around the expiration. */
  predicate Quiet(plan: Plan) {
    plan.claiming == plan.reading == plan.listing == plan.closing == plan.failing == []
    && forall i | 0 <= i < |plan.calls| :: QuietCall(plan.calls[i])
  }

  predicate Distinct(list: seq<(string, Payment)>) {
    forall i, j | 0 <= i < j < |list| :: list[i].0 != list[j].0
  }

  /** The payments listed from the place on stand as they were read, and the order's other ones are settled. */
  ghost predicate StillListed(db: Db, orderNo: string, list: seq<(string, Payment)>, i: nat) {
    && orderNo in db.orders && db.orders[orderNo].status in {OrderCreated, OrderPending} && i <= |list|
    && Distinct(list)
    && (forall j | i <= j < |list| ::
        list[j].0 in db.payments && db.payments[list[j].0] == list[j].1 && list[j].1.orderNo == orderNo)
    && (forall no | no in db.payments && db.payments[no].orderNo == orderNo
                    && db.payments[no].status !in {Failed, PaymentStatus.Closed} ::
        exists j :: i <= j < |list| && list[j].0 == no)
  }

  /** All the payments from the place on that are under way end closed. */
  ghost predicate AllEndClosed(list: seq<(string, Payment)>, plan: Plan, i: nat) {
    forall j | i <= j < |list| && Underway(list[j].1.status) :: EndsClosed(list[j].1, CallAt(plan.calls, j))
  }

  ghost predicate SomeoneTold(list: seq<(string, Payment)>, plan: Plan, i: nat) {
    exists j | i <= j < |list| :: Underway(list[j].1.status) && ToldSuccess(list[j].1, CallAt(plan.calls, j))
  }

  /**
   The order is closed, and that is answered, exactly if every payment under way ends closed. It is paid, and that is
   answered, if a channel told of a success that the core took; after any error it is as it was before.
   */
  ghost predicate ExpiredAs(db: Db, t: Db, orderNo: string, list: seq<(string, Payment)>, plan: Plan, i: nat,
                            r: Result<Expiry, ServiceError>) {
    && orderNo in db.orders && orderNo in t.orders && t.now == db.now
    && (r.Err? ==> t.orders[orderNo] == db.orders[orderNo])
    && var status := t.orders[orderNo].status;
       && (r == Ok(Expired) <==> AllEndClosed(list, plan, i))
       && (r == Ok(Expired) <==> status == OrderClosed)
       && (r == Ok(Expired) ==> forall no | no in t.payments && t.payments[no].orderNo == orderNo ::
              t.payments[no].status in {Failed, PaymentStatus.Closed})
       && (r == Ok(Paid) <==> status in {OrderSuccess, OrderPartiallyRefunded, OrderRefunded})
       && (r == Ok(Paid) ==> SomeoneTold(list, plan, i))
       && (r.Err? <==> status in {OrderCreated, OrderPending})
       && r != Err(StateConflict)
  }

  lemma ClosingWritesOrder(db: Db, orderNo: string)
    requires orderNo in db.orders
    ensures var t := Apply(db, CloseOrder(orderNo));
            && t.payments == db.payments && t.orders == Put(db.orders, orderNo, ExpiredOrder(db, orderNo))
            && t.now == db.now
  {
    hide Apply, ExpiredOrder, RefundRow, RefundKey;
    StepWrites(db, CloseOrder(orderNo));
  }

  lemma ClosesAtTheEnd(db: Db, orderNo: string, list: seq<(string, Payment)>, plan: Plan)
    requires StillListed(db, orderNo, list, |list|) && Quiet(plan)
    ensures ExpiredAs(db, Replay(db, ExpireSteps(db, orderNo, list, plan, |list|)), orderNo, list, plan, |list|,
                      ExpireAnswer(db, orderNo, list, plan, |list|))
  {
    hide Apply, Replay, ExpireSteps, ExpireAnswer;
    ReplayNothing(db);
    ExpireCloses(db, orderNo, list, plan);
    assert [] + [CloseOrder(orderNo)] == [CloseOrder(orderNo)];
    ReplayOne(db, CloseOrder(orderNo));
    ClosingWritesOrder(db, orderNo);
  }

  lemma OpenHasNoSuccess(db: Db, no: string)
    requires Reachable(db) && no in db.payments && db.payments[no].orderNo in db.orders
    requires db.orders[db.payments[no].orderNo].status in {OrderCreated, OrderPending}
    ensures db.payments[no].status != Success
  {
    hide Reachable;
    ReachableInv(db);
  }

  lemma SuccessIsPaid(db: Db, no: string)
    requires Reachable(db) && no in db.payments && db.payments[no].status == Success
    ensures var o := db.payments[no].orderNo; o in db.orders && IsPaid(db.orders[o].status)
  {
    hide Reachable;
    ReachableInv(db);
  }

  lemma ReleasingKeeps(db: Db, no: string, orderNo: string)
    requires orderNo in db.orders
    ensures var t := Apply(db, ReleaseExpiration(no));
            orderNo in t.orders && t.orders[orderNo].status == db.orders[orderNo].status && t.now == db.now
  {
    hide Apply, RefundRow, PaymentRow;
    StepWrites(db, ReleaseExpiration(no));
  }

  /** Settled closed, the payment is off the list. */
  lemma ListedOn(db: Db, t: Db, orderNo: string, list: seq<(string, Payment)>, i: nat)
    requires i < |list| && StillListed(db, orderNo, list, i) && OnlyTouches(db, t, list[i].0) && t.orders == db.orders
    requires t.payments[list[i].0].status in {Failed, PaymentStatus.Closed}
    ensures StillListed(t, orderNo, list, i + 1)
  {
    forall no | no in t.payments && t.payments[no].orderNo == orderNo
                && t.payments[no].status !in {Failed, PaymentStatus.Closed}
      ensures exists j :: i + 1 <= j < |list| && list[j].0 == no
    {
      assert no != list[i].0;
      var j :| i <= j < |list| && list[j].0 == no;
      assert j != i;
    }
  }

  lemma {:induction false} ExpiresFrom(db: Db, orderNo: string, list: seq<(string, Payment)>, plan: Plan, i: nat)
    requires Reachable(db) && StillListed(db, orderNo, list, i) && Quiet(plan)
    ensures ExpiredAs(db, Replay(db, ExpireSteps(db, orderNo, list, plan, i)), orderNo, list, plan, i,
                      ExpireAnswer(db, orderNo, list, plan, i))
    decreases |list| - i
  {
    hide Apply, Replay, Reachable, ExpireSteps, ExpireAnswer, ExpiredAs, OnlyTouches;
    if i == |list| {
      ClosesAtTheEnd(db, orderNo, list, plan);
    } else {
      var no, p := list[i].0, list[i].1;
      OpenHasNoSuccess(db, no);
      ExpireUnfolds(db, orderNo, list, plan, i);
      if Underway(p.status) {
        SettledNext(db, orderNo, list, plan, i);
      } else {
        assert OnlyTouches(db, db, no) by { TouchesNothing(db, no); }
        ListedOn(db, db, orderNo, list, i);
        ExpiresFrom(db, orderNo, list, plan, i + 1);
        PassedOver(db, db, Replay(db, ExpireSteps(db, orderNo, list, plan, i + 1)), orderNo, list, plan, i,
                   ExpireAnswer(db, orderNo, list, plan, i + 1));
      }
    }
  }

  lemma PassedOver(db: Db, s: Db, t: Db, orderNo: string, list: seq<(string, Payment)>, plan: Plan, i: nat,
                   r: Result<Expiry, ServiceError>)
    requires i < |list| && ExpiredAs(s, t, orderNo, list, plan, i + 1, r) && s.orders == db.orders && s.now == db.now
    requires Underway(list[i].1.status) ==> EndsClosed(list[i].1, CallAt(plan.calls, i))
    ensures ExpiredAs(db, t, orderNo, list, plan, i, r)
  {
    hide EndsClosed, ToldSuccess;
  }

  lemma SameNow(db: Db, t: Db, no: string)
    requires OnlyTouches(db, t, no)
    ensures t.now == db.now
  {
  }

  lemma SettledNext(db: Db, orderNo: string, list: seq<(string, Payment)>, plan: Plan, i: nat)
    requires Reachable(db) && i < |list| && StillListed(db, orderNo, list, i) && Quiet(plan)
    requires Underway(list[i].1.status)
    ensures ExpiredAs(db, Replay(db, ExpireSteps(db, orderNo, list, plan, i)), orderNo, list, plan, i,
                      ExpireAnswer(db, orderNo, list, plan, i))
    decreases |list| - i, 0
  {
    hide Apply, Replay, Reachable, ExpireSteps, ExpireAnswer, ExpiredAs, OnlyTouches, SettleSteps, SettleAnswer,
         EndsClosed, ToldSuccess;
    var no, p, call := list[i].0, list[i].1, CallAt(plan.calls, i);
    ExpireUnfolds(db, orderNo, list, plan, i);
    var steps, paid := SettleSteps(db, no, p.channel, call), SettleAnswer(db, no, p.channel, call);
    Settles(db, no, call);
    var t := Replay(db, steps);
    ReachableOnward(db, steps);
    var rest := AfterSettling(t, paid, list, plan, orderNo, no, i);
    ReplayAppend(db, steps, rest);
    if paid == Ok(false) {
      ListedOn(db, t, orderNo, list, i);
      ExpiresFrom(t, orderNo, list, plan, i + 1);
      SameNow(db, t, no);
      PassedOver(db, t, Replay(t, rest), orderNo, list, plan, i, ExpireAnswer(t, orderNo, list, plan, i + 1));
    } else {
      StopsHere(db, t, orderNo, list, plan, i, paid, rest);
    }
  }

  /** An error, or a success, ends the expiration. */
  lemma StopsHere(db: Db, t: Db, orderNo: string, list: seq<(string, Payment)>, plan: Plan, i: nat,
                  paid: Result<bool, ServiceError>, rest: seq<Step>)
    requires i < |list| && StillListed(db, orderNo, list, i) && Quiet(plan) && Reachable(t)
    requires Underway(list[i].1.status) && SettledAs(db, t, list[i].0, CallAt(plan.calls, i), paid) && paid != Ok(false)
    requires rest == AfterSettling(t, paid, list, plan, orderNo, list[i].0, i)
    ensures ExpiredAs(db, Replay(t, rest), orderNo, list, plan, i, AnswerAfterSettling(t, paid, list, plan, orderNo, i))
  {
    hide Apply, Replay, Reachable, ExpireSteps, ExpireAnswer, EndsClosed, ToldSuccess;
    if paid.Err? {
      ReplayNothing(t);
    } else {
      assert [] + [ReleaseExpiration(list[i].0)] == [ReleaseExpiration(list[i].0)];
      ReplayOne(t, ReleaseExpiration(list[i].0));
      SuccessIsPaid(t, list[i].0);
      ReleasingKeeps(t, list[i].0, orderNo);
    }
  }

  lemma ListedAtFirst(db: Db, orderNo: string, list: seq<(string, Payment)>)
    requires orderNo in db.orders && db.orders[orderNo].status in {OrderCreated, OrderPending}
    requires ListsPayments(db, orderNo, list)
    ensures StillListed(db, orderNo, list, 0)
  {
    forall no | no in db.payments && db.payments[no].orderNo == orderNo
      ensures exists j :: 0 <= j < |list| && list[j].0 == no
    {
      var j :| 0 <= j < |list| && list[j] == (no, db.payments[no]);
    }
  }

  /** `expireOrder` on an open order with nobody around it. */
  lemma QuietExpiry(db: Db, orderNo: string, plan: Plan, steps: seq<Step>, r: Result<Expiry, ServiceError>)
    returns (list: seq<(string, Payment)>)
    requires Reachable(db) && Quiet(plan) && Expires(db, orderNo, plan, steps, r)
    requires orderNo in db.orders && db.orders[orderNo].status in {OrderCreated, OrderPending}
    ensures ListsPayments(db, orderNo, list) && ExpiredAs(db, Replay(db, steps), orderNo, list, plan, 0, r)
  {
    hide Apply, Replay, Reachable, ExpireSteps, ExpireAnswer, ListsPayments, ExpiredAs;
    ReplayNothing(db);
    list :| ListsPayments(db, orderNo, list) && steps == plan.listing + ExpireSteps(db, orderNo, list, plan, 0)
            && r == ExpireAnswer(db, orderNo, list, plan, 0);
    assert [] + ExpireSteps(db, orderNo, list, plan, 0) == ExpireSteps(db, orderNo, list, plan, 0);
    ListedAtFirst(db, orderNo, list);
    ExpiresFrom(db, orderNo, list, plan, 0);
  }

  // ---- A round of the worker ---------------------------------------------------------------

  /** The order as a claim leaves it, and as a failed attempt leaves it. */
  function ClaimedFrom(o: Order, seen: nat, now: int): Order {
    o.(expirationAttempts := seen + 1, lockedUntil := Some(now + 60))
  }

  function PutOffFrom(o: Order, seen: nat, now: int): Order {
    o.(expirationAttempts := seen + 1, lockedUntil := None,
       nextAttemptAt := Some(now + RecoveryPolicy.ExpirationRetryDelaySeconds(seen + 1)))
  }

  /** How a round over a due order ends: closed, paid, or unlocked and put off for the delay of that attempt. */
  ghost predicate RoundEnds(db: Db, t: Db, orderNo: string, seen: nat, list: seq<(string, Payment)>, plan: Plan,
                            round: Round) {
    && orderNo in db.orders && orderNo in t.orders && round.Some?
    && (round == Some(Ok(Expired)) <==> AllEndClosed(list, plan, 0))
    && (round == Some(Ok(Expired)) <==> t.orders[orderNo].status == OrderClosed)
    && (round == Some(Ok(Paid)) <==> t.orders[orderNo].status in {OrderSuccess, OrderPartiallyRefunded, OrderRefunded})
    && (round.value.Err? ==> t.orders[orderNo] == PutOffFrom(db.orders[orderNo], seen, db.now))
    && round != Some(Ok(Skipped))
  }

  lemma OrderClaimed(db: Db, orderNo: string, seen: nat)
    requires ExpirationClaimable(db, orderNo, seen)
    ensures var t := Apply(db, ClaimExpiration(orderNo, seen));
            && t.payments == db.payments && t.now == db.now
            && orderNo in db.orders && t.orders == db.orders[orderNo := ClaimedFrom(db.orders[orderNo], seen, db.now)]
  {
    hide Apply, RefundRow, RefundKey;
    StepWrites(db, ClaimExpiration(orderNo, seen));
  }

  lemma OrderPutOff(db: Db, orderNo: string, attempt: nat)
    requires orderNo in db.orders && db.orders[orderNo].status in {OrderCreated, OrderPending}
    ensures var t := Apply(db, ExpirationFailed(orderNo, attempt));
            && t.orders == db.orders[orderNo := db.orders[orderNo].(
                lockedUntil := None,
                nextAttemptAt := Some(db.now + RecoveryPolicy.ExpirationRetryDelaySeconds(attempt)))]
  {
    hide Apply, RefundRow, RefundKey, RecoveryPolicy.ExpirationRetryDelaySeconds;
    StepWrites(db, ExpirationFailed(orderNo, attempt));
  }

  /** One round of `runDueOrderExpirations` over a due order, with nobody around it. */
  lemma QuietRound(db: Db, orderNo: string, seen: nat, plan: Plan, steps: seq<Step>, round: Round)
    returns (list: seq<(string, Payment)>)
    requires Reachable(db) && Quiet(plan) && ExpirationClaimable(db, orderNo, seen)
    requires ExpirationRound(db, orderNo, seen, plan, steps, round)
    ensures ListsPayments(db, orderNo, list) && RoundEnds(db, Replay(db, steps), orderNo, seen, list, plan, round)
  {
    hide Apply, Replay, Reachable, Expires, ExpirationClaimable, ListsPayments, ExpiredAs, RoundEnds, ClaimedFrom;
    var claim := ClaimExpiration(orderNo, seen);
    ReplayNothing(db);
    assert [] + [claim] == [claim];
    ReplayOne(db, claim);
    ReachableOnward(db, [claim]);
    OrderClaimed(db, orderNo, seen);
    var t := Apply(db, claim);
    var rest :| steps == [claim] + rest && ClaimedRound(t, orderNo, seen, plan, rest, round.value);
    ReplayNothing(t);
    var done :| Expires(t, orderNo, plan, done, round.value)
                && rest == [] + done + if round.value.Err? then [] + [ExpirationFailed(orderNo, seen + 1)] else [];
    ClaimStaysOpen(db, t, orderNo, seen);
    list := QuietExpiry(t, orderNo, plan, done, round.value);
    SameListing(db, t, orderNo, list);
    ReplayAppend(db, [claim], rest);
    RoundEnd(db, t, orderNo, seen, list, plan, done, rest, round);
  }

  lemma ClaimStaysOpen(db: Db, t: Db, orderNo: string, seen: nat)
    requires ExpirationClaimable(db, orderNo, seen)
    requires t.orders == db.orders[orderNo := ClaimedFrom(db.orders[orderNo], seen, db.now)]
    ensures orderNo in t.orders && t.orders[orderNo].status in {OrderCreated, OrderPending}
  {
  }

  lemma SameListing(db: Db, t: Db, orderNo: string, list: seq<(string, Payment)>)
    requires t.payments == db.payments && ListsPayments(t, orderNo, list)
    ensures ListsPayments(db, orderNo, list)
  {
  }

  lemma RoundEnd(db: Db, t: Db, orderNo: string, seen: nat, list: seq<(string, Payment)>, plan: Plan, done: seq<Step>,
                 rest: seq<Step>, round: Round)
    requires orderNo in db.orders && t.now == db.now && round.Some?
    requires t.orders == db.orders[orderNo := ClaimedFrom(db.orders[orderNo], seen, db.now)]
    requires rest == done + if round.value.Err? then [ExpirationFailed(orderNo, seen + 1)] else []
    requires ExpiredAs(t, Replay(t, done), orderNo, list, plan, 0, round.value)
    ensures RoundEnds(db, Replay(t, rest), orderNo, seen, list, plan, round)
  {
    hide Apply, Replay, AllEndClosed, SomeoneTold, RecoveryPolicy.ExpirationRetryDelaySeconds;
    var u := Replay(t, done);
    if round.value.Err? {
      ReplayAppend(t, done, [ExpirationFailed(orderNo, seen + 1)]);
      ReplayOne(u, ExpirationFailed(orderNo, seen + 1));
      OrderPutOff(u, orderNo, seen + 1);
    } else {
      assert done + [] == done;
    }
  }
}
