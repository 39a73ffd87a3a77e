/** Which payment a bill line belongs to, and why at most one. */
module BillMatching {
  import opened Wrappers
  import opened StateMachine
  import opened ReceiptText
  import opened Rows
  import opened PaymentSteps
  import opened RefundSteps
  import opened Steps
  import opened Shapes
  import opened OneWinner
  import opened Forward
  import opened BillPayments
  import Money

  // ---- Candidates --------------------------------------------------------------------------

  predicate OnAccount(p: Payment, accountId: string) {
    p.channel == AlipayBill && p.accountId == accountId
  }

  /** Payments the line's merchant order number names. */
  function Direct(payments: Payments, accountId: string, flow: Flow): set<string> {
    set no | no in payments && OnAccount(payments[no], accountId)
             && flow.merchantOrderNo.Some?
             && (no == flow.merchantOrderNo.value || payments[no].channelOrderNo == flow.merchantOrderNo)
  }

  /** Payments that carry the line's trade number already. */
  function ByTrade(payments: Payments, flow: Flow): set<string> {
    set no | no in payments && payments[no].tradeNo == Some(flow.tradeNo)
  }

  function Referenced(payments: Payments, accountId: string, reference: string): set<string> {
    set no | no in payments && OnAccount(payments[no], accountId) && payments[no].terms.Some?
      && payments[no].terms.value.reference == reference
  }

  /** Candidates whose amount and window the line meets. */
  function Fitting(payments: Payments, candidates: set<string>, flow: Flow): set<string> {
    set no | no in candidates && no in payments && payments[no].channelAmount == flow.amount
             && payments[no].terms.Some? && InWindow(flow.paidAt, payments[no].terms.value)
  }

  function ByAmount(payments: Payments, accountId: string, flow: Flow): set<string> {
    set no | no in payments && OnAccount(payments[no], accountId) && payments[no].channelAmount == flow.amount
             && payments[no].terms.Some? && payments[no].terms.value.mode == AmountMode
             && InWindow(flow.paidAt, payments[no].terms.value)
  }

  /** Whether the remark holds any reference at all. */
  predicate HasReference(remark: Option<string>) {
    Matches(Remark(remark), 0) != []
  }

  datatype Choice =
    | NoPayment
    | OnePayment(paymentNo: string)
    | Refusal(found: Option<string>, ambiguous: bool, conflict: bool)

  const LOOKUP: nat := 3

  /** Up to three of the candidates, as a lookup returns them. */
  predicate Looked(seen: set<string>, candidates: set<string>) {
    seen <= candidates && (|seen| == LOOKUP || seen == candidates) && |seen| <= LOOKUP
  }

  /** One candidate is a match, several are ambiguous. */
  predicate Chosen(candidates: set<string>, c: Choice, otherwise: bool) {
    if |candidates| > 1 then c == Refusal(None, true, false)
    else if candidates != {} then c.OnePayment? && c.paymentNo in candidates
    else otherwise
  }

  /** The answers `locatePayment` may give for a line of the account. */
  ghost predicate Locates(payments: Payments, accountId: string, flow: Flow, c: Choice) {
    var direct, trade := Direct(payments, accountId, flow), ByTrade(payments, flow);
    if |direct| > 1 then c == Refusal(None, true, false)
    else if exists no :: no in trade && !OnAccount(payments[no], accountId) then
      c.Refusal? && c.found.Some? && c.found.value in trade && !c.ambiguous && c.conflict
    else if direct != {} && trade != {} && direct != trade then
      c.Refusal? && c.found.Some? && c.found.value in direct && !c.ambiguous && c.conflict
    else if direct + trade != {} then c.OnePayment? && c.paymentNo in direct + trade
    else LocatesByContent(payments, accountId, flow, c)
  }

  /** None of the payments with the reference fits the line: it is refused, with one of them if there are any. */
  ghost predicate Unfitting(all: set<string>, c: Choice) {
    && c.Refusal? && !c.ambiguous && !c.conflict
    && if all == {} then c.found == None else c.found.Some? && c.found.value in all
  }

  ghost predicate LocatesByContent(payments: Payments, accountId: string, flow: Flow, c: Choice) {
    match ExtractReference(flow.remark)
    case Some(reference) =>
      var all := Referenced(payments, accountId, reference);
      exists seen :: Looked(seen, all) && Chosen(Fitting(payments, seen, flow), c, Unfitting(all, c))
    case None =>
      if HasReference(flow.remark) then c == Refusal(None, false, false)
      else Chosen(ByAmount(payments, accountId, flow), c, c == NoPayment)
  }

  // ---- At most one -------------------------------------------------------------------------

  /** Recognisable payments of one account with one key meet at most where one ends and the other begins. */
  lemma KeysMeetAtEnds(db: Db, a: string, b: string, paidAt: int)
    requires Billing(db) && a in db.payments && b in db.payments && a != b
    requires db.payments[a].terms.Some? && db.payments[b].terms.Some? && KeyOf(db.payments[a]) == KeyOf(db.payments[b])
    requires InWindow(paidAt, db.payments[a].terms.value) && InWindow(paidAt, db.payments[b].terms.value)
    ensures var s, t := db.payments[a].terms.value, db.payments[b].terms.value;
            (s.validUntil == paidAt == t.validFrom && s.validFrom < paidAt < t.validUntil)
            || (t.validUntil == paidAt == s.validFrom && t.validFrom < paidAt < s.validUntil)
  {
    assert Apart(db.payments[a], db.payments[b]);
    assert WellTermed(a, db.payments[a], db.now) && WellTermed(b, db.payments[b], db.now);
  }

  /**
   After any run, payments of one account with one key are recognisable at one instant only where one ends and the
   other begins.
   */
  lemma WindowsMeetAtEnds(db: Db, a: string, b: string, paidAt: int)
    requires Reachable(db) && a in db.payments && b in db.payments && a != b
    requires db.payments[a].terms.Some? && db.payments[b].terms.Some? && KeyOf(db.payments[a]) == KeyOf(db.payments[b])
    requires InWindow(paidAt, db.payments[a].terms.value) && InWindow(paidAt, db.payments[b].terms.value)
    ensures var s, t := db.payments[a].terms.value, db.payments[b].terms.value;
            (s.validUntil == paidAt == t.validFrom && s.validFrom < paidAt < t.validUntil)
            || (t.validUntil == paidAt == s.validFrom && t.validFrom < paidAt < s.validUntil)
  {
    hide Reachable, Billing;
    ReachableBills(db);
    KeysMeetAtEnds(db, a, b, paidAt);
  }

  /** Amount payments found by one amount share their key. */
  lemma AmountKeys(db: Db, accountId: string, flow: Flow, a: string, b: string)
    requires Billing(db) && a in ByAmount(db.payments, accountId, flow) && b in ByAmount(db.payments, accountId, flow)
    ensures KeyOf(db.payments[a]) == KeyOf(db.payments[b])
  {
    hide Settled, Held, AllApart, RemarkReference;
    assert WellTermed(a, db.payments[a], db.now) && WellTermed(b, db.payments[b], db.now);
  }

  lemma AmountMeetsAtEnds(db: Db, accountId: string, flow: Flow, a: string, b: string)
    requires Billing(db) && a in ByAmount(db.payments, accountId, flow) && b in ByAmount(db.payments, accountId, flow)
             && a != b
    ensures var s, t := db.payments[a].terms.value, db.payments[b].terms.value;
            (s.validUntil == flow.paidAt == t.validFrom && s.validFrom < flow.paidAt < t.validUntil)
            || (t.validUntil == flow.paidAt == s.validFrom && t.validFrom < flow.paidAt < s.validUntil)
  {
    hide Billing;
    AmountKeys(db, accountId, flow, a, b);
    KeysMeetAtEnds(db, a, b, flow.paidAt);
  }

  lemma SmallSet(s: set<string>)
    requires forall x, y, z | x in s && y in s && z in s :: x == y || y == z || x == z
    ensures |s| <= 2
  {
    if x :| x in s {
      var rest := s - {x};
      assert |s| == |rest| + 1;
      if y :| y in rest {
        forall z | z in rest ensures z == y { assert x in s && y in s && z in s; }
        LoneSet(rest, y);
      }
    }
  }

  lemma LoneSet(s: set<string>, x: string)
    requires x in s && forall y | y in s :: y == x
    ensures s == {x} && |s| == 1
  {
  }

  lemma PairSet(s: set<string>, x: string, y: string)
    requires x in s && y in s && x != y && |s| <= 2
    ensures s == {x, y} && |s| == 2
  {
    assert |s - {x} - {y}| == |s| - 2;
  }

  /** The line falls where the window of one payment found ends and that of another begins. */
  ghost predicate OnSeam(db: Db, accountId: string, flow: Flow) {
    exists a, b | a in ByAmount(db.payments, accountId, flow) && b in ByAmount(db.payments, accountId, flow) ::
      db.payments[a].terms.value.validUntil == flow.paidAt == db.payments[b].terms.value.validFrom
  }

  /**
   The amount lookup finds two payments at most, and two exactly at an instant where one's window ends and another's
   begins.
   */
  lemma AmountLookup(db: Db, accountId: string, flow: Flow)
    requires Reachable(db)
    ensures |ByAmount(db.payments, accountId, flow)| <= 2
    ensures |ByAmount(db.payments, accountId, flow)| == 2 <==> OnSeam(db, accountId, flow)
  {
    hide Reachable;
    ReachableBills(db);
    AtMostTwo(db, accountId, flow);
    TwoExactly(db, accountId, flow);
  }

  lemma AtMostTwo(db: Db, accountId: string, flow: Flow)
    requires Billing(db)
    ensures |ByAmount(db.payments, accountId, flow)| <= 2
  {
    hide Billing;
    var s := ByAmount(db.payments, accountId, flow);
    forall x, y, z | x in s && y in s && z in s ensures x == y || y == z || x == z {
      if x != y && y != z && x != z {
        AmountMeetsAtEnds(db, accountId, flow, x, y);
        AmountMeetsAtEnds(db, accountId, flow, y, z);
        AmountMeetsAtEnds(db, accountId, flow, x, z);
      }
    }
    SmallSet(s);
  }

  lemma TwoExactly(db: Db, accountId: string, flow: Flow)
    requires Billing(db) && |ByAmount(db.payments, accountId, flow)| <= 2
    ensures |ByAmount(db.payments, accountId, flow)| == 2 <==> OnSeam(db, accountId, flow)
  {
    var s := ByAmount(db.payments, accountId, flow);
    if |s| == 2 {
      var x :| x in s;
      assert |s - {x}| == 1;
      var y :| y in s - {x};
      AmountMeetsAtEnds(db, accountId, flow, x, y);
    }
    if OnSeam(db, accountId, flow) {
      var x, y :| x in s && y in s
        && db.payments[x].terms.value.validUntil == flow.paidAt == db.payments[y].terms.value.validFrom;
      assert WellTermed(x, db.payments[x], db.now);
      PairSet(s, x, y);
    }
  }

  /**
   A line that names nothing and is paid strictly inside an amount payment's window is never ambiguous: the lookup
   answers with that payment.
   */
  lemma AmountIsUnambiguous(db: Db, accountId: string, flow: Flow, no: string, c: Choice)
    requires Reachable(db) && no in ByAmount(db.payments, accountId, flow)
    requires db.payments[no].terms.value.validFrom < flow.paidAt < db.payments[no].terms.value.validUntil
    requires Direct(db.payments, accountId, flow) == {} && ByTrade(db.payments, flow) == {}
             && !HasReference(flow.remark)
    requires Locates(db.payments, accountId, flow, c)
    ensures c == OnePayment(no)
  {
    hide Reachable, Billing;
    ReachableBills(db);
    var s := ByAmount(db.payments, accountId, flow);
    forall x | x in s ensures x == no {
      if x != no { hide Billing, Locates; AmountMeetsAtEnds(db, accountId, flow, no, x); }
    }
    LoneSet(s, no);
  }

  /** A reference is never the spelling of an amount. */
  lemma ReferenceIsNoAmount(paymentNo: string, n: nat)
    ensures RemarkReference(paymentNo) != Money.Decimal(n)
  {
    hide AlnumOnly, ToUpper;
    Money.DecimalShape(n);
    assert RemarkReference(paymentNo)[0] == 'T';
  }

  /** Payments found by one reference of a payment share their key. */
  lemma ReferenceKeys(db: Db, accountId: string, own: string, no: string)
    requires Billing(db) && own in db.payments && OnAccount(db.payments[own], accountId)
    requires db.payments[own].terms.Some? && db.payments[own].terms.value.mode == RemarkMode
    requires no in Referenced(db.payments, accountId, db.payments[own].terms.value.reference)
    ensures KeyOf(db.payments[no]) == KeyOf(db.payments[own])
  {
    hide Settled, Held, AllApart, RemarkReference;
    assert WellTermed(own, db.payments[own], db.now) && WellTermed(no, db.payments[no], db.now);
    ReferenceIsNoAmount(own, db.payments[no].channelAmount);
  }

  /**
   A line that only its remark speaks for: it holds the payment's reference, and amount and time fit the payment
   strictly.
   */
  ghost predicate SpeaksFor(db: Db, accountId: string, flow: Flow, no: string) {
    && no in db.payments && OnAccount(db.payments[no], accountId)
    && db.payments[no].terms.Some? && db.payments[no].terms.value.mode == RemarkMode
    && db.payments[no].channelAmount == flow.amount
    && db.payments[no].terms.value.validFrom < flow.paidAt < db.payments[no].terms.value.validUntil
    && ExtractReference(flow.remark) == Some(db.payments[no].terms.value.reference)
    && Direct(db.payments, accountId, flow) == {} && ByTrade(db.payments, flow) == {}
  }

  /**
   A line whose remark is a payment's own reference, paid strictly inside its window with its amount, is sure to be
   answered with that payment exactly as long as no more than three payments of the account ever had the reference.
   */
  lemma ReferenceIsUnambiguous(db: Db, accountId: string, flow: Flow, no: string)
    requires Reachable(db) && SpeaksFor(db, accountId, flow, no)
    ensures (forall c :: Locates(db.payments, accountId, flow, c) ==> c == OnePayment(no))
            <==> |Referenced(db.payments, accountId, db.payments[no].terms.value.reference)| <= LOOKUP
  {
    hide Reachable, Billing;
    ReachableBills(db);
    var all := Referenced(db.payments, accountId, db.payments[no].terms.value.reference);
    if |all| <= LOOKUP {
      forall c | Locates(db.payments, accountId, flow, c) ensures c == OnePayment(no) {
        FewAreFound(db, accountId, flow, no, c);
      }
    } else {
      MissedAmongMany(db, accountId, flow, no);
    }
  }

  /** Of the payments with the reference, only the one spoken for fits. */
  lemma FittingAlone(db: Db, accountId: string, flow: Flow, no: string, seen: set<string>)
    requires Billing(db) && SpeaksFor(db, accountId, flow, no)
    requires seen <= Referenced(db.payments, accountId, db.payments[no].terms.value.reference)
    ensures Fitting(db.payments, seen, flow) == seen * {no}
  {
    hide Billing, ExtractReference;
    forall x | x in Fitting(db.payments, seen, flow) ensures x == no {
      if x != no {
        ReferenceKeys(db, accountId, no, x);
        KeysMeetAtEnds(db, no, x, flow.paidAt);
      }
    }
  }

  lemma FewAreFound(db: Db, accountId: string, flow: Flow, no: string, c: Choice)
    requires Billing(db) && SpeaksFor(db, accountId, flow, no) && Locates(db.payments, accountId, flow, c)
    requires |Referenced(db.payments, accountId, db.payments[no].terms.value.reference)| <= LOOKUP
    ensures c == OnePayment(no)
  {
    hide Billing, ExtractReference;
    var all := Referenced(db.payments, accountId, db.payments[no].terms.value.reference);
    assert LocatesByContent(db.payments, accountId, flow, c);
    var seen :| Looked(seen, all) && Chosen(Fitting(db.payments, seen, flow), c, Unfitting(all, c));
    FullLook(seen, all);
    FittingAlone(db, accountId, flow, no, seen);
    LoneSet(Fitting(db.payments, seen, flow), no);
  }

  /** Among more than three payments with the reference the lookup may read three others, and refuses the line. */
  lemma MissedAmongMany(db: Db, accountId: string, flow: Flow, no: string)
    requires Billing(db) && SpeaksFor(db, accountId, flow, no)
    requires |Referenced(db.payments, accountId, db.payments[no].terms.value.reference)| > LOOKUP
    ensures Locates(db.payments, accountId, flow, Refusal(Some(no), false, false))
  {
    hide Billing, ExtractReference;
    var all := Referenced(db.payments, accountId, db.payments[no].terms.value.reference);
    var seen := ThreeOthers(all, no);
    FittingAlone(db, accountId, flow, no, seen);
    assert Looked(seen, all);
  }

  lemma ThreeOthers(all: set<string>, no: string) returns (seen: set<string>)
    requires no in all && |all| > LOOKUP
    ensures seen <= all && no !in seen && |seen| == LOOKUP
  {
    assert |all - {no}| == |all| - 1;
    var a :| a in all - {no};
    assert |all - {no} - {a}| == |all| - 2;
    var b :| b in all - {no} - {a};
    assert |all - {no} - {a} - {b}| == |all| - 3;
    var c :| c in all - {no} - {a} - {b};
    seen := {a, b, c};
  }

  lemma FullLook(seen: set<string>, all: set<string>)
    requires Looked(seen, all) && |all| <= LOOKUP
    ensures seen == all
  {
    if |seen| == LOOKUP {
      assert all == seen + (all - seen);
      assert |all| == |seen| + |all - seen|;
      assert all - seen == {};
    }
  }

  // ---- What it means for a reader ----------------------------------------------------------

  lemma ReachableBills(db: Db)
    requires Reachable(db)
    ensures Billing(db)
  {
    hide Billing, Replay, Reachable;
    var now, steps := ReachedByReplay(db);
    AlwaysBills(now, steps);
  }

  /**
   After any run, a successful bill payment received exactly its amount, in its window, under a trade number, by a
   line that fits it.
   */
  lemma ProperSuccess(db: Db, no: string)
    requires Reachable(db) && no in db.payments && db.payments[no].channel == AlipayBill
             && db.payments[no].status == Success
    ensures var p := db.payments[no];
            && p.terms.Some? && p.flow.Some? && p.received == Some(p.channelAmount)
            && p.received == Some(p.flow.value.amount)
            && p.paidAt.Some? && InWindow(p.paidAt.value, p.terms.value) && p.tradeNo == Some(p.flow.value.tradeNo)
            && (p.terms.value.mode == RemarkMode ==> ExtractReference(p.flow.value.remark) == Some(RemarkReference(no)))
            && (p.terms.value.mode == AmountMode ==> p.terms.value.reference == Money.Decimal(p.flow.value.amount))
  {
    hide Reachable, Held, AllApart, TradesApart, MatchesSettle, ExtractReference, RemarkReference;
    ReachableBills(db);
    assert WellTermed(no, db.payments[no], db.now) && PaidByLine(db.payments[no]);
  }

  /** The remark that paid a remark payment held the payment's own reference and no other one. */
  lemma RemarkHeldItsReference(db: Db, no: string) returns (i: nat)
    requires Reachable(db) && no in db.payments && db.payments[no].status == Success
    requires db.payments[no].terms.Some? && db.payments[no].terms.value.mode == RemarkMode
    ensures var p := db.payments[no];
            && p.flow.Some? && TokenAt(Remark(p.flow.value.remark), i)
            && ToUpper(Remark(p.flow.value.remark)[i..i + TOKEN]) == RemarkReference(no)
            && forall j: nat :: TokenAt(Remark(p.flow.value.remark), j) ==> j == i
  {
    hide Reachable, Held, AllApart, TradesApart, MatchesSettle, ExtractReference, RemarkReference, TokenAt, ToUpper;
    ReachableBills(db);
    assert WellTermed(no, db.payments[no], db.now);
    ProperSuccess(db, no);
    i := ExtractedIsOnlyToken(db.payments[no].flow.value.remark);
  }

  /** Two different matched receipts never name one payment. */
  lemma MatchedOnce(db: Db, a: ReceiptId, b: ReceiptId)
    requires Reachable(db) && a in db.receipts && b in db.receipts && a != b
    requires db.receipts[a].status == Matched && db.receipts[b].status == Matched
    ensures db.receipts[a].paymentNo.Some? && db.receipts[b].paymentNo.Some?
            && db.receipts[a].paymentNo != db.receipts[b].paymentNo
  {
    hide Reachable, Held, AllApart, TradesApart, Termed, AllPaidByLine;
    ReachableBills(db);
  }

  /** One trade number pays one payment. */
  lemma TradePaysOnce(db: Db, a: string, b: string)
    requires Reachable(db) && a in db.payments && b in db.payments
    requires db.payments[a].tradeNo.Some? && db.payments[a].tradeNo == db.payments[b].tradeNo
    ensures a == b
  {
    hide Reachable, Held, AllApart, Termed, AllPaidByLine, MatchesSettle;
    ReachableBills(db);
  }

  /**
   No webhook, query, mock or statement step brings a bill payment to success: the step is the watcher's, with a line
   that fits.
   */
  lemma OnlyWatcherPays(db: Db, step: Step, no: string)
    requires no in db.payments && db.payments[no].channel == AlipayBill && db.payments[no].status != Success
    requires no in Apply(db, step).payments && Apply(db, step).payments[no].status == Success
    ensures step.ReceiptSuccess? && step.no == no && step.accountId == db.payments[no].accountId
            && FlowFits(db.payments[no], step.flow)
  {
    if step.DeleteApplication? {
      DeletionWrites(db, step.appId);
      DeletionPaysNothing(db, step.appId, Apply(db, step), no);
    } else {
      StepWrites(db, step);
      MovesByWatcher(db, step, Apply(db, step), no);
    }
  }

  lemma DeletionPaysNothing(db: Db, appId: string, t: Db, no: string)
    requires Deletes(db, appId, t) && no in db.payments && no in t.payments
    ensures t.payments[no] == db.payments[no]
  {
    hide Archives, ClearedPayments, ClearedRefunds, ClearedEvents, ClearedReceipts, ClearedExceptions,
         ClearedDeliveries, ArchivedOrders, WithoutReservations;
  }

  lemma MovesByWatcher(db: Db, step: Step, t: Db, no: string)
    requires Moves(db, step, t) && no in db.payments && db.payments[no].channel == AlipayBill
             && db.payments[no].status != Success
    requires no in t.payments && t.payments[no].status == Success
    ensures step.ReceiptSuccess? && step.no == no && step.accountId == db.payments[no].accountId
            && FlowFits(db.payments[no], step.flow)
  {
    hide PaymentRow, OrderRow, RefundRow, PaymentKey, OrderKey, RefundKey, FlowFits, ReportOf;
    OnlyReportsSucceed(db, step);
    WatcherReports(db, step);
  }

  lemma OnlyReportsSucceed(db: Db, step: Step)
    ensures PaymentRow(db, step).Some? && PaymentRow(db, step).value.status == Success ==>
              (IsReport(step) && ReportOf(db, step).Some? && PaymentKey(step) == step.no)
              || (PaymentKey(step) in db.payments && db.payments[PaymentKey(step)].status == Success)
  {
    hide NewPayment, ReportOf, SucceededRow, TradeNoFree, ScheduleOf;
    if step.CreatePayment? { NewPaymentShape(db, step.request); }
  }

  lemma WatcherReports(db: Db, step: Step)
    requires IsReport(step) && ReportOf(db, step).Some?
    ensures step.no in db.payments && (db.payments[step.no].channel == AlipayBill ==>
              step.ReceiptSuccess? && step.accountId == db.payments[step.no].accountId
                && FlowFits(db.payments[step.no], step.flow))
  {
    hide FlowFits;
  }

  /**
   A request for an amount payment on a payable order takes the least free offset, and fails for want of amounts
   exactly when every amount from the order's up to the largest offset is reserved.
   */
  lemma LeastOffset(db: Db, req: PaymentRequest)
    requires req.orderNo in db.orders && db.orders[req.orderNo].expiresAt > db.now
    requires req.bill.enabled && req.bill.mode == AmountMode && req.bill.validSeconds > 0
    ensures var amount, live := db.orders[req.orderNo].amount, LiveReservations(db, req.accountId);
            match PrepareReceipt(db, req, db.orders[req.orderNo])
            case Ok((terms, asked)) =>
              && amount <= asked <= amount + req.bill.offsetMax && AmountKey(req.accountId, asked) !in live
              && forall a | amount <= a < asked :: AmountKey(req.accountId, a) in live
            case Err(e) => e == AmountPoolExhausted && forall a | amount <= a <= amount + req.bill.offsetMax ::
                             AmountKey(req.accountId, a) in live
  {
    hide LiveReservations, FirstFree;
    FirstFreeIsLeast(LiveReservations(db, req.accountId), req.accountId, db.orders[req.orderNo].amount, 0,
                     req.bill.offsetMax);
  }

  /** The amounts of the pool are as many as its offsets: different amounts are different reservations. */
  lemma PoolAmountsDiffer(accountId: string, a: nat, b: nat)
    ensures AmountKey(accountId, a) == AmountKey(accountId, b) ==> a == b
  {
    if Money.Decimal(a) == Money.Decimal(b) { Money.DecimalInjective(a, b); }
  }
}
