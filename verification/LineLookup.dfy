/**
 Which payment a bill line is taken to, told by the payments' own rows; and what becomes of it if nobody interferes.
 */
module LineLookup {
  import opened Wrappers
  import opened StateMachine
  import opened ReceiptText
  import opened Rows
  import opened PaymentSteps
  import opened RefundSteps
  import opened Steps
  import opened Shapes
  import opened OneWinner
  import opened Forward
  import opened BillPayments
  import opened BillMatching
  import opened ServiceSteps
  import opened SuccessReports

  /** The line's merchant order number is the payment's number, or the number its channel gave it. */
  predicate Names(payments: map<string, Payment>, accountId: string, flow: Flow, no: string) {
    && no in payments && payments[no].channel == AlipayBill && payments[no].accountId == accountId
    && flow.merchantOrderNo.Some?
    && (no == flow.merchantOrderNo.value || payments[no].channelOrderNo == flow.merchantOrderNo)
  }

  predicate CarriesTrade(payments: map<string, Payment>, flow: Flow, no: string) {
    no in payments && payments[no].tradeNo == Some(flow.tradeNo)
  }

  /** The line names this payment and no other, and no other payment has its trade number. */
  ghost predicate NamesAlone(payments: map<string, Payment>, accountId: string, flow: Flow, no: string) {
    && Names(payments, accountId, flow, no)
    && (forall other | Names(payments, accountId, flow, other) :: other == no)
    && (forall x | CarriesTrade(payments, flow, x) :: x == no)
  }

  predicate OfAccount(payments: map<string, Payment>, accountId: string, no: string) {
    no in payments && payments[no].channel == AlipayBill && payments[no].accountId == accountId
  }

  lemma DirectIsNamed(payments: map<string, Payment>, accountId: string, flow: Flow)
    ensures forall no :: no in Direct(payments, accountId, flow) <==> Names(payments, accountId, flow, no)
    ensures forall no :: no in ByTrade(payments, flow) <==> CarriesTrade(payments, flow, no)
  {
  }

  lemma OneOf(s: set<string>, no: string)
    requires no in s && forall other | other in s :: other == no
    ensures s == {no} && |s| == 1
  {
  }

  lemma TwoOf(s: set<string>, a: string, b: string)
    requires a in s && b in s && a != b
    ensures |s| > 1
  {
    assert {a, b} <= s;
    assert |s - {a}| == |s| - 1;
    assert b in s - {a};
  }

  /** Two payments named by one number: the line is ambiguous. */
  lemma NamesTwo(db: Db, accountId: string, flow: Flow, c: Choice, a: string, b: string)
    requires Locates(db.payments, accountId, flow, c) && a != b
    requires Names(db.payments, accountId, flow, a) && Names(db.payments, accountId, flow, b)
    ensures c == Refusal(None, true, false)
  {
    hide Names, CarriesTrade, Direct, ByTrade, LocatesByContent;
    DirectIsNamed(db.payments, accountId, flow);
    TwoOf(Direct(db.payments, accountId, flow), a, b);
  }

  /**
   A line that names one payment of the account is taken to it, unless another payment has the line's trade number: then
   it is a conflict, which names that payment if it is foreign and the one named if it is not.
   */
  lemma NamesOne(db: Db, accountId: string, flow: Flow, c: Choice, no: string)
    requires Locates(db.payments, accountId, flow, c) && TradesApart(db.payments)
    requires Names(db.payments, accountId, flow, no)
    requires forall other | Names(db.payments, accountId, flow, other) :: other == no
    ensures (forall x | CarriesTrade(db.payments, flow, x) :: x == no) ==> c == OnePayment(no)
    ensures forall x | CarriesTrade(db.payments, flow, x) && x != no ::
              c == Refusal(Some(if OfAccount(db.payments, accountId, x) then no else x), false, true)
  {
    hide Names, CarriesTrade, Direct, ByTrade, LocatesByContent;
    DirectIsNamed(db.payments, accountId, flow);
    OneOf(Direct(db.payments, accountId, flow), no);
    NamedIsOfAccount(db.payments, accountId, flow, no);
    forall x | CarriesTrade(db.payments, flow, x)
      ensures ByTrade(db.payments, flow) == {x} && x in db.payments
    {
      TradeIsOne(db.payments, flow, x);
    }
    if x :| CarriesTrade(db.payments, flow, x) {
      assert x in ByTrade(db.payments, flow);
    } else {
      assert ByTrade(db.payments, flow) == {};
    }
  }

  lemma NamedIsOfAccount(payments: map<string, Payment>, accountId: string, flow: Flow, no: string)
    requires Names(payments, accountId, flow, no)
    ensures OfAccount(payments, accountId, no)
  {
  }

  lemma TradeIsOne(payments: map<string, Payment>, flow: Flow, x: string)
    requires TradesApart(payments) && CarriesTrade(payments, flow, x)
    ensures ByTrade(payments, flow) == {x} && x in payments
  {
  }

  /** A line that names no payment is taken to the one that has its trade number, unless that is foreign. */
  lemma NamesNone(db: Db, accountId: string, flow: Flow, c: Choice, x: string)
    requires Locates(db.payments, accountId, flow, c) && TradesApart(db.payments)
    requires forall other :: !Names(db.payments, accountId, flow, other)
    requires CarriesTrade(db.payments, flow, x)
    ensures c == if OfAccount(db.payments, accountId, x) then OnePayment(x) else Refusal(Some(x), false, true)
  {
    hide Names, CarriesTrade, Direct, ByTrade, LocatesByContent;
    DirectIsNamed(db.payments, accountId, flow);
    TradeIsOne(db.payments, flow, x);
    assert Direct(db.payments, accountId, flow) == {};
  }

  // ---- By what the line says ---------------------------------------------------------------

  /** An amount payment of the account that the line's amount and time fit. */
  predicate FitsByAmount(payments: map<string, Payment>, accountId: string, flow: Flow, no: string) {
    && OfAccount(payments, accountId, no) && payments[no].channelAmount == flow.amount
    && payments[no].terms.Some? && payments[no].terms.value.mode == AmountMode
    && payments[no].terms.value.validFrom <= flow.paidAt <= payments[no].terms.value.validUntil
  }

  /** A payment of the account with this reference. */
  predicate HasGiven(payments: map<string, Payment>, accountId: string, reference: string, no: string) {
    OfAccount(payments, accountId, no) && payments[no].terms.Some? && payments[no].terms.value.reference == reference
  }

  predicate FitsTime(payments: map<string, Payment>, flow: Flow, no: string)
    requires no in payments && payments[no].terms.Some?
  {
    && payments[no].channelAmount == flow.amount
    && payments[no].terms.value.validFrom <= flow.paidAt <= payments[no].terms.value.validUntil
  }

  /** Neither named nor traded: without a token in the remark the amount decides. */
  lemma ByAmountAlone(db: Db, accountId: string, flow: Flow, c: Choice)
    requires Locates(db.payments, accountId, flow, c)
    requires forall no :: !Names(db.payments, accountId, flow, no) && !CarriesTrade(db.payments, flow, no)
    requires forall i: nat :: !TokenAt(Remark(flow.remark), i)
    ensures c.NoPayment? <==> forall no :: !FitsByAmount(db.payments, accountId, flow, no)
    ensures c.OnePayment? <==> exists no :: FitsByAmount(db.payments, accountId, flow, no)
                                 && forall other | FitsByAmount(db.payments, accountId, flow, other) :: other == no
    ensures c.OnePayment? ==> FitsByAmount(db.payments, accountId, flow, c.paymentNo)
    ensures c.Refusal? ==> c == Refusal(None, true, false)
  {
    hide Names, CarriesTrade, Direct, ByTrade, ByAmount, FitsByAmount, Matches, TokenAt, Chosen, HasReference,
         ExtractReference;
    DirectIsNamed(db.payments, accountId, flow);
    assert Direct(db.payments, accountId, flow) == {} && ByTrade(db.payments, flow) == {};
    NoTokens(flow.remark);
    FittingSet(db.payments, accountId, flow);
    ChosenAlone(ByAmount(db.payments, accountId, flow), c);
  }

  /** The only candidate is chosen. */
  lemma ChosenAlone(s: set<string>, c: Choice)
    requires Chosen(s, c, c == NoPayment)
    ensures c.NoPayment? <==> forall no :: no !in s
    ensures c.OnePayment? <==> exists no :: no in s && forall other | other in s :: other == no
    ensures c.OnePayment? ==> c.paymentNo in s
    ensures c.Refusal? ==> c == Refusal(None, true, false)
  {
    if |s| > 1 {
      var a :| a in s;
      assert |s - {a}| == |s| - 1;
      var b :| b in s - {a};
    } else if s != {} {
      var a :| a in s;
      assert |s - {a}| == 0;
    }
  }

  lemma FittingSet(payments: map<string, Payment>, accountId: string, flow: Flow)
    ensures forall no :: no in ByAmount(payments, accountId, flow) <==> FitsByAmount(payments, accountId, flow, no)
  {
  }

  lemma NoTokens(remark: Option<string>)
    requires forall i: nat :: !TokenAt(Remark(remark), i)
    ensures !HasReference(remark) && ExtractReference(remark).None?
  {
    hide TokenAt, Matches;
    if Matches(Remark(remark), 0) != [] {
      var i := Matches(Remark(remark), 0)[0];
      assert i in Matches(Remark(remark), 0);
      MatchesAreTokens(Remark(remark), 0, i);
    }
  }

  /** With two tokens or more the line is refused. */
  lemma TwoTokens(db: Db, accountId: string, flow: Flow, c: Choice, i: nat, j: nat)
    requires Locates(db.payments, accountId, flow, c)
    requires forall no :: !Names(db.payments, accountId, flow, no) && !CarriesTrade(db.payments, flow, no)
    requires TokenAt(Remark(flow.remark), i) && TokenAt(Remark(flow.remark), j) && i != j
    ensures c == Refusal(None, false, false)
  {
    hide Names, CarriesTrade, Direct, ByTrade, Matches, TokenAt;
    DirectIsNamed(db.payments, accountId, flow);
    assert Direct(db.payments, accountId, flow) == {} && ByTrade(db.payments, flow) == {};
    MatchesAreTokens(Remark(flow.remark), 0, i);
    MatchesAreTokens(Remark(flow.remark), 0, j);
  }

  /** A reference that nobody has, or that only payments have which the line does not fit, refuses the line. */
  lemma ReferenceUnfit(db: Db, accountId: string, flow: Flow, c: Choice, reference: string)
    requires Locates(db.payments, accountId, flow, c) && ExtractReference(flow.remark) == Some(reference)
    requires forall no :: !Names(db.payments, accountId, flow, no) && !CarriesTrade(db.payments, flow, no)
    requires forall no | HasGiven(db.payments, accountId, reference, no) :: !FitsTime(db.payments, flow, no)
    ensures c.Refusal? && !c.ambiguous && !c.conflict
    ensures c.found.Some? <==> exists no :: HasGiven(db.payments, accountId, reference, no)
    ensures c.found.Some? ==> HasGiven(db.payments, accountId, reference, c.found.value)
  {
    hide Names, CarriesTrade, Direct, ByTrade, ExtractReference;
    DirectIsNamed(db.payments, accountId, flow);
    assert Direct(db.payments, accountId, flow) == {} && ByTrade(db.payments, flow) == {};
    var all := Referenced(db.payments, accountId, reference);
    assert forall no :: no in all <==> HasGiven(db.payments, accountId, reference, no);
    var seen :| Looked(seen, all) && Chosen(Fitting(db.payments, seen, flow), c, Unfitting(all, c));
    assert Fitting(db.payments, seen, flow) == {};
  }

  // ---- What becomes of a line that nobody interferes with -----------------------------------

  const QUIET := Breaks([], [], [], [], [])

  /** The line's receipt is new, unmatched, or was left locked for too long. */
  predicate Takes(db: Db, id: ReceiptId) {
    id in db.receipts ==>
      || db.receipts[id].status == Unmatched
      || (db.receipts[id].status == Matching && db.receipts[id].lockedUntil.Some?
          && db.receipts[id].lockedUntil.value <= db.now)
  }

  /** The line fits the payment: what it was asked, in its time, with its own remark where one was asked for. */
  predicate FitsPayment(p: Payment, flow: Flow) {
    && p.channelAmount == flow.amount
    && p.terms.Some? && p.terms.value.validFrom <= flow.paidAt <= p.terms.value.validUntil
    && (p.terms.value.mode == RemarkMode ==> ExtractReference(flow.remark) == Some(p.terms.value.reference))
  }

  /** Only receipts changed. */
  ghost predicate OnlyReceipts(db: Db, t: Db) {
    && t.now == db.now && t.payments == db.payments && t.orders == db.orders
    && t.receipts.Keys >= db.receipts.Keys
  }

  lemma Inserted(db: Db, id: ReceiptId, flow: Flow)
    requires id.tradeNo == flow.tradeNo
    ensures var t := Apply(db, InsertReceipt(id.accountId, flow));
            && OnlyReceipts(db, t) && id in t.receipts
            && t.receipts[id] == if id in db.receipts then db.receipts[id] else Receipt(Unmatched, flow, None, None)
  {
    hide Apply, PaymentRow, OrderRow, RefundRow, OrderKey, PaymentKey, RefundKey;
    QuietRows(db, InsertReceipt(id.accountId, flow));
    StepWrites(db, InsertReceipt(id.accountId, flow));
    assert ReceiptId(id.accountId, flow.tradeNo) == id;
  }

  /** Paperwork writes no order, payment or refund. */
  lemma QuietRows(db: Db, step: Step)
    requires IsFiling(step) || step.Mismatch?
    ensures PaymentRow(db, step) == None && OrderRow(db, step) == None && RefundRow(db, step) == None
  {
    hide NewPayment, PendingOrder, ReportOf, SucceededRow, WonRow, PaymentStepRow, OrderStepRow, NewRefund,
         ObservedRefund, ScheduledPayment, ScheduledRefund, PaidBackOrder, PaysBack;
  }

  lemma ClaimTaken(db: Db, id: ReceiptId)
    requires id in db.receipts && Takes(db, id)
    ensures ReceiptClaimable(db, id)
    ensures var t := Apply(db, ClaimReceipt(id));
            OnlyReceipts(db, t) && id in t.receipts && t.receipts[id].status == Matching
  {
    hide Apply, PaymentRow, OrderRow, RefundRow, OrderKey, PaymentKey, RefundKey;
    QuietRows(db, ClaimReceipt(id));
    StepWrites(db, ClaimReceipt(id));
  }

  lemma MismatchFiled(db: Db, id: ReceiptId, no: Option<string>, ambiguous: bool, conflict: bool)
    requires id in db.receipts && (no.Some? ==> no.value in db.payments)
    ensures var t := Apply(db, Mismatch(id, no, ambiguous, conflict));
            OnlyReceipts(db, t) && id in t.receipts && t.receipts[id].status == Mismatched
            && t.receipts[id].paymentNo == no
  {
    hide Apply, PaymentRow, OrderRow, RefundRow, OrderKey, PaymentKey, RefundKey;
    QuietRows(db, Mismatch(id, no, ambiguous, conflict));
    StepWrites(db, Mismatch(id, no, ambiguous, conflict));
  }

  /** The tables when the lookup is made. */
  lemma Found(db: Db, id: ReceiptId, flow: Flow) returns (t: Db)
    requires id.tradeNo == flow.tradeNo && Takes(db, id)
    ensures t == Replay(db, LineClaimed(id, flow, QUIET)) && OnlyReceipts(db, t)
    ensures ReceiptClaimable(Replay(db, LineStored(id, flow, QUIET)), id)
    ensures id in t.receipts && t.receipts[id].status == Matching
  {
    hide Apply, Replay, Takes;
    var insert := InsertReceipt(id.accountId, flow);
    assert LineStored(id, flow, QUIET) == [insert] && LineClaimed(id, flow, QUIET) == [insert] + [ClaimReceipt(id)];
    ReplayNothing(db);
    ReplayLast(db, [insert]);
    assert [insert][..0] == [] && ([insert] + [ClaimReceipt(id)])[..1] == [insert];
    Inserted(db, id, flow);
    StillTakes(db, Apply(db, insert), id);
    ClaimTaken(Apply(db, insert), id);
    ReplayLast(db, [insert] + [ClaimReceipt(id)]);
    t := Apply(Apply(db, insert), ClaimReceipt(id));
  }

  lemma StillTakes(db: Db, t: Db, id: ReceiptId)
    requires Takes(db, id) && t.now == db.now && id in t.receipts
    requires id in db.receipts ==> t.receipts[id] == db.receipts[id]
    requires id !in db.receipts ==> t.receipts[id].status == Unmatched
    ensures Takes(t, id)
  {
  }

  // ---- Paying by the line ------------------------------------------------------------------

  lemma ReportFits(db: Db, id: ReceiptId, no: string, flow: Flow)
    requires OfAccount(db.payments, id.accountId, no)
    ensures ReceiptReport(db, id.accountId, no, flow).Some? <==> FitsPayment(db.payments[no], flow)
  {
    hide ExtractReference;
  }

  /** A report of the line on a payment that has no other trade is taken, now or before. */
  lemma LineAccepted(db: Db, id: ReceiptId, no: string, flow: Flow)
    requires Reachable(db) && OfAccount(db.payments, id.accountId, no) && FitsPayment(db.payments[no], flow)
    requires db.payments[no].tradeNo.None? || db.payments[no].tradeNo == Some(flow.tradeNo)
    requires forall x | CarriesTrade(db.payments, flow, x) :: x == no
    ensures ReceiptReport(db, id.accountId, no, flow).Some?
    ensures !JudgeSuccess(db, ReceiptReport(db, id.accountId, no, flow).value).Refused?
  {
    hide Reachable, Inv, ExtractReference;
    ReachableInv(db);
    PaymentHasOrder(db, no);
    TradeVacant(db.payments, flow, no);
    if db.payments[no].status == Success { PaidInFull(db, no); }
  }

  lemma TradeVacant(payments: map<string, Payment>, flow: Flow, no: string)
    requires forall x | CarriesTrade(payments, flow, x) :: x == no
    ensures Untaken(payments, no, Some(flow.tradeNo))
  {
    forall other | other in payments && other != no ensures payments[other].tradeNo != Some(flow.tradeNo) {
      assert !CarriesTrade(payments, flow, other);
    }
  }

  /** What a report writes beside its own payment and order. */
  lemma ReportFrames(db: Db, step: Step, no: string)
    requires IsReport(step) && step.no == no && no in db.payments
    ensures Apply(db, step).receipts == db.receipts && OnlyPayment(db, Apply(db, step), no)
  {
    hide Apply, ReportOf, SucceededRow, OrderRow, RefundRow, OrderKey;
    StepWrites(db, step);
  }

  /** Once it is taken the payment is successful under the line's trade number, and no other payment changed. */
  lemma LinePays(db: Db, id: ReceiptId, no: string, flow: Flow)
    requires Reachable(db) && OfAccount(db.payments, id.accountId, no) && FitsPayment(db.payments[no], flow)
    requires db.payments[no].tradeNo.None? || db.payments[no].tradeNo == Some(flow.tradeNo)
    requires forall x | CarriesTrade(db.payments, flow, x) :: x == no
    ensures var t := Apply(db, ReceiptSuccess(id.accountId, no, flow));
            && t.receipts == db.receipts && OnlyPayment(db, t, no)
            && t.payments[no].status == Success && t.payments[no].tradeNo == Some(flow.tradeNo)
            && OfAccount(t.payments, id.accountId, no)
  {
    hide Reachable, Apply, Vouches, Untaken, TradeAfter, FitsPayment, CarriesTrade, OnlyPayment, Inv, Later;
    var step := ReceiptSuccess(id.accountId, no, flow);
    ReportFrames(db, step, no);
    if db.payments[no].status == Success {
      RepeatChangesNothing(db, step);
      PaidByThisLine(db, no);
    } else {
      LineVouches(db, id, no, flow);
      SucceedsExactly(db, step, no);
      ReachableInv(db);
      StepMoves(db, step);
      StaysInTable(db, Apply(db, step), no);
      KeepsTerms(db, Apply(db, step), no);
    }
  }

  lemma StaysInTable(db: Db, t: Db, no: string)
    requires OnlyPayment(db, t, no)
    ensures no in t.payments
  {
  }

  /** A successful bill payment carries a trade number. */
  lemma PaidByThisLine(db: Db, no: string)
    requires Reachable(db) && no in db.payments && db.payments[no].channel == AlipayBill
             && db.payments[no].status == Success
    ensures db.payments[no].tradeNo.Some?
  {
    hide Reachable, ExtractReference, RemarkReference;
    ProperSuccess(db, no);
  }

  lemma LineVouches(db: Db, id: ReceiptId, no: string, flow: Flow)
    requires OfAccount(db.payments, id.accountId, no) && FitsPayment(db.payments[no], flow)
    requires forall x | CarriesTrade(db.payments, flow, x) :: x == no
    ensures var step := ReceiptSuccess(id.accountId, no, flow);
            Vouches(step, no, db.payments[no]) && Untaken(db.payments, no, TradeAfter(step, db.payments[no]))
            && TradeAfter(step, db.payments[no]) == Some(flow.tradeNo)
  {
    hide ExtractReference;
    TradeVacant(db.payments, flow, no);
  }

  /** All payments but this one are as they were. */
  predicate OnlyPayment(db: Db, t: Db, no: string) {
    t.payments.Keys == db.payments.Keys && no in t.payments
    && forall other | other in db.payments && other != no :: t.payments[other] == db.payments[other]
  }

  // ---- The whole line ----------------------------------------------------------------------

  /** A payment the line is taken to is of the account, and no other payment has the line's trade number. */
  lemma LocatedIsFree(db: Db, accountId: string, flow: Flow, no: string)
    requires TradesApart(db.payments) && Locates(db.payments, accountId, flow, OnePayment(no))
    ensures OfAccount(db.payments, accountId, no)
    ensures forall x | CarriesTrade(db.payments, flow, x) :: x == no
  {
    hide ExtractReference, HasReference;
    DirectIsNamed(db.payments, accountId, flow);
    var direct, trade := Direct(db.payments, accountId, flow), ByTrade(db.payments, flow);
    if x :| CarriesTrade(db.payments, flow, x) {
      TradeIsOne(db.payments, flow, x);
      assert x in trade;
      if direct != {} { assert direct == trade; }
    }
    if no in direct { assert Names(db.payments, accountId, flow, no); }
  }

  /** What becomes of a line by what its lookup answered. */
  ghost predicate EndsAs(db: Db, t: Db, id: ReceiptId, flow: Flow, c: Choice, o: LineOutcome) {
    && id in t.receipts
    && match c
       case NoPayment =>
         && o == NotMatched && OnlyReceipts(db, t)
         && t.receipts[id].status == Unmatched && t.receipts[id].paymentNo == None
       case Refusal(found, ambiguous, conflict) =>
         && o == NotMatched && OnlyReceipts(db, t)
         && t.receipts[id].status == Mismatched && t.receipts[id].paymentNo == found
         && (conflict ==> ExceptionKey(PaymentStateConflict, ReceiptRecord(id)) in t.exceptions)
         && (ambiguous && !conflict ==> ExceptionKey(ReceiptAmbiguous, ReceiptRecord(id)) in t.exceptions)
       case OnePayment(no) =>
         && no in db.payments
         && var p := db.payments[no];
            if FitsPayment(p, flow) && (p.tradeNo.None? || p.tradeNo == Some(flow.tradeNo)) then
              && o == MatchedTo(no) && OnlyPayment(db, t, no)
              && t.payments[no].status == Success && t.payments[no].tradeNo == Some(flow.tradeNo)
              && t.receipts[id].status == Matched && t.receipts[id].paymentNo == Some(no)
            else
              && o == NotMatched && OnlyReceipts(db, t)
              && t.receipts[id].status == Mismatched && t.receipts[id].paymentNo == Some(no)
              && (FitsPayment(p, flow) ==> ExceptionKey(PaymentStateConflict, ReceiptRecord(id)) in t.exceptions)
  }

  lemma Exceptional(db: Db, id: ReceiptId, no: Option<string>, ambiguous: bool, conflict: bool)
    requires id in db.receipts && (no.Some? ==> no.value in db.payments)
    ensures var t := Apply(db, Mismatch(id, no, ambiguous, conflict));
            && (conflict ==> ExceptionKey(PaymentStateConflict, ReceiptRecord(id)) in t.exceptions)
            && (ambiguous && !conflict ==> ExceptionKey(ReceiptAmbiguous, ReceiptRecord(id)) in t.exceptions)
  {
    hide OpenedException, OpensAnew;
  }

  lemma UnmatchFiled(db: Db, id: ReceiptId)
    requires id in db.receipts
    ensures var t := Apply(db, UnmatchReceipt(id));
            OnlyReceipts(db, t) && id in t.receipts && t.receipts[id].status == Unmatched
            && t.receipts[id].paymentNo == None
  {
    hide Apply, PaymentRow, OrderRow, RefundRow, OrderKey, PaymentKey, RefundKey;
    QuietRows(db, UnmatchReceipt(id));
    StepWrites(db, UnmatchReceipt(id));
  }

  lemma MatchFiled(db: Db, id: ReceiptId, no: string)
    requires id in db.receipts && OfAccount(db.payments, id.accountId, no)
    requires db.payments[no].status == Success && db.payments[no].tradeNo == Some(id.tradeNo)
    ensures var t := Apply(db, MatchReceipt(id, no));
            OnlyReceipts(db, t) && id in t.receipts && t.receipts[id].status == Matched
            && t.receipts[id].paymentNo == Some(no)
  {
    hide Apply, PaymentRow, OrderRow, RefundRow, OrderKey, PaymentKey, RefundKey;
    QuietRows(db, MatchReceipt(id, no));
    StepWrites(db, MatchReceipt(id, no));
  }

  /** A line whose lookup found nothing, or was refused. */
  lemma UntakenEnds(db: Db, id: ReceiptId, flow: Flow, c: Choice)
    requires id in db.receipts && !c.OnePayment?
    requires c.Refusal? && c.found.Some? ==> c.found.value in db.payments
    ensures EndsAs(db, Replay(db, LineSteps(db, id, flow, c, QUIET)), id, flow, c,
                   LineOutcomeOf(db, id, flow, c, QUIET))
  {
    hide Apply, Replay, OnlyReceipts;
    match c
    case NoPayment =>
      ReplayOne(db, UnmatchReceipt(id));
      UnmatchFiled(db, id);
    case Refusal(found, ambiguous, conflict) =>
      ReplayOne(db, Mismatch(id, found, ambiguous, conflict));
      MismatchFiled(db, id, found, ambiguous, conflict);
      Exceptional(db, id, found, ambiguous, conflict);
  }

  lemma UnfitSteps(db: Db, id: ReceiptId, flow: Flow, no: string)
    requires OfAccount(db.payments, id.accountId, no)
    requires !(FitsPayment(db.payments[no], flow)
               && (db.payments[no].tradeNo.None? || db.payments[no].tradeNo == Some(flow.tradeNo)))
    ensures LinePaySteps(db, id, no, flow, QUIET) == [Mismatch(id, Some(no), false, FitsPayment(db.payments[no], flow))]
    ensures LinePayOutcome(db, id, no, flow, QUIET) == NotMatched
  {
    hide Replay, FitsPayment, ReceiptReport, LineSettleSteps, LineSettleOutcome;
    ReportFits(db, id, no, flow);
  }

  lemma UnfitEnds(db: Db, id: ReceiptId, flow: Flow, no: string)
    requires id in db.receipts && OfAccount(db.payments, id.accountId, no)
    requires !(FitsPayment(db.payments[no], flow)
               && (db.payments[no].tradeNo.None? || db.payments[no].tradeNo == Some(flow.tradeNo)))
    ensures EndsAs(db, Replay(db, LineSteps(db, id, flow, OnePayment(no), QUIET)), id, flow, OnePayment(no),
                   LineOutcomeOf(db, id, flow, OnePayment(no), QUIET))
  {
    hide Apply, Replay, OnlyReceipts, FitsPayment, LinePaySteps, LinePayOutcome;
    UnfitSteps(db, id, flow, no);
    var conflict := FitsPayment(db.payments[no], flow);
    ReplayOne(db, Mismatch(id, Some(no), false, conflict));
    MismatchFiled(db, id, Some(no), false, conflict);
    Exceptional(db, id, Some(no), false, conflict);
  }

  /** A line that fits pays, and is matched. */
  lemma FitSteps(db: Db, id: ReceiptId, flow: Flow, no: string)
    requires Reachable(db) && id in db.receipts && OfAccount(db.payments, id.accountId, no)
    requires FitsPayment(db.payments[no], flow) && forall x | CarriesTrade(db.payments, flow, x) :: x == no
    requires db.payments[no].tradeNo.None? || db.payments[no].tradeNo == Some(flow.tradeNo)
    ensures LinePaySteps(db, id, no, flow, QUIET) == [ReceiptSuccess(id.accountId, no, flow), MatchReceipt(id, no)]
    ensures LinePayOutcome(db, id, no, flow, QUIET) == MatchedTo(no)
  {
    hide Apply, Replay, Reachable, FitsPayment, ReceiptReport, JudgeSuccess, CarriesTrade;
    LineAccepted(db, id, no, flow);
    LinePays(db, id, no, flow);
    ReplayNothing(db);
    ReplayNothing(Apply(db, ReceiptSuccess(id.accountId, no, flow)));
  }

  lemma FitEnds(db: Db, id: ReceiptId, flow: Flow, no: string)
    requires Reachable(db) && id in db.receipts && id.tradeNo == flow.tradeNo
    requires OfAccount(db.payments, id.accountId, no) && FitsPayment(db.payments[no], flow)
    requires forall x | CarriesTrade(db.payments, flow, x) :: x == no
    requires db.payments[no].tradeNo.None? || db.payments[no].tradeNo == Some(flow.tradeNo)
    ensures EndsAs(db, Replay(db, LineSteps(db, id, flow, OnePayment(no), QUIET)), id, flow, OnePayment(no),
                   LineOutcomeOf(db, id, flow, OnePayment(no), QUIET))
  {
    hide Apply, Replay, Reachable, FitsPayment, CarriesTrade, LinePaySteps, LinePayOutcome;
    FitSteps(db, id, flow, no);
    LinePays(db, id, no, flow);
    var success := ReceiptSuccess(id.accountId, no, flow);
    MatchFiled(Apply(db, success), id, no);
    ReplayTwo(db, success, MatchReceipt(id, no));
  }

  /**
   A line that nobody interferes with is taken to what its lookup answers: it is left unmatched, refused with the
   payment in question, or, if it fits the payment found, pays it and nothing else.
   */
  lemma QuietLineEnds(db: Db, id: ReceiptId, flow: Flow, steps: seq<Step>, o: LineOutcome) returns (c: Choice)
    requires Reachable(db) && id.tradeNo == flow.tradeNo && Takes(db, id) && Ingests(db, id, flow, QUIET, steps, o)
    ensures Locates(db.payments, id.accountId, flow, c)
    ensures EndsAs(db, Replay(db, steps), id, flow, c, o)
  {
    hide Apply, Replay, Reachable, Takes, Locates, LineSteps, LineOutcomeOf, EndsAs, LineStored, LineClaimed, Billing;
    var claimed := LineClaimed(id, flow, QUIET);
    var found := Found(db, id, flow);
    c :| Locates(found.payments, id.accountId, flow, c) && steps == claimed + LineSteps(found, id, flow, c, QUIET)
         && o == LineOutcomeOf(found, id, flow, c, QUIET);
    ReachableOnward(db, claimed);
    ReachableBills(found);
    ReplayAppend(db, claimed, LineSteps(found, id, flow, c, QUIET));
    LocatedEnds(found, id, flow, c);
    EndsFromFound(db, found, Replay(db, steps), id, flow, c, o);
  }

  lemma LocatedEnds(db: Db, id: ReceiptId, flow: Flow, c: Choice)
    requires Reachable(db) && id in db.receipts && id.tradeNo == flow.tradeNo
    requires Locates(db.payments, id.accountId, flow, c)
    ensures EndsAs(db, Replay(db, LineSteps(db, id, flow, c, QUIET)), id, flow, c,
                   LineOutcomeOf(db, id, flow, c, QUIET))
  {
    hide Apply, Replay, Reachable, Locates, LineSteps, LineOutcomeOf, EndsAs, Billing, FitsPayment, CarriesTrade;
    ReachableBills(db);
    BillsApart(db);
    if c.OnePayment? {
      var no := c.paymentNo;
      LocatedIsFree(db, id.accountId, flow, no);
      var p := db.payments[no];
      if FitsPayment(p, flow) && (p.tradeNo.None? || p.tradeNo == Some(flow.tradeNo)) { FitEnds(db, id, flow, no); }
      else { UnfitEnds(db, id, flow, no); }
    } else {
      if c.Refusal? && c.found.Some? { RefusedIsStored(db.payments, id.accountId, flow, c); }
      UntakenEnds(db, id, flow, c);
    }
  }

  lemma RefusedIsStored(payments: map<string, Payment>, accountId: string, flow: Flow, c: Choice)
    requires Locates(payments, accountId, flow, c) && c.Refusal? && c.found.Some?
    ensures c.found.value in payments
  {
    hide ExtractReference, HasReference;
  }

  lemma EndsFromFound(db: Db, found: Db, t: Db, id: ReceiptId, flow: Flow, c: Choice, o: LineOutcome)
    requires OnlyReceipts(db, found) && EndsAs(found, t, id, flow, c, o)
    ensures EndsAs(db, t, id, flow, c, o)
  {
    hide FitsPayment;
  }

  /** A line that names one payment never settles another one: it is matched to that payment or refused with it. */
  lemma NamedLineEnds(db: Db, id: ReceiptId, flow: Flow, no: string, steps: seq<Step>, o: LineOutcome)
    requires Reachable(db) && id.tradeNo == flow.tradeNo && Takes(db, id) && Ingests(db, id, flow, QUIET, steps, o)
    requires NamesAlone(db.payments, id.accountId, flow, no)
    ensures EndsAs(db, Replay(db, steps), id, flow, OnePayment(no), o)
    ensures OnlyPayment(db, Replay(db, steps), no)
    ensures o in {MatchedTo(no), NotMatched}
  {
    hide Reachable, Ingests, Takes, Locates, Names, CarriesTrade, Replay, FitsPayment, Billing;
    var c := QuietLineEnds(db, id, flow, steps, o);
    ReachableBills(db);
    BillsApart(db);
    NamesOne(db, id.accountId, flow, c, no);
  }

  // ---- A line seen before, and one taken in again ------------------------------------------

  /** What a stored receipt answers: the payment it is matched to, or that it is not matched. */
  predicate AnsweredFrom(r: Receipt, o: LineOutcome) {
    o == match r.paymentNo
         case Some(no) => if r.status == Matched then MatchedTo(no) else NotMatched
         case None => NotMatched
  }

  /** A line whose receipt is matched, refused or being matched changes nothing and is answered from its receipt. */
  lemma SeenLineEnds(db: Db, id: ReceiptId, flow: Flow, steps: seq<Step>, o: LineOutcome)
    requires id.tradeNo == flow.tradeNo && !Takes(db, id) && Ingests(db, id, flow, QUIET, steps, o)
    ensures Replay(db, steps) == db && AnsweredFrom(db.receipts[id], o)
  {
    hide Apply, Replay, Locates, LineSteps, LineOutcomeOf, LineClaimed;
    var insert := InsertReceipt(id.accountId, flow);
    assert LineStored(id, flow, QUIET) == [insert];
    ReplayOne(db, insert);
    InsertedBefore(db, id, flow);
  }

  lemma InsertedBefore(db: Db, id: ReceiptId, flow: Flow)
    requires id in db.receipts && id.tradeNo == flow.tradeNo
    ensures Apply(db, InsertReceipt(id.accountId, flow)) == db
  {
    hide Apply;
    FilingApplied(db, InsertReceipt(id.accountId, flow));
  }

  lemma Reopened(db: Db, id: ReceiptId)
    requires id in db.receipts
    ensures var t := Apply(db, ReopenReceipt(id)); OnlyReceipts(db, t) && Takes(t, id)
  {
    hide Apply, PaymentRow, OrderRow, RefundRow, OrderKey, PaymentKey, RefundKey;
    QuietRows(db, ReopenReceipt(id));
    StepWrites(db, ReopenReceipt(id));
  }

  // ---- A line overtaken --------------------------------------------------------------------

  /**
   A line that fits but comes too late writes no payment: while another payment has just got its trade number it is
   put off for a minute, with an error; when its own payment was paid by another trade it is refused as a conflict.
   */
  lemma OvertakenLine(db: Db, id: ReceiptId, no: string, flow: Flow, settling: seq<Step>)
    requires Reachable(db) && id in db.receipts && OfAccount(db.payments, id.accountId, no)
    requires FitsPayment(db.payments[no], flow)
    ensures var p, t := db.payments[no], Replay(db, LineSettleSteps(db, id, no, flow, settling));
            var o := LineSettleOutcome(db, id, no, flow, settling);
            && (p.status != Success && (exists x :: x != no && CarriesTrade(db.payments, flow, x)) ==>
                  && o == Thrown && t.payments == db.payments
                  && t.receipts == db.receipts[id := db.receipts[id].(status := Matching,
                                                                      lockedUntil := Some(db.now + 60))])
            && (p.status == Success && p.tradeNo != Some(flow.tradeNo) ==>
                  && o == NotMatched && t.payments == db.payments && id in t.receipts
                  && t.receipts[id].status == Mismatched && t.receipts[id].paymentNo == None
                  && ExceptionKey(PaymentStateConflict, ReceiptRecord(id)) in t.exceptions)
  {
    hide Reachable, Replay, Apply, FitsPayment, ReceiptReport, JudgeSuccess, CarriesTrade;
    ReportFits(db, id, no, flow);
    var p := db.payments[no];
    if p.status != Success && exists x :: x != no && CarriesTrade(db.payments, flow, x) {
      TradeGone(db, id, no, flow);
      PutOff(db, id, no, flow);
    } else if p.status == Success && p.tradeNo != Some(flow.tradeNo) {
      PaidByThisLine(db, no);
      OtherTrade(db, id, no, flow);
      RefusedLate(db, id, no, flow);
    }
  }

  lemma TradeGone(db: Db, id: ReceiptId, no: string, flow: Flow)
    requires Reachable(db) && ReceiptReport(db, id.accountId, no, flow).Some? && db.payments[no].status != Success
    requires exists x :: x != no && CarriesTrade(db.payments, flow, x)
    ensures JudgeSuccess(db, ReceiptReport(db, id.accountId, no, flow).value) == SuccessVerdict.Refused(TradeNoTaken)
  {
    hide Reachable, ExtractReference, Inv;
    ReachableInv(db);
    PaymentHasOrder(db, no);
  }

  lemma OtherTrade(db: Db, id: ReceiptId, no: string, flow: Flow)
    requires Reachable(db) && ReceiptReport(db, id.accountId, no, flow).Some? && db.payments[no].status == Success
    requires db.payments[no].tradeNo.Some? && db.payments[no].tradeNo != Some(flow.tradeNo)
    ensures JudgeSuccess(db, ReceiptReport(db, id.accountId, no, flow).value) == SuccessVerdict.Refused(TradeConflict)
  {
    hide Reachable, ExtractReference, TradeNoFree, Inv;
    ReachableInv(db);
    PaymentHasOrder(db, no);
  }

  /** A refused report of a line writes nothing. */
  lemma RefusedReport(db: Db, id: ReceiptId, no: string, flow: Flow)
    requires ReceiptReport(db, id.accountId, no, flow).Some?
    requires JudgeSuccess(db, ReceiptReport(db, id.accountId, no, flow).value).Refused?
    ensures Apply(db, ReceiptSuccess(id.accountId, no, flow)) == db
  {
    hide Apply, JudgeSuccess, ReceiptReport, AfterSuccess;
    ReportApplied(db, ReceiptSuccess(id.accountId, no, flow));
    RefusedSuccess(db, ReceiptReport(db, id.accountId, no, flow).value);
  }

  lemma RefusedSuccess(db: Db, r: Report)
    requires JudgeSuccess(db, r).Refused?
    ensures AfterSuccess(db, r) == db
  {
    hide JudgeSuccess;
  }

  lemma PutOff(db: Db, id: ReceiptId, no: string, flow: Flow)
    requires id in db.receipts && ReceiptReport(db, id.accountId, no, flow).Some?
    requires JudgeSuccess(db, ReceiptReport(db, id.accountId, no, flow).value) == SuccessVerdict.Refused(TradeNoTaken)
    ensures var t := Replay(db, [ReceiptSuccess(id.accountId, no, flow), DeferReceipt(id)]);
            && t.payments == db.payments
            && t.receipts == db.receipts[id := db.receipts[id].(status := Matching, lockedUntil := Some(db.now + 60))]
  {
    hide Replay, Apply, JudgeSuccess, ReceiptReport;
    ReplayTwo(db, ReceiptSuccess(id.accountId, no, flow), DeferReceipt(id));
    RefusedReport(db, id, no, flow);
    Deferred(db, id);
  }

  lemma Deferred(db: Db, id: ReceiptId)
    requires id in db.receipts
    ensures var t := Apply(db, DeferReceipt(id));
            && t.payments == db.payments
            && t.receipts == db.receipts[id := db.receipts[id].(status := Matching, lockedUntil := Some(db.now + 60))]
  {
    hide Apply, PaymentRow, OrderRow, RefundRow, OrderKey, PaymentKey, RefundKey;
    QuietRows(db, DeferReceipt(id));
    StepWrites(db, DeferReceipt(id));
  }

  lemma RefusedLate(db: Db, id: ReceiptId, no: string, flow: Flow)
    requires id in db.receipts && ReceiptReport(db, id.accountId, no, flow).Some?
    requires JudgeSuccess(db, ReceiptReport(db, id.accountId, no, flow).value) == SuccessVerdict.Refused(TradeConflict)
    ensures var t := Replay(db, [ReceiptSuccess(id.accountId, no, flow), Mismatch(id, None, false, true)]);
            && t.payments == db.payments && id in t.receipts && t.receipts[id].status == Mismatched
            && t.receipts[id].paymentNo == None && ExceptionKey(PaymentStateConflict, ReceiptRecord(id)) in t.exceptions
  {
    hide Replay, Apply, JudgeSuccess, ReceiptReport;
    ReplayTwo(db, ReceiptSuccess(id.accountId, no, flow), Mismatch(id, None, false, true));
    RefusedReport(db, id, no, flow);
    MismatchFiled(db, id, None, false, true);
    Exceptional(db, id, None, false, true);
  }
}
