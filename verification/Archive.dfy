/** Archiving an application keeps the trail of its money. */
module Archive {
  import opened Wrappers
  import opened StateMachine
  import opened Rows
  import opened PaymentSteps
  import opened RefundSteps
  import opened Steps
  import opened OneWinner

  datatype Cleared = Cleared(orders: int, payments: int, refunds: int, events: int, deliveries: int, exceptions: int,
                             receipts: int)

  function OrdersToArchive(db: Db, appId: string): set<string> {
    set no | no in db.orders && InArchive(db, appId, no)
  }

  function MarkedDeleted(orders: map<string, Order>, archived: set<string>): map<string, Order> {
    map no | no in orders :: if no in archived then orders[no].(deleted := true) else orders[no]
  }

  lemma MarkedIsArchived(db: Db, appId: string)
    ensures MarkedDeleted(db.orders, OrdersToArchive(db, appId)) == ArchivedOrders(db, appId)
  {
  }

  function PaymentsOf(db: Db, appId: string): set<string> {
    set no | no in db.payments && PaymentInArchive(db, appId, no)
  }

  /** Payments whose money moved or that are settled. */
  function KeptPayments(db: Db, appId: string): set<string> {
    set no | no in db.payments && PaymentInArchive(db, appId, no)
      && (db.payments[no].status == Success || db.payments[no].status == Closed)
  }

  function RefundsOf(db: Db, appId: string): set<string> {
    set no | no in db.refunds && db.refunds[no].appId == appId
  }

  predicate Underway(status: RefundStatus) {
    status.RefundSuccess? || status.RefundProcessing? || status.RefundUnknown?
  }

  function KeptRefunds(db: Db, appId: string): set<string> {
    set no | no in db.refunds && db.refunds[no].appId == appId && Underway(db.refunds[no].status)
  }

  /** The counts the archive answers with, taken before anything is deleted. */
  function CountsReported(db: Db, appId: string): Cleared {
    Cleared(|OrdersToArchive(db, appId)|,
            |PaymentsOf(db, appId)| - |KeptPayments(db, appId)|,
            |RefundsOf(db, appId)| - |KeptRefunds(db, appId)|,
            |ClearedEvents(db, appId)|, |ClearedDeliveries(db, appId)|, |ClearedExceptions(db, appId)|,
              |ClearedReceipts(db, appId)|)
  }

  // ---- The trail ---------------------------------------------------------------------------

  lemma RefundsHavePaidPayments(db: Db, no: string)
    requires Inv(db) && no in db.refunds
    ensures var p := db.refunds[no].paymentNo; p in db.payments && db.payments[p].status == Success
  {
  }

  predicate PaymentsKept(db: Db, t: Db) {
    forall no | no in db.payments && (db.payments[no].status == Success || db.payments[no].status == Closed) ::
      no in t.payments && t.payments[no] == db.payments[no]
  }

  predicate RefundsKept(db: Db, t: Db) {
    forall no | no in db.refunds && Underway(db.refunds[no].status) ::
      no in t.refunds && t.refunds[no] == db.refunds[no]
  }

  predicate RefundsPaid(t: Db) {
    forall no | no in t.refunds ::
      t.refunds[no].paymentNo in t.payments && t.payments[t.refunds[no].paymentNo].status == Success
  }

  predicate NoRefundLost(db: Db, t: Db) {
    forall no | no in db.payments && no !in t.payments :: forall r | r in db.refunds :: db.refunds[r].paymentNo != no
  }

  lemma ArchiveKeepsPayments(db: Db, appId: string)
    ensures PaymentsKept(db, AfterArchive(db, appId))
  {
    hide ClearedEvents, ClearedExceptions, ClearedReceipts, ClearedDeliveries, ClearedRefunds, ArchivedOrders,
         WithoutReservations, PaymentInArchive;
  }

  lemma ArchiveKeepsRefunds(db: Db, appId: string)
    ensures RefundsKept(db, AfterArchive(db, appId))
  {
    hide ClearedEvents, ClearedExceptions, ClearedReceipts, ClearedDeliveries, ClearedPayments, ArchivedOrders,
         WithoutReservations;
  }

  lemma ArchiveKeepsRefundsPaid(db: Db, appId: string)
    requires RefundsPaid(db)
    ensures RefundsPaid(AfterArchive(db, appId))
    ensures NoRefundLost(db, AfterArchive(db, appId))
  {
    hide ClearedEvents, ClearedExceptions, ClearedReceipts, ClearedDeliveries, ArchivedOrders, WithoutReservations,
         PaymentInArchive;
  }

  lemma RefundsArePaid(db: Db)
    requires Inv(db)
    ensures RefundsPaid(db)
  {
    forall no | no in db.refunds
      ensures db.refunds[no].paymentNo in db.payments && db.payments[db.refunds[no].paymentNo].status == Success
    {
      RefundsHavePaidPayments(db, no);
    }
  }

  /**
   Payments that succeeded or closed and refunds that are underway or done survive as they are, every refund left still
   has its successful payment, and no payment that went had a refund.
   */
  lemma TrailIsKept(db: Db, appId: string)
    requires Reachable(db)
    ensures var t := AfterArchive(db, appId);
            PaymentsKept(db, t) && RefundsKept(db, t) && RefundsPaid(t) && NoRefundLost(db, t)
  {
    hide Reachable, Inv, AfterArchive, PaymentsKept, RefundsKept, RefundsPaid, NoRefundLost;
    ReachableInv(db);
    RefundsArePaid(db);
    ArchiveKeepsPayments(db, appId);
    ArchiveKeepsRefunds(db, appId);
    ArchiveKeepsRefundsPaid(db, appId);
  }

  // ---- The counts --------------------------------------------------------------------------

  lemma RowsLeft<K, V>(m: map<K, V>, gone: set<K>)
    requires gone <= m.Keys
    ensures |m| - |m - gone| == |gone|
  {
    assert (m - gone).Keys == m.Keys - gone;
    assert m.Keys == (m.Keys - gone) + gone;
  }

  lemma SplitCount<K>(all: set<K>, kept: set<K>, gone: set<K>)
    requires kept + gone == all && kept !! gone
    ensures |all| - |kept| == |gone|
  {
  }

  /** An order is archived once. */
  function FreshlyDeleted(db: Db, t: Db): set<string> {
    set no | no in t.orders && t.orders[no].deleted && no in db.orders && !db.orders[no].deleted
  }

  /** The rows gone between two states of the tables, table by table, and the orders newly marked. */
  function RowsGone(db: Db, t: Db): Cleared {
    Cleared(|FreshlyDeleted(db, t)|, |db.payments| - |t.payments|, |db.refunds| - |t.refunds|, |db.events| - |t.events|,
            |db.deliveries| - |t.deliveries|, |db.exceptions| - |t.exceptions|, |db.receipts| - |t.receipts|)
  }

  /** The counts reported are the rows that are gone. */
  lemma CountsAreRows(db: Db, appId: string)
    ensures CountsReported(db, appId) == RowsGone(db, AfterArchive(db, appId))
  {
    hide *;
    OrdersCounted(db, appId);
    PaymentsCounted(db, appId);
    RefundsCounted(db, appId);
    TracesCounted(db, appId);
    CountsAgree(db, AfterArchive(db, appId), appId);
  }

  lemma CountsAgree(db: Db, t: Db, appId: string)
    requires FreshlyDeleted(db, t) == OrdersToArchive(db, appId)
    requires |PaymentsOf(db, appId)| - |KeptPayments(db, appId)| == |db.payments| - |t.payments|
    requires |RefundsOf(db, appId)| - |KeptRefunds(db, appId)| == |db.refunds| - |t.refunds|
    requires |ClearedEvents(db, appId)| == |db.events| - |t.events|
    requires |ClearedDeliveries(db, appId)| == |db.deliveries| - |t.deliveries|
    requires |ClearedExceptions(db, appId)| == |db.exceptions| - |t.exceptions|
    requires |ClearedReceipts(db, appId)| == |db.receipts| - |t.receipts|
    ensures CountsReported(db, appId) == RowsGone(db, t)
  {
    hide ClearedEvents, ClearedExceptions, ClearedReceipts, ClearedDeliveries, OrdersToArchive, PaymentsOf,
         KeptPayments, RefundsOf, KeptRefunds, FreshlyDeleted;
  }

  lemma TracesCounted(db: Db, appId: string)
    ensures var t := AfterArchive(db, appId);
            && |ClearedEvents(db, appId)| == |db.events| - |t.events|
            && |ClearedDeliveries(db, appId)| == |db.deliveries| - |t.deliveries|
            && |ClearedExceptions(db, appId)| == |db.exceptions| - |t.exceptions|
            && |ClearedReceipts(db, appId)| == |db.receipts| - |t.receipts|
  {
    RowsLeft(db.events, ClearedEvents(db, appId));
    RowsLeft(db.deliveries, ClearedDeliveries(db, appId));
    RowsLeft(db.exceptions, ClearedExceptions(db, appId));
    RowsLeft(db.receipts, ClearedReceipts(db, appId));
  }

  lemma OrdersCounted(db: Db, appId: string)
    ensures FreshlyDeleted(db, AfterArchive(db, appId)) == OrdersToArchive(db, appId)
  {
    hide ClearedEvents, ClearedExceptions, ClearedReceipts, ClearedDeliveries, WithoutReservations, ClearedPayments,
         ClearedRefunds;
  }

  lemma PaymentsCounted(db: Db, appId: string)
    ensures |PaymentsOf(db, appId)| - |KeptPayments(db, appId)| == |db.payments| - |AfterArchive(db, appId).payments|
  {
    SplitCount(PaymentsOf(db, appId), KeptPayments(db, appId), ClearedPayments(db, appId));
    RowsLeft(db.payments, ClearedPayments(db, appId));
  }

  lemma RefundsCounted(db: Db, appId: string)
    ensures |RefundsOf(db, appId)| - |KeptRefunds(db, appId)| == |db.refunds| - |AfterArchive(db, appId).refunds|
  {
    SplitCount(RefundsOf(db, appId), KeptRefunds(db, appId), ClearedRefunds(db, appId));
    RowsLeft(db.refunds, ClearedRefunds(db, appId));
  }

  // ---- Whose rows go -----------------------------------------------------------------------

  /** An order of the application that is not deleted. */
  predicate LiveOrderOf(db: Db, appId: string, orderNo: string) {
    orderNo in db.orders && db.orders[orderNo].appId == appId && !db.orders[orderNo].deleted
  }

  /** The row is about such an order, or about a payment for one. */
  predicate About(db: Db, appId: string, orderNo: Option<string>, no: Option<string>) {
    || (orderNo.Some? && LiveOrderOf(db, appId, orderNo.value))
    || (no.Some? && no.value in db.payments && LiveOrderOf(db, appId, db.payments[no.value].orderNo))
  }

  /** Some rows of the table are gone, and the others are as they were. */
  ghost predicate Without<K(!new), V>(before: map<K, V>, after: map<K, V>, gone: iset<K>) {
    forall k :: (k in after <==> k in before && k !in gone) && (k in after ==> after[k] == before[k])
  }

  /** Orders and payments that go are the application's own, payments only while no money moved. */
  ghost predicate OwnBusinessGoes(db: Db, t: Db, appId: string) {
    && t.orders.Keys == db.orders.Keys
    && (forall no | no in db.orders ::
        t.orders[no] == if LiveOrderOf(db, appId, no) then db.orders[no].(deleted := true) else db.orders[no])
    && Without(db.payments, t.payments,
               iset no | no in db.payments && LiveOrderOf(db, appId, db.payments[no].orderNo)
                         && db.payments[no].status !in {Success, Closed})
    && Without(db.refunds, t.refunds,
               iset no | no in db.refunds && db.refunds[no].appId == appId
                         && db.refunds[no].status !in {RefundSuccess, RefundProcessing, RefundUnknown})
    && Without(db.reservations, t.reservations,
               iset k | k in db.reservations && db.reservations[k].paymentNo in db.payments.Keys - t.payments.Keys)
  }

  /** The traces that go are about the application's orders; its deliveries go, and no others. */
  ghost predicate OwnTracesGo(db: Db, t: Db, appId: string) {
    && Without(db.deliveries, t.deliveries, iset k | k in db.deliveries && db.deliveries[k] == appId)
    && Without(db.events, t.events,
               iset e | e in db.events && About(db, appId, db.events[e].orderNo, db.events[e].paymentNo))
    && Without(db.exceptions, t.exceptions,
               iset k | k in db.exceptions && About(db, appId, db.exceptions[k].orderNo, db.exceptions[k].paymentNo))
    && Without(db.receipts, t.receipts,
               iset id | id in db.receipts && About(db, appId, None, db.receipts[id].paymentNo))
  }

  /** The application is disabled; other applications, the clock and the numbers issued stay. */
  ghost predicate OnlyDisabled(db: Db, t: Db, appId: string) {
    && t.apps == db.apps[appId := App(false, None)] && t.now == db.now && t.issued == db.issued
    && t.tickets == db.tickets && t.nextEventId == db.nextEventId
  }

  /** Exactly the application's rows go, and everything else stays as it is. */
  ghost predicate TakesOwnRows(db: Db, t: Db, appId: string) {
    OwnBusinessGoes(db, t, appId) && OwnTracesGo(db, t, appId) && OnlyDisabled(db, t, appId)
  }

  lemma ArchiveTakesOwnRows(db: Db, appId: string)
    ensures TakesOwnRows(db, AfterArchive(db, appId), appId)
  {
    hide AfterArchive;
    BusinessGoes(db, appId);
    TracesGo(db, appId);
    Disabled(db, appId);
  }

  lemma BusinessGoes(db: Db, appId: string)
    ensures OwnBusinessGoes(db, AfterArchive(db, appId), appId)
  {
    hide ClearedEvents, ClearedExceptions, ClearedReceipts, ClearedDeliveries;
  }

  lemma TracesGo(db: Db, appId: string)
    ensures OwnTracesGo(db, AfterArchive(db, appId), appId)
  {
    hide ClearedPayments, ClearedRefunds, ArchivedOrders, WithoutReservations;
  }

  lemma Disabled(db: Db, appId: string)
    ensures OnlyDisabled(db, AfterArchive(db, appId), appId)
  {
    hide ClearedEvents, ClearedExceptions, ClearedReceipts, ClearedDeliveries, ClearedPayments, ClearedRefunds,
         ArchivedOrders, WithoutReservations;
  }
}
