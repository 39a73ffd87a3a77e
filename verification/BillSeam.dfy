/** The two payments an amount lookup can find: a run that ends with both recognisable at the very same instant. */
module BillSeam {
  import opened Wrappers
  import opened StateMachine
  import opened Rows
  import opened PaymentSteps
  import opened Steps
  import opened Shapes
  import opened BillMatching
  import Money

  const BILL := BillSettings(true, 60, AmountMode, 0)

  function Wanted(external: string): OrderRequest {
    OrderRequest("shop", Identity(external, None, external), Native, 100, 900, None)
  }

  function Asking(orderNo: string, paymentNo: string): PaymentRequest {
    PaymentRequest(orderNo, paymentNo, None, AlipayBill, "account", BILL)
  }

  /** Two orders of one amount: the second payment is created at the second the first one stops being recognisable. */
  const SEAM: seq<Step> := [
    CreateApp("shop", None),
    CreateOrder("o1", Wanted("e1")), CreateOrder("o2", Wanted("e2")),
    CreatePayment(Asking("o1", "p1")), Tick(60), CreatePayment(Asking("o2", "p2"))]

  function Placed(external: string, status: OrderStatus): Order {
    Order("shop", Identity(external, None, external), Native, 100, status, None, 900, 0, Some(900), None, None, None,
          false)
  }

  function Waiting(orderNo: string, at: int): Payment {
    Payment(orderNo, None, AlipayBill, "account", Processing, 100, 100, None, None, None,
            Some(Terms(AmountMode, Money.Decimal(100), at, at + 60)), None, 0, None, None)
  }

  /** The tables of a state that this run writes. */
  datatype Snapshot = Snapshot(now: int, orders: map<string, Order>, payments: map<string, Payment>,
                               reservations: map<ReservationKey, Reservation>, issued: set<string>)

  ghost predicate Shows(db: Db, s: Snapshot) {
    && db.now == s.now && "shop" in db.apps && db.orders == s.orders && db.payments == s.payments
    && db.reservations == s.reservations && db.issued == s.issued
  }

  const EMPTY := Snapshot(0, map[], map[], map[], {})

  /** The state in which the first payment waits, and the one in which both do. */
  const ONE := Snapshot(0, map["o1" := Placed("e1", OrderPending), "o2" := Placed("e2", OrderStatus.OrderCreated)],
                        map["p1" := Waiting("o1", 0)], map[AmountKey("account", 100) := Reservation("p1", 60)], {"p1"})
  const TWO := Snapshot(60, map["o1" := Placed("e1", OrderPending), "o2" := Placed("e2", OrderPending)],
                        map["p1" := Waiting("o1", 0), "p2" := Waiting("o2", 60)],
                        map[AmountKey("account", 100) := Reservation("p2", 120)], {"p1", "p2"})

  lemma AppStage()
    ensures Shows(Apply(EmptyDb(0), SEAM[0]), EMPTY)
  {
    StepWrites(EmptyDb(0), SEAM[0]);
  }

  lemma AppStays(db: Db, step: Step)
    requires step.CreateOrder? || step.CreatePayment?
    ensures Apply(db, step).apps == db.apps
  {
    hide Apply, NewOrder, NewPayment, PendingOrder, Reserved, OrderStepRow, OrderStepKey;
    CreationTaken(db, step);
  }

  lemma OrderRows(db: Db, s: Snapshot, orderNo: string, external: string)
    requires Shows(db, s) && s.now == 0 && orderNo !in s.orders
    requires forall no | no in s.orders :: s.orders[no].identity.external != external
    ensures var step := CreateOrder(orderNo, Wanted(external));
            && OrderKey(db, step) == orderNo && OrderRow(db, step) == Some(Placed(external, OrderStatus.OrderCreated))
            && PaymentRow(db, step) == None
  {
    hide Apply;
  }

  lemma OrderStage(db: Db, s: Snapshot, orderNo: string, external: string)
    requires Shows(db, s) && s.now == 0 && s.payments == map[] && orderNo !in s.orders
    requires forall no | no in s.orders :: s.orders[no].identity.external != external
    ensures Shows(Apply(db, CreateOrder(orderNo, Wanted(external))),
                  s.(orders := s.orders[orderNo := Placed(external, OrderStatus.OrderCreated)]))
  {
    hide Apply, OrderRow, PaymentRow, OrderKey, ReceiptRow, RefundRow;
    var step := CreateOrder(orderNo, Wanted(external));
    AppStays(db, step);
    OrderRows(db, s, orderNo, external);
    StepWrites(db, step);
  }

  function Paying(s: Snapshot, orderNo: string, paymentNo: string, external: string): Snapshot {
    Snapshot(s.now, s.orders[orderNo := Placed(external, OrderPending)],
             s.payments[paymentNo := Waiting(orderNo, s.now)],
             map[AmountKey("account", 100) := Reservation(paymentNo, s.now + 60)], s.issued + {paymentNo})
  }

  /** A payment is created while no reservation of the account is live. */
  lemma PaymentRows(db: Db, s: Snapshot, orderNo: string, paymentNo: string, external: string)
    requires Shows(db, s) && 0 <= s.now <= 60 && paymentNo !in s.issued
    requires orderNo in s.orders && s.orders[orderNo] == Placed(external, OrderStatus.OrderCreated)
    requires forall k | k in s.reservations :: k.accountId == "account" && s.reservations[k].expiresAt <= s.now
    ensures LiveReservations(db, "account") == map[]
    ensures NewPayment(db, Asking(orderNo, paymentNo)) == Some(Waiting(orderNo, db.now))
  {
    hide Apply, Money.Decimal;
    assert LiveReservations(db, "account") == map[];
    assert FirstFree(map[], "account", 100, 0, 0) == Some(0);
  }

  lemma PaymentStage(db: Db, s: Snapshot, orderNo: string, paymentNo: string, external: string)
    requires Shows(db, s) && 0 <= s.now <= 60 && paymentNo !in s.issued
    requires orderNo in s.orders && s.orders[orderNo] == Placed(external, OrderStatus.OrderCreated)
    requires forall k | k in s.reservations :: k.accountId == "account" && s.reservations[k].expiresAt <= s.now
    ensures Shows(Apply(db, CreatePayment(Asking(orderNo, paymentNo))), Paying(s, orderNo, paymentNo, external))
  {
    hide Apply, Money.Decimal, NewPayment, LiveReservations, RefundRow, ReceiptRow;
    var step := CreatePayment(Asking(orderNo, paymentNo));
    AppStays(db, step);
    PaymentRows(db, s, orderNo, paymentNo, external);
    StepWrites(db, step);
  }

  lemma TickStage(db: Db, s: Snapshot)
    requires Shows(db, s) && s.now == 0
    ensures Shows(Apply(db, Tick(60)), s.(now := 60))
  {
  }

  /** Up to the first payment. */
  lemma FirstHalf()
    ensures Shows(Replay(EmptyDb(0), SEAM[..4]), ONE)
  {
    hide Apply, Replay, Shows, Money.Decimal;
    AppStage();
    var s1 := Apply(EmptyDb(0), SEAM[0]);
    OrderStage(s1, EMPTY, "o1", "e1");
    var one := EMPTY.(orders := EMPTY.orders["o1" := Placed("e1", OrderStatus.OrderCreated)]);
    var s2 := Apply(s1, SEAM[1]);
    OrderStage(s2, one, "o2", "e2");
    var two := one.(orders := one.orders["o2" := Placed("e2", OrderStatus.OrderCreated)]);
    PaymentStage(Apply(s2, SEAM[2]), two, "o1", "p1", "e1");
    assert Paying(two, "o1", "p1", "e1") == ONE;
    ReplayFour(EmptyDb(0), SEAM[..4]);
  }

  lemma SecondHalf(db: Db)
    requires Shows(db, ONE)
    ensures Shows(Apply(Apply(db, SEAM[4]), SEAM[5]), TWO)
  {
    hide Apply, Shows, Money.Decimal;
    TickStage(db, ONE);
    PaymentStage(Apply(db, Tick(60)), ONE.(now := 60), "o2", "p2", "e2");
    assert Paying(ONE.(now := 60), "o2", "p2", "e2") == TWO;
  }

  lemma BothAnswer(db: Db)
    requires Shows(db, TWO)
    ensures ByAmount(db.payments, "account", Flow("trade", None, 100, 60, None)) == {"p1", "p2"}
  {
    hide Money.Decimal;
  }

  /** A line paid at the second both windows share is found twice by its amount. */
  lemma FoundTwice()
    ensures var db, flow := Replay(EmptyDb(0), SEAM), Flow("trade", None, 100, 60, None);
            && Reachable(db) && ByAmount(db.payments, "account", flow) == {"p1", "p2"}
            && |ByAmount(db.payments, "account", flow)| == 2
  {
    hide Apply, Replay, Reachable, Shows, ByAmount;
    FirstHalf();
    SecondHalf(Replay(EmptyDb(0), SEAM[..4]));
    ReplayLast(EmptyDb(0), SEAM);
    ReplayLast(EmptyDb(0), SEAM[..5]);
    assert SEAM[..5][..4] == SEAM[..4];
    ReplayReaches(0, SEAM);
    BothAnswer(Replay(EmptyDb(0), SEAM));
  }
}
