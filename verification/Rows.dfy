/** The tables of the payment core. */
module Rows {
  import opened Wrappers
  import opened StateMachine

  datatype Channel = Alipay | AlipayBill | Mock

  datatype MatchMode = RemarkMode | AmountMode

  /** One normalised line of an account's bill. */
  datatype Flow = Flow(tradeNo: string, merchantOrderNo: Option<string>, amount: nat, paidAt: int,
                       remark: Option<string>)

  /** How a bill payment is recognised, and when. */
  datatype Terms = Terms(mode: MatchMode, reference: string, validFrom: int, validUntil: int)

  datatype App = App(active: bool, webhookUrl: Option<string>)

  datatype Protocol = Native | Epay

  /** What an order is known by: the application's own number and key, and the text its request is hashed from. */
  datatype Identity = Identity(external: string, key: Option<string>, text: string)

  datatype Order = Order(
    appId: string, identity: Identity, protocol: Protocol, amount: nat, status: OrderStatus, winner: Option<string>,
    expiresAt: int, expirationAttempts: nat, nextAttemptAt: Option<int>, lockedUntil: Option<int>,
    notifyUrl: Option<string>, paidAt: Option<int>, deleted: bool)

  /** `flow` is the raw report of the bill line a bill payment succeeded by. */
  datatype Payment = Payment(
    orderNo: string, key: Option<string>, channel: Channel, accountId: string, status: PaymentStatus,
    amount: nat, channelAmount: nat, received: Option<nat>, tradeNo: Option<string>, channelOrderNo: Option<string>,
    terms: Option<Terms>, flow: Option<Flow>, attempts: nat, nextQueryAt: Option<int>, paidAt: Option<int>)

  /** `revived` remembers that the refund came back after it had failed; the tables do not store it. */
  datatype Refund = Refund(
    appId: string, external: string, paymentNo: string, amount: nat, reason: Option<string>, status: RefundStatus,
    attempts: nat, nextQueryAt: Option<int>, revived: bool)

  datatype ReservationKey = ReservationKey(accountId: string, mode: MatchMode, value: string)

  datatype Reservation = Reservation(paymentNo: string, expiresAt: int)

  /** The fingerprint of a bill line. */
  datatype ReceiptId = ReceiptId(accountId: string, tradeNo: string)

  datatype ReceiptStatus = Unmatched | Matching | Matched | Mismatched

  datatype Receipt = Receipt(status: ReceiptStatus, flow: Flow, paymentNo: Option<string>, lockedUntil: Option<int>)

  datatype ExceptionType = LateDuplicate | ReceiptAmbiguous | PaymentStateConflict

  datatype ExceptionStatus = ExceptionOpen | ExceptionProcessing | ExceptionResolved | ExceptionIgnored

  /** Still waiting for somebody. */
  predicate IsLive(status: ExceptionStatus) {
    status.ExceptionOpen? || status.ExceptionProcessing?
  }

  datatype Record =
    | OrderRecord(orderNo: string)
    | PaymentRecord(paymentNo: string)
    | RefundRecord(refundNo: string)
    | ReceiptRecord(id: ReceiptId)

  datatype ExceptionKey = ExceptionKey(kind: ExceptionType, subject: Record)

  datatype Exception = Exception(status: ExceptionStatus, orderNo: Option<string>, paymentNo: Option<string>)

  datatype EventKind =
    | OrderExpiredEvent | OrderSucceededEvent
    | PaymentSucceededEvent | PaymentLateDuplicateEvent | RecoveryExhaustedEvent
    | RefundSucceededEvent | ReceiptMatchedEvent | ReceiptMismatchEvent | ExceptionOpenedEvent

  datatype Event = Event(kind: EventKind, record: Record, orderNo: Option<string>, paymentNo: Option<string>)

  datatype DeliveryEvent = PaymentSucceededDelivery | RefundSucceededDelivery(refundNo: string)

  datatype DeliveryKey = DeliveryKey(orderNo: string, event: DeliveryEvent, url: string)

  /** A recovery attempt claimed by a worker that has not written its outcome yet. */
  datatype Ticket = Ticket(record: Record, attempt: nat)

  datatype Db = Db(
    now: int,
    apps: map<string, App>,
    orders: map<string, Order>,
    payments: map<string, Payment>,
    refunds: map<string, Refund>,
    reservations: map<ReservationKey, Reservation>,
    receipts: map<ReceiptId, Receipt>,
    exceptions: map<ExceptionKey, Exception>,
    events: map<nat, Event>,
    nextEventId: nat,
    deliveries: map<DeliveryKey, string>,
    tickets: set<Ticket>,
    // Payment and refund numbers ever generated; a generated number is never generated again.
    issued: set<string>)

  function EmptyDb(now: int): Db {
    Db(now, map[], map[], map[], map[], map[], map[], map[], map[], 0, map[], {}, {})
  }

  /** The table with one row written, if there is one to write. */
  function Put<K, V>(m: map<K, V>, k: K, v: Option<V>): map<K, V> {
    if v.Some? then m[k := v.value] else m
  }

  function Lookup<K, V>(m: map<K, V>, k: K): Option<V> {
    if k in m then Some(m[k]) else None
  }

  function Emit(db: Db, event: Event): Db {
    db.(events := db.events[db.nextEventId := event], nextEventId := db.nextEventId + 1)
  }

  // ---- Sums over the refund table ----------------------------------------------------------

  datatype RefundClass = Reserving | Succeeded | ReservingNotRevived | Revived

  /**
   Whether a refund of the payment falls into a class: holding money, paid out, holding money and never failed, or
   holding money again after it had failed.
   */
  predicate InClass(r: Refund, paymentNo: string, kind: RefundClass) {
    && r.paymentNo == paymentNo
    && match kind
       case Reserving => r.status != RefundFailed
       case Succeeded => r.status == RefundSuccess
       case ReservingNotRevived => r.status != RefundFailed && !r.revived
       case Revived => r.status != RefundFailed && r.revived
  }

  function Share(r: Refund, paymentNo: string, kind: RefundClass): nat {
    if InClass(r, paymentNo, kind) then r.amount else 0
  }

  ghost function Total(refunds: map<string, Refund>, paymentNo: string, kind: RefundClass): nat {
    if refunds == map[] then 0
    else
      var no :| no in refunds;
      Share(refunds[no], paymentNo, kind) + Total(refunds - {no}, paymentNo, kind)
  }

  /** The sum does not depend on the order in which the rows are taken. */
  lemma {:induction false} TotalWithout(refunds: map<string, Refund>, no: string, paymentNo: string, kind: RefundClass)
    requires no in refunds
    ensures Total(refunds, paymentNo, kind)
            == Share(refunds[no], paymentNo, kind) + Total(refunds - {no}, paymentNo, kind)
    decreases |refunds|
  {
    var first :| first in refunds
      && Total(refunds, paymentNo, kind)
         == Share(refunds[first], paymentNo, kind) + Total(refunds - {first}, paymentNo, kind);
    if first != no {
      TotalWithout(refunds - {first}, no, paymentNo, kind);
      TotalWithout(refunds - {no}, first, paymentNo, kind);
      assert refunds - {first} - {no} == refunds - {no} - {first};
    }
  }

  lemma TotalUpdated(refunds: map<string, Refund>, no: string, r: Refund, paymentNo: string, kind: RefundClass)
    ensures Total(refunds[no := r], paymentNo, kind)
         == Total(refunds - {no}, paymentNo, kind) + Share(r, paymentNo, kind)
    ensures Total(refunds, paymentNo, kind)
         == Total(refunds - {no}, paymentNo, kind) + (if no in refunds then Share(refunds[no], paymentNo, kind) else 0)
  {
    TotalWithout(refunds[no := r], no, paymentNo, kind);
    assert refunds[no := r] - {no} == refunds - {no};
    if no in refunds {
      TotalWithout(refunds, no, paymentNo, kind);
    } else {
      assert refunds - {no} == refunds;
    }
  }

  /** Rows outside a class may go without changing its sum. */
  lemma {:induction false} TotalDropped(refunds: map<string, Refund>, dropped: set<string>, paymentNo: string,
                                        kind: RefundClass)
    requires forall no | no in refunds && no in dropped :: !InClass(refunds[no], paymentNo, kind)
    ensures Total(refunds - dropped, paymentNo, kind) == Total(refunds, paymentNo, kind)
    decreases |refunds|
  {
    hide InClass;
    if no :| no in refunds && no in dropped {
      TotalWithout(refunds, no, paymentNo, kind);
      TotalDropped(refunds - {no}, dropped, paymentNo, kind);
      assert refunds - {no} - dropped == refunds - dropped;
    } else {
      assert refunds - dropped == refunds;
    }
  }

  /** Taking rows away never adds to a sum. */
  lemma {:induction false} TotalShrinks(refunds: map<string, Refund>, dropped: set<string>, paymentNo: string,
                                        kind: RefundClass)
    ensures Total(refunds - dropped, paymentNo, kind) <= Total(refunds, paymentNo, kind)
    decreases |refunds|
  {
    hide Share;
    if no :| no in refunds && no in dropped {
      TotalWithout(refunds, no, paymentNo, kind);
      TotalShrinks(refunds - {no}, dropped, paymentNo, kind);
      assert refunds - {no} - dropped == refunds - dropped;
    } else {
      assert refunds - dropped == refunds;
    }
  }

  /** A payment no refund names has paid nothing back. */
  lemma {:induction false} TotalOfNone(refunds: map<string, Refund>, paymentNo: string, kind: RefundClass)
    requires forall no | no in refunds :: refunds[no].paymentNo != paymentNo
    ensures Total(refunds, paymentNo, kind) == 0
    decreases |refunds|
  {
    if no :| no in refunds {
      TotalWithout(refunds, no, paymentNo, kind);
      TotalOfNone(refunds - {no}, paymentNo, kind);
    } else {
      assert refunds == map[];
    }
  }

  /** A class no refund of the payment falls into adds up to nothing. */
  lemma {:induction false} TotalOfEmptyClass(refunds: map<string, Refund>, paymentNo: string, kind: RefundClass)
    requires forall no | no in refunds :: !InClass(refunds[no], paymentNo, kind)
    ensures Total(refunds, paymentNo, kind) == 0
    decreases |refunds|
  {
    if no :| no in refunds {
      TotalWithout(refunds, no, paymentNo, kind);
      TotalOfEmptyClass(refunds - {no}, paymentNo, kind);
    } else {
      assert refunds == map[];
    }
  }

  /** Rows under the same numbers that count alike add up alike. */
  lemma {:induction false} TotalSame(a: map<string, Refund>, b: map<string, Refund>, paymentNo: string,
                                     kind: RefundClass, other: RefundClass)
    requires a.Keys == b.Keys
    requires forall no | no in a :: Share(a[no], paymentNo, kind) == Share(b[no], paymentNo, other)
    ensures Total(a, paymentNo, kind) == Total(b, paymentNo, other)
    decreases |a|
  {
    hide Share;
    if no :| no in a {
      TotalWithout(a, no, paymentNo, kind);
      TotalWithout(b, no, paymentNo, other);
      TotalSame(a - {no}, b - {no}, paymentNo, kind, other);
    } else {
      assert a == map[] && b == map[];
    }
  }

  /** Money held is held by refunds that never failed or by revived ones. */
  lemma {:induction false} TotalSplits(refunds: map<string, Refund>, paymentNo: string)
    ensures Total(refunds, paymentNo, Reserving)
            == Total(refunds, paymentNo, ReservingNotRevived) + Total(refunds, paymentNo, Revived)
    decreases |refunds|
  {
    if no :| no in refunds {
      TotalSplits(refunds - {no}, paymentNo);
      TotalWithout(refunds, no, paymentNo, Reserving);
      TotalWithout(refunds, no, paymentNo, ReservingNotRevived);
      TotalWithout(refunds, no, paymentNo, Revived);
    }
  }

  lemma {:induction false} TotalOrdered(refunds: map<string, Refund>, paymentNo: string)
    ensures Total(refunds, paymentNo, Succeeded) <= Total(refunds, paymentNo, Reserving)
    ensures Total(refunds, paymentNo, ReservingNotRevived) <= Total(refunds, paymentNo, Reserving)
    decreases |refunds|
  {
    if no :| no in refunds {
      TotalOrdered(refunds - {no}, paymentNo);
      TotalWithout(refunds, no, paymentNo, Succeeded);
      TotalWithout(refunds, no, paymentNo, Reserving);
      TotalWithout(refunds, no, paymentNo, ReservingNotRevived);
    }
  }
}
