/** Status transitions. */
module StateMachine {
  import opened Wrappers

  datatype PaymentStatus = Created | Processing | Success | Failed | Unknown | Closed

  datatype OrderStatus = OrderCreated | OrderPending | OrderSuccess | OrderClosed | OrderPartiallyRefunded
    | OrderRefunded

  datatype RefundStatus = RefundCreated | RefundProcessing | RefundSuccess | RefundFailed | RefundUnknown

  datatype TotalError = InvalidRefundTotal

  predicate CanPaymentTransition(from: PaymentStatus, to: PaymentStatus) {
    from == to ||
    match from
    case Created => true
    case Processing => to.Failed? || to.Unknown? || to.Closed? || to.Success?
    case Unknown => to.Processing? || to.Failed? || to.Closed? || to.Success?
    case Failed => to == Success
    case Closed => to == Success
    case Success => false
  }

  predicate CanRefundTransition(from: RefundStatus, to: RefundStatus) {
    from == to ||
    match from
    case RefundCreated => true
    case RefundProcessing => to.RefundSuccess? || to.RefundFailed? || to.RefundUnknown?
    case RefundUnknown => to.RefundProcessing? || to.RefundSuccess? || to.RefundFailed?
    case RefundFailed => to == RefundSuccess
    case RefundSuccess => false
  }

  /** The order of a winning payment carries money. */
  predicate IsPaid(status: OrderStatus) {
    status.OrderSuccess? || status.OrderPartiallyRefunded? || status.OrderRefunded?
  }

  predicate IsOpen(status: OrderStatus) {
    status.OrderCreated? || status.OrderPending?
  }

  predicate IsActive(status: PaymentStatus) {
    status.Created? || status.Processing? || status.Unknown?
  }

  predicate IsRecoverablePayment(status: PaymentStatus) {
    status.Processing? || status.Unknown?
  }

  predicate IsRecoverableRefund(status: RefundStatus) {
    status.RefundProcessing? || status.RefundUnknown?
  }

  function RefundedOrderStatus(total: int, orderAmount: int): Result<OrderStatus, TotalError> {
    if total <= 0 then Err(InvalidRefundTotal)
    else if total >= orderAmount then Ok(OrderRefunded)
    else Ok(OrderPartiallyRefunded)
  }
}

/** How long the workers wait between two attempts, in seconds. */
module RecoveryPolicy {
  const RECOVERY_MAX_ATTEMPTS: nat := 20
  const RECOVERY_INITIAL_DELAY := 15
  const RECOVERY_MAX_DELAY := 900
  const EXPIRATION_LOCK := 60
  const EXPIRATION_RETRY_INITIAL := 30
  const EXPIRATION_RETRY_MAX := 3600

  function Power2(n: nat): nat {
    if n == 0 then 1 else 2 * Power2(n - 1)
  }

  /** Rounding to the nearest integer, halves upwards. */
  function Round(x: real): int {
    (x + 0.5).Floor
  }

  function Base(attempt: int): int {
    var exponent := if attempt <= 1 then 0 else if attempt - 1 >= 6 then 6 else attempt - 1;
    var exponential := RECOVERY_INITIAL_DELAY * Power2(exponent);
    if exponential < RECOVERY_MAX_DELAY then exponential else RECOVERY_MAX_DELAY
  }

  /** A tenth less to a tenth more. */
  function Jittered(base: int, random: real): int {
    Round(base as real * (0.9 + random * 0.2))
  }

  function RecoveryDelaySeconds(attempt: int, random: real): int {
    var jittered := Jittered(Base(attempt), random);
    if jittered < RECOVERY_INITIAL_DELAY then RECOVERY_INITIAL_DELAY else jittered
  }

  function ExpirationRetryDelaySeconds(attempt: int): int {
    var normalized: nat := if attempt < 1 then 1 else attempt;
    var delay := EXPIRATION_RETRY_INITIAL * Power2(normalized - 1);
    if delay < EXPIRATION_RETRY_MAX then delay else EXPIRATION_RETRY_MAX
  }

  lemma {:induction false} Power2Monotone(m: nat, n: nat)
    requires m <= n
    ensures 1 <= Power2(m) <= Power2(n)
    decreases n
  {
    if m < n {
      Power2Monotone(m, n - 1);
    } else if n > 0 {
      Power2Monotone(m - 1, n - 1);
    }
  }

  lemma BaseBounds(attempt: int)
    ensures RECOVERY_INITIAL_DELAY <= Base(attempt) <= RECOVERY_MAX_DELAY
  {
    var exponent: nat := if attempt <= 1 then 0 else if attempt - 1 >= 6 then 6 else attempt - 1;
    Power2Monotone(0, exponent);
  }

  lemma BaseMonotone(a: int, b: int)
    requires a <= b
    ensures Base(a) <= Base(b)
  {
    var ea: nat := if a <= 1 then 0 else if a - 1 >= 6 then 6 else a - 1;
    var eb: nat := if b <= 1 then 0 else if b - 1 >= 6 then 6 else b - 1;
    Power2Monotone(ea, eb);
  }

  lemma ScaleMonotone(x: real, y: real, factor: real)
    requires x <= y && factor >= 0.0
    ensures x * factor <= y * factor
  {
    assert (y - x) * factor >= 0.0;
  }

  lemma Scaled(base: real, factor: real)
    requires 15.0 <= base <= 900.0 && 0.9 <= factor <= 1.1
    ensures base * factor <= 990.0
  {
    assert (1.1 - factor) * base >= 0.0;
    assert base * factor <= base * 1.1;
  }

  /** Every delay lies between fifteen seconds and the cap with its jitter. */
  lemma DelayBounds(attempt: int, random: real)
    requires 0.0 <= random < 1.0
    ensures 15 <= RecoveryDelaySeconds(attempt, random) <= 990
  {
    hide Base;
    BaseBounds(attempt);
    Scaled(Base(attempt) as real, 0.9 + random * 0.2);
  }

  /** For one jitter, a later attempt never waits less. */
  lemma DelayMonotone(a: int, b: int, random: real)
    requires a <= b && 0.0 <= random < 1.0
    ensures RecoveryDelaySeconds(a, random) <= RecoveryDelaySeconds(b, random)
  {
    BaseMonotone(a, b);
    ScaleMonotone(Base(a) as real, Base(b) as real, 0.9 + random * 0.2);
  }

  lemma BaseValues(attempt: int)
    ensures attempt >= 7 ==> Base(attempt) == 900
    ensures attempt < 7 ==> Base(attempt) <= 480
  {
    assert Power2(6) == 64 && Power2(5) == 32 by { assert Power2(3) == 8; }
    if attempt < 7 {
      Power2Monotone(if attempt <= 1 then 0 else attempt - 1, 5);
    }
  }

  lemma LowBase(base: int, random: real)
    requires 0 <= base <= 480 && 0.0 <= random < 1.0
    ensures Jittered(base, random) <= RECOVERY_MAX_DELAY
  {
    var factor := 0.9 + random * 0.2;
    ScaleLow(base as real, factor);
    RoundBelow(base as real * factor, 900);
  }

  lemma RoundBelow(x: real, y: int)
    requires x <= y as real
    ensures Round(x) <= y
  {
  }

  lemma ScaleLow(base: real, factor: real)
    requires 0.0 <= base <= 480.0 && 0.0 <= factor <= 1.1
    ensures base * factor <= 528.0
  {
    ScaleMonotone(base, 480.0, factor);
    assert 480.0 * factor <= 528.0;
  }

  lemma FullBase(random: real)
    requires 0.0 <= random < 1.0
    ensures Jittered(900, random) > RECOVERY_MAX_DELAY <==> random * 180.0 >= 90.5
  {
    assert 900.0 * (0.9 + random * 0.2) == 810.0 + random * 180.0;
  }

  /**
   The jitter is applied after the cap, so a delay exceeds it exactly from the seventh attempt on and with enough
   jitter.
   */
  lemma ExceedsCapExactly(attempt: int, random: real)
    requires 0.0 <= random < 1.0
    ensures RecoveryDelaySeconds(attempt, random) > RECOVERY_MAX_DELAY <==> attempt >= 7 && random * 180.0 >= 90.5
  {
    hide Base, Jittered;
    BaseValues(attempt);
    BaseBounds(attempt);
    if attempt < 7 {
      LowBase(Base(attempt), random);
    } else {
      FullBase(random);
    }
  }

  /** With a jitter of nine tenths the seventh attempt waits 972 seconds. */
  lemma JitterExceedsCap()
    ensures RecoveryDelaySeconds(7, 0.9) == 972 > RECOVERY_MAX_DELAY
  {
    BaseValues(7);
  }

  /** What the first attempt waits, doubled by each further one up to a cap. */
  ghost predicate Doubles(delay: int -> int, first: int, cap: int) {
    (forall a | a <= 1 :: delay(a) == first)
    && (forall a | a >= 1 :: delay(a + 1) == if 2 * delay(a) < cap then 2 * delay(a) else cap)
  }

  /** A failed expiration waits half a minute at first and doubles up to an hour. */
  lemma ExpirationDelayDoubles()
    ensures Doubles(a => ExpirationRetryDelaySeconds(a), 30, 3600)
  {
    forall a | a >= 1
      ensures ExpirationRetryDelaySeconds(a + 1)
           == if 2 * ExpirationRetryDelaySeconds(a) < 3600 then 2 * ExpirationRetryDelaySeconds(a) else 3600
    {
      assert Power2(a) == 2 * Power2(a - 1);
    }
  }

  /** Without its jitter the delay of a recovery doubles from a quarter minute to a quarter hour. */
  lemma RecoveryDelayDoubles()
    ensures Doubles(a => RecoveryDelaySeconds(a, 0.5), 15, 900)
  {
    hide Base, Jittered, RecoveryDelaySeconds;
    forall a: int ensures RecoveryDelaySeconds(a, 0.5) == Base(a) { MiddleIsBase(a); }
    BaseDoubles();
    SameDelays(a => Base(a), a => RecoveryDelaySeconds(a, 0.5), 15, 900);
  }

  lemma SameDelays(f: int -> int, g: int -> int, first: int, cap: int)
    requires Doubles(f, first, cap) && forall a :: f(a) == g(a)
    ensures Doubles(g, first, cap)
  {
  }

  lemma MiddleIsBase(attempt: int)
    ensures RecoveryDelaySeconds(attempt, 0.5) == Base(attempt)
  {
    hide Base;
    BaseBounds(attempt);
    assert Base(attempt) as real * (0.9 + 0.5 * 0.2) == Base(attempt) as real;
  }

  lemma BaseDoubles()
    ensures Doubles(a => Base(a), 15, 900)
  {
    forall a | a >= 1 ensures Base(a + 1) == if 2 * Base(a) < 900 then 2 * Base(a) else 900 {
      if a >= 7 {
        BaseValues(a);
        BaseValues(a + 1);
      } else {
        var e: nat := a - 1;
        assert Power2(e + 1) == 2 * Power2(e);
        Power2Monotone(e, 5);
        assert Power2(5) == 32 && Power2(6) == 64 by { assert Power2(3) == 8; }
        BaseValues(7);
      }
    }
  }

  /** The jitter takes away or adds a tenth, rounded to whole seconds, and never goes below a quarter minute. */
  lemma JitterIsATenth(attempt: int, random: real)
    requires 0.0 <= random < 1.0
    ensures var exact := RecoveryDelaySeconds(attempt, 0.5) as real * (0.9 + random * 0.2);
            var delay := RecoveryDelaySeconds(attempt, random);
            if exact < 14.5 then delay == 15 else exact - 0.5 < delay as real <= exact + 0.5
  {
    hide Base;
    MiddleIsBase(attempt);
    BaseBounds(attempt);
  }
}
