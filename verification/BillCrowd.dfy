/** The payments a reference lookup can miss: a run in which four payments had one reference, one after the other. */
module BillCrowd {
  import opened Wrappers
  import opened StateMachine
  import opened ReceiptText
  import opened Rows
  import opened PaymentSteps
  import opened Steps
  import opened Shapes
  import opened BillPayments
  import opened BillMatching
  import opened BillSeam
  import RefundCap

  const TAIL := "0123456789"
  const REFERENCE := "TX" + TAIL

  /** Payment numbers that end alike. */
  function Numbered(c: char): string {
    [c] + TAIL
  }

  lemma NumbersDiffer()
    ensures forall c, d | c != d :: Numbered(c) != Numbered(d)
  {
    forall c, d | c != d ensures Numbered(c) != Numbered(d) { assert Numbered(c)[0] != Numbered(d)[0]; }
  }

  lemma {:induction false} AlnumKept(s: string)
    requires forall i | 0 <= i < |s| :: IsAlnum(s[i])
    ensures AlnumOnly(s) == s
  {
    if s != "" {
      AlnumKept(s[..|s| - 1]);
      assert s == s[..|s| - 1] + [s[|s| - 1]];
    }
  }

  /** Numbers that end alike have one reference. */
  lemma SharedReference(c: char)
    requires IsAlnum(c)
    ensures RemarkReference(Numbered(c)) == REFERENCE
  {
    hide AlnumOnly;
    AlnumKept(Numbered(c));
    assert Numbered(c)[1..] == TAIL && ToUpper(TAIL) == TAIL;
  }

  function Remarking(c: char): PaymentRequest {
    PaymentRequest("o1", Numbered(c), None, AlipayBill, "account", BillSettings(true, 60, RemarkMode, 0))
  }

  function Remarked(at: int): Payment {
    Payment("o1", None, AlipayBill, "account", Processing, 100, 100, None, None, None,
            Some(Terms(RemarkMode, REFERENCE, at, at + 60)), None, 0, None, None)
  }

  /** One order, and a payment asked for again and again as soon as the one before is out of its window. */
  const CROWD: seq<Step> := [
    CreateApp("shop", None), CreateOrder("o1", Wanted("e1")), CreatePayment(Remarking('A')), Tick(60),
    CreatePayment(Remarking('B')), Tick(60), CreatePayment(Remarking('C')), Tick(60), CreatePayment(Remarking('D'))]

  /** The order is there, the reservation of its last payment is over, and these payments were created. */
  ghost predicate Crowded(db: Db, now: int, payments: map<string, Payment>) {
    && db.now == now && "shop" in db.apps && db.issued == payments.Keys && db.payments == payments
    && "o1" in db.orders && IsOpen(db.orders["o1"].status) && !db.orders["o1"].deleted && db.orders["o1"].amount == 100
    && db.orders["o1"].expiresAt == 900
    && (forall k | k in db.reservations :: k.accountId == "account" && db.reservations[k].expiresAt <= now + 60)
  }

  /** Every reservation is over. */
  ghost predicate Idle(db: Db) {
    forall k | k in db.reservations :: db.reservations[k].expiresAt <= db.now
  }

  lemma JoinsRow(db: Db, now: int, payments: map<string, Payment>, c: char)
    requires Crowded(db, now, payments) && 0 <= now <= 800 && IsAlnum(c) && Numbered(c) !in payments
    requires Idle(db)
    ensures LiveReservations(db, "account") == map[]
    ensures NewPayment(db, Remarking(c)) == Some(Remarked(now))
  {
    hide RemarkReference, Numbered;
    SharedReference(c);
    assert LiveReservations(db, "account") == map[];
  }

  /** A payment joins once all reservations are over. */
  lemma Joins(db: Db, now: int, payments: map<string, Payment>, c: char)
    requires Crowded(db, now, payments) && Idle(db) && 0 <= now <= 800 && IsAlnum(c) && Numbered(c) !in payments
    ensures Crowded(Apply(db, CreatePayment(Remarking(c))), now, payments[Numbered(c) := Remarked(now)])
  {
    hide Apply, NewPayment, LiveReservations, RefundRow, ReceiptRow, Numbered;
    var step := CreatePayment(Remarking(c));
    AppStays(db, step);
    JoinsRow(db, now, payments, c);
    StepWrites(db, step);
  }

  lemma Waits(db: Db, now: int, payments: map<string, Payment>)
    requires Crowded(db, now, payments)
    ensures Crowded(Apply(db, Tick(60)), now + 60, payments) && Idle(Apply(db, Tick(60)))
  {
  }

  lemma Opens()
    ensures var t := Apply(Apply(EmptyDb(0), CROWD[0]), CROWD[1]); Crowded(t, 0, map[]) && Idle(t)
  {
    hide Apply;
    AppStage();
    OrderStage(Apply(EmptyDb(0), CROWD[0]), EMPTY, "o1", "e1");
  }

  const ONE_LEFT := map[Numbered('A') := Remarked(0)]
  const ALL := ONE_LEFT[Numbered('B') := Remarked(60)][Numbered('C') := Remarked(120)][Numbered('D') := Remarked(180)]

  lemma FirstWaits()
    ensures var t := Replay(EmptyDb(0), CROWD[..4]); Crowded(t, 60, ONE_LEFT) && Idle(t)
  {
    hide Apply, Replay, Crowded, Idle, Numbered, Remarked;
    Opens();
    var s2 := Apply(Apply(EmptyDb(0), CROWD[0]), CROWD[1]);
    Joins(s2, 0, map[], 'A');
    assert map[][Numbered('A') := Remarked(0)] == ONE_LEFT;
    Waits(Apply(s2, CROWD[2]), 0, ONE_LEFT);
    ReplayFour(EmptyDb(0), CROWD[..4]);
  }

  lemma OthersJoin(db: Db)
    requires Crowded(db, 60, ONE_LEFT) && Idle(db)
    ensures Crowded(Apply(Apply(Apply(Apply(Apply(db, CreatePayment(Remarking('B'))), Tick(60)),
                                      CreatePayment(Remarking('C'))), Tick(60)), CreatePayment(Remarking('D'))),
                    180, ALL)
  {
    hide Apply, Crowded, Idle, Numbered, Remarked;
    NumbersDiffer();
    Joins(db, 60, ONE_LEFT, 'B');
    var two := ONE_LEFT[Numbered('B') := Remarked(60)];
    var s5 := Apply(db, CreatePayment(Remarking('B')));
    Waits(s5, 60, two);
    var s6 := Apply(s5, Tick(60));
    Joins(s6, 120, two, 'C');
    var three := two[Numbered('C') := Remarked(120)];
    var s7 := Apply(s6, CreatePayment(Remarking('C')));
    Waits(s7, 120, three);
    Joins(Apply(s7, Tick(60)), 180, three, 'D');
  }

  lemma CrowdRun()
    ensures Crowded(Replay(EmptyDb(0), CROWD), 180, ALL)
  {
    hide Apply, Replay, Crowded, Idle, Numbered, Remarked;
    FirstWaits();
    OthersJoin(Replay(EmptyDb(0), CROWD[..4]));
    assert CROWD == CROWD[..4] + CROWD[4..];
    ReplayAppend(EmptyDb(0), CROWD[..4], CROWD[4..]);
    RefundCap.ReplayFive(Replay(EmptyDb(0), CROWD[..4]), CROWD[4..]);
  }

  lemma FourNumbers()
    ensures ALL.Keys == {Numbered('A'), Numbered('B'), Numbered('C'), Numbered('D')} && |ALL.Keys| == 4
  {
    hide Numbered, Remarked;
    NumbersDiffer();
    assert ALL.Keys == {Numbered('A'), Numbered('B'), Numbered('C'), Numbered('D')};
  }

  /** The last payment is paid inside its window, with its own reference as remark. */
  const LINE := Flow("trade", None, 100, 200, Some(REFERENCE))

  /** Payments of the account that have the reference, and neither a trade nor an order number. */
  ghost predicate AllRemarked(payments: map<string, Payment>) {
    forall no | no in payments ::
      && OnAccount(payments[no], "account") && payments[no].tradeNo == None && payments[no].channelOrderNo == None
      && payments[no].terms.Some? && payments[no].terms.value.reference == REFERENCE
  }

  lemma RemarkedJoins(payments: map<string, Payment>, no: string, at: int)
    requires AllRemarked(payments)
    ensures AllRemarked(payments[no := Remarked(at)])
  {
  }

  lemma FourRemarked()
    ensures AllRemarked(ALL)
  {
    hide AllRemarked, Numbered, Remarked;
    NoneRemarked();
    RemarkedJoins(map[], Numbered('A'), 0);
    assert map[][Numbered('A') := Remarked(0)] == ONE_LEFT;
    var two := ONE_LEFT[Numbered('B') := Remarked(60)];
    RemarkedJoins(ONE_LEFT, Numbered('B'), 60);
    RemarkedJoins(two, Numbered('C'), 120);
    RemarkedJoins(two[Numbered('C') := Remarked(120)], Numbered('D'), 180);
  }

  lemma NoneRemarked()
    ensures AllRemarked(map[])
  {
  }

  /** All of them have the reference, and nothing but the remark tells of any. */
  lemma AllRefer(payments: map<string, Payment>)
    requires AllRemarked(payments)
    ensures Referenced(payments, "account", REFERENCE) == payments.Keys
    ensures Direct(payments, "account", LINE) == {} && ByTrade(payments, LINE) == {}
  {
  }

  lemma LastRow()
    ensures Numbered('D') in ALL && ALL[Numbered('D')] == Remarked(180)
  {
    hide Numbered, Remarked;
  }

  lemma LineSpeaks(db: Db)
    requires Crowded(db, 180, ALL)
    ensures SpeaksFor(db, "account", LINE, Numbered('D'))
  {
    hide RemarkReference, ExtractReference, Numbered, Direct, ByTrade, AllRemarked;
    FourRemarked();
    AllRefer(ALL);
    LastRow();
    SharedReference('D');
    NumberKept('D');
    ReferenceRoundTrip(Numbered('D'));
  }

  lemma NumberKept(c: char)
    requires IsAlnum(c)
    ensures |AlnumOnly(Numbered(c))| >= 10
  {
    hide AlnumOnly;
    AlnumKept(Numbered(c));
  }

  /** A line that speaks for a payment and for no other may all the same be refused. */
  lemma Missed()
    ensures var db := Replay(EmptyDb(0), CROWD);
            && Reachable(db) && SpeaksFor(db, "account", LINE, Numbered('D'))
            && Locates(db.payments, "account", LINE, Refusal(Some(Numbered('D')), false, false))
  {
    hide Apply, Replay, Reachable, SpeaksFor, Locates, Billing, Referenced, RemarkReference, Numbered, AllRemarked,
         Direct, ByTrade;
    var db := Replay(EmptyDb(0), CROWD);
    CrowdRun();
    ReplayReaches(0, CROWD);
    LineSpeaks(db);
    FourRemarked();
    AllRefer(ALL);
    LastRow();
    FourNumbers();
    ReachableBills(db);
    MissedAmongMany(db, "account", LINE, Numbered('D'));
  }
}
