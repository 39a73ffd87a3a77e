/** Account statements: which rows of a statement become receipts, and that no row is lost. */
module AlipayBill {
  import opened Wrappers
  import Csv
  import Money

  type Row = seq<string>

  /** When a text names a time: reading dates is not part of this model. */
  type Clock = string -> Option<int>

  datatype Direction = Income | Refunded

  datatype Receipt = Receipt(
    direction: Direction, tradeNo: Option<string>, orderNo: Option<string>,
    refundNo: Option<string>, merchantRefundNo: Option<string>, amount: nat, at: int)

  /** What becomes of a row behind the header. */
  datatype Verdict = Blank | Skipped | Kept(receipt: Receipt)

  datatype BillError = HeaderNotFound | NothingRecognised(skipped: nat)

  // ---- Cells -------------------------------------------------------------------------------

  function CleanCell(cell: string): string {
    Money.Trim(cell)
  }

  function WithoutSpace(s: string): string {
    if s == "" then "" else if Money.IsSpace(s[0]) then WithoutSpace(s[1..]) else [s[0]] + WithoutSpace(s[1..])
  }

  function NormalizeHeader(cell: string): string {
    WithoutSpace(CleanCell(cell))
  }

  function CellAt(row: Row, i: nat): string {
    if i < |row| then CleanCell(row[i]) else ""
  }

  /** The last column of the first `n` that carries a header, or none. */
  function ColumnOf(headers: seq<string>, name: string, n: nat): Option<nat>
    requires n <= |headers|
  {
    if n == 0 then None else if headers[n - 1] == name then Some(n - 1) else ColumnOf(headers, name, n - 1)
  }

  /** The row's value under the first of the names that has one. */
  function Field(headers: seq<string>, row: Row, names: seq<string>): Option<string> {
    if names == [] then None
    else
      var column := ColumnOf(headers, names[0], |headers|);
      var value := if column.Some? then CellAt(row, column.value) else "";
      if value != "" && value != "-" then Some(value) else Field(headers, row, names[1..])
  }

  predicate IsNegative(value: Option<string>) {
    value.Some? && Money.Trim(value.value) != "" && Money.Trim(value.value)[0] == '-'
  }

  function WithoutCommas(s: string): string {
    if s == "" then "" else if s[0] == ',' then WithoutCommas(s[1..]) else [s[0]] + WithoutCommas(s[1..])
  }

  function Unsigned(s: string): string {
    if s != "" && (s[0] == '+' || s[0] == '-') then s[1..] else s
  }

  /** The first value that is an amount; a value spelled as nothing or as zero is none. */
  function FirstAmount(values: seq<Option<string>>): Option<nat> {
    if values == [] then None
    else
      var amount := if values[0].Some? then Money.YuanToCents(Unsigned(Money.Trim(WithoutCommas(values[0].value))))
                    else Err(Money.InvalidAmount);
      if amount.Ok? then Some(amount.value) else FirstAmount(values[1..])
  }

  predicate Contains(s: string, part: string) {
    part <= s || (s != "" && Contains(s[1..], part))
  }

  // ---- Rows --------------------------------------------------------------------------------

  const TRADE_NO := ["支付宝交易号", "交易号"]
  const ORDER_NO := ["商户订单号", "商家订单号"]
  const BUSINESS := ["业务类型", "交易类型"]
  const REFUNDED := ["退款金额（元）", "退款金额(元)"]
  const RECEIVED := ["商家实收（元）", "商家实收(元)"]
  const ORDERED := ["订单金额（元）", "订单金额(元)"]
  const FINISHED := ["完成时间", "交易完成时间", "创建时间"]
  const REFUND_NO := ["支付宝退款单号", "退款交易号"]
  const MERCHANT_REFUND_NO := ["退款批次号/请求号", "退款批次号", "退款请求号", "商户退款单号"]

  predicate IsHeader(row: Row) {
    (exists i | 0 <= i < |row| :: NormalizeHeader(row[i]) == TRADE_NO[0])
      && (exists i | 0 <= i < |row| :: NormalizeHeader(row[i]) == ORDER_NO[0])
  }

  /** Some cell of the row is more than white space. */
  predicate HoldsAnything(row: Row) {
    exists i | 0 <= i < |row| :: CleanCell(row[i]) != ""
  }

  function Judge(headers: seq<string>, row: Row, clock: Clock): Verdict {
    var tradeNo, orderNo := Field(headers, row, TRADE_NO), Field(headers, row, ORDER_NO);
    if tradeNo.None? && orderNo.None? then if HoldsAnything(row) then Skipped else Blank
    else
      var business := Field(headers, row, BUSINESS);
      var refunded, received, ordered := Field(headers, row, REFUNDED), Field(headers, row, RECEIVED),
                                         Field(headers, row, ORDERED);
      var direction := if (business.Some? && Contains(business.value, "退款")) || IsNegative(refunded)
                       || IsNegative(received) then Refunded else Income;
      var amount := FirstAmount(if direction == Refunded then [refunded, received, ordered] else [ordered, received]);
      var finished := Field(headers, row, FINISHED);
      var at := if finished.Some? then clock(finished.value) else None;
      if amount.None? || at.None? then Skipped
      else Kept(Receipt(direction, tradeNo, orderNo, Field(headers, row, REFUND_NO),
                        Field(headers, row, MERCHANT_REFUND_NO), amount.value, at.value))
  }

  /** The receipts of the rows, in their order. */
  function Receipts(headers: seq<string>, rows: seq<Row>, clock: Clock): seq<Receipt> {
    if rows == [] then []
    else
      var verdict := Judge(headers, rows[|rows| - 1], clock);
      Receipts(headers, rows[..|rows| - 1], clock) + if verdict.Kept? then [verdict.receipt] else []
  }

  function SkippedRows(headers: seq<string>, rows: seq<Row>, clock: Clock): nat {
    if rows == [] then 0
    else SkippedRows(headers, rows[..|rows| - 1], clock) + if Judge(headers, rows[|rows| - 1], clock).Skipped? then 1
         else 0
  }

  /** Where the first header row stands, or the number of rows when there is none. */
  function HeaderAt(rows: seq<Row>): (i: nat)
    ensures i <= |rows| && (i < |rows| ==> IsHeader(rows[i]))
    ensures forall j | 0 <= j < i :: !IsHeader(rows[j])
  {
    if rows == [] then 0 else if IsHeader(rows[0]) then 0 else 1 + HeaderAt(rows[1..])
  }

  function Headers(row: Row): seq<string> {
    seq(|row|, i requires 0 <= i < |row| => NormalizeHeader(row[i]))
  }

  datatype Bill = Bill(receipts: seq<Receipt>, skipped: nat)

  function Read(rows: seq<Row>, clock: Clock): Result<Bill, BillError> {
    var i := HeaderAt(rows);
    if i == |rows| then Err(HeaderNotFound)
    else
      var receipts, skipped := Receipts(Headers(rows[i]), rows[i + 1..], clock),
                               SkippedRows(Headers(rows[i]), rows[i + 1..], clock);
      if receipts == [] then Err(NothingRecognised(skipped)) else Ok(Bill(receipts, skipped))
  }

  /** `parseAlipayBill`. */
  method ParseAlipayBill(csv: string, clock: Clock) returns (r: Result<Bill, BillError>)
    ensures r == Read(Csv.Parsed(csv), clock)
  {
    hide Csv.Parsed, Receipts, SkippedRows, Headers, IsHeader;
    var rows := Csv.ParseCsv(csv);
    var at := FindHeader(rows);
    if at == |rows| { return Err(HeaderNotFound); }
    var receipts, skipped := ReadRows(Headers(rows[at]), rows[at + 1..], clock);
    return if receipts == [] then Err(NothingRecognised(skipped)) else Ok(Bill(receipts, skipped));
  }

  method FindHeader(rows: seq<Row>) returns (at: nat)
    ensures at == HeaderAt(rows)
  {
    hide IsHeader;
    at := 0;
    while at < |rows| && !IsHeader(rows[at])
      invariant 0 <= at <= |rows|
      invariant HeaderAt(rows) == at + HeaderAt(rows[at..])
    {
      assert rows[at..][1..] == rows[at + 1..];
      at := at + 1;
    }
  }

  method ReadRows(headers: seq<string>, rows: seq<Row>, clock: Clock) returns (receipts: seq<Receipt>, skipped: nat)
    ensures receipts == Receipts(headers, rows, clock) && skipped == SkippedRows(headers, rows, clock)
  {
    hide Judge;
    receipts, skipped := [], 0;
    var i := 0;
    while i < |rows|
      invariant 0 <= i <= |rows|
      invariant receipts == Receipts(headers, rows[..i], clock) && skipped == SkippedRows(headers, rows[..i], clock)
    {
      assert rows[..i + 1][..i] == rows[..i];
      match Judge(headers, rows[i], clock) {
        case Blank =>
        case Skipped => skipped := skipped + 1;
        case Kept(receipt) => receipts := receipts + [receipt];
      }
      i := i + 1;
    }
    assert rows[..i] == rows;
  }

  // ---- What a row says ---------------------------------------------------------------------

  /** The row's cell under the last column of the name is the value, which is not left open. */
  ghost predicate Under(headers: seq<string>, row: Row, name: string, value: string) {
    value != "" && value != "-"
    && exists c | 0 <= c < |headers| && c < |row| ::
         headers[c] == name && Money.Trim(row[c]) == value && forall d | c < d < |headers| :: headers[d] != name
  }

  /** The value under the first of the names that has one. */
  ghost predicate Says(headers: seq<string>, row: Row, names: seq<string>, value: Option<string>) {
    match value
    case None => forall k, v | 0 <= k < |names| :: !Under(headers, row, names[k], v)
    case Some(x) =>
      exists k | 0 <= k < |names| ::
        Under(headers, row, names[k], x) && forall j, v | 0 <= j < k :: !Under(headers, row, names[j], v)
  }

  lemma {:induction false} ColumnIs(headers: seq<string>, name: string, n: nat)
    requires n <= |headers|
    ensures match ColumnOf(headers, name, n)
            case None => forall d | 0 <= d < n :: headers[d] != name
            case Some(c) => c < n && headers[c] == name && forall d | c < d < n :: headers[d] != name
  {
    if n > 0 { ColumnIs(headers, name, n - 1); }
  }

  lemma ValueUnder(headers: seq<string>, row: Row, name: string, v: string)
    ensures var column := ColumnOf(headers, name, |headers|);
            Under(headers, row, name, v)
            <==> column.Some? && CellAt(row, column.value) == v && v != "" && v != "-"
  {
    ColumnIs(headers, name, |headers|);
  }

  /** What is read from a row is what it says. */
  lemma {:induction false} FieldIsSaid(headers: seq<string>, row: Row, names: seq<string>)
    ensures Says(headers, row, names, Field(headers, row, names))
  {
    hide Under, ColumnOf, CellAt;
    if names != [] {
      var rest := names[1..];
      FieldIsSaid(headers, row, rest);
      forall v ensures Under(headers, row, names[0], v) ==> Field(headers, row, names) == Some(v) {
        ValueUnder(headers, row, names[0], v);
      }
      var column := ColumnOf(headers, names[0], |headers|);
      var value := if column.Some? then CellAt(row, column.value) else "";
      ValueUnder(headers, row, names[0], value);
      if value != "" && value != "-" {
        assert Under(headers, row, names[0], value);
      } else {
        forall v ensures !Under(headers, row, names[0], v) { ValueUnder(headers, row, names[0], v); }
        SaidLater(headers, row, names, Field(headers, row, rest));
      }
    }
  }

  lemma SaidLater(headers: seq<string>, row: Row, names: seq<string>, value: Option<string>)
    requires names != [] && Says(headers, row, names[1..], value)
    requires forall v :: !Under(headers, row, names[0], v)
    ensures Says(headers, row, names, value)
  {
    hide Under;
    var rest := names[1..];
    match value {
      case None =>
        forall k, v | 0 <= k < |names| ensures !Under(headers, row, names[k], v) {
          assert k > 0 ==> names[k] == rest[k - 1];
        }
      case Some(x) =>
        var k :| 0 <= k < |rest| && Under(headers, row, rest[k], x)
                 && forall j, v | 0 <= j < k :: !Under(headers, row, rest[j], v);
        assert names[k + 1] == rest[k];
        forall j, v | 0 <= j < k + 1 ensures !Under(headers, row, names[j], v) {
          assert j > 0 ==> names[j] == rest[j - 1];
        }
    }
  }

  /** A row says one thing. */
  lemma SaidOnce(headers: seq<string>, row: Row, names: seq<string>, a: Option<string>, b: Option<string>)
    requires Says(headers, row, names, a) && Says(headers, row, names, b)
    ensures a == b
  {
    hide Under;
    if a.Some? && b.Some? {
      var k :| 0 <= k < |names| && Under(headers, row, names[k], a.value)
               && forall j, v | 0 <= j < k :: !Under(headers, row, names[j], v);
      var l :| 0 <= l < |names| && Under(headers, row, names[l], b.value)
               && forall j, v | 0 <= j < l :: !Under(headers, row, names[j], v);
      assert k == l;
      ValueUnder(headers, row, names[k], a.value);
      ValueUnder(headers, row, names[k], b.value);
    }
  }

  predicate Holds(s: string, before: string, part: string, after: string) {
    s == before + part + after
  }

  /** The text has the part somewhere. */
  ghost predicate Mentions(s: string, part: string) {
    exists before, after :: Holds(s, before, part, after)
  }

  lemma {:induction false} ContainsIsMention(s: string, part: string)
    ensures Contains(s, part) <==> Mentions(s, part)
  {
    if part <= s {
      assert Holds(s, "", part, s[|part|..]);
    } else if s != "" {
      ContainsIsMention(s[1..], part);
      if Mentions(s[1..], part) {
        var before, after :| Holds(s[1..], before, part, after);
        HeldLater(s, before, part, after);
      }
      if Mentions(s, part) {
        var before, after :| Holds(s, before, part, after);
        HeldInRest(s, before, part, after);
      }
    }
  }

  lemma HeldLater(s: string, before: string, part: string, after: string)
    requires s != "" && Holds(s[1..], before, part, after)
    ensures Holds(s, [s[0]] + before, part, after)
  {
    assert s == [s[0]] + s[1..];
    assert [s[0]] + (before + part + after) == [s[0]] + before + part + after;
  }

  lemma HeldInRest(s: string, before: string, part: string, after: string)
    requires Holds(s, before, part, after) && !(part <= s)
    ensures before != "" && Holds(s[1..], before[1..], part, after)
  {
    assert before == "" ==> before + part == part;
    assert before + part + after == [before[0]] + (before[1..] + part + after);
  }

  /** The value begins with a minus sign, white space aside. */
  ghost predicate BelowZero(value: Option<string>) {
    value.Some? && exists before, after :: Money.AllSpace(before) && Holds(value.value, before, "-", after)
  }

  lemma NegativeIsBelowZero(value: Option<string>)
    ensures IsNegative(value) <==> BelowZero(value)
  {
    hide Money.Trim, Money.IsSpace;
    if value.Some? {
      var s := value.value;
      Money.TrimIs(s);
      var before, after :| Money.Around(s, before, Money.Trim(s), after);
      if IsNegative(value) {
        var t := Money.Trim(s);
        assert t == "-" + t[1..];
        assert s == before + "-" + (t[1..] + after);
        assert Holds(s, before, "-", t[1..] + after);
      }
      if BelowZero(value) {
        var front, rest :| Money.AllSpace(front) && Holds(s, front, "-", rest);
        SignFirst(s, before, Money.Trim(s), after, front, rest);
      }
    }
  }

  lemma SignFirst(s: string, before: string, t: string, after: string, front: string, rest: string)
    requires Money.Around(s, before, t, after) && (t != "" ==> !Money.IsSpace(t[0]))
    requires Money.AllSpace(front) && Holds(s, front, "-", rest)
    ensures t != "" && t[0] == '-'
  {
    hide Money.IsSpace;
    MinusIsNoSpace();
    assert s[|front|] == "-"[0];
    assert t != "" ==> s[|before|] == t[0];
    assert forall i | |before| + |t| <= i < |s| :: s[i] == after[i - |before| - |t|];
  }

  lemma MinusIsNoSpace()
    ensures !Money.IsSpace('-')
  {
  }

  /** White space goes, and nothing else. */
  lemma {:induction false} SpacesGo(a: string, b: string)
    ensures WithoutSpace(a + b) == WithoutSpace(a) + WithoutSpace(b)
  {
    hide Money.IsSpace;
    if a == "" {
      assert a + b == b;
    } else {
      SpacesGo(a[1..], b);
      assert (a + b)[1..] == a[1..] + b && (a + b)[0] == a[0];
      var rest, tail := WithoutSpace(a[1..]), WithoutSpace(b);
      assert [a[0]] + (rest + tail) == [a[0]] + rest + tail;
    }
  }

  lemma OneLetter(c: char)
    ensures WithoutSpace([c]) == if Money.IsSpace(c) then "" else [c]
    ensures WithoutCommas([c]) == if c == ',' then "" else [c]
  {
    hide Money.IsSpace;
    assert [c][1..] == "";
  }

  lemma {:induction false} SpaceIsNothing(s: string)
    requires Money.AllSpace(s)
    ensures WithoutSpace(s) == ""
  {
    hide Money.IsSpace;
    if s != "" { SpaceIsNothing(s[1..]); }
  }

  lemma TrimmedIsSame(cell: string)
    ensures NormalizeHeader(cell) == WithoutSpace(cell)
  {
    hide WithoutSpace, Money.Trim, Money.IsSpace, Money.AllSpace;
    Money.TrimIs(cell);
    var before, after :| Money.Around(cell, before, Money.Trim(cell), after);
    SpaceIsNothing(before);
    SpaceIsNothing(after);
    SpacesGo(before + Money.Trim(cell), after);
    SpacesGo(before, Money.Trim(cell));
  }

  /** A row is the header exactly if, white space left out, it names the trade number and the order number. */
  lemma HeaderIs(row: Row)
    ensures IsHeader(row) <==> && (exists i | 0 <= i < |row| :: WithoutSpace(row[i]) == "支付宝交易号")
                               && (exists i | 0 <= i < |row| :: WithoutSpace(row[i]) == "商户订单号")
  {
    hide NormalizeHeader, WithoutSpace;
    forall i | 0 <= i < |row| ensures NormalizeHeader(row[i]) == WithoutSpace(row[i]) { TrimmedIsSame(row[i]); }
  }

  /** The amount a value spells: commas left out, and a sign not counted. */
  function AmountOf(value: Option<string>): Option<nat> {
    FirstAmount([value])
  }

  /** The first amount among the values. */
  ghost predicate Leads(values: seq<Option<string>>, amount: Option<nat>) {
    match amount
    case None => forall k | 0 <= k < |values| :: AmountOf(values[k]) == None
    case Some(a) =>
      exists k | 0 <= k < |values| ::
        AmountOf(values[k]) == Some(a) && forall j | 0 <= j < k :: AmountOf(values[j]) == None
  }

  lemma {:induction false} FirstAmountLeads(values: seq<Option<string>>)
    ensures Leads(values, FirstAmount(values))
  {
    if values != [] {
      var rest := values[1..];
      FirstAmountLeads(rest);
      assert FirstAmount([]) == None && [values[0]][1..] == [];
      assert AmountOf(values[0]) == None ==> FirstAmount(values) == FirstAmount(rest);
      if AmountOf(values[0]) == None {
        match FirstAmount(rest) {
          case None =>
            forall k | 0 <= k < |values| ensures AmountOf(values[k]) == None {
              assert k > 0 ==> values[k] == rest[k - 1];
            }
          case Some(a) =>
            var k :| 0 <= k < |rest| && AmountOf(rest[k]) == Some(a) && forall j | 0 <= j < k ::
              AmountOf(rest[j]) == None;
            assert values[k + 1] == rest[k];
            forall j | 0 <= j < k + 1 ensures AmountOf(values[j]) == None { assert j > 0 ==> values[j] == rest[j - 1]; }
        }
      }
    }
  }

  /** Commas go, and nothing else. */
  lemma {:induction false} CommasGo(a: string, b: string)
    ensures WithoutCommas(a + b) == WithoutCommas(a) + WithoutCommas(b)
  {
    if a == "" {
      assert a + b == b;
    } else {
      CommasGo(a[1..], b);
      assert (a + b)[1..] == a[1..] + b && (a + b)[0] == a[0];
      var rest, tail := WithoutCommas(a[1..]), WithoutCommas(b);
      assert [a[0]] + (rest + tail) == [a[0]] + rest + tail;
    }
  }

  /** An amount written in yuan, with or without a sign, is read in cents, and nothing spells no amount. */
  lemma AmountRead(s: string, sign: string, c: int)
    requires 1 <= c <= 99_999_999_999 && sign in {"", "+", "-"}
    requires Money.CentsToYuan(c).Ok? && Money.Trims(WithoutCommas(s), sign + Money.CentsToYuan(c).value)
    ensures AmountOf(Some(s)) == Some(c) && AmountOf(None) == None
  {
    hide Money.CentsToYuan, Money.YuanToCents, Money.Trim, WithoutCommas;
    Money.CentsRoundTrip(c);
    Money.TrimIs(WithoutCommas(s));
    Money.TrimsOnce(WithoutCommas(s), sign + Money.CentsToYuan(c).value, Money.Trim(WithoutCommas(s)));
    Money.YuanStartsWithDigit(c);
    assert Unsigned(sign + Money.CentsToYuan(c).value) == Money.CentsToYuan(c).value;
  }

  /** Money going back: the kind of business says so, or what was refunded or received is below zero. */
  ghost predicate GoesBack(business: Option<string>, refunded: Option<string>, received: Option<string>) {
    (business.Some? && Mentions(business.value, "退款")) || BelowZero(refunded) || BelowZero(received)
  }

  /**
   A row becomes a receipt exactly if it names a trade or an order and has an amount and a time. A refund counts what
   was refunded, what was received or what was ordered, whichever is there first; an income counts what was ordered or
   received.
   */
  lemma ReceiptIsSaid(headers: seq<string>, row: Row, clock: Clock, trade: Option<string>, order: Option<string>,
                      business: Option<string>, refunded: Option<string>, received: Option<string>,
                      ordered: Option<string>, finished: Option<string>, amount: Option<nat>)
    requires Says(headers, row, ["支付宝交易号", "交易号"], trade)
    requires Says(headers, row, ["商户订单号", "商家订单号"], order)
    requires Says(headers, row, ["业务类型", "交易类型"], business)
    requires Says(headers, row, ["退款金额（元）", "退款金额(元)"], refunded)
    requires Says(headers, row, ["商家实收（元）", "商家实收(元)"], received)
    requires Says(headers, row, ["订单金额（元）", "订单金额(元)"], ordered)
    requires Says(headers, row, ["完成时间", "交易完成时间", "创建时间"], finished)
    requires Leads(if GoesBack(business, refunded, received) then [refunded, received, ordered]
                   else [ordered, received],
                   amount)
    ensures var verdict := Judge(headers, row, clock);
            && (verdict.Kept? <==> (trade.Some? || order.Some?) && amount.Some? && finished.Some?
                                   && clock(finished.value).Some?)
            && (verdict.Kept? ==>
                  var r := verdict.receipt;
                  && r.tradeNo == trade && r.orderNo == order && r.amount == amount.value
                  && (r.direction == Refunded <==> GoesBack(business, refunded, received))
                  && clock(finished.value) == Some(r.at)
                  && Says(headers, row, ["支付宝退款单号", "退款交易号"], r.refundNo)
                  && Says(headers, row, ["退款批次号/请求号", "退款批次号", "退款请求号", "商户退款单号"], r.merchantRefundNo))
  {
    hide Says, Field, FirstAmount, Leads, HoldsAnything, Contains, IsNegative, Mentions, BelowZero;
    SaidIsField(headers, row, TRADE_NO, trade);
    SaidIsField(headers, row, ORDER_NO, order);
    SaidIsField(headers, row, BUSINESS, business);
    SaidIsField(headers, row, REFUNDED, refunded);
    SaidIsField(headers, row, RECEIVED, received);
    SaidIsField(headers, row, ORDERED, ordered);
    SaidIsField(headers, row, FINISHED, finished);
    FieldIsSaid(headers, row, REFUND_NO);
    FieldIsSaid(headers, row, MERCHANT_REFUND_NO);
    if business.Some? { ContainsIsMention(business.value, "退款"); }
    NegativeIsBelowZero(refunded);
    NegativeIsBelowZero(received);
    LeadIsFirst(if GoesBack(business, refunded, received) then [refunded, received, ordered] else [ordered, received],
                amount);
  }

  lemma SaidIsField(headers: seq<string>, row: Row, names: seq<string>, value: Option<string>)
    requires Says(headers, row, names, value)
    ensures Field(headers, row, names) == value
  {
    hide Says, Field;
    FieldIsSaid(headers, row, names);
    SaidOnce(headers, row, names, value, Field(headers, row, names));
  }

  lemma LeadIsFirst(values: seq<Option<string>>, amount: Option<nat>)
    requires Leads(values, amount)
    ensures FirstAmount(values) == amount
  {
    hide AmountOf, FirstAmount;
    FirstAmountLeads(values);
  }

  // ---- No row is lost ----------------------------------------------------------------------

  /** A value comes from a cell of the row that holds it. */
  lemma {:induction false} FieldFromCell(headers: seq<string>, row: Row, names: seq<string>)
    ensures Field(headers, row, names).Some? ==> HoldsAnything(row)
  {
    if names != [] {
      FieldFromCell(headers, row, names[1..]);
      var column := ColumnOf(headers, names[0], |headers|);
      if column.Some? && CellAt(row, column.value) != "" {
        assert CleanCell(row[column.value]) != "";
      }
    }
  }

  /** Only rows that hold nothing are passed over in silence. */
  lemma BlankHoldsNothing(headers: seq<string>, row: Row, clock: Clock)
    ensures Judge(headers, row, clock).Blank? <==> !HoldsAnything(row)
  {
    hide Field, HoldsAnything;
    FieldFromCell(headers, row, TRADE_NO);
    FieldFromCell(headers, row, ORDER_NO);
  }

  function RowsHolding(rows: seq<Row>): nat {
    if rows == [] then 0 else RowsHolding(rows[..|rows| - 1]) + if HoldsAnything(rows[|rows| - 1]) then 1 else 0
  }

  /** Every row that holds anything becomes a receipt or is counted as skipped, and no row is counted twice. */
  lemma {:induction false} EveryRowCounted(headers: seq<string>, rows: seq<Row>, clock: Clock)
    ensures |Receipts(headers, rows, clock)| + SkippedRows(headers, rows, clock) == RowsHolding(rows)
  {
    hide Judge, HoldsAnything;
    if rows != [] {
      EveryRowCounted(headers, rows[..|rows| - 1], clock);
      BlankHoldsNothing(headers, rows[|rows| - 1], clock);
    }
  }

  /** The first amount that is found is above zero. */
  lemma {:induction false} AmountsPositive(values: seq<Option<string>>)
    ensures FirstAmount(values).Some? ==> FirstAmount(values).value > 0
  {
    hide Money.Split, Money.NumberOf, Money.Trim, WithoutCommas, Unsigned;
    if values != [] {
      AmountsPositive(values[1..]);
    }
  }

  /** A receipt names its trade or its order, and an amount above zero. */
  lemma {:induction false} ReceiptsProper(headers: seq<string>, rows: seq<Row>, clock: Clock)
    ensures forall i | 0 <= i < |Receipts(headers, rows, clock)| ::
              var r := Receipts(headers, rows, clock)[i]; (r.tradeNo.Some? || r.orderNo.Some?) && r.amount > 0
  {
    hide Judge;
    if rows != [] {
      ReceiptsProper(headers, rows[..|rows| - 1], clock);
      KeptProper(headers, rows[|rows| - 1], clock);
    }
  }

  lemma KeptProper(headers: seq<string>, row: Row, clock: Clock)
    ensures Judge(headers, row, clock).Kept? ==>
              var r := Judge(headers, row, clock).receipt; (r.tradeNo.Some? || r.orderNo.Some?) && r.amount > 0
  {
    hide Field, FirstAmount, HoldsAnything, IsNegative, Contains;
    var refunded, received, ordered := Field(headers, row, REFUNDED), Field(headers, row, RECEIVED),
                                       Field(headers, row, ORDERED);
    AmountsPositive([refunded, received, ordered]);
    AmountsPositive([ordered, received]);
  }

  /**
   A statement written row by row, whatever its cells hold and however they are quoted: once it is accepted, the rows
   behind its header that hold anything are as many as its receipts and its skipped rows together.
   */
  lemma StatementAccounted(lines: seq<Csv.Line>, input: string, clock: Clock)
    requires Csv.AllWritable(lines) && Csv.Prefixed(input, Csv.Written(lines))
    ensures var r, rows := Read(Csv.Parsed(input), clock), Csv.RowTexts(lines);
            && (r == Err(HeaderNotFound) <==> forall i | 0 <= i < |rows| :: !IsHeader(rows[i]))
            && (r.Ok? ==> |r.value.receipts| + r.value.skipped == RowsHolding(rows[HeaderAt(rows) + 1..]))
            && (r.Err? && r.error.NothingRecognised? ==> r.error.skipped == RowsHolding(rows[HeaderAt(rows) + 1..]))
  {
    hide Csv.Written, Csv.RowTexts, Csv.AllWritable, Csv.Prefixed, Csv.Parsed, IsHeader, Receipts, SkippedRows, Headers;
    Csv.ReadsBack(lines, input);
    var rows := Csv.RowTexts(lines);
    if HeaderAt(rows) < |rows| {
      EveryRowCounted(Headers(rows[HeaderAt(rows)]), rows[HeaderAt(rows) + 1..], clock);
    }
  }
}
