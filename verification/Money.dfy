/** Amounts in integer cents and their spelling in yuan. */
module Money {
  import opened Wrappers

  const MAX_SAFE_INTEGER := 9_007_199_254_740_991

  datatype MoneyError = InvalidAmount

  predicate IsDigit(c: char) {
    '0' <= c <= '9'
  }

  function DigitOf(d: nat): char
    requires d < 10
  {
    (d + '0' as int) as char
  }

  function ValueOf(c: char): nat
    requires IsDigit(c)
  {
    c as int - '0' as int
  }

  predicate AllDigits(s: string) {
    forall i | 0 <= i < |s| :: IsDigit(s[i])
  }

  /** The usual decimal spelling of a number. */
  function Decimal(n: nat): string {
    if n < 10 then [DigitOf(n)] else Decimal(n / 10) + [DigitOf(n % 10)]
  }

  function NumberOf(s: string): nat
    requires AllDigits(s)
  {
    if s == "" then 0 else 10 * NumberOf(s[..|s| - 1]) + ValueOf(s[|s| - 1])
  }

  lemma {:induction false} DecimalShape(n: nat)
    ensures Decimal(n) != "" && AllDigits(Decimal(n))
    ensures Decimal(n)[0] == '0' ==> n == 0
  {
    if n >= 10 {
      DecimalShape(n / 10);
    }
  }

  lemma {:induction false} NumberOfDecimal(n: nat)
    ensures AllDigits(Decimal(n)) && NumberOf(Decimal(n)) == n
  {
    DecimalShape(n);
    if n >= 10 {
      NumberOfDecimal(n / 10);
      assert Decimal(n)[..|Decimal(n)| - 1] == Decimal(n / 10);
    }
  }

  /** Two numbers with one spelling are one number. */
  lemma DecimalInjective(m: nat, n: nat)
    requires Decimal(m) == Decimal(n)
    ensures m == n
  {
    NumberOfDecimal(m);
    NumberOfDecimal(n);
  }

  lemma {:induction false} DecimalOfNumber(s: string)
    requires AllDigits(s) && s != "" && (s[0] == '0' ==> |s| == 1)
    ensures Decimal(NumberOf(s)) == s
  {
    hide Decimal;
    var front, last := s[..|s| - 1], s[|s| - 1];
    if |s| == 1 {
      DecimalDigit(ValueOf(last));
    } else {
      DecimalOfNumber(front);
      Positive(front);
      DecimalAppends(NumberOf(front), ValueOf(last));
      assert s == front + [last];
    }
  }

  lemma DecimalDigit(d: nat)
    requires d < 10
    ensures Decimal(d) == [DigitOf(d)]
  {
  }

  lemma DecimalAppends(n: nat, d: nat)
    requires n > 0 && d < 10
    ensures Decimal(10 * n + d) == Decimal(n) + [DigitOf(d)]
  {
    Tens(n, d);
  }

  lemma Tens(n: nat, d: nat)
    requires d < 10
    ensures (10 * n + d) / 10 == n && (10 * n + d) % 10 == d
  {
  }

  lemma {:induction false} Positive(s: string)
    requires AllDigits(s) && s != "" && s[0] != '0'
    ensures NumberOf(s) > 0
  {
    if |s| > 1 {
      Positive(s[..|s| - 1]);
    }
  }

  predicate NonZero(s: string) {
    exists i | 0 <= i < |s| :: s[i] != '0'
  }

  function Power10(n: nat): nat {
    if n == 0 then 1 else 10 * Power10(n - 1)
  }

  /** A number of at most k digits lies below 10^k, and a number below 10^k has at most k digits. */
  lemma {:induction false} DigitsBound(s: string)
    requires AllDigits(s)
    ensures NumberOf(s) < Power10(|s|)
  {
    if s != "" {
      DigitsBound(s[..|s| - 1]);
    }
  }

  lemma {:induction false} DecimalLength(n: nat, k: nat)
    requires k >= 1 && n < Power10(k)
    ensures |Decimal(n)| <= k
  {
    if n >= 10 {
      DecimalLength(n / 10, k - 1);
    }
  }

  // ---- lib/money.ts ------------------------------------------------------------------------

  predicate IsSpace(c: char) {
    c in " \t\n\r" || c as int in {0x0B, 0x0C, 0xA0, 0x1680, 0x2028, 0x2029, 0x202F, 0x205F, 0x3000, 0xFEFF}
      || 0x2000 <= c as int <= 0x200A
  }

  function Trim(s: string): string {
    if s == "" then s
    else if IsSpace(s[0]) then Trim(s[1..])
    else if IsSpace(s[|s| - 1]) then Trim(s[..|s| - 1])
    else s
  }

  predicate IntegerPart(s: string) {
    AllDigits(s) && 1 <= |s| <= 9 && (s[0] == '0' ==> |s| == 1)
  }

  predicate FractionPart(s: string) {
    AllDigits(s) && 1 <= |s| <= 2
  }

  /** Where the first point stands, or the length when there is none. */
  function PointAt(s: string): (i: nat)
    ensures i <= |s| && (i < |s| ==> s[i] == '.')
    ensures forall k | 0 <= k < i :: s[k] != '.'
  {
    if s == "" then 0 else if s[0] == '.' then 0 else 1 + PointAt(s[1..])
  }

  function PadEnd2(s: string): string {
    if |s| >= 2 then s else if |s| == 1 then s + "0" else "00"
  }

  /** The accepted spelling, as its integer digits and its two fraction digits. */
  function Split(text: string): Option<(string, string)> {
    var i := PointAt(text);
    if !IntegerPart(text[..i]) then None
    else if i == |text| then Some((text, "00"))
    else if FractionPart(text[i + 1..]) then Some((text[..i], PadEnd2(text[i + 1..])))
    else None
  }

  function YuanToCents(value: string): (r: Result<nat, MoneyError>)
  {
    match Split(Trim(value))
    case None => Err(InvalidAmount)
    case Some(parts) =>
      var cents := NumberOf(parts.0) * 100 + NumberOf(parts.1);
      if cents > MAX_SAFE_INTEGER || cents <= 0 then Err(InvalidAmount) else Ok(cents)
  }

  function PadStart2(s: string): string {
    if |s| >= 2 then s else if |s| == 1 then "0" + s else "00"
  }

  function CentsToYuan(cents: int): Result<string, MoneyError> {
    if cents < 0 || cents > MAX_SAFE_INTEGER then Err(InvalidAmount)
    else Ok(Decimal(cents / 100) + "." + PadStart2(Decimal(cents % 100)))
  }

  // ---- Properties --------------------------------------------------------------------------

  lemma TwoDigits(n: nat)
    requires n < 100
    ensures var s := PadStart2(Decimal(n)); |s| == 2 && AllDigits(s) && NumberOf(s) == n
  {
    var s := PadStart2(Decimal(n));
    assert Power10(2) == 100 by { assert Power10(1) == 10 && Power10(0) == 1; }
    NumberOfDecimal(n);
    DecimalShape(n);
    DecimalLength(n, 2);
    if |Decimal(n)| == 1 {
      assert s == "0" + Decimal(n);
      assert s[..1] == "0" && s[..1][..0] == "";
      assert Decimal(n)[..0] == "";
    }
  }

  lemma PointAfter(a: string, b: string)
    requires AllDigits(a)
    ensures PointAt(a + "." + b) == |a|
  {
    var s := a + "." + b;
    assert s[|a|] == '.';
    forall k | 0 <= k < |a| ensures s[k] != '.' { assert s[k] == a[k] && IsDigit(a[k]); }
  }

  lemma SplitSpelling(whole: string, rest: string)
    requires IntegerPart(whole) && AllDigits(rest) && |rest| == 2
    ensures Trim(whole + "." + rest) == whole + "." + rest
    ensures Split(whole + "." + rest) == Some((whole, rest))
  {
    var s := whole + "." + rest;
    PointAfter(whole, rest);
    assert s[..|whole|] == whole && s[|whole| + 1..] == rest;
    assert IsDigit(whole[0]) && IsDigit(rest[1]);
    assert s[0] == whole[0] && s[|s| - 1] == rest[1];
  }

  /** Cents survive the trip through yuan, for every amount the spelling can hold. */
  lemma CentsRoundTrip(c: int)
    requires 1 <= c <= 99_999_999_999
    ensures CentsToYuan(c).Ok? && YuanToCents(CentsToYuan(c).value) == Ok(c)
  {
    hide Trim, Split, PadStart2;
    var whole, rest := Decimal(c / 100), PadStart2(Decimal(c % 100));
    DecimalShape(c / 100);
    NumberOfDecimal(c / 100);
    TwoDigits(c % 100);
    NineDigits();
    DecimalLength(c / 100, 9);
    SplitSpelling(whole, rest);
  }

  lemma NineDigits()
    ensures Power10(9) == 1_000_000_000
  {
    assert Power10(3) == 1000 by { assert Power10(2) == 100 by { assert Power10(1) == 10; } }
    assert Power10(6) == 1_000_000 by { assert Power10(5) == 100_000 by { assert Power10(4) == 10_000; } }
    assert Power10(8) == 100_000_000 by { assert Power10(7) == 10_000_000; }
  }

  lemma OneDigit(c: char)
    requires IsDigit(c)
    ensures NumberOf([c]) == ValueOf(c) && Decimal(ValueOf(c)) == [c]
  {
    assert [c][..0] == "";
  }

  lemma LastDigit(front: string, c: char)
    requires AllDigits(front) && IsDigit(c)
    ensures NumberOf(front + [c]) == 10 * NumberOf(front) + ValueOf(c)
  {
    assert (front + [c])[..|front|] == front;
  }

  lemma TwoDigitSpelling(t: string)
    requires AllDigits(t) && |t| == 2
    ensures NumberOf(t) < 100 && PadStart2(Decimal(NumberOf(t))) == t
  {
    hide NumberOf, Decimal;
    assert t == [t[0]] + [t[1]];
    OneDigit(t[0]);
    OneDigit(t[1]);
    LastDigit([t[0]], t[1]);
    if t[0] != '0' { DecimalOfNumber(t); }
  }

  lemma SplitShape(text: string)
    requires Split(text).Some?
    ensures var parts := Split(text).value; IntegerPart(parts.0) && AllDigits(parts.1) && |parts.1| == 2
  {
    var i := PointAt(text);
    assert i == |text| ==> text[..i] == text;
  }

  lemma Hundreds(a: nat, b: nat)
    requires b < 100
    ensures (a * 100 + b) / 100 == a && (a * 100 + b) % 100 == b
  {
  }

  lemma PartsRoundTrip(whole: string, rest: string)
    requires IntegerPart(whole) && AllDigits(rest) && |rest| == 2
    requires NumberOf(whole) * 100 + NumberOf(rest) <= MAX_SAFE_INTEGER
    ensures CentsToYuan(NumberOf(whole) * 100 + NumberOf(rest)) == Ok(whole + "." + rest)
  {
    hide NumberOf, Decimal, PadStart2, AllDigits;
    TwoDigitSpelling(rest);
    DecimalOfNumber(whole);
    Hundreds(NumberOf(whole), NumberOf(rest));
  }

  /** An accepted text comes back as its own two-decimal spelling. */
  lemma YuanRoundTrip(s: string)
    requires YuanToCents(s).Ok?
    ensures var parts := Split(Trim(s)).value;
            CentsToYuan(YuanToCents(s).value) == Ok(parts.0 + "." + parts.1)
  {
    hide Trim, Split, CentsToYuan;
    SplitShape(Trim(s));
    var parts := Split(Trim(s)).value;
    PartsRoundTrip(parts.0, parts.1);
  }

  /** A text is accepted exactly when it is spelled as an amount with some digit above zero. */
  lemma AcceptedExactly(s: string)
    ensures YuanToCents(s).Ok? <==>
            var parts := Split(Trim(s));
            parts.Some? && (NonZero(parts.value.0) || NonZero(parts.value.1))
  {
    var parts := Split(Trim(s));
    if parts.Some? {
      ZeroOnly(parts.value.0);
      ZeroOnly(parts.value.1);
      DigitsBound(parts.value.0);
      DigitsBound(parts.value.1);
      NineDigits();
      PowerMonotone(|parts.value.0|, 9);
      PowerMonotone(|parts.value.1|, 9);
    }
  }

  lemma {:induction false} PowerMonotone(m: nat, n: nat)
    requires m <= n
    ensures Power10(m) <= Power10(n)
    decreases n
  {
    if m < n {
      PowerMonotone(m, n - 1);
    }
  }

  lemma NonZeroSplits(s: string)
    requires s != ""
    ensures NonZero(s) <==> NonZero(s[..|s| - 1]) || s[|s| - 1] != '0'
  {
    var front := s[..|s| - 1];
    if NonZero(s) {
      var i :| 0 <= i < |s| && s[i] != '0';
      if i < |front| { assert front[i] != '0'; }
    }
    if NonZero(front) {
      var i :| 0 <= i < |front| && front[i] != '0';
      assert s[i] != '0';
    }
  }

  lemma {:induction false} ZeroOnly(s: string)
    requires AllDigits(s)
    ensures NumberOf(s) > 0 <==> NonZero(s)
  {
    if s != "" {
      ZeroOnly(s[..|s| - 1]);
      NonZeroSplits(s);
    }
  }

  predicate AllSpace(s: string) {
    forall i | 0 <= i < |s| :: IsSpace(s[i])
  }

  /** The text is the middle with white space around it. */
  predicate Around(s: string, before: string, t: string, after: string) {
    s == before + t + after && AllSpace(before) && AllSpace(after)
  }

  /** The text without the white space around it. */
  ghost predicate Trims(s: string, t: string) {
    (exists before, after :: Around(s, before, t, after)) && (t != "" ==> !IsSpace(t[0]) && !IsSpace(t[|t| - 1]))
  }

  lemma {:induction false} TrimIs(s: string)
    ensures Trims(s, Trim(s))
  {
    hide IsSpace, Around;
    if s == "" {
      Surrounded(s, "", s, "");
    } else if IsSpace(s[0]) {
      TrimIs(s[1..]);
      var before, after :| Around(s[1..], before, Trim(s[1..]), after);
      SpaceBefore(s, before, Trim(s), after);
    } else if IsSpace(s[|s| - 1]) {
      TrimIs(s[..|s| - 1]);
      var before, after :| Around(s[..|s| - 1], before, Trim(s[..|s| - 1]), after);
      SpaceAfter(s, before, Trim(s), after);
    } else {
      Surrounded(s, "", s, "");
    }
  }

  lemma Surrounded(s: string, before: string, t: string, after: string)
    requires s == t && before == "" && after == ""
    ensures Around(s, before, t, after)
  {
  }

  lemma SpaceBefore(s: string, before: string, t: string, after: string)
    requires s != "" && IsSpace(s[0]) && Around(s[1..], before, t, after)
    ensures Around(s, [s[0]] + before, t, after)
  {
    hide IsSpace;
    assert s == [s[0]] + s[1..];
    assert [s[0]] + (before + t + after) == [s[0]] + before + t + after;
  }

  lemma SpaceAfter(s: string, before: string, t: string, after: string)
    requires s != "" && IsSpace(s[|s| - 1]) && Around(s[..|s| - 1], before, t, after)
    ensures Around(s, before, t, after + [s[|s| - 1]])
  {
    hide IsSpace;
    assert s == s[..|s| - 1] + [s[|s| - 1]];
    assert before + t + after + [s[|s| - 1]] == before + t + (after + [s[|s| - 1]]);
  }

  /** White space before a text that begins with none ends where the other does. */
  lemma SameStart(s: string, before: string, t: string, after: string, front: string, u: string, back: string)
    requires Around(s, before, t, after) && Around(s, front, u, back)
    requires t != "" && !IsSpace(t[0])
    ensures |front| <= |before|
  {
    hide IsSpace;
    assert s[|before|] == t[0];
  }

  lemma SameEnd(s: string, before: string, t: string, after: string, front: string, u: string, back: string)
    requires Around(s, before, t, after) && Around(s, front, u, back)
    requires t != "" && !IsSpace(t[|t| - 1])
    ensures |back| <= |after|
  {
    hide IsSpace;
    var last := |before| + |t| - 1;
    assert s[last] == t[|t| - 1];
  }

  lemma NotAllSpace(s: string, before: string, t: string, after: string, front: string, back: string)
    requires Around(s, before, t, after) && Around(s, front, "", back)
    ensures t != "" ==> IsSpace(t[0])
  {
    hide IsSpace;
    if t != "" {
      assert s[|before|] == t[0];
      assert |before| < |front| ==> s[|before|] == front[|before|];
      assert |before| >= |front| ==> s[|before|] == back[|before| - |front|];
    }
  }

  lemma TrimsOnce(s: string, t: string, u: string)
    requires Trims(s, t) && Trims(s, u)
    ensures t == u
  {
    hide IsSpace, Around;
    var before, after :| Around(s, before, t, after);
    var front, back :| Around(s, front, u, back);
    if u == "" {
      NotAllSpace(s, before, t, after, front, back);
    } else if t == "" {
      NotAllSpace(s, front, u, back, before, after);
    } else {
      SameStart(s, before, t, after, front, u, back);
      SameStart(s, front, u, back, before, t, after);
      SameEnd(s, before, t, after, front, u, back);
      SameEnd(s, front, u, back, before, t, after);
      SameMiddle(s, before, t, after, front, u, back);
    }
  }

  lemma SameMiddle(s: string, before: string, t: string, after: string, front: string, u: string, back: string)
    requires Around(s, before, t, after) && Around(s, front, u, back)
    requires |before| == |front| && |after| == |back|
    ensures t == u
  {
    hide AllSpace;
    assert t == s[|before|..|s| - |after|];
    assert u == s[|front|..|s| - |back|];
  }

  /** One decimal counts tenths, and none counts whole yuan. */
  lemma FewerDecimals(whole: string, d: char)
    requires IntegerPart(whole) && IsDigit(d)
    ensures YuanToCents(whole + "." + [d]) == YuanToCents(whole + "." + [d] + "0")
    ensures YuanToCents(whole) == YuanToCents(whole + ".00")
  {
    hide NumberOf, Trim;
    DecimalsSplit(whole, [d]);
    assert whole + "." + [d] + "0" == whole + "." + ([d] + "0");
    SplitSpelling(whole, [d] + "0");
    assert whole + ".00" == whole + "." + "00";
    SplitSpelling(whole, "00");
    WholeSplit(whole);
  }

  lemma DecimalsSplit(whole: string, rest: string)
    requires IntegerPart(whole) && AllDigits(rest) && |rest| == 1
    ensures Trim(whole + "." + rest) == whole + "." + rest
    ensures Split(whole + "." + rest) == Some((whole, rest + "0"))
  {
    var s := whole + "." + rest;
    PointAfter(whole, rest);
    assert s[..|whole|] == whole && s[|whole| + 1..] == rest;
    assert IsDigit(whole[0]) && IsDigit(rest[0]);
    assert s[0] == whole[0] && s[|s| - 1] == rest[0];
  }

  lemma WholeSplit(whole: string)
    requires IntegerPart(whole)
    ensures Trim(whole) == whole && Split(whole) == Some((whole, "00"))
  {
    assert IsDigit(whole[0]) && IsDigit(whole[|whole| - 1]);
    assert forall k | 0 <= k < |whole| :: whole[k] != '.';
    assert whole[..|whole|] == whole;
  }

  lemma YuanStartsWithDigit(cents: int)
    requires CentsToYuan(cents).Ok?
    ensures CentsToYuan(cents).value != "" && IsDigit(CentsToYuan(cents).value[0])
  {
    DecimalShape(cents / 100);
  }
}
