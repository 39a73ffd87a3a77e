/** JSON texts with sorted members: two values have one text exactly when they are equal up to member order. */
module StableJson {
  import opened Wrappers

  /** A UTF-16 code unit; strings of the modelled program are sequences of them. */
  newtype CodeUnit = x: int | 0 <= x < 0x10000

  type Text = seq<CodeUnit>

  const QUOTE: CodeUnit := 34
  const BACKSLASH: CodeUnit := 92
  const COMMA: CodeUnit := 44
  const COLON: CodeUnit := 58
  const OPEN_BRACKET: CodeUnit := 91
  const CLOSE_BRACKET: CodeUnit := 93
  const OPEN_BRACE: CodeUnit := 123
  const CLOSE_BRACE: CodeUnit := 125
  const LETTER_U: CodeUnit := 117

  // ---- String literals ---------------------------------------------------------------------

  predicate HighSurrogate(u: CodeUnit) {
    0xD800 <= u < 0xDC00
  }

  predicate LowSurrogate(u: CodeUnit) {
    0xDC00 <= u < 0xE000
  }

  /** The letter of a two-character escape. */
  function ShortEscape(u: CodeUnit): Option<CodeUnit> {
    if u == QUOTE || u == BACKSLASH then Some(u)
    else if u == 8 then Some(98)
    else if u == 12 then Some(102)
    else if u == 10 then Some(110)
    else if u == 13 then Some(114)
    else if u == 9 then Some(116)
    else None
  }

  function HexDigit(d: int): CodeUnit
    requires 0 <= d < 16
  {
    if d < 10 then (48 + d) as CodeUnit else (87 + d) as CodeUnit
  }

  /** The four hexadecimal digits of a number, the highest first. */
  function Nibbles(n: int): (d: (int, int, int, int))
    requires 0 <= n < 0x10000
    ensures 0 <= d.0 < 16 && 0 <= d.1 < 16 && 0 <= d.2 < 16 && 0 <= d.3 < 16
    ensures n == d.0 * 4096 + d.1 * 256 + d.2 * 16 + d.3
  {
    var first := n / 4096;
    var afterFirst := n - first * 4096;
    var second := afterFirst / 256;
    var afterSecond := afterFirst - second * 256;
    (first, second, afterSecond / 16, afterSecond - afterSecond / 16 * 16)
  }

  function Hex(u: CodeUnit): Text {
    var d := Nibbles(u as int);
    [HexDigit(d.0), HexDigit(d.1), HexDigit(d.2), HexDigit(d.3)]
  }

  /** One code unit outside a surrogate pair; control characters and lone surrogates are written by number. */
  function EscapedUnit(u: CodeUnit): Text {
    if ShortEscape(u).Some? then [BACKSLASH, ShortEscape(u).value]
    else if u < 32 || HighSurrogate(u) || LowSurrogate(u) then [BACKSLASH, LETTER_U] + Hex(u)
    else [u]
  }

  function Escaped(s: Text): Text {
    if s == [] then []
    else if |s| > 1 && HighSurrogate(s[0]) && LowSurrogate(s[1]) then [s[0], s[1]] + Escaped(s[2..])
    else EscapedUnit(s[0]) + Escaped(s[1..])
  }

  /** `JSON.stringify` of a string. */
  function Quoted(s: Text): Text {
    [QUOTE] + Escaped(s) + [QUOTE]
  }

  function HexValue(u: CodeUnit): Option<int> {
    if 48 <= u < 58 then Some(u as int - 48) else if 97 <= u < 103 then Some(u as int - 87) else None
  }

  function LongEscape(letter: CodeUnit): CodeUnit {
    if letter == 98 then 8 else if letter == 102 then 12 else if letter == 110 then 10 else if letter == 114 then 13
    else if letter == 116 then 9 else letter
  }

  /** Reading a literal's inside up to its closing quote: the string and the text after the quote. */
  function Unquote(t: Text): Option<(Text, Text)>
    decreases |t|
  {
    if t == [] then None
    else if t[0] == QUOTE then Some(([], t[1..]))
    else if t[0] == BACKSLASH then
      if |t| < 2 then None
      else if t[1] != LETTER_U then Before(LongEscape(t[1]), Unquote(t[2..]))
      else if |t| < 6 || HexValue(t[2]).None? || HexValue(t[3]).None? || HexValue(t[4]).None? || HexValue(t[5]).None?
           then None
      else
        var n := HexValue(t[2]).value * 4096 + HexValue(t[3]).value * 256 + HexValue(t[4]).value * 16
                 + HexValue(t[5]).value;
        Before(n as CodeUnit, Unquote(t[6..]))
    else Before(t[0], Unquote(t[1..]))
  }

  function Before(u: CodeUnit, r: Option<(Text, Text)>): Option<(Text, Text)> {
    if r.None? then None else Some(([u] + r.value.0, r.value.1))
  }

  lemma DigitReadsBack(d: int)
    requires 0 <= d < 16
    ensures HexValue(HexDigit(d)) == Some(d)
  {
  }

  lemma HexReadsBack(u: CodeUnit, more: Text)
    ensures Unquote([BACKSLASH, LETTER_U] + Hex(u) + more) == Before(u, Unquote(more))
  {
    hide Nibbles, HexDigit, HexValue;
    var d := Nibbles(u as int);
    DigitReadsBack(d.0);
    DigitReadsBack(d.1);
    DigitReadsBack(d.2);
    DigitReadsBack(d.3);
    var t := [BACKSLASH, LETTER_U] + Hex(u) + more;
    assert t[2] == HexDigit(d.0) && t[3] == HexDigit(d.1) && t[4] == HexDigit(d.2) && t[5] == HexDigit(d.3);
    assert t[6..] == more;
  }

  lemma UnitReadsBack(u: CodeUnit, more: Text)
    ensures Unquote(EscapedUnit(u) + more) == Before(u, Unquote(more))
  {
    hide Hex;
    var t := EscapedUnit(u) + more;
    if ShortEscape(u).Some? {
      assert t[2..] == more;
    } else if u < 32 || HighSurrogate(u) || LowSurrogate(u) {
      HexReadsBack(u, more);
    } else {
      assert t[1..] == more;
    }
  }

  lemma RawReadsBack(u: CodeUnit, more: Text)
    requires u != QUOTE && u != BACKSLASH
    ensures Unquote([u] + more) == Before(u, Unquote(more))
  {
    assert ([u] + more)[1..] == more;
  }

  lemma PairReadsBack(u: CodeUnit, v: CodeUnit, more: Text)
    requires HighSurrogate(u) && LowSurrogate(v)
    ensures Unquote([u] + ([v] + more)) == Before(u, Before(v, Unquote(more)))
  {
    hide Unquote;
    RawReadsBack(u, [v] + more);
    RawReadsBack(v, more);
  }

  lemma EndReadsBack(rest: Text)
    ensures Unquote([QUOTE] + rest) == Some(([], rest))
  {
    assert ([QUOTE] + rest)[1..] == rest;
  }

  /** A literal is read back whole, whatever follows it. */
  lemma {:induction false} EscapedReadsBack(s: Text, rest: Text)
    ensures Unquote(Escaped(s) + [QUOTE] + rest) == Some((s, rest))
  {
    hide Unquote, EscapedUnit;
    if s == [] {
      EndReadsBack(rest);
      assert Escaped(s) + [QUOTE] + rest == [QUOTE] + rest;
    } else if |s| > 1 && HighSurrogate(s[0]) && LowSurrogate(s[1]) {
      EscapedReadsBack(s[2..], rest);
      var more := Escaped(s[2..]) + [QUOTE] + rest;
      assert Escaped(s) + [QUOTE] + rest == [s[0]] + ([s[1]] + more);
      PairReadsBack(s[0], s[1], more);
      assert [s[0]] + ([s[1]] + s[2..]) == s;
    } else {
      EscapedReadsBack(s[1..], rest);
      var more := Escaped(s[1..]) + [QUOTE] + rest;
      assert Escaped(s) + [QUOTE] + rest == EscapedUnit(s[0]) + more;
      UnitReadsBack(s[0], more);
      assert [s[0]] + s[1..] == s;
    }
  }

  /** Equal texts that start with literals start with equal literals. */
  lemma QuotedInjective(a: Text, b: Text, ra: Text, rb: Text)
    requires Quoted(a) + ra == Quoted(b) + rb
    ensures a == b && ra == rb
  {
    var ta, tb := Quoted(a) + ra, Quoted(b) + rb;
    assert ta[1..] == Escaped(a) + [QUOTE] + ra;
    assert tb[1..] == Escaped(b) + [QUOTE] + rb;
    EscapedReadsBack(a, ra);
    EscapedReadsBack(b, rb);
  }

  // ---- Order of keys -----------------------------------------------------------------------

  /** The order of strings by code units. */
  predicate Less(a: Text, b: Text) {
    b != [] && (a == [] || a[0] < b[0] || (a[0] == b[0] && Less(a[1..], b[1..])))
  }

  lemma {:induction false} LessTotal(a: Text, b: Text)
    ensures a == b || Less(a, b) || Less(b, a)
  {
    if a != [] && b != [] && a[0] == b[0] {
      LessTotal(a[1..], b[1..]);
      if a[1..] == b[1..] { assert a == [a[0]] + a[1..] == b; }
    }
  }

  lemma {:induction false} LessTransitive(a: Text, b: Text, c: Text)
    requires Less(a, b) && Less(b, c)
    ensures Less(a, c)
  {
    if a != [] && a[0] == b[0] == c[0] {
      LessTransitive(a[1..], b[1..], c[1..]);
    }
  }

  lemma {:induction false} LessIrreflexive(a: Text)
    ensures !Less(a, a)
  {
    if a != [] {
      LessIrreflexive(a[1..]);
    }
  }

  function Insert(k: Text, ks: seq<Text>): seq<Text> {
    if ks == [] || Less(k, ks[0]) then [k] + ks else [ks[0]] + Insert(k, ks[1..])
  }

  /** `Object.keys(object).sort()`. */
  function Sorted(ks: seq<Text>): seq<Text> {
    if ks == [] then [] else Insert(ks[0], Sorted(ks[1..]))
  }

  predicate Ascending(ks: seq<Text>) {
    forall i, j | 0 <= i < j < |ks| :: Less(ks[i], ks[j])
  }

  predicate Distinct(ks: seq<Text>) {
    forall i, j | 0 <= i < j < |ks| :: ks[i] != ks[j]
  }

  lemma {:induction false} InsertElements(k: Text, ks: seq<Text>)
    ensures forall x :: x in Insert(k, ks) <==> x == k || x in ks
    ensures |Insert(k, ks)| == |ks| + 1
  {
    if ks != [] && !Less(k, ks[0]) {
      InsertElements(k, ks[1..]);
      assert ks == [ks[0]] + ks[1..];
    }
  }

  lemma {:induction false} InsertAscends(k: Text, ks: seq<Text>)
    requires Ascending(ks) && k !in ks
    ensures Ascending(Insert(k, ks))
  {
    if ks != [] {
      LessTotal(k, ks[0]);
      if Less(k, ks[0]) {
        forall j | 0 <= j < |ks| ensures Less(k, ks[j]) {
          if j > 0 { LessTransitive(k, ks[0], ks[j]); }
        }
      } else {
        InsertAscends(k, ks[1..]);
        InsertElements(k, ks[1..]);
        var more := Insert(k, ks[1..]);
        forall j | 0 <= j < |more| ensures Less(ks[0], more[j]) {
          assert more[j] in more;
          if more[j] != k {
            var i :| 0 <= i < |ks[1..]| && ks[1..][i] == more[j];
            assert Less(ks[0], ks[i + 1]);
          }
        }
      }
    }
  }

  lemma {:induction false} SortedElements(ks: seq<Text>)
    ensures forall x :: x in Sorted(ks) <==> x in ks
    ensures |Sorted(ks)| == |ks|
  {
    if ks != [] {
      SortedElements(ks[1..]);
      InsertElements(ks[0], Sorted(ks[1..]));
      assert ks == [ks[0]] + ks[1..];
    }
  }

  lemma {:induction false} SortedAscends(ks: seq<Text>)
    requires Distinct(ks)
    ensures Ascending(Sorted(ks))
  {
    if ks != [] {
      SortedAscends(ks[1..]);
      SortedElements(ks[1..]);
      InsertAscends(ks[0], Sorted(ks[1..]));
    }
  }

  /** Ascending lists with the same elements are the same list. */
  lemma {:induction false} AscendingUnique(a: seq<Text>, b: seq<Text>)
    requires Ascending(a) && Ascending(b) && forall x :: x in a <==> x in b
    ensures a == b
  {
    if a == [] {
      assert forall i | 0 <= i < |b| :: b[i] in b;
    } else {
      assert a[0] in b && (b != [] ==> b[0] in a);
      HeadLeast(a, b);
      var ta, tb := a[1..], b[1..];
      forall x ensures x in ta <==> x in tb {
        HeadGone(a, x);
        HeadGone(b, x);
      }
      AscendingUnique(ta, tb);
      assert a == [a[0]] + ta && b == [b[0]] + tb;
    }
  }

  lemma HeadLeast(a: seq<Text>, b: seq<Text>)
    requires Ascending(a) && Ascending(b) && a != [] && b != [] && a[0] in b && b[0] in a
    ensures a[0] == b[0]
  {
    if a[0] != b[0] {
      var i :| 0 <= i < |b| && b[i] == a[0];
      var j :| 0 <= j < |a| && a[j] == b[0];
      LessTransitive(a[0], b[0], a[0]);
      LessIrreflexive(a[0]);
    }
  }

  lemma HeadGone(a: seq<Text>, x: Text)
    requires Ascending(a) && a != []
    ensures x in a[1..] <==> x in a && x != a[0]
  {
    LessIrreflexive(a[0]);
    assert a == [a[0]] + a[1..];
    if x in a[1..] {
      var i :| 0 <= i < |a[1..]| && a[1..][i] == x;
      assert Less(a[0], a[i + 1]);
    }
  }

  // ---- Values ------------------------------------------------------------------------------

  /** A JSON value; `Num` holds the spelling the program's own number printer gives, members are in insertion order. */
  datatype Json = Null | Bool(value: bool) | Num(spelling: Text) | Str(text: Text) | Arr(items: seq<Json>)
    | Obj(members: seq<(Text, Json)>)

  function Keys(members: seq<(Text, Json)>): seq<Text> {
    seq(|members|, i requires 0 <= i < |members| => members[i].0)
  }

  predicate NumberUnit(u: CodeUnit) {
    48 <= u < 58 || u == 45 || u == 43 || u == 46 || u == 69 || u == 101
  }

  /** The spelling of a number: it starts with a digit or a minus sign. */
  predicate NumberSpelling(s: Text) {
    && s != [] && (48 <= s[0] < 58 || s[0] == 45)
    && forall i | 0 <= i < |s| :: NumberUnit(s[i])
  }

  /** Numbers are spelled as numbers and objects name each member once. */
  predicate WellFormed(v: Json)
    decreases v
  {
    match v
    case Num(spelling) => NumberSpelling(spelling)
    case Arr(items) => forall i | 0 <= i < |items| :: WellFormed(items[i])
    case Obj(members) => Distinct(Keys(members)) && forall i | 0 <= i < |members| :: WellFormed(members[i].1)
    case _ => true
  }

  function IndexOf(members: seq<(Text, Json)>, k: Text): (i: nat)
    requires k in Keys(members)
    ensures i < |members| && members[i].0 == k
  {
    if members[0].0 == k then 0
    else
      assert Keys(members) == [members[0].0] + Keys(members[1..]);
      1 + IndexOf(members[1..], k)
  }

  /** `stableJson`. */
  function TextOf(v: Json): Text
    decreases v, 2
  {
    match v
    case Null => [110, 117, 108, 108]
    case Bool(b) => if b then [116, 114, 117, 101] else [102, 97, 108, 115, 101]
    case Num(spelling) => spelling
    case Str(s) => Quoted(s)
    case Arr(items) => [OPEN_BRACKET] + ItemsText(v, 0) + [CLOSE_BRACKET]
    case Obj(members) =>
      SortedElements(Keys(members));
      [OPEN_BRACE] + MembersText(v, Sorted(Keys(members))) + [CLOSE_BRACE]
  }

  /** The items from an index on, joined by commas. */
  function ItemsText(v: Json, from: nat): Text
    requires v.Arr? && from <= |v.items|
    decreases v, 1, |v.items| - from
  {
    if from == |v.items| then []
    else if from == |v.items| - 1 then TextOf(v.items[from])
    else TextOf(v.items[from]) + [COMMA] + ItemsText(v, from + 1)
  }

  /** The members with the given keys, in that order, joined by commas. */
  function MembersText(v: Json, ks: seq<Text>): Text
    requires v.Obj? && forall k | k in ks :: k in Keys(v.members)
    decreases v, 1, |ks|
  {
    if ks == [] then []
    else
      var head := Quoted(ks[0]) + [COLON] + TextOf(v.members[IndexOf(v.members, ks[0])].1);
      if |ks| == 1 then head else head + [COMMA] + MembersText(v, ks[1..])
  }

  /** Equal up to the order of members. */
  ghost predicate Same(a: Json, b: Json)
    decreases a
  {
    match (a, b)
    case (Arr(xs), Arr(ys)) => |xs| == |ys| && forall i | 0 <= i < |xs| :: Same(xs[i], ys[i])
    case (Obj(ms), Obj(ns)) =>
      && (forall k :: k in Keys(ms) <==> k in Keys(ns))
      && (forall i, j | 0 <= i < |ms| && 0 <= j < |ns| && ms[i].0 == ns[j].0 :: Same(ms[i].1, ns[j].1))
    case _ => a == b
  }

  // ---- One text, one value -----------------------------------------------------------------

  /** What may follow a value. */
  predicate Delimited(rest: Text) {
    rest == [] || rest[0] == COMMA || rest[0] == CLOSE_BRACKET || rest[0] == CLOSE_BRACE
  }

  /** The unit a value's text starts with tells its kind. */
  predicate Starts(v: Json, u: CodeUnit) {
    match v
    case Null => u == 110
    case Bool(b) => u == if b then 116 else 102
    case Num(_) => 48 <= u < 58 || u == 45
    case Str(_) => u == QUOTE
    case Arr(_) => u == OPEN_BRACKET
    case Obj(_) => u == OPEN_BRACE
  }

  lemma TextStarts(v: Json)
    requires WellFormed(v)
    ensures TextOf(v) != [] && Starts(v, TextOf(v)[0])
  {
    hide Escaped, ItemsText, MembersText, Sorted;
  }

  lemma SameStart(a: Json, b: Json, ra: Text, rb: Text)
    requires WellFormed(a) && WellFormed(b) && TextOf(a) + ra == TextOf(b) + rb
    ensures Starts(b, TextOf(a)[0]) && Starts(a, TextOf(a)[0])
  {
    hide TextOf, Starts;
    TextStarts(a);
    TextStarts(b);
    assert (TextOf(a) + ra)[0] == TextOf(a)[0] && (TextOf(b) + rb)[0] == TextOf(b)[0];
  }

  lemma PrefixesEqual(a: Text, b: Text, ra: Text, rb: Text)
    requires a + ra == b + rb && |a| == |b|
    ensures a == b && ra == rb
  {
    assert a == (a + ra)[..|a|] && b == (b + rb)[..|b|];
    assert ra == (a + ra)[|a|..] && rb == (b + rb)[|b|..];
  }

  lemma NumberEnds(s: Text, t: Text, rs: Text, rt: Text)
    requires NumberSpelling(s) && NumberSpelling(t) && Delimited(rs) && s + rs == t + rt
    ensures |t| <= |s|
  {
    assert |rs| == |t| + |rt| - |s|;
    assert rs != [] ==> (s + rs)[|s|] == rs[0] && !NumberUnit((s + rs)[|s|]);
    assert forall k | 0 <= k < |t| :: NumberUnit((t + rt)[k]);
  }

  lemma {:induction false} Inject(a: Json, b: Json, ra: Text, rb: Text)
    requires WellFormed(a) && WellFormed(b) && Delimited(ra) && Delimited(rb)
    requires TextOf(a) + ra == TextOf(b) + rb
    ensures Same(a, b) && ra == rb
    decreases a, 2, 0
  {
    SameStart(a, b, ra, rb);
    match a
    case Null => PrefixesEqual(TextOf(a), TextOf(b), ra, rb);
    case Bool(_) => PrefixesEqual(TextOf(a), TextOf(b), ra, rb);
    case Num(s) =>
      NumberEnds(s, b.spelling, ra, rb);
      NumberEnds(b.spelling, s, rb, ra);
      PrefixesEqual(s, b.spelling, ra, rb);
    case Str(s) => QuotedInjective(s, b.text, ra, rb);
    case Arr(_) =>
      Bracketed(OPEN_BRACKET, ItemsText(a, 0), ItemsText(b, 0), [CLOSE_BRACKET], ra, rb);
      ItemsInject(a, b, 0, ra, rb);
    case Obj(_) =>
      SortedElements(Keys(a.members));
      SortedElements(Keys(b.members));
      Bracketed(OPEN_BRACE, MembersText(a, Sorted(Keys(a.members))), MembersText(b, Sorted(Keys(b.members))),
                [CLOSE_BRACE], ra, rb);
      MembersInject(a, b, Sorted(Keys(a.members)), Sorted(Keys(b.members)), ra, rb);
      MembersSame(a, b);
  }

  lemma Bracketed(open: CodeUnit, ta: Text, tb: Text, close: Text, ra: Text, rb: Text)
    requires [open] + ta + close + ra == [open] + tb + close + rb
    ensures ta + close + ra == tb + close + rb
  {
    assert ([open] + ta + close + ra)[1..] == ta + close + ra;
    assert ([open] + tb + close + rb)[1..] == tb + close + rb;
  }

  /** What stands behind the item: the end of the array or a comma and the next items. */
  function AfterItem(v: Json, i: nat, rest: Text): Text
    requires v.Arr? && i < |v.items|
  {
    if i == |v.items| - 1 then [CLOSE_BRACKET] + rest else [COMMA] + (ItemsText(v, i + 1) + [CLOSE_BRACKET] + rest)
  }

  lemma ItemSplit(v: Json, i: nat, rest: Text)
    requires v.Arr? && i < |v.items|
    ensures ItemsText(v, i) + [CLOSE_BRACKET] + rest == TextOf(v.items[i]) + AfterItem(v, i, rest)
    ensures Delimited(AfterItem(v, i, rest))
  {
  }

  lemma {:induction false} ItemsInject(a: Json, b: Json, i: nat, ra: Text, rb: Text)
    requires a.Arr? && b.Arr? && WellFormed(a) && WellFormed(b)
    requires i <= |a.items| && i <= |b.items| && (i > 0 ==> i < |a.items| && i < |b.items|)
    requires ItemsText(a, i) + [CLOSE_BRACKET] + ra == ItemsText(b, i) + [CLOSE_BRACKET] + rb
    ensures |a.items| == |b.items| && ra == rb && forall j | i <= j < |a.items| :: Same(a.items[j], b.items[j])
    decreases a, 1, |a.items| - i
  {
    hide ItemsText, TextOf, Same, AfterItem;
    NoItems(a);
    NoItems(b);
    if i == |a.items| {
      if i < |b.items| { EmptyIsNotFilled(b, ra, rb); }
      PrefixesEqual([] + [CLOSE_BRACKET], [] + [CLOSE_BRACKET], ra, rb);
    } else if i == |b.items| {
      EmptyIsNotFilled(a, rb, ra);
    } else {
      ItemSplit(a, i, ra);
      ItemSplit(b, i, rb);
      Inject(a.items[i], b.items[i], AfterItem(a, i, ra), AfterItem(b, i, rb));
      AfterItemsEqual(a, b, i, ra, rb);
      if i < |a.items| - 1 { ItemsInject(a, b, i + 1, ra, rb); }
    }
  }

  lemma NoItems(v: Json)
    ensures v.Arr? && v.items == [] ==> ItemsText(v, 0) == []
  {
  }

  lemma EmptyIsNotFilled(v: Json, rest: Text, other: Text)
    requires v.Arr? && WellFormed(v) && v.items != []
    ensures [] + [CLOSE_BRACKET] + rest != ItemsText(v, 0) + [CLOSE_BRACKET] + other
  {
    hide TextOf, ItemsText, AfterItem;
    ItemSplit(v, 0, other);
    TextStarts(v.items[0]);
    var t := TextOf(v.items[0]) + AfterItem(v, 0, other);
    assert t[0] == TextOf(v.items[0])[0];
    assert ([] + [CLOSE_BRACKET] + rest)[0] == CLOSE_BRACKET;
  }

  lemma AfterItemsEqual(a: Json, b: Json, i: nat, ra: Text, rb: Text)
    requires a.Arr? && b.Arr? && i < |a.items| && i < |b.items| && AfterItem(a, i, ra) == AfterItem(b, i, rb)
    ensures i == |a.items| - 1 <==> i == |b.items| - 1
    ensures if i == |a.items| - 1 then ra == rb
            else i < |b.items| - 1
                 && ItemsText(a, i + 1) + [CLOSE_BRACKET] + ra == ItemsText(b, i + 1) + [CLOSE_BRACKET] + rb
  {
    hide ItemsText;
    assert AfterItem(a, i, ra)[0] == AfterItem(b, i, rb)[0];
    assert AfterItem(a, i, ra)[1..] == AfterItem(b, i, rb)[1..];
    if i == |a.items| - 1 { assert AfterItem(a, i, ra)[1..] == ra && AfterItem(b, i, rb)[1..] == rb; }
    else {
      assert AfterItem(a, i, ra)[1..] == ItemsText(a, i + 1) + [CLOSE_BRACKET] + ra;
      assert AfterItem(b, i, rb)[1..] == ItemsText(b, i + 1) + [CLOSE_BRACKET] + rb;
    }
  }

  function MemberOf(v: Json, k: Text): Json
    requires v.Obj? && k in Keys(v.members)
  {
    v.members[IndexOf(v.members, k)].1
  }

  function AfterMember(v: Json, ks: seq<Text>, rest: Text): Text
    requires v.Obj? && ks != [] && forall k | k in ks :: k in Keys(v.members)
  {
    if |ks| == 1 then [CLOSE_BRACE] + rest else [COMMA] + (MembersText(v, ks[1..]) + [CLOSE_BRACE] + rest)
  }

  lemma MemberSplit(v: Json, ks: seq<Text>, rest: Text)
    requires v.Obj? && ks != [] && forall k | k in ks :: k in Keys(v.members)
    ensures MembersText(v, ks) + [CLOSE_BRACE] + rest
            == Quoted(ks[0]) + ([COLON] + (TextOf(MemberOf(v, ks[0])) + AfterMember(v, ks, rest)))
    ensures Delimited(AfterMember(v, ks, rest))
  {
    hide Quoted, TextOf, IndexOf;
    var q, t := Quoted(ks[0]), TextOf(MemberOf(v, ks[0]));
    if |ks| == 1 {
      LastMember(q, t, rest);
    } else {
      InnerMember(q, t, MembersText(v, ks[1..]), rest);
    }
  }

  lemma LastMember(q: Text, t: Text, rest: Text)
    ensures q + [COLON] + t + [CLOSE_BRACE] + rest == q + ([COLON] + (t + ([CLOSE_BRACE] + rest)))
  {
  }

  lemma InnerMember(q: Text, t: Text, more: Text, rest: Text)
    ensures q + [COLON] + t + [COMMA] + more + [CLOSE_BRACE] + rest
            == q + ([COLON] + (t + ([COMMA] + (more + [CLOSE_BRACE] + rest))))
  {
  }

  lemma AfterMembersEqual(a: Json, b: Json, ka: seq<Text>, kb: seq<Text>, ra: Text, rb: Text)
    requires a.Obj? && b.Obj? && ka != [] && kb != []
    requires (forall k | k in ka :: k in Keys(a.members)) && (forall k | k in kb :: k in Keys(b.members))
    requires AfterMember(a, ka, ra) == AfterMember(b, kb, rb)
    ensures |ka| == 1 <==> |kb| == 1
    ensures if |ka| == 1 then ra == rb
            else MembersText(a, ka[1..]) + [CLOSE_BRACE] + ra == MembersText(b, kb[1..]) + [CLOSE_BRACE] + rb
  {
    hide MembersText;
    assert AfterMember(a, ka, ra)[0] == AfterMember(b, kb, rb)[0];
    assert AfterMember(a, ka, ra)[1..] == AfterMember(b, kb, rb)[1..];
    if |ka| == 1 { assert AfterMember(a, ka, ra)[1..] == ra && AfterMember(b, kb, rb)[1..] == rb; }
    else {
      assert AfterMember(a, ka, ra)[1..] == MembersText(a, ka[1..]) + [CLOSE_BRACE] + ra;
      assert AfterMember(b, kb, rb)[1..] == MembersText(b, kb[1..]) + [CLOSE_BRACE] + rb;
    }
  }

  /** An object without members has the text of no other. */
  lemma NoMembersInject(a: Json, b: Json, ka: seq<Text>, kb: seq<Text>, ra: Text, rb: Text)
    requires a.Obj? && b.Obj? && (ka == [] || kb == [])
    requires (forall k | k in ka :: k in Keys(a.members)) && (forall k | k in kb :: k in Keys(b.members))
    requires MembersText(a, ka) + [CLOSE_BRACE] + ra == MembersText(b, kb) + [CLOSE_BRACE] + rb
    ensures ka == kb == [] && ra == rb
  {
    if ka != [] { MembersStart(a, ka, ra); }
    if kb != [] { MembersStart(b, kb, rb); }
    assert ([] + [CLOSE_BRACE] + ra)[0] == CLOSE_BRACE && ([] + [CLOSE_BRACE] + rb)[0] == CLOSE_BRACE;
    assert ([] + [CLOSE_BRACE] + ra)[1..] == ra && ([] + [CLOSE_BRACE] + rb)[1..] == rb;
  }

  lemma {:induction false} MembersInject(a: Json, b: Json, ka: seq<Text>, kb: seq<Text>, ra: Text, rb: Text)
    requires a.Obj? && b.Obj? && WellFormed(a) && WellFormed(b)
    requires (forall k | k in ka :: k in Keys(a.members)) && (forall k | k in kb :: k in Keys(b.members))
    requires MembersText(a, ka) + [CLOSE_BRACE] + ra == MembersText(b, kb) + [CLOSE_BRACE] + rb
    ensures ka == kb && ra == rb && forall k | k in ka :: Same(MemberOf(a, k), MemberOf(b, k))
    decreases a, 1, |ka|
  {
    if ka == [] || kb == [] {
      NoMembersInject(a, b, ka, kb, ra, rb);
    } else {
      MemberSplit(a, ka, ra);
      MemberSplit(b, kb, rb);
      var va, vb := MemberOf(a, ka[0]), MemberOf(b, kb[0]);
      var ta, tb := TextOf(va) + AfterMember(a, ka, ra), TextOf(vb) + AfterMember(b, kb, rb);
      QuotedInjective(ka[0], kb[0], [COLON] + ta, [COLON] + tb);
      assert ([COLON] + ta)[1..] == ta && ([COLON] + tb)[1..] == tb;
      Inject(va, vb, AfterMember(a, ka, ra), AfterMember(b, kb, rb));
      AfterMembersEqual(a, b, ka, kb, ra, rb);
      assert ka == [ka[0]] + ka[1..] && kb == [kb[0]] + kb[1..];
      if |ka| > 1 { MembersInject(a, b, ka[1..], kb[1..], ra, rb); }
    }
  }

  lemma MembersStart(v: Json, ks: seq<Text>, rest: Text)
    requires v.Obj? && ks != [] && forall k | k in ks :: k in Keys(v.members)
    ensures (MembersText(v, ks) + [CLOSE_BRACE] + rest)[0] == QUOTE
  {
    hide MembersText, AfterMember;
    MemberSplit(v, ks, rest);
  }

  lemma IndexIsOwn(members: seq<(Text, Json)>, i: nat)
    requires i < |members| && Distinct(Keys(members))
    ensures members[i].0 in Keys(members) && IndexOf(members, members[i].0) == i
  {
    assert Keys(members)[i] == members[i].0;
    var j := IndexOf(members, members[i].0);
    assert Keys(members)[j] == members[i].0;
  }

  lemma MembersSame(a: Json, b: Json)
    requires a.Obj? && b.Obj? && WellFormed(a) && WellFormed(b)
    requires Sorted(Keys(a.members)) == Sorted(Keys(b.members))
    requires forall k | k in Sorted(Keys(a.members)) ::
               k in Keys(a.members) && k in Keys(b.members) && Same(MemberOf(a, k), MemberOf(b, k))
    ensures Same(a, b)
  {
    SortedElements(Keys(a.members));
    SortedElements(Keys(b.members));
    var ms, ns := a.members, b.members;
    forall i, j | 0 <= i < |ms| && 0 <= j < |ns| && ms[i].0 == ns[j].0 ensures Same(ms[i].1, ns[j].1) {
      IndexIsOwn(ms, i);
      IndexIsOwn(ns, j);
      assert ms[i].0 in Sorted(Keys(ms));
      assert Same(MemberOf(a, ms[i].0), MemberOf(b, ms[i].0));
    }
  }

  // ---- One value, one text -----------------------------------------------------------------

  lemma {:induction false} SameText(a: Json, b: Json)
    requires WellFormed(a) && WellFormed(b) && Same(a, b)
    ensures TextOf(a) == TextOf(b)
    decreases a, 2, 0
  {
    match (a, b)
    case (Arr(_), Arr(_)) => ItemsSameText(a, b, 0);
    case (Obj(ms), Obj(ns)) =>
      SortedElements(Keys(ms));
      SortedElements(Keys(ns));
      SortedAscends(Keys(ms));
      SortedAscends(Keys(ns));
      AscendingUnique(Sorted(Keys(ms)), Sorted(Keys(ns)));
      MembersSameText(a, b, Sorted(Keys(ms)));
    case _ =>
  }

  lemma {:induction false} ItemsSameText(a: Json, b: Json, i: nat)
    requires a.Arr? && b.Arr? && WellFormed(a) && WellFormed(b) && Same(a, b) && i <= |a.items|
    ensures ItemsText(a, i) == ItemsText(b, i)
    decreases a, 1, |a.items| - i
  {
    if i < |a.items| {
      SameText(a.items[i], b.items[i]);
      ItemsSameText(a, b, i + 1);
    }
  }

  lemma {:induction false} MembersSameText(a: Json, b: Json, ks: seq<Text>)
    requires a.Obj? && b.Obj? && WellFormed(a) && WellFormed(b) && Same(a, b)
    requires forall k | k in ks :: k in Keys(a.members) && k in Keys(b.members)
    ensures MembersText(a, ks) == MembersText(b, ks)
    decreases a, 1, |ks|
  {
    if ks != [] {
      SameText(MemberOf(a, ks[0]), MemberOf(b, ks[0]));
      MembersSameText(a, b, ks[1..]);
    }
  }

  /** Comparing texts compares values: they are equal exactly for values that are equal up to the order of members. */
  lemma TextsCompareValues(a: Json, b: Json)
    requires WellFormed(a) && WellFormed(b)
    ensures TextOf(a) == TextOf(b) <==> Same(a, b)
  {
    hide TextOf, Same, WellFormed;
    if Same(a, b) { SameText(a, b); }
    if TextOf(a) == TextOf(b) { Inject(a, b, [], []); }
  }
}
