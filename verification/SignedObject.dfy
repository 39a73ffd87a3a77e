/** Cutting the signed object out of a gateway's answer: the signature covers its very characters. */
module SignedObject {
  import opened Wrappers
  import opened StableJson

  // ---- The scanner -------------------------------------------------------------------------

  /** What the scanner remembers between two characters. */
  datatype Mode = Mode(depth: int, inString: bool, escaped: bool)

  const OUTSIDE := Mode(0, false, false)

  function Next(m: Mode, u: CodeUnit): Mode {
    if m.inString then
      if m.escaped then m.(escaped := false)
      else if u == BACKSLASH then m.(escaped := true)
      else if u == QUOTE then m.(inString := false)
      else m
    else if u == QUOTE then m.(inString := true)
    else if u == OPEN_BRACE then m.(depth := m.depth + 1)
    else if u == CLOSE_BRACE then m.(depth := m.depth - 1)
    else m
  }

  /** The character closes the object the scan began with. */
  predicate Closes(m: Mode, u: CodeUnit) {
    !m.inString && u == CLOSE_BRACE && m.depth == 1
  }

  /** How many characters the object takes, if it ends. */
  function End(t: Text, m: Mode): Option<nat> {
    if t == [] then None
    else if Closes(m, t[0]) then Some(1)
    else
      match End(t[1..], Next(m, t[0]))
      case None => None
      case Some(n) => Some(n + 1)
  }

  /** White space as the program's pattern \s knows it. */
  predicate Space(u: CodeUnit) {
    9 <= u <= 13 || u == 32 || u == 0xA0 || u == 0x1680 || 0x2000 <= u <= 0x200A || u == 0x2028 || u == 0x2029
    || u == 0x202F || u == 0x205F || u == 0x3000 || u == 0xFEFF
  }

  function SkipSpace(t: Text, i: nat): (j: nat)
    requires i <= |t|
    ensures i <= j <= |t|
    decreases |t| - i
  {
    if i < |t| && Space(t[i]) then SkipSpace(t, i + 1) else i
  }

  predicate OccursAt(t: Text, marker: Text, i: nat) {
    i + |marker| <= |t| && t[i..i + |marker|] == marker
  }

  /** `indexOf`. */
  function Find(t: Text, marker: Text, i: nat): Option<nat>
    decreases |t| - i
  {
    if i + |marker| > |t| then None else if OccursAt(t, marker, i) then Some(i) else Find(t, marker, i + 1)
  }

  /** Where the object after the key begins. */
  function ObjectStart(json: Text, key: Text): Option<nat> {
    match Find(json, Quoted(key), 0)
    case None => None
    case Some(at) =>
      match Find(json, [COLON], at + |Quoted(key)|)
      case None => None
      case Some(colon) =>
        FindBound(json, [COLON], at + |Quoted(key)|);
        var start := SkipSpace(json, colon + 1);
        if start < |json| && json[start] == OPEN_BRACE then Some(start) else None
  }

  lemma {:induction false} FindBound(t: Text, marker: Text, i: nat)
    ensures Find(t, marker, i).Some? ==> i <= Find(t, marker, i).value && OccursAt(t, marker, Find(t, marker, i).value)
    ensures Find(t, marker, i).Some? ==> forall j | i <= j < Find(t, marker, i).value :: !OccursAt(t, marker, j)
    ensures Find(t, marker, i).None? ==> forall j | i <= j :: !OccursAt(t, marker, j)
    decreases |t| - i
  {
    if i + |marker| <= |t| && !OccursAt(t, marker, i) { FindBound(t, marker, i + 1); }
  }

  lemma {:induction false} EndBound(t: Text, m: Mode)
    ensures End(t, m).Some? ==> 0 < End(t, m).value <= |t|
  {
    if t != [] && !Closes(m, t[0]) { EndBound(t[1..], Next(m, t[0])); }
  }

  /** The object a text starts with. */
  function Cut(t: Text): Option<Text> {
    match End(t, OUTSIDE)
    case None => None
    case Some(n) => EndBound(t, OUTSIDE); Some(t[..n])
  }

  function Extracted(json: Text, key: Text): Option<Text> {
    match ObjectStart(json, key)
    case None => None
    case Some(start) => Cut(json[start..])
  }

  method IndexOf(t: Text, marker: Text, from: nat) returns (at: Option<nat>)
    ensures at == Find(t, marker, from)
  {
    var i := from;
    while i + |marker| <= |t|
      invariant from <= i
      invariant Find(t, marker, from) == Find(t, marker, i)
      decreases |t| - i
    {
      if OccursAt(t, marker, i) { return Some(i); }
      i := i + 1;
    }
    return None;
  }

  function Later(n: Option<nat>, more: nat): Option<nat> {
    if n.None? then None else Some(n.value + more)
  }

  /** The scan itself: the object's length, if it is closed. */
  method ScanObject(json: Text, start: nat) returns (length: Option<nat>)
    requires start <= |json|
    ensures length == End(json[start..], OUTSIDE)
  {
    var depth, inString, escaped := 0, false, false;
    var index := start;
    while index < |json|
      invariant start <= index <= |json|
      invariant End(json[start..], OUTSIDE) == Later(End(json[index..], Mode(depth, inString, escaped)), index - start)
    {
      var c := json[index];
      assert json[index..][0] == c && json[index..][1..] == json[index + 1..];
      if inString {
        if escaped { escaped := false; }
        else if c == BACKSLASH { escaped := true; }
        else if c == QUOTE { inString := false; }
      } else if c == QUOTE {
        inString := true;
      } else if c == OPEN_BRACE {
        depth := depth + 1;
      } else if c == CLOSE_BRACE {
        depth := depth - 1;
        if depth == 0 {
          return Some(index + 1 - start);
        }
      }
      index := index + 1;
    }
    return None;
  }

  /** `extractTopLevelObject`. */
  method ExtractTopLevelObject(json: Text, key: Text) returns (found: Option<Text>)
    ensures found == Extracted(json, key)
  {
    hide Quoted, Space, End, OccursAt;
    var marker := Quoted(key);
    var keyIndex := IndexOf(json, marker, 0);
    if keyIndex.None? { return None; }
    var colon := IndexOf(json, [COLON], keyIndex.value + |marker|);
    if colon.None? { return None; }
    FindBound(json, [COLON], keyIndex.value + |marker|);
    hide Find;
    var start := colon.value + 1;
    while start < |json| && Space(json[start])
      invariant colon.value + 1 <= start <= |json|
      invariant SkipSpace(json, colon.value + 1) == SkipSpace(json, start)
    {
      start := start + 1;
    }
    if start == |json| || json[start] != OPEN_BRACE { return None; }
    var length := ScanObject(json, start);
    if length.None? { return None; }
    EndBound(json[start..], OUTSIDE);
    assert json[start..start + length.value] == json[start..][..length.value];
    return Some(json[start..start + length.value]);
  }

  // ---- A result is balanced, its prefixes are not ------------------------------------------

  /** The scanner's memory after a whole text. */
  function After(m: Mode, t: Text): Mode
    decreases |t|
  {
    if t == [] then m else After(Next(m, t[0]), t[1..])
  }

  /** Every brace is closed, braces inside strings not counting. */
  predicate Balanced(t: Text) {
    After(OUTSIDE, t).depth == 0
  }

  lemma {:induction false} OpenUntilEnd(t: Text, m: Mode, k: nat)
    requires m.depth >= 1 && End(t, m).Some? && k <= End(t, m).value <= |t|
    ensures if k < End(t, m).value then After(m, t[..k]).depth >= 1 else After(m, t[..k]).depth == 0
  {
    if k > 0 {
      assert t[..k][0] == t[0] && t[..k][1..] == t[1..][..k - 1];
      EndBound(t[1..], Next(m, t[0]));
      if !Closes(m, t[0]) { OpenUntilEnd(t[1..], Next(m, t[0]), k - 1); }
    }
  }

  /**
   Whatever the scanner returns is a piece of the text that starts with a brace, is balanced, and has no balanced
   proper prefix.
   */
  lemma ResultIsBalanced(json: Text, key: Text) returns (start: nat)
    requires Extracted(json, key).Some?
    ensures var r := Extracted(json, key).value;
            && start + |r| <= |json| && json[start..start + |r|] == r
            && r != [] && r[0] == OPEN_BRACE && Balanced(r)
            && forall k | 0 < k < |r| :: !Balanced(r[..k])
  {
    start := ObjectStart(json, key).value;
    var t := json[start..];
    EndBound(t, OUTSIDE);
    var n := End(t, OUTSIDE).value;
    var r := Extracted(json, key).value;
    assert r == t[..n] && t[0] == OPEN_BRACE;
    var inside := Mode(1, false, false);
    assert Next(OUTSIDE, t[0]) == inside && !Closes(OUTSIDE, t[0]);
    forall k | 0 < k <= n
      ensures if k < n then After(OUTSIDE, r[..k]).depth >= 1 else After(OUTSIDE, r[..k]).depth == 0
    {
      EndBound(t[1..], inside);
      OpenUntilEnd(t[1..], inside, k - 1);
      assert r[..k][0] == t[0] && r[..k][1..] == t[1..][..k - 1];
    }
    assert r[..n] == r;
  }

  // ---- Texts of the JSON grammar -----------------------------------------------------------

  /** One step of a string literal: a plain character, an escaped one, or one by number. */
  datatype Piece = Raw(unit: CodeUnit) | Short(letter: CodeUnit) | Numbered(digits: Text)

  predicate ValidPiece(p: Piece) {
    match p
    case Raw(u) => u >= 32 && u != QUOTE && u != BACKSLASH
    case Short(c) => c == QUOTE || c == BACKSLASH || c == 47 || c == 98 || c == 102 || c == 110 || c == 114 || c == 116
    case Numbered(d) => |d| == 4 && forall i | 0 <= i < 4 :: 48 <= d[i] < 58 || 97 <= d[i] < 103 || 65 <= d[i] < 71
  }

  function PieceText(p: Piece): Text {
    match p
    case Raw(u) => [u]
    case Short(c) => [BACKSLASH, c]
    case Numbered(d) => [BACKSLASH, LETTER_U] + d
  }

  function BodyText(body: seq<Piece>): Text {
    if body == [] then [] else PieceText(body[0]) + BodyText(body[1..])
  }

  predicate ValidBody(body: seq<Piece>) {
    forall i | 0 <= i < |body| :: ValidPiece(body[i])
  }

  function Literal(body: seq<Piece>): Text {
    [QUOTE] + BodyText(body) + [QUOTE]
  }

  /** The syntax tree of a JSON text, white space and spelling included. */
  datatype Tree =
    | Word(text: Text)
    | StringTree(body: seq<Piece>)
    | ArrayTree(inner: Text, items: seq<Slot>)
    | ObjectTree(inner: Text, members: seq<Member>)

  datatype Slot = Slot(before: Text, value: Tree, after: Text)

  datatype Member = Member(before: Text, name: seq<Piece>, gap: Text, slot: Slot)

  predicate Blank(t: Text) {
    forall i | 0 <= i < |t| :: t[i] == 32 || t[i] == 9 || t[i] == 10 || t[i] == 13
  }

  /** The words true, false and null, and runs of the characters of numbers. */
  predicate ValidWord(t: Text) {
    t == [116, 114, 117, 101] || t == [102, 97, 108, 115, 101] || t == [110, 117, 108, 108] || NumberSpelling(t)
  }

  predicate ValidSlot(s: Slot)
    decreases s
  {
    Blank(s.before) && Valid(s.value) && Blank(s.after)
  }

  predicate Valid(v: Tree)
    decreases v
  {
    match v
    case Word(t) => ValidWord(t)
    case StringTree(body) => ValidBody(body)
    case ArrayTree(inner, items) => Blank(inner) && forall i | 0 <= i < |items| :: ValidSlot(items[i])
    case ObjectTree(inner, members) =>
      Blank(inner) && forall i | 0 <= i < |members| ::
        Blank(members[i].before) && ValidBody(members[i].name) && Blank(members[i].gap) && ValidSlot(members[i].slot)
  }

  function SlotText(s: Slot): Text
    decreases s
  {
    s.before + Rendered(s.value) + s.after
  }

  function SlotsText(items: seq<Slot>): Text
    decreases items
  {
    if items == [] then [] else SlotText(items[0]) + (if |items| == 1 then [] else [COMMA] + SlotsText(items[1..]))
  }

  function MemberText(m: Member): Text
    decreases m
  {
    m.before + Literal(m.name) + m.gap + [COLON] + SlotText(m.slot)
  }

  function MemberListText(members: seq<Member>): Text
    decreases members
  {
    if members == [] then []
      else MemberText(members[0]) + (if |members| == 1 then [] else [COMMA] + MemberListText(members[1..]))
  }

  /** The text of a tree. */
  function Rendered(v: Tree): Text
    decreases v
  {
    match v
    case Word(t) => t
    case StringTree(body) => Literal(body)
    case ArrayTree(inner, items) => [OPEN_BRACKET] + (if items == [] then inner else SlotsText(items)) + [CLOSE_BRACKET]
    case ObjectTree(inner, members) => [OPEN_BRACE] + (if members == [] then inner else MemberListText(members))
                                       + [CLOSE_BRACE]
  }

  // ---- Scanning texts of the grammar -------------------------------------------------------

  /** The scanner's memory after a text in which the object does not end. */
  function Run(m: Mode, t: Text): Option<Mode>
    decreases |t|
  {
    if t == [] then Some(m) else if Closes(m, t[0]) then None else Run(Next(m, t[0]), t[1..])
  }

  lemma {:induction false} RunAppend(m: Mode, a: Text, b: Text)
    requires Run(m, a).Some?
    ensures Run(m, a + b) == Run(Run(m, a).value, b)
    decreases |a|
  {
    if a == [] {
      assert a + b == b;
    } else {
      assert (a + b)[1..] == a[1..] + b;
      RunAppend(Next(m, a[0]), a[1..], b);
    }
  }

  lemma {:induction false} EndBehind(m: Mode, a: Text, b: Text)
    requires Run(m, a).Some?
    ensures End(a + b, m) == Later(End(b, Run(m, a).value), |a|)
    decreases |a|
  {
    if a == [] {
      assert a + b == b;
    } else {
      assert (a + b)[1..] == a[1..] + b;
      EndBehind(Next(m, a[0]), a[1..], b);
    }
  }

  function Inside(depth: int): Mode {
    Mode(depth, false, false)
  }

  /** Inside an object the text leaves the scanner as it was. */
  predicate Calm(t: Text, depth: int) {
    Run(Inside(depth), t) == Some(Inside(depth))
  }

  lemma CalmAppend(a: Text, b: Text, depth: int)
    requires Calm(a, depth) && Calm(b, depth)
    ensures Calm(a + b, depth)
  {
    RunAppend(Inside(depth), a, b);
  }

  predicate Quiet(t: Text) {
    forall i | 0 <= i < |t| :: t[i] != QUOTE && t[i] != OPEN_BRACE && t[i] != CLOSE_BRACE
  }

  lemma {:induction false} QuietCalm(t: Text, depth: int)
    requires Quiet(t)
    ensures Calm(t, depth)
    decreases |t|
  {
    if t != [] { QuietCalm(t[1..], depth); }
  }

  lemma RunOne(m: Mode, u: CodeUnit)
    requires !Closes(m, u)
    ensures Run(m, [u]) == Some(Next(m, u))
  {
    assert [u][1..] == [];
  }

  lemma RunTwo(m: Mode, u: CodeUnit, w: CodeUnit)
    requires !Closes(m, u) && !Closes(Next(m, u), w)
    ensures Run(m, [u, w]) == Some(Next(Next(m, u), w))
  {
    RunOne(m, u);
    RunOne(Next(m, u), w);
    RunAppend(m, [u], [w]);
    assert [u] + [w] == [u, w];
  }

  /** Characters of a string that neither end it nor escape anything. */
  lemma {:induction false} RawRun(t: Text, m: Mode)
    requires m.inString && !m.escaped && forall i | 0 <= i < |t| :: t[i] != QUOTE && t[i] != BACKSLASH
    ensures Run(m, t) == Some(m)
    decreases |t|
  {
    if t != [] { RawRun(t[1..], m); }
  }

  lemma PieceRun(p: Piece, m: Mode)
    requires ValidPiece(p) && m.inString && !m.escaped
    ensures Run(m, PieceText(p)) == Some(m)
  {
    match p
    case Raw(u) => RawRun([u], m);
    case Short(c) => RunTwo(m, BACKSLASH, c);
    case Numbered(d) =>
      RunTwo(m, BACKSLASH, LETTER_U);
      RawRun(d, m);
      RunAppend(m, [BACKSLASH, LETTER_U], d);
  }

  lemma {:induction false} BodyRun(body: seq<Piece>, m: Mode)
    requires ValidBody(body) && m.inString && !m.escaped
    ensures Run(m, BodyText(body)) == Some(m)
  {
    if body != [] {
      PieceRun(body[0], m);
      BodyRun(body[1..], m);
      RunAppend(m, PieceText(body[0]), BodyText(body[1..]));
    }
  }

  lemma LiteralCalm(body: seq<Piece>, depth: int)
    requires ValidBody(body)
    ensures Calm(Literal(body), depth)
  {
    var inside := Mode(depth, true, false);
    RunOne(Inside(depth), QUOTE);
    BodyRun(body, inside);
    RunAppend(Inside(depth), [QUOTE], BodyText(body));
    RunOne(inside, QUOTE);
    RunAppend(Inside(depth), [QUOTE] + BodyText(body), [QUOTE]);
  }

  lemma {:induction false} TreeCalm(v: Tree, depth: int)
    requires Valid(v) && depth >= 1
    ensures Calm(Rendered(v), depth)
    decreases v, 1
  {
    match v
    case Word(t) => QuietCalm(t, depth);
    case StringTree(body) => LiteralCalm(body, depth);
    case ArrayTree(inner, items) =>
      var t := if items == [] then inner else SlotsText(items);
      if items == [] { QuietCalm(inner, depth); } else { SlotsCalm(items, depth); }
      QuietCalm([OPEN_BRACKET], depth);
      QuietCalm([CLOSE_BRACKET], depth);
      CalmAppend([OPEN_BRACKET], t, depth);
      CalmAppend([OPEN_BRACKET] + t, [CLOSE_BRACKET], depth);
    case ObjectTree(inner, members) =>
      var t := if members == [] then inner else MemberListText(members);
      InsideCalm(inner, members, depth + 1);
      RunOne(Inside(depth), OPEN_BRACE);
      RunAppend(Inside(depth), [OPEN_BRACE], t);
      RunOne(Inside(depth + 1), CLOSE_BRACE);
      RunAppend(Inside(depth), [OPEN_BRACE] + t, [CLOSE_BRACE]);
  }

  lemma {:induction false} InsideCalm(inner: Text, members: seq<Member>, depth: int)
    requires Valid(ObjectTree(inner, members)) && depth >= 1
    ensures Calm(if members == [] then inner else MemberListText(members), depth)
    decreases members, 2
  {
    if members == [] { QuietCalm(inner, depth); } else { MembersCalm(members, depth); }
  }

  lemma {:induction false} SlotCalm(s: Slot, depth: int)
    requires ValidSlot(s) && depth >= 1
    ensures Calm(SlotText(s), depth)
    decreases s
  {
    QuietCalm(s.before, depth);
    TreeCalm(s.value, depth);
    QuietCalm(s.after, depth);
    CalmAppend(s.before, Rendered(s.value), depth);
    CalmAppend(s.before + Rendered(s.value), s.after, depth);
  }

  lemma {:induction false} SlotsCalm(items: seq<Slot>, depth: int)
    requires (forall i | 0 <= i < |items| :: ValidSlot(items[i])) && depth >= 1
    ensures Calm(SlotsText(items), depth)
    decreases items
  {
    if items != [] {
      SlotCalm(items[0], depth);
      if |items| == 1 {
        assert SlotText(items[0]) + [] == SlotText(items[0]);
      } else {
        SlotsCalm(items[1..], depth);
        QuietCalm([COMMA], depth);
        CalmAppend([COMMA], SlotsText(items[1..]), depth);
        CalmAppend(SlotText(items[0]), [COMMA] + SlotsText(items[1..]), depth);
      }
    }
  }

  predicate ValidMember(m: Member) {
    Blank(m.before) && ValidBody(m.name) && Blank(m.gap) && ValidSlot(m.slot)
  }

  lemma {:induction false} MemberCalm(m: Member, depth: int)
    requires ValidMember(m) && depth >= 1
    ensures Calm(MemberText(m), depth)
    decreases m
  {
    hide Calm, Literal, SlotText;
    QuietCalm(m.before, depth);
    LiteralCalm(m.name, depth);
    QuietCalm(m.gap, depth);
    QuietCalm([COLON], depth);
    SlotCalm(m.slot, depth);
    CalmAppend(m.before, Literal(m.name), depth);
    CalmAppend(m.before + Literal(m.name), m.gap, depth);
    CalmAppend(m.before + Literal(m.name) + m.gap, [COLON], depth);
    CalmAppend(m.before + Literal(m.name) + m.gap + [COLON], SlotText(m.slot), depth);
  }

  lemma {:induction false} MembersCalm(members: seq<Member>, depth: int)
    requires (forall i | 0 <= i < |members| :: ValidMember(members[i])) && depth >= 1
    ensures Calm(MemberListText(members), depth)
    decreases members, 0
  {
    if members != [] {
      MemberCalm(members[0], depth);
      if |members| == 1 {
        assert MemberText(members[0]) + [] == MemberText(members[0]);
      } else {
        MembersCalm(members[1..], depth);
        QuietCalm([COMMA], depth);
        CalmAppend([COMMA], MemberListText(members[1..]), depth);
        CalmAppend(MemberText(members[0]), [COMMA] + MemberListText(members[1..]), depth);
      }
    }
  }

  /** The scan of an object's text ends exactly at its end, whatever follows. */
  lemma ObjectEnds(v: Tree, post: Text)
    requires v.ObjectTree? && Valid(v)
    ensures End(Rendered(v) + post, OUTSIDE) == Some(|Rendered(v)|)
  {
    var t := if v.members == [] then v.inner else MemberListText(v.members);
    InsideCalm(v.inner, v.members, 1);
    RunOne(OUTSIDE, OPEN_BRACE);
    RunAppend(OUTSIDE, [OPEN_BRACE], t);
    EndBehind(OUTSIDE, [OPEN_BRACE] + t, [CLOSE_BRACE] + post);
    assert Rendered(v) + post == [OPEN_BRACE] + t + ([CLOSE_BRACE] + post);
    assert ([CLOSE_BRACE] + post)[0] == CLOSE_BRACE;
  }

  // ---- The object is found -----------------------------------------------------------------

  lemma {:induction false} FindLeast(t: Text, marker: Text, i: nat, at: nat)
    requires i <= at && OccursAt(t, marker, at) && forall j | i <= j < at :: !OccursAt(t, marker, j)
    ensures Find(t, marker, i) == Some(at)
    decreases at - i
  {
    if i < at { FindLeast(t, marker, i + 1, at); }
  }

  lemma {:induction false} SkipBlanks(t: Text, i: nat, j: nat)
    requires i <= j < |t| && (forall k | i <= k < j :: Space(t[k])) && !Space(t[j])
    ensures SkipSpace(t, i) == j
    decreases j - i
  {
    if i < j { SkipBlanks(t, i + 1, j); }
  }

  lemma MarkerAt(json: Text, pre: Text, marker: Text, rest: Text)
    requires json == pre + marker + rest && forall j | 0 <= j < |pre| :: !OccursAt(json, marker, j)
    ensures Find(json, marker, 0) == Some(|pre|)
  {
    assert json[|pre|..|pre| + |marker|] == marker;
    FindLeast(json, marker, 0, |pre|);
  }

  lemma ColonAt(json: Text, head: Text, gap: Text, rest: Text)
    requires json == head + gap + [COLON] + rest && Blank(gap)
    ensures Find(json, [COLON], |head|) == Some(|head| + |gap|)
  {
    var colon := |head| + |gap|;
    assert json[colon] == COLON && json[colon..colon + 1] == [COLON];
    forall j | |head| <= j < colon ensures !OccursAt(json, [COLON], j) {
      assert json[j] == gap[j - |head|] && json[j..j + 1][0] == json[j];
    }
    FindLeast(json, [COLON], |head|, colon);
  }

  /** The rest is where the scan begins. */
  ghost predicate StartsBehind(json: Text, head: Text, before: Text, rest: Text) {
    var start := |head| + |before|;
    |head| <= |json| && SkipSpace(json, |head|) == start < |json| && json[start] == OPEN_BRACE && json[start..] == rest
  }

  lemma BraceAt(json: Text, head: Text, before: Text, rest: Text)
    requires json == head + before + rest && Blank(before) && rest != [] && rest[0] == OPEN_BRACE
    ensures StartsBehind(json, head, before, rest)
  {
    assert forall k | |head| <= k < |head| + |before| :: json[k] == before[k - |head|];
    assert json[|head| + |before|] == rest[0];
    SkipBlanks(json, |head|, |head| + |before|);
  }

  lemma Join3(a: Text, b: Text, c: Text)
    ensures a + b + c == a + (b + c)
  {
  }

  lemma Join4(a: Text, b: Text, c: Text, d: Text)
    ensures a + b + c + d == a + (b + c + d)
  {
    Join3(a, b, c);
    Join3(a, b + c, d);
  }

  lemma Join6(a: Text, b: Text, c: Text, d: Text, e: Text, f: Text)
    ensures a + b + c + d + e + f == a + (b + c + d + e + f)
  {
    Join4(a, b, c, d);
    Join3(a, b + c + d, e);
    Join3(a, b + c + d + e, f);
  }

  lemma StartsAt(json: Text, key: Text, at: nat, colon: nat, start: nat)
    requires Find(json, Quoted(key), 0) == Some(at) && Find(json, [COLON], at + |Quoted(key)|) == Some(colon)
    requires colon < |json| && SkipSpace(json, colon + 1) == start < |json| && json[start] == OPEN_BRACE
    ensures ObjectStart(json, key) == Some(start)
  {
    hide Quoted, Find, SkipSpace;
  }

  lemma CutsObject(v: Tree, post: Text)
    requires v.ObjectTree? && Valid(v)
    ensures Cut(Rendered(v) + post) == Some(Rendered(v))
  {
    hide Rendered, End, Valid;
    ObjectEnds(v, post);
    assert (Rendered(v) + post)[..|Rendered(v)|] == Rendered(v);
  }

  /** The text behind the colon. */
  lemma ObjectBehind(json: Text, key: Text, head: Text, before: Text, v: Tree, post: Text)
    requires v.ObjectTree? && Valid(v) && Blank(before) && head != []
    requires json == head + before + (Rendered(v) + post)
    requires Find(json, Quoted(key), 0).Some?
    requires Find(json, [COLON], Find(json, Quoted(key), 0).value + |Quoted(key)|) == Some(|head| - 1)
    ensures Extracted(json, key) == Some(Rendered(v))
  {
    hide Rendered, Find, Cut, SkipSpace, Blank, Valid, Quoted, ObjectStart;
    var r := Rendered(v);
    RenderedStarts(v);
    CutsObject(v, post);
    StartsWith(r, post);
    assert StartsBehind(json, head, before, r + post) by { hide *; BraceAt(json, head, before, r + post); }
    StartsAt(json, key, Find(json, Quoted(key), 0).value, |head| - 1, |head| + |before|);
  }

  lemma RenderedStarts(v: Tree)
    requires v.ObjectTree?
    ensures Rendered(v) != [] && Rendered(v)[0] == OPEN_BRACE
  {
    hide MemberListText;
  }

  lemma StartsWith(r: Text, post: Text)
    requires r != []
    ensures r + post != [] && (r + post)[0] == r[0]
  {
  }

  /**
   For every object of the JSON grammar that stands behind the first occurrence of its key, with white space
   around the colon and anything before and behind it, the scanner returns exactly the object's text.
   */
  lemma FindsTheObject(json: Text, key: Text, pre: Text, gap: Text, before: Text, v: Tree, post: Text)
    requires v.ObjectTree? && Valid(v) && Blank(gap) && Blank(before)
    requires json == pre + Quoted(key) + gap + [COLON] + before + Rendered(v) + post
    requires forall j | 0 <= j < |pre| :: !OccursAt(json, Quoted(key), j)
    ensures Extracted(json, key) == Some(Rendered(v))
  {
    hide *;
    var marker, r := Quoted(key), Rendered(v);
    var head := pre + marker + gap + [COLON];
    Join6(pre + marker, gap, [COLON], before, r, post);
    MarkerAt(json, pre, marker, gap + [COLON] + before + r + post);
    Join4(head, before, r, post);
    ColonAt(json, pre + marker, gap, before + r + post);
    Join3(head + before, r, post);
    HeadLength(pre, marker, gap);
    ObjectBehind(json, key, head, before, v, post);
  }

  lemma HeadLength(pre: Text, marker: Text, gap: Text)
    ensures |pre + marker + gap + [COLON]| == |pre| + |marker| + |gap| + 1 && |pre + marker| == |pre| + |marker|
  {
  }
}
