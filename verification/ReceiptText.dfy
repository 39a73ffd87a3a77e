/** Payment references inside a customer's transfer remark. */
module ReceiptText {
  import opened Wrappers

  const TOKEN: nat := 12

  predicate IsAlnum(c: char) {
    'A' <= c <= 'Z' || 'a' <= c <= 'z' || '0' <= c <= '9'
  }

  function Upper(c: char): char {
    if 'a' <= c <= 'z' then (c as int - 'a' as int + 'A' as int) as char else c
  }

  function ToUpper(s: string): string {
    seq(|s|, i requires 0 <= i < |s| => Upper(s[i]))
  }

  function AlnumOnly(s: string): string {
    if s == "" then "" else AlnumOnly(s[..|s| - 1]) + (if IsAlnum(s[|s| - 1]) then [s[|s| - 1]] else "")
  }

  /** The reference a customer is asked to write for a payment. */
  function RemarkReference(paymentNo: string): string {
    var text := AlnumOnly(paymentNo);
    "TX" + ToUpper(if |text| <= 10 then text else text[|text| - 10..])
  }

  /** Twelve letters or digits starting with TX, in either case, that touch no further letter or digit. */
  predicate TokenAt(s: string, i: nat) {
    && i + TOKEN <= |s|
    && (i == 0 || !IsAlnum(s[i - 1]))
    && Upper(s[i]) == 'T' && Upper(s[i + 1]) == 'X'
    && (forall k | i <= k < i + TOKEN :: IsAlnum(s[k]))
    && (i + TOKEN == |s| || !IsAlnum(s[i + TOKEN]))
  }

  /** The matches of the reference pattern, found from position p on, each starting after the previous one ended. */
  function Matches(s: string, p: nat): seq<nat>
    decreases |s| - p
  {
    if p >= |s| then []
    else if p == 0 && TokenAt(s, 0) then [0] + Matches(s, TOKEN)
    else if !IsAlnum(s[p]) && TokenAt(s, p + 1) then [p + 1] + Matches(s, p + 1 + TOKEN)
    else Matches(s, p + 1)
  }

  function Remark(remark: Option<string>): string {
    if remark.Some? then remark.value else ""
  }

  /** The one reference of a remark; a remark naming none or several names none. */
  function ExtractReference(remark: Option<string>): Option<string> {
    var s := Remark(remark);
    var found := Matches(s, 0);
    if |found| == 1 && found[0] + TOKEN <= |s| then Some(ToUpper(s[found[0]..found[0] + TOKEN])) else None
  }

  lemma TokensApart(s: string, i: nat, j: nat)
    requires TokenAt(s, i) && i < j <= i + TOKEN
    ensures !TokenAt(s, j)
  {
    assert IsAlnum(s[j - 1]);
  }

  lemma TokenStands(s: string, i: nat)
    requires TokenAt(s, i)
    ensures i + TOKEN <= |s| && (i > 0 ==> !IsAlnum(s[i - 1]))
  {
    hide IsAlnum;
  }

  lemma MatchesUnfold(s: string, p: nat)
    ensures Matches(s, p)
            == if p >= |s| then []
               else if p == 0 && TokenAt(s, 0) then [0] + Matches(s, TOKEN)
               else if !IsAlnum(s[p]) && TokenAt(s, p + 1) then [p + 1] + Matches(s, p + 1 + TOKEN)
               else Matches(s, p + 1)
  {
    hide TokenAt, IsAlnum;
  }

  /** Scanning finds every token and nothing else, although a match swallows what stands before it. */
  lemma {:induction false} MatchesAreTokens(s: string, p: nat, i: nat)
    ensures i in Matches(s, p) <==> TokenAt(s, i) && (i > p || (p == 0 && i == 0))
    decreases |s| - p
  {
    hide TokenAt, IsAlnum, Matches;
    MatchesUnfold(s, p);
    if TokenAt(s, i) { TokenStands(s, i); }
    if p < |s| {
      if p == 0 && TokenAt(s, 0) {
        MatchesAreTokens(s, TOKEN, i);
        if 0 < i <= TOKEN { TokensApart(s, 0, i); }
      } else if !IsAlnum(s[p]) && TokenAt(s, p + 1) {
        MatchesAreTokens(s, p + 1 + TOKEN, i);
        if p + 1 < i <= p + 1 + TOKEN { TokensApart(s, p + 1, i); }
      } else {
        MatchesAreTokens(s, p + 1, i);
      }
    }
  }

  lemma {:induction false} MatchesAscend(s: string, p: nat)
    ensures forall k | 0 <= k < |Matches(s, p)| :: Matches(s, p)[k] >= p
    ensures forall j, k | 0 <= j < k < |Matches(s, p)| :: Matches(s, p)[j] < Matches(s, p)[k]
    decreases |s| - p
  {
    if p < |s| {
      if p == 0 && TokenAt(s, 0) {
        MatchesAscend(s, TOKEN);
      } else if !IsAlnum(s[p]) && TokenAt(s, p + 1) {
        MatchesAscend(s, p + 1 + TOKEN);
      } else {
        MatchesAscend(s, p + 1);
      }
    }
  }

  lemma TwoDiffer(found: seq<nat>)
    requires forall j, k | 0 <= j < k < |found| :: found[j] < found[k]
    ensures |found| >= 2 ==> exists x :: x in found && x != found[0]
  {
    if |found| >= 2 {
      assert found[1] in found;
    }
  }

  lemma Singleton(found: seq<nat>, i: nat)
    requires i in found && forall x | x in found :: x == i
    requires forall j, k | 0 <= j < k < |found| :: found[j] < found[k]
    ensures found == [i]
  {
    TwoDiffer(found);
    assert found[0] in found;
  }

  /** A remark's only token is the reference extracted from it. */
  lemma OnlyTokenExtracted(remark: Option<string>, i: nat)
    requires TokenAt(Remark(remark), i)
    requires forall j: nat :: TokenAt(Remark(remark), j) ==> j == i
    ensures ExtractReference(remark) == Some(ToUpper(Remark(remark)[i..i + TOKEN]))
  {
    var s := Remark(remark);
    MatchesAreTokens(s, 0, i);
    MatchesAscend(s, 0);
    forall x | x in Matches(s, 0) ensures x == i { MatchesAreTokens(s, 0, x); }
    Singleton(Matches(s, 0), i);
  }

  /** A remark with an extracted reference holds that token and no second one. */
  lemma ExtractedIsOnlyToken(remark: Option<string>) returns (i: nat)
    requires ExtractReference(remark).Some?
    ensures TokenAt(Remark(remark), i)
    ensures forall j: nat :: TokenAt(Remark(remark), j) ==> j == i
    ensures ExtractReference(remark) == Some(ToUpper(Remark(remark)[i..i + TOKEN]))
  {
    var s := Remark(remark);
    var found := Matches(s, 0);
    i := found[0];
    assert i in found;
    MatchesAreTokens(s, 0, i);
    forall j: nat | TokenAt(s, j) ensures j == i { MatchesAreTokens(s, 0, j); }
  }

  lemma {:induction false} AlnumOnlyIsAlnum(s: string)
    ensures forall i | 0 <= i < |AlnumOnly(s)| :: IsAlnum(AlnumOnly(s)[i])
  {
    if s != "" {
      AlnumOnlyIsAlnum(s[..|s| - 1]);
    }
  }

  /** The reference issued for a payment is read back from a remark holding just that reference. */
  lemma ReferenceRoundTrip(paymentNo: string)
    requires |AlnumOnly(paymentNo)| >= 10
    ensures ExtractReference(Some(RemarkReference(paymentNo))) == Some(RemarkReference(paymentNo))
  {
    hide ExtractReference, AlnumOnly, TokenAt;
    ReferenceShape(paymentNo);
    LoneToken(RemarkReference(paymentNo));
  }

  lemma ReferenceShape(paymentNo: string)
    requires |AlnumOnly(paymentNo)| >= 10
    ensures var s := RemarkReference(paymentNo);
            && |s| == TOKEN && s[0] == 'T' && s[1] == 'X'
            && forall k | 0 <= k < TOKEN :: IsAlnum(s[k]) && Upper(s[k]) == s[k]
  {
    hide AlnumOnly;
    var s, text := RemarkReference(paymentNo), AlnumOnly(paymentNo);
    AlnumOnlyIsAlnum(paymentNo);
    forall k | 2 <= k < TOKEN ensures IsAlnum(s[k]) && Upper(s[k]) == s[k] {
      assert s[k] == Upper(text[|text| - 10 + (k - 2)]);
    }
  }

  lemma LoneToken(s: string)
    requires |s| == TOKEN && s[0] == 'T' && s[1] == 'X'
    requires forall k | 0 <= k < TOKEN :: IsAlnum(s[k]) && Upper(s[k]) == s[k]
    ensures ExtractReference(Some(s)) == Some(s)
  {
    assert TokenAt(s, 0);
    assert forall j: nat :: TokenAt(s, j) ==> j == 0;
    OnlyTokenExtracted(Some(s), 0);
    assert s[0..TOKEN] == s;
    assert ToUpper(s) == s;
  }
}
