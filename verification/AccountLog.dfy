/** The gateway's ledger pages and the collector's time windows. Times are in milliseconds. */
module AccountLog {
  import opened Wrappers

  const PAGE_SIZE: nat := 100
  const SECOND := 1000
  const WINDOW_LENGTH := 1800 * SECOND

  /** One ledger line; `income` says whether the line is an incoming customer payment. */
  datatype Entry = Entry(tradeNo: string, time: int, income: bool)

  datatype Window = Window(start: int, end: int)

  /** What the gateway sent: `None` stands for a total that is no safe integer, or for a missing list. */
  datatype Response = Response(total: Option<int>, list: Option<seq<Entry>>)

  datatype Page = Page(records: seq<Entry>, complete: bool)

  datatype PageError = InvalidTotal | ListMissing | PageTooLong | LengthConflictsWithTotal

  function Min(a: int, b: int): int {
    if a < b then a else b
  }

  function CollectorWindow(cursor: int, now: int, overlap: nat, lag: nat): Window {
    Window(cursor - overlap * SECOND, Min(now - lag * SECOND, cursor + WINDOW_LENGTH))
  }

  /** `alipayTime` spells a time to the second: its milliseconds are dropped. */
  function ToSecond(time: int): int {
    time - time % SECOND
  }

  /** The length a page must have for a given total. */
  function ExpectedLength(total: nat, pageNo: nat, pageSize: nat): int {
    var left := total - (pageNo - 1) * pageSize;
    Min(pageSize, if left < 0 then 0 else left)
  }

  function AccountLogPage(response: Response, pageNo: nat, pageSize: nat): Result<Page, PageError> {
    if response.total.None? || response.total.value < 0 then Err(InvalidTotal)
    else
      var total := response.total.value;
      if response.list.None? && total != 0 then Err(ListMissing)
      else
        var list := if response.list.Some? then response.list.value else [];
        if |list| > pageSize then Err(PageTooLong)
        else if |list| != ExpectedLength(total, pageNo, pageSize) then Err(LengthConflictsWithTotal)
        else Ok(Page(list, pageNo * pageSize >= total))
  }

  /** Page `pageNo` of a list, counted from one. */
  function PageOf<T>(list: seq<T>, pageNo: nat, pageSize: nat): seq<T>
    requires pageNo >= 1
  {
    list[Min((pageNo - 1) * pageSize, |list|)..Min(pageNo * pageSize, |list|)]
  }

  /** An answer that tells the truth about `list`; an empty list may also be left out. */
  predicate Honest(response: Response, list: seq<Entry>, pageNo: nat, pageSize: nat) {
    && pageNo >= 1
    && response.total == Some(|list|)
    && (response.list == Some(PageOf(list, pageNo, pageSize)) || (response.list.None? && list == []))
  }

  /** What a truthful gateway answers for a page. */
  function Truthful(list: seq<Entry>, pageNo: nat, pageSize: nat): Response
    requires pageNo >= 1
  {
    Response(Some(|list|), Some(PageOf(list, pageNo, pageSize)))
  }

  /** A truthful page is always accepted, unchanged, and is complete exactly when it reaches the end of the list. */
  lemma HonestPageAccepted(response: Response, list: seq<Entry>, pageNo: nat, pageSize: nat)
    requires Honest(response, list, pageNo, pageSize)
    ensures AccountLogPage(response, pageNo, pageSize)
         == Ok(Page(PageOf(list, pageNo, pageSize), pageNo * pageSize >= |list|))
  {
    assert pageNo * pageSize == (pageNo - 1) * pageSize + pageSize;
    assert (pageNo - 1) * pageSize >= 0;
  }

  /** Pages one to n, joined. */
  function ReadPages<T>(list: seq<T>, n: nat, pageSize: nat): seq<T> {
    if n == 0 then [] else ReadPages(list, n - 1, pageSize) + PageOf(list, n, pageSize)
  }

  /** Reading pages one to n gives the first n pages of the list, and all of it once a page was complete. */
  lemma {:induction false} PagesConcatenate<T>(list: seq<T>, n: nat, pageSize: nat)
    ensures ReadPages(list, n, pageSize) == list[..Min(n * pageSize, |list|)]
    ensures n * pageSize >= |list| ==> ReadPages(list, n, pageSize) == list
  {
    if n > 0 {
      PagesConcatenate(list, n - 1, pageSize);
      assert n * pageSize == (n - 1) * pageSize + pageSize;
      Rejoin(list, Min((n - 1) * pageSize, |list|), Min(n * pageSize, |list|));
    }
  }

  lemma Rejoin<T>(list: seq<T>, a: nat, b: nat)
    requires a <= b <= |list|
    ensures list[..a] + list[a..b] == list[..b]
  {
  }

  function Received(responses: seq<Response>): seq<Entry> {
    if responses == [] then []
    else
      var last := responses[|responses| - 1];
      Received(responses[..|responses| - 1]) + (if last.list.Some? then last.list.value else [])
  }

  /** Pages accepted against one total hold together as many records as the total allows, whatever the gateway sent. */
  lemma {:induction false} AcceptedPagesAddUp(responses: seq<Response>, total: nat, pageSize: nat)
    requires forall i | 0 <= i < |responses| ::
      responses[i].total == Some(total) && AccountLogPage(responses[i], i + 1, pageSize).Ok?
    ensures |Received(responses)| == Min(|responses| * pageSize, total)
  {
    var n := |responses|;
    if n > 0 {
      AcceptedPagesAddUp(responses[..n - 1], total, pageSize);
      assert AccountLogPage(responses[n - 1], n, pageSize).Ok?;
      assert n * pageSize == (n - 1) * pageSize + pageSize;
    }
  }

  /**
   The ledger lines a query for the window returns, in the ledger's order; the query names its bounds to the second.
   */
  function Query(ledger: seq<Entry>, window: Window): seq<Entry> {
    if ledger == [] then []
    else
      var last := ledger[|ledger| - 1];
      Query(ledger[..|ledger| - 1], window)
        + (if ToSecond(window.start) <= last.time < ToSecond(window.end) then [last] else [])
  }

  lemma {:induction false} QueryMembers(ledger: seq<Entry>, window: Window, e: Entry)
    ensures e in Query(ledger, window) <==> e in ledger && ToSecond(window.start) <= e.time < ToSecond(window.end)
  {
    if ledger != [] {
      QueryMembers(ledger[..|ledger| - 1], window, e);
      assert ledger == ledger[..|ledger| - 1] + [ledger[|ledger| - 1]];
    }
  }

  /** A line timed at or after the end of a window does not change what the window returns. */
  lemma QueryStable(ledger: seq<Entry>, window: Window, e: Entry)
    requires e.time >= window.end
    ensures Query(ledger + [e], window) == Query(ledger, window)
  {
    assert (ledger + [e])[..|ledger|] == ledger;
  }

  // ---- The window check --------------------------------------------------------------------

  /** The check refuses an income line outside the window itself, whose bounds keep their milliseconds. */
  predicate Refused(e: Entry, window: Window) {
    e.income && !(window.start <= e.time < window.end)
  }

  /** The query for a window returns nothing that the check refuses. */
  ghost predicate Clear(ledger: seq<Entry>, window: Window) {
    forall e | e in Query(ledger, window) :: !Refused(e, window)
  }

  /** Of the lines a query returns, exactly those income lines are refused that fall into the part cut off its start. */
  lemma RefusedExactly(ledger: seq<Entry>, window: Window, e: Entry)
    requires e in Query(ledger, window)
    ensures Refused(e, window) <==> e.income && ToSecond(window.start) <= e.time < window.start
  {
    QueryMembers(ledger, window, e);
  }

  /** A window that starts on a whole second refuses nothing it fetched. */
  lemma WholeSecondRefusesNothing(ledger: seq<Entry>, window: Window, e: Entry)
    requires e in Query(ledger, window) && window.start % SECOND == 0
    ensures !Refused(e, window)
  {
    RefusedExactly(ledger, window, e);
  }

  lemma ToSecondMonotone(a: int, b: int)
    requires a <= b
    ensures ToSecond(a) <= ToSecond(b) <= b
  {
  }
}
