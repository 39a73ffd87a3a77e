/** What an undisturbed run of the collector achieves: it reads five pages of its window, or finishes it. */
module CollectorProgress {
  import opened Wrappers
  import opened AccountLog
  import opened CollectorProtocol
  import opened CollectorCoverage

  /** Run `me` holds the lease, is at `phase`, and the stored position is the one it works on. */
  predicate At(s: State, me: nat, pos: Position, phase: Phase) {
    && me in s.runs && s.runs[me].phase == phase
    && s.row.Some? && s.row.value.pos == pos && HoldsLiveLease(s, me)
  }

  /** Time, ledger and the claims of the run are as they were. */
  predicate Still(s: State, t: State, me: nat) {
    t.now == s.now && t.ledger == s.ledger
    && me in s.runs && me in t.runs && t.runs[me].claimedAt == s.runs[me].claimedAt
    && t.runs[me].demandFrom == s.runs[me].demandFrom
  }

  /** Where a run starts reading: behind idle history, in a window of its own unless one is open. */
  function Opening(cfg: Settings, pos: Position, demandFrom: int, now: int): Position {
    if pos.window.Some? then pos
    else
      var cursor := if pos.cursorAt < demandFrom then demandFrom else pos.cursorAt;
      var window := CollectorWindow(cursor, now, cfg.overlap, cfg.lag);
      if window.end <= cursor then Position(cursor, None, pos.nextPage) else Position(cursor, Some(window), 1)
  }

  /** The position `n` pages further on, in a window of `total` entries. */
  function Reading(pos: Position, total: nat, n: nat): Position
    requires pos.window.Some?
  {
    if n > 0 && (pos.nextPage + n - 1) * PAGE_SIZE >= total then Position(pos.window.value.end, None, 1)
    else pos.(nextPage := pos.nextPage + n)
  }

  function Total(s: State, pos: Position): nat
    requires pos.window.Some?
  {
    |Query(s.ledger, pos.window.value)|
  }

  /** The gateway's answers are the pages of the window, in order, and hold nothing that the window check refuses. */
  ghost predicate AnswersInOrder(s: State, pos: Position, answers: nat -> Response) {
    pos.window.Some? ==>
      && Clear(s.ledger, pos.window.value)
      && forall k | 0 <= k < MAX_PAGES_PER_RUN ::
           Honest(answers(k), Query(s.ledger, pos.window.value), pos.nextPage + k, PAGE_SIZE)
  }

  /** Nothing else happens while the run is between two statements. */
  ghost predicate Undisturbed(others: nat -> seq<Step>) {
    forall i :: others(i) == []
  }

  function Stored(s: State): Position {
    if s.row.Some? then s.row.value.pos else Position(0, None, 1)
  }

  /** Run `me` is about to read the next page of the stored window. */
  predicate Reads(s: State, me: nat) {
    && me in s.runs && s.runs[me].phase.Ready? && s.runs[me].phase.current == Stored(s)
    && At(s, me, Stored(s), s.runs[me].phase) && Stored(s).window.Some? && Stored(s).nextPage >= 1
  }

  /** The gateway's answer is the next page of the stored window, and the window check refuses none of it. */
  ghost predicate Answered(s: State, answer: Response) {
    && Stored(s).window.Some? && Clear(s.ledger, Stored(s).window.value)
    && Honest(answer, Query(s.ledger, Stored(s).window.value), Stored(s).nextPage, PAGE_SIZE)
  }

  /** Run `me` is about to read its first page, and the gateway answers with the window's pages. */
  ghost predicate FirstRead(s: State, me: nat, answers: nat -> Response) {
    Reads(s, me) && s.runs[me].phase.steps == 0 && AnswersInOrder(s, Stored(s), answers)
  }

  /** Run `me` is writing the receipts of a page of the stored window. */
  predicate Writes(s: State, me: nat) {
    && me in s.runs && s.runs[me].phase.Ingesting? && s.runs[me].phase.current == Stored(s)
    && At(s, me, Stored(s), s.runs[me].phase) && Stored(s).window.Some?
    && s.runs[me].phase.done <= |s.runs[me].phase.page.records|
    && InsideWindow(s.runs[me].phase.page, Stored(s).window.value)
  }

  /** All receipts of the page are written, and nothing else moved. */
  predicate ReceiptsWritten(s: State, t: State, me: nat)
    requires Writes(s, me)
  {
    Still(s, t, me) && At(t, me, Stored(s), s.runs[me].phase.(done := |s.runs[me].phase.page.records|))
  }

  /** Run `me` holds the page it asked for, complete exactly if it is the last one, and has written none of it. */
  predicate HasFetched(s: State, me: nat, pos: Position, steps: nat) {
    && pos.window.Some? && pos.nextPage >= 1 && Writes(s, me)
    && At(s, me, pos, Ingesting(pos, steps, s.runs[me].phase.page, 0))
    && (s.runs[me].phase.page.complete <==> pos.nextPage * PAGE_SIZE >= Total(s, pos))
  }

  /** The page is committed. */
  predicate TurnsPage(s: State, t: State, me: nat, pos: Position, steps: nat)
    requires pos.window.Some?
  {
    var next := Reading(pos, Total(s, pos), 1);
    Still(s, t, me) && At(t, me, next, if next.window.None? then Leaving else Committed(steps + 1))
  }

  predicate PageTurned(s: State, t: State, me: nat)
    requires Reads(s, me)
  {
    TurnsPage(s, t, me, Stored(s), s.runs[me].phase.steps)
  }

  /** `n` pages are committed, and the run goes on unless the window or its turn is over. */
  predicate ReadSoFar(s: State, t: State, me: nat, n: nat)
    requires Reads(s, me)
  {
    var next := Reading(Stored(s), Total(s, Stored(s)), n);
    && Still(s, t, me)
    && At(t, me, next, if next.window.None? then Leaving else if n < MAX_PAGES_PER_RUN then Ready(next, n)
          else Committed(n))
  }

  /** Five pages are committed, or the window is done. */
  predicate PagesRead(s: State, t: State, me: nat)
    requires Reads(s, me)
  {
    && Still(s, t, me) && me in t.runs
    && At(t, me, Reading(Stored(s), Total(s, Stored(s)), MAX_PAGES_PER_RUN), t.runs[me].phase)
  }

  /** The window check refuses no record of the page. */
  predicate InsideWindow(page: Page, w: Window) {
    forall i | 0 <= i < |page.records| :: !Refused(page.records[i], w)
  }

  /** Where an undisturbed run for `demandFrom` leaves the position it found. */
  function Moved(cfg: Settings, s: State, found: Position, demandFrom: int, now: int): Position {
    var pos := Opening(cfg, found, demandFrom, now);
    if pos.window.None? then pos else Reading(pos, Total(s, pos), MAX_PAGES_PER_RUN)
  }

  /** The position a claim for `demandFrom` finds, or creates. */
  function Found(s: State, demandFrom: int): Position {
    if s.row.Some? then s.row.value.pos else Position(demandFrom, None, 1)
  }

  /** The collector is due and nobody holds its lease. */
  predicate Free(s: State) {
    s.row.Some? ==>
      s.row.value.nextRunAt <= s.now && (s.row.value.lockedUntil.Some? ==> s.row.value.lockedUntil.value <= s.now)
  }

  lemma ClaimProceeds(cfg: Settings, s: State, demandFrom: int)
    requires EarliestDemand(cfg, s, demandFrom) && s.nextOwner !in s.runs
    ensures var t := Apply(cfg, s, Claim(demandFrom));
            && t.now == s.now && t.ledger == s.ledger
            && (Free(s) <==> s.nextOwner in t.runs)
            && (!Free(s) && s.row.Some? ==> t == s)
            && (Free(s) ==>
                At(t, s.nextOwner, Found(s, demandFrom), Claimed)
                  && t.runs[s.nextOwner] == Run(s.now, demandFrom, Claimed))
  {
  }

  /** Leaving keeps the position. */
  lemma LeavingKeeps(cfg: Settings, s: State, me: nat, pollAt: int)
    requires me in s.runs && s.row.Some?
    ensures Apply(cfg, s, Stop(me)).row == s.row
    ensures Apply(cfg, s, Stop(me)).ledger == Apply(cfg, s, Release(me)).ledger
            == Apply(cfg, s, Pace(me, pollAt)).ledger == s.ledger
    ensures Apply(cfg, s, Release(me)).row.Some? && Apply(cfg, s, Release(me)).row.value.pos == s.row.value.pos
    ensures Apply(cfg, s, Pace(me, pollAt)).row.Some?
            && Apply(cfg, s, Pace(me, pollAt)).row.value.pos == s.row.value.pos
  {
  }

  // ---- Statement by statement --------------------------------------------------------------

  lemma LoadProceeds(cfg: Settings, s: State, me: nat, pos: Position)
    requires At(s, me, pos, Claimed)
    ensures var t := Apply(cfg, s, Load(me));
            At(t, me, pos, if pos.window.Some? then Ready(pos, 0) else Loaded(pos)) && Still(s, t, me)
  {
  }

  lemma SkipProceeds(cfg: Settings, s: State, me: nat, pos: Position)
    requires At(s, me, pos, Loaded(pos)) && pos.cursorAt < s.runs[me].demandFrom
    ensures var t, skipped := Apply(cfg, s, SkipIdle(me)), pos.(cursorAt := s.runs[me].demandFrom);
            At(t, me, skipped, Loaded(skipped)) && Still(s, t, me)
  {
  }

  lemma PlanProceeds(cfg: Settings, s: State, me: nat, pos: Position)
    requires At(s, me, pos, Loaded(pos)) && pos.window.None? && pos.cursorAt >= s.runs[me].demandFrom
    ensures var t, planned := Apply(cfg, s, Plan(me)), Opening(cfg, pos, s.runs[me].demandFrom, s.runs[me].claimedAt);
            At(t, me, planned, if planned.window.Some? then Opened else Leaving) && Still(s, t, me)
  {
  }

  lemma RereadProceeds(cfg: Settings, s: State, me: nat, pos: Position)
    requires At(s, me, pos, Opened)
    ensures var t := Apply(cfg, s, Reload(me)); At(t, me, pos, Ready(pos, 0)) && Still(s, t, me)
  {
  }

  lemma RenewProceeds(cfg: Settings, s: State, me: nat, pos: Position, steps: nat)
    requires At(s, me, pos, Ready(pos, steps))
    ensures var t := Apply(cfg, s, Renew(me)); At(t, me, pos, Fetching(pos, steps)) && Still(s, t, me)
  {
  }

  lemma FetchProceeds(cfg: Settings, s: State, me: nat, pos: Position, steps: nat, answer: Response)
    requires At(s, me, pos, Fetching(pos, steps)) && pos.window.Some? && pos.nextPage >= 1
    requires Honest(answer, Query(s.ledger, pos.window.value), pos.nextPage, PAGE_SIZE)
    ensures var t, list := Apply(cfg, s, Fetch(me, answer)), Query(s.ledger, pos.window.value);
            var page := Page(PageOf(list, pos.nextPage, PAGE_SIZE), pos.nextPage * PAGE_SIZE >= |list|);
            At(t, me, pos, Ingesting(pos, steps, page, 0)) && Still(s, t, me)
  {
    hide Honest, AccountLogPage, PageOf, Query;
    HonestPageAccepted(answer, Query(s.ledger, pos.window.value), pos.nextPage, PAGE_SIZE);
  }

  lemma PageInside(ledger: seq<Entry>, w: Window, pageNo: nat, complete: bool)
    requires pageNo >= 1 && Clear(ledger, w)
    ensures InsideWindow(Page(PageOf(Query(ledger, w), pageNo, PAGE_SIZE), complete), w)
  {
    hide Query, Refused;
    var page := PageOf(Query(ledger, w), pageNo, PAGE_SIZE);
    forall i | 0 <= i < |page| ensures !Refused(page[i], w) {
      assert page[i] in Query(ledger, w);
    }
  }

  lemma IngestProceeds(cfg: Settings, s: State, me: nat, pos: Position, steps: nat, page: Page, done: nat)
    requires At(s, me, pos, Ingesting(pos, steps, page, done)) && pos.window.Some?
    requires InsideWindow(page, pos.window.value) && done < |page.records|
    ensures var t := Apply(cfg, s, Ingest(me)); At(t, me, pos, Ingesting(pos, steps, page, done + 1)) && Still(s, t, me)
  {
  }

  lemma CommitProceeds(cfg: Settings, s: State, me: nat, pos: Position, steps: nat, page: Page)
    requires At(s, me, pos, Ingesting(pos, steps, page, |page.records|)) && pos.window.Some? && pos.nextPage >= 1
    requires page.complete <==> pos.nextPage * PAGE_SIZE >= Total(s, pos)
    ensures var t := Apply(cfg, s, Commit(me));
            At(t, me, Reading(pos, Total(s, pos), 1), if page.complete then Leaving else Committed(steps + 1))
              && Still(s, t, me)
  {
    hide Query;
  }

  lemma ReloadProceeds(cfg: Settings, s: State, me: nat, pos: Position, steps: nat)
    requires At(s, me, pos, Committed(steps)) && steps < MAX_PAGES_PER_RUN
    ensures var t := Apply(cfg, s, Reload(me)); At(t, me, pos, Ready(pos, steps)) && Still(s, t, me)
  {
  }

  // ---- Page by page ------------------------------------------------------------------------

  lemma ReadingAdvances(pos: Position, total: nat, n: nat)
    requires pos.window.Some? && pos.nextPage >= 1
    ensures Reading(pos, total, 0) == pos
    ensures Reading(pos, total, n).window.Some? ==>
              && Reading(pos, total, n) == pos.(nextPage := pos.nextPage + n)
              && Reading(Reading(pos, total, n), total, 1) == Reading(pos, total, n + 1)
    ensures Reading(pos, total, n).window.None? ==> forall m | m >= n ::
              Reading(pos, total, m) == Reading(pos, total, n)
  {
  }

  /** In the middle of its pages a run is about to read the next one, and the next answer is that page. */
  lemma NextPage(s: State, t: State, me: nat, n: nat, answers: nat -> Response)
    requires Reads(s, me) && ReadSoFar(s, t, me, n) && n < MAX_PAGES_PER_RUN && t.runs[me].phase.Ready?
             && AnswersInOrder(s, Stored(s), answers)
    ensures Reads(t, me) && Total(t, Stored(t)) == Total(s, Stored(s)) && t.runs[me].phase.steps == n
    ensures Stored(t) == Reading(Stored(s), Total(s, Stored(s)), n)
    ensures Answered(t, answers(n))
  {
    hide Query, Honest;
    ReadingAdvances(Stored(s), Total(s, Stored(s)), n);
  }

  /** One more page is committed; the row is read again unless the run's turn or its window is over. */
  lemma OnePageMore(cfg: Settings, s: State, t: State, u: State, me: nat, n: nat)
    requires Reads(s, me) && ReadSoFar(s, t, me, n) && n < MAX_PAGES_PER_RUN && t.runs[me].phase.Ready?
    requires Reads(t, me) && PageTurned(t, u, me) && t.runs[me].phase.steps == n
    requires Total(t, Stored(t)) == Total(s, Stored(s)) && Stored(t) == Reading(Stored(s), Total(s, Stored(s)), n)
    ensures me in u.runs && (u.runs[me].phase.Committed? || u.runs[me].phase.Leaving?)
    ensures u.runs[me].phase.Leaving? ==> ReadSoFar(s, u, me, n + 1)
    ensures u.runs[me].phase.Committed? ==> ReadSoFar(s, Apply(cfg, u, Reload(me)), me, n + 1)
  {
    hide Query, Total;
    ReadingAdvances(Stored(s), Total(s, Stored(s)), n);
    if n + 1 < MAX_PAGES_PER_RUN && u.runs[me].phase.Committed? { ReloadProceeds(cfg, u, me, Stored(u), n + 1); }
  }

  /** Once no page is to be read any more, five pages are read or the window is done. */
  lemma ReadingEnds(s: State, t: State, me: nat, n: nat)
    requires Reads(s, me) && ReadSoFar(s, t, me, n) && n <= MAX_PAGES_PER_RUN
             && (n < MAX_PAGES_PER_RUN ==> !t.runs[me].phase.Ready?)
    ensures PagesRead(s, t, me)
  {
    hide Query, Total;
    ReadingAdvances(Stored(s), Total(s, Stored(s)), n);
  }

  lemma ReadingStarts(s: State, me: nat)
    requires Reads(s, me) && s.runs[me].phase.steps == 0
    ensures ReadSoFar(s, s, me, 0)
  {
    hide Query, Total;
    ReadingAdvances(Stored(s), Total(s, Stored(s)), 0);
  }

  // ---- Run by run --------------------------------------------------------------------------

  /** The position after `runs` undisturbed runs, for as long as the window is open. */
  function AfterRuns(pos: Position, total: nat, runs: nat): Position
    decreases runs
  {
    if runs == 0 || pos.window.None? then pos else AfterRuns(Reading(pos, total, MAX_PAGES_PER_RUN), total, runs - 1)
  }

  lemma {:induction false} OneRunMore(pos: Position, total: nat, runs: nat)
    requires pos.window.Some? && AfterRuns(pos, total, runs).window.Some?
    ensures AfterRuns(pos, total, runs + 1) == Reading(AfterRuns(pos, total, runs), total, MAX_PAGES_PER_RUN)
    decreases runs
  {
    var next := Reading(pos, total, MAX_PAGES_PER_RUN);
    if runs > 0 {
      OneRunMore(next, total, runs - 1);
    }
  }

  /** Time passes, lines appear, payments come and go, receipts are archived: whatever is no work of a collector run. */
  predicate IsWorld(step: Step) {
    Actor(step).None? && !step.Claim?
  }

  /** The world does not move the stored position, and adds nothing to a window that lies in the settled past. */
  lemma WorldLeavesWindow(cfg: Settings, s: State, step: Step)
    requires Inv(cfg, s) && IsWorld(step) && s.row.Some? && s.row.value.pos.window.Some?
    ensures var t, w := Apply(cfg, s, step), s.row.value.pos.window.value;
            t.row.Some? && t.row.value.pos == s.row.value.pos && Query(t.ledger, w) == Query(s.ledger, w)
  {
    if step.LedgerLine? && step.entry.time >= s.now - Lag(cfg) {
      QueryStable(s.ledger, s.row.value.pos.window.value, step.entry);
    }
  }

  /** Runs of five pages finish a window once they have read as many entries as it holds, and not before. */
  lemma {:induction false} WindowFinishes(pos: Position, total: nat, runs: nat)
    requires pos.window.Some? && pos.nextPage >= 1 && runs >= 1
    ensures AfterRuns(pos, total, runs)
         == if (pos.nextPage - 1 + runs * MAX_PAGES_PER_RUN) * PAGE_SIZE >= total
            then Position(pos.window.value.end, None, 1) else pos.(nextPage := pos.nextPage + runs * MAX_PAGES_PER_RUN)
    decreases runs
  {
    var next := Reading(pos, total, MAX_PAGES_PER_RUN);
    if runs > 1 && next.window.Some? {
      WindowFinishes(next, total, runs - 1);
    }
  }
}
