/** Coverage of the ledger and the lease discipline, over every interleaving of collector runs. */
module CollectorCoverage {
  import opened Wrappers
  import opened AccountLog
  import opened CollectorProtocol

  // ---- The promise -------------------------------------------------------------------------

  /**
   Every income line a demanded payment could be matched with, up to the second of the cursor, has a receipt row, or
   had one that an archive removed.
   */
  ghost predicate Covered(cfg: Settings, s: State) {
    s.row.Some? ==>
      forall no, e | no in s.demands && e in s.ledger ::
        (Demanded(cfg, s.now, s.demands[no]) && e.income
         && s.demands[no].validFrom <= e.time < ToSecond(s.row.value.pos.cursorAt))
        ==> e.tradeNo in Seen(s)
  }

  // ---- The invariant behind it -------------------------------------------------------------

  /** The first lines of a list are taken in: none of their income lines was refused, and each got its receipt. */
  ghost predicate Written(list: seq<Entry>, upTo: int, w: Window, seen: set<string>) {
    forall i | 0 <= i < upTo && i < |list| :: !Refused(list[i], w) && (list[i].income ==> list[i].tradeNo in seen)
  }

  /** Nothing still to come from the gateway can fall before the cursor and matter to a payment. */
  ghost predicate Settled(cfg: Settings, s: State, cursorAt: int) {
    || cursorAt <= s.now - Lag(cfg)
    || forall no | no in s.demands && Demanded(cfg, s.now, s.demands[no]) :: cursorAt <= s.demands[no].validFrom
  }

  /** An open window straddles the cursor, lies in the settled past, and its earlier pages are written. */
  ghost predicate PositionOk(cfg: Settings, s: State, pos: Position) {
    && pos.cursorAt <= s.now
    && pos.nextPage >= 1
    && Settled(cfg, s, pos.cursorAt)
    && (pos.window.Some? ==>
          var w := pos.window.value;
          && w.start <= pos.cursorAt < w.end <= s.now - Lag(cfg)
          && Written(Query(s.ledger, w), (pos.nextPage - 1) * PAGE_SIZE, w, Seen(s)))
  }

  /** What a run remembers agrees with the stored row for as long as it is the lease owner. */
  ghost predicate Remembers(s: State, pos: Position, phase: Phase) {
    match phase
    case Loaded(current) => current == pos && pos.window.None?
    case Ready(current, _) => current == pos && pos.window.Some?
    case Fetching(current, _) => current == pos && pos.window.Some?
    case Ingesting(current, _, page, done) =>
      && current == pos && pos.window.Some? && pos.nextPage >= 1
      && var list := Query(s.ledger, pos.window.value);
         && page == Page(PageOf(list, pos.nextPage, PAGE_SIZE), pos.nextPage * PAGE_SIZE >= |list|)
         && done <= |page.records|
         && Written(page.records, done, pos.window.value, Seen(s))
    case Opened => pos.window.Some?
    case Committed(_) => pos.window.Some?
    case _ => true
  }

  ghost predicate RunOk(cfg: Settings, s: State, owner: nat) {
    owner in s.runs ==>
      && owner < s.nextOwner
      && s.row.Some?
      && s.runs[owner].demandFrom <= s.runs[owner].claimedAt <= s.now
      && (forall no | no in s.demands && Demanded(cfg, s.now, s.demands[no]) ::
          s.runs[owner].demandFrom <= s.demands[no].validFrom)
      && (Owns(s, owner) ==> Remembers(s, s.row.value.pos, s.runs[owner].phase))
  }

  ghost predicate Inv(cfg: Settings, s: State) {
    && (forall no | no in s.demands :: s.demands[no].validFrom <= s.now)
    && (s.row.Some? ==> PositionOk(cfg, s, s.row.value.pos))
    && (s.row.Some? && s.row.value.leaseOwner.Some? ==> s.row.value.leaseOwner.value < s.nextOwner)
    && (forall o | o in s.runs :: RunOk(cfg, s, o))
    && Covered(cfg, s)
  }

  lemma InitialInv(cfg: Settings, s: State)
    requires Initial(s)
    ensures Inv(cfg, s)
  {
  }

  // ---- The world keeps it ------------------------------------------------------------------

  lemma TickKeeps(cfg: Settings, s: State, d: nat)
    requires Inv(cfg, s)
    ensures Inv(cfg, s.(now := s.now + d))
  {
    var t := s.(now := s.now + d);
    assert forall x: Demand :: Demanded(cfg, t.now, x) && x.validFrom <= s.now ==> Demanded(cfg, s.now, x);
    forall o | o in t.runs ensures RunOk(cfg, t, o) { assert RunOk(cfg, s, o); }
  }

  lemma LedgerLineKeeps(cfg: Settings, s: State, e: Entry)
    requires Inv(cfg, s)
    ensures Inv(cfg, AfterLedgerLine(cfg, s, e))
  {
    var t := AfterLedgerLine(cfg, s, e);
    if t != s {
      if s.row.Some? && s.row.value.pos.window.Some? {
        QueryStable(s.ledger, s.row.value.pos.window.value, e);
      }
      forall o | o in t.runs ensures RunOk(cfg, t, o) { assert RunOk(cfg, s, o); }
    }
  }

  lemma DemandsKeep(cfg: Settings, s: State, demands: map<string, Demand>)
    requires Inv(cfg, s)
    requires forall no | no in demands ::
      || (no in s.demands && demands[no].(paid := s.demands[no].paid) == s.demands[no]
          && (s.demands[no].paid ==> demands[no].paid))
      || demands[no].validFrom == s.now
    ensures Inv(cfg, s.(demands := demands))
  {
    var t := s.(demands := demands);
    forall no | no in demands && Demanded(cfg, s.now, demands[no])
      ensures demands[no].validFrom == s.now
              || (no in s.demands && Demanded(cfg, s.now, s.demands[no])
                  && s.demands[no].validFrom == demands[no].validFrom)
    {
    }
    forall o | o in t.runs ensures RunOk(cfg, t, o) { assert RunOk(cfg, s, o); }
  }

  lemma EraseKeeps(cfg: Settings, s: State, tradeNo: string)
    requires Inv(cfg, s)
    ensures Inv(cfg, AfterErase(s, tradeNo))
  {
    var t := AfterErase(s, tradeNo);
    assert Seen(t) == Seen(s);
    forall o | o in t.runs ensures RunOk(cfg, t, o) { assert RunOk(cfg, s, o); }
  }

  lemma WorldKeeps(cfg: Settings, s: State, step: Step)
    requires Inv(cfg, s)
    requires step.Tick? || step.LedgerLine? || step.NewPayment? || step.Paid? || step.Dropped? || step.Wake?
             || step.Erase?
    ensures Inv(cfg, Apply(cfg, s, step))
  {
    hide Inv;
    match step
    case Tick(d) => TickKeeps(cfg, s, d);
    case LedgerLine(e) => LedgerLineKeeps(cfg, s, e);
    case NewPayment(no, validUntil) =>
      var demands := AfterNewPayment(s, no, validUntil).demands;
      DemandsKeep(cfg, s, demands);
      assert s.(demands := demands) == AfterNewPayment(s, no, validUntil);
    case Paid(no) =>
      var demands := AfterPaid(s, no).demands;
      DemandsKeep(cfg, s, demands);
      assert s.(demands := demands) == AfterPaid(s, no);
    case Dropped(no) => DemandsKeep(cfg, s, s.demands - {no});
    case Wake =>
      if s.row.Some? { LeaseKeeps(cfg, s, s.row.value.(nextRunAt := s.now)); }
    case Erase(tradeNo) => EraseKeeps(cfg, s, tradeNo);
  }

  // ---- A run keeps it ----------------------------------------------------------------------

  lemma ClaimKeeps(cfg: Settings, s: State, demandFrom: int)
    requires Inv(cfg, s)
    ensures Inv(cfg, AfterClaim(cfg, s, demandFrom))
  {
    var t := AfterClaim(cfg, s, demandFrom);
    forall o | o in t.runs ensures RunOk(cfg, t, o) { assert o in s.runs ==> RunOk(cfg, s, o); }
  }

  /** A step that only moves one run's memory, leaving everything stored as it was. */
  lemma EnterKeeps(cfg: Settings, s: State, owner: nat, phase: Phase)
    requires Inv(cfg, s) && owner in s.runs
    requires Owns(s, owner) ==> Remembers(s, s.row.value.pos, phase)
    ensures Inv(cfg, Enter(s, owner, phase))
  {
    var t := Enter(s, owner, phase);
    assert RunOk(cfg, s, owner);
    forall o | o in t.runs ensures RunOk(cfg, t, o) { assert RunOk(cfg, s, o); }
  }

  /** A step by which the owner moves the stored position. */
  lemma MoveKeeps(cfg: Settings, s: State, owner: nat, pos: Position, phase: Phase)
    requires Inv(cfg, s) && owner in s.runs && Owns(s, owner)
    requires PositionOk(cfg, s, pos) && Remembers(s, pos, phase)
    requires Covered(cfg, s.(row := Some(s.row.value.(pos := pos))))
    ensures Inv(cfg, Enter(s.(row := Some(s.row.value.(pos := pos))), owner, phase))
  {
    var t := Enter(s.(row := Some(s.row.value.(pos := pos))), owner, phase);
    assert RunOk(cfg, s, owner);
    forall o | o in t.runs ensures RunOk(cfg, t, o) { assert RunOk(cfg, s, o); }
  }

  lemma SkipIdleKeeps(cfg: Settings, s: State, owner: nat)
    requires Inv(cfg, s) && owner in s.runs
    ensures Inv(cfg, AfterSkipIdle(s, owner))
  {
    var run := s.runs[owner];
    assert RunOk(cfg, s, owner);
    if run.phase.Loaded? && run.phase.current.cursorAt < run.demandFrom {
      var pos := run.phase.current.(cursorAt := run.demandFrom);
      if Owns(s, owner) {
        MoveKeeps(cfg, s, owner, pos, Loaded(pos));
      } else {
        EnterKeeps(cfg, s, owner, Loaded(pos));
      }
    }
  }

  lemma PlanKeeps(cfg: Settings, s: State, owner: nat)
    requires Inv(cfg, s) && owner in s.runs
    ensures Inv(cfg, AfterPlan(cfg, s, owner))
  {
    var run := s.runs[owner];
    assert RunOk(cfg, s, owner);
    if run.phase.Loaded? && run.phase.current.cursorAt >= run.demandFrom {
      var window := CollectorWindow(run.phase.current.cursorAt, run.claimedAt, cfg.overlap, cfg.lag);
      if window.end <= run.phase.current.cursorAt {
        EnterKeeps(cfg, s, owner, Leaving);
      } else if Owns(s, owner) {
        MoveKeeps(cfg, s, owner, s.row.value.pos.(window := Some(window), nextPage := 1), Opened);
      } else {
        EnterKeeps(cfg, s, owner, Opened);
      }
    }
  }

  lemma LoadKeeps(cfg: Settings, s: State, owner: nat)
    requires Inv(cfg, s) && owner in s.runs
    ensures Inv(cfg, AfterLoad(s, owner))
    ensures Inv(cfg, AfterReload(s, owner))
  {
    assert RunOk(cfg, s, owner);
    var phase := s.runs[owner].phase;
    var pos := s.row.value.pos;
    if phase.Claimed? {
      EnterKeeps(cfg, s, owner, if pos.window.Some? then Ready(pos, 0) else Loaded(pos));
    }
    if phase.Opened? {
      EnterKeeps(cfg, s, owner, Ready(pos, 0));
    }
    if phase.Committed? {
      EnterKeeps(cfg, s, owner, Ready(pos, phase.steps));
    }
  }

  /** Lease and pacing columns are no part of the position. */
  lemma LeaseKeeps(cfg: Settings, s: State, row: Row)
    requires Inv(cfg, s) && s.row.Some? && row.pos == s.row.value.pos
    requires row.leaseOwner == None || row.leaseOwner == s.row.value.leaseOwner
    ensures Inv(cfg, s.(row := Some(row)))
  {
    var t := s.(row := Some(row));
    forall o | o in t.runs ensures RunOk(cfg, t, o) { assert RunOk(cfg, s, o); }
  }

  lemma RunIsOk(cfg: Settings, s: State, owner: nat)
    requires Inv(cfg, s) && owner in s.runs
    ensures RunOk(cfg, s, owner)
  {
  }

  lemma PositionIsOk(cfg: Settings, s: State)
    requires Inv(cfg, s)
    ensures Covered(cfg, s) && (s.row.Some? ==> PositionOk(cfg, s, s.row.value.pos))
  {
  }

  lemma RenewKeeps(cfg: Settings, s: State, owner: nat)
    requires Inv(cfg, s) && owner in s.runs
    ensures Inv(cfg, AfterRenew(s, owner))
  {
    hide Inv;
    RunIsOk(cfg, s, owner);
    var phase := s.runs[owner].phase;
    if phase.Ready? {
      if HoldsLiveLease(s, owner) {
        var renewed := s.row.value.(lockedUntil := Some(s.now + LEASE));
        LeaseKeeps(cfg, s, renewed);
        EnterKeeps(cfg, s.(row := Some(renewed)), owner, Fetching(phase.current, phase.steps));
      } else {
        EnterKeeps(cfg, s, owner, Leaving);
      }
    }
  }

  lemma FetchKeeps(cfg: Settings, s: State, owner: nat, response: Response)
    requires Inv(cfg, s) && owner in s.runs
    ensures Inv(cfg, AfterFetch(s, owner, response))
  {
    assert RunOk(cfg, s, owner);
    var phase := s.runs[owner].phase;
    if phase.Fetching? {
      var answer := AccountLogPage(response, phase.current.nextPage, PAGE_SIZE);
      if answer.Err? || phase.current.window.None? {
        EnterKeeps(cfg, s, owner, Leaving);
      } else {
        var list := Query(s.ledger, phase.current.window.value);
        if Honest(response, list, phase.current.nextPage, PAGE_SIZE) {
          HonestPageAccepted(response, list, phase.current.nextPage, PAGE_SIZE);
          EnterKeeps(cfg, s, owner, Ingesting(phase.current, phase.steps, answer.value, 0));
        }
      }
    }
  }

  lemma ReceiptKeeps(cfg: Settings, s: State, tradeNo: string)
    requires Inv(cfg, s)
    ensures Inv(cfg, s.(receipts := s.receipts + {tradeNo}))
  {
    var t := s.(receipts := s.receipts + {tradeNo});
    assert Seen(s) <= Seen(t);
    forall o | o in t.runs ensures RunOk(cfg, t, o) { assert RunOk(cfg, s, o); }
  }

  lemma RecordDone(cfg: Settings, s: State, owner: nat)
    requires Inv(cfg, s) && owner in s.runs && s.runs[owner].phase.Ingesting?
    requires s.runs[owner].phase.done < |s.runs[owner].phase.page.records|
    requires s.runs[owner].phase.current.window.Some?
    requires var e := s.runs[owner].phase.page.records[s.runs[owner].phase.done];
             !Refused(e, s.runs[owner].phase.current.window.value) && (e.income ==> e.tradeNo in Seen(s))
    ensures Inv(cfg, Enter(s, owner, s.runs[owner].phase.(done := s.runs[owner].phase.done + 1)))
  {
    hide Inv, PositionOk, Covered, Demanded, Query, PageOf, Refused;
    var phase := s.runs[owner].phase;
    RunIsOk(cfg, s, owner);
    EnterKeeps(cfg, s, owner, phase.(done := phase.done + 1));
  }

  lemma IngestKeeps(cfg: Settings, s: State, owner: nat)
    requires Inv(cfg, s) && owner in s.runs
    ensures Inv(cfg, AfterIngest(s, owner))
  {
    hide Inv;
    var phase := s.runs[owner].phase;
    if phase.Ingesting? && phase.done < |phase.page.records| && phase.current.window.Some? {
      var e := phase.page.records[phase.done];
      var w := phase.current.window.value;
      if Refused(e, w) {
        EnterKeeps(cfg, s, owner, Leaving);
      } else if e.income {
        ReceiptKeeps(cfg, s, e.tradeNo);
        RecordDone(cfg, s.(receipts := s.receipts + {e.tradeNo}), owner);
      } else {
        RecordDone(cfg, s, owner);
      }
    }
  }

  /** A page written on top of the earlier pages reaches one page further. */
  lemma WrittenExtends(list: seq<Entry>, pageNo: nat, w: Window, seen: set<string>)
    requires pageNo >= 1
    requires Written(list, (pageNo - 1) * PAGE_SIZE, w, seen)
    requires Written(PageOf(list, pageNo, PAGE_SIZE), |PageOf(list, pageNo, PAGE_SIZE)|, w, seen)
    ensures Written(list, pageNo * PAGE_SIZE, w, seen)
  {
    var start := (pageNo - 1) * PAGE_SIZE;
    forall i | 0 <= i < pageNo * PAGE_SIZE && i < |list|
      ensures !Refused(list[i], w) && (list[i].income ==> list[i].tradeNo in seen)
    {
      if i >= start {
        assert PageOf(list, pageNo, PAGE_SIZE)[i - start] == list[i];
      }
    }
  }

  /** Once a whole window is written, the cursor may move to its end. */
  lemma WindowEndCovered(cfg: Settings, s: State, w: Window)
    requires Inv(cfg, s) && s.row.Some? && s.row.value.pos.window == Some(w)
    requires Written(Query(s.ledger, w), |Query(s.ledger, w)|, w, Seen(s))
    ensures Covered(cfg, s.(row := Some(s.row.value.(pos := Position(w.end, None, 1)))))
  {
    forall no, e | no in s.demands && e in s.ledger && Demanded(cfg, s.now, s.demands[no]) && e.income
                   && s.demands[no].validFrom <= e.time < ToSecond(w.end)
      ensures e.tradeNo in Seen(s)
    {
      if e.time >= ToSecond(s.row.value.pos.cursorAt) {
        ToSecondMonotone(w.start, s.row.value.pos.cursorAt);
        QueryMembers(s.ledger, w, e);
      }
    }
  }

  /** The owner, its page written, finds all pages up to its own written. */
  lemma PageWritten(cfg: Settings, s: State, owner: nat)
    requires Inv(cfg, s) && owner in s.runs && Owns(s, owner)
    requires s.runs[owner].phase.Ingesting? && s.runs[owner].phase.done >= |s.runs[owner].phase.page.records|
    ensures var phase, pos := s.runs[owner].phase, s.row.value.pos;
            && phase.current == pos && pos.window.Some? && pos.nextPage >= 1
            && Written(Query(s.ledger, pos.window.value), pos.nextPage * PAGE_SIZE, pos.window.value, Seen(s))
            && (phase.page.complete ==> pos.nextPage * PAGE_SIZE >= |Query(s.ledger, pos.window.value)|)
  {
    assert RunOk(cfg, s, owner);
    var pos := s.row.value.pos;
    WrittenExtends(Query(s.ledger, pos.window.value), pos.nextPage, pos.window.value, Seen(s));
  }

  lemma CommitKeeps(cfg: Settings, s: State, owner: nat)
    requires Inv(cfg, s) && owner in s.runs
    ensures Inv(cfg, AfterCommit(s, owner))
  {
    hide Inv;
    PositionIsOk(cfg, s);
    var phase := s.runs[owner].phase;
    if phase.Ingesting? && phase.done >= |phase.page.records| && phase.current.window.Some? {
      if !HoldsLiveLease(s, owner) {
        EnterKeeps(cfg, s, owner, Leaving);
      } else {
        PageWritten(cfg, s, owner);
        if phase.page.complete {
          WindowEndCovered(cfg, s, phase.current.window.value);
          MoveKeeps(cfg, s, owner, Position(phase.current.window.value.end, None, 1), Leaving);
        } else {
          MoveKeeps(cfg, s, owner, phase.current.(nextPage := phase.current.nextPage + 1), Committed(phase.steps + 1));
        }
      }
    }
  }

  lemma LeaveKeeps(cfg: Settings, s: State, owner: nat, at: int)
    requires Inv(cfg, s) && owner in s.runs
    ensures Inv(cfg, Enter(s, owner, Leaving))
    ensures Inv(cfg, AfterFail(s, owner, at))
    ensures Inv(cfg, AfterRelease(s, owner))
    ensures Inv(cfg, AfterPace(s, owner, at))
    ensures Inv(cfg, s.(runs := s.runs - {owner}))
  {
    hide Inv;
    RunIsOk(cfg, s, owner);
    EnterKeeps(cfg, s, owner, Leaving);
    if Owns(s, owner) {
      LeaseKeeps(cfg, s, s.row.value.(nextRunAt := at));
      EnterKeeps(cfg, s.(row := Some(s.row.value.(nextRunAt := at))), owner, Leaving);
    }
    ForgetKeeps(cfg, s, owner);
    var freed := if Owns(s, owner) then s.(row := Some(s.row.value.(leaseOwner := None, lockedUntil := None))) else s;
    LeaseKeeps(cfg, s, freed.row.value);
    EnterKeeps(cfg, freed, owner, Pacing);
    LeaseKeeps(cfg, s, s.row.value.(nextRunAt := at));
    ForgetKeeps(cfg, s.(row := Some(s.row.value.(nextRunAt := at))), owner);
  }

  lemma ForgetKeeps(cfg: Settings, s: State, owner: nat)
    requires Inv(cfg, s)
    ensures Inv(cfg, s.(runs := s.runs - {owner}))
  {
    var t := s.(runs := s.runs - {owner});
    forall o | o in t.runs ensures RunOk(cfg, t, o) { assert RunOk(cfg, s, o); }
  }

  lemma StepKeeps(cfg: Settings, s: State, step: Step)
    requires Inv(cfg, s)
    ensures Inv(cfg, Apply(cfg, s, step))
  {
    hide Inv, AfterClaim, AfterLoad, AfterSkipIdle, AfterPlan, AfterReload, AfterRenew, AfterFetch, AfterIngest,
         AfterCommit, AfterFail, AfterRelease, AfterPace, Enter;
    if Actor(step).Some? && Actor(step).value !in s.runs {
    } else {
      match step
      case Claim(from) => ClaimKeeps(cfg, s, from);
      case Load(o) => LoadKeeps(cfg, s, o);
      case SkipIdle(o) => SkipIdleKeeps(cfg, s, o);
      case Plan(o) => PlanKeeps(cfg, s, o);
      case Reload(o) => LoadKeeps(cfg, s, o);
      case Renew(o) => RenewKeeps(cfg, s, o);
      case Fetch(o, r) => FetchKeeps(cfg, s, o, r);
      case Ingest(o) => IngestKeeps(cfg, s, o);
      case Commit(o) => CommitKeeps(cfg, s, o);
      case Stop(o) => LeaveKeeps(cfg, s, o, 0);
      case Fail(o, at) => LeaveKeeps(cfg, s, o, at);
      case Release(o) => LeaveKeeps(cfg, s, o, 0);
      case Pace(o, at) => LeaveKeeps(cfg, s, o, at);
      case Crash(o) => LeaveKeeps(cfg, s, o, 0);
      case _ => WorldKeeps(cfg, s, step);
    }
  }

  lemma {:induction false} ReplayKeeps(cfg: Settings, s: State, steps: seq<Step>)
    requires Inv(cfg, s)
    ensures Inv(cfg, Replay(cfg, s, steps))
  {
    if steps != [] {
      ReplayKeeps(cfg, s, steps[..|steps| - 1]);
      StepKeeps(cfg, Replay(cfg, s, steps[..|steps| - 1]), steps[|steps| - 1]);
    }
  }

  /**
   Coverage: in every reachable state, every income line timed between the start of a payment still in
   demand and the second of the cursor already got its receipt row, whatever was skipped, retried,
   interleaved or lost.
   */
  lemma LedgerCovered(cfg: Settings, s: State, steps: seq<Step>)
    requires Initial(s)
    ensures Covered(cfg, Replay(cfg, s, steps))
  {
    InitialInv(cfg, s);
    ReplayKeeps(cfg, s, steps);
  }
}
